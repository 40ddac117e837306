// The records the backend's memory keeps: knowledge items, actions, and
// the suggestions its searches return. Creation and update times are not
// part of this model.
module MemoryTypes {
  import opened Wrappers

  datatype MemoryKind = FileItem | UrlItem | TextItem | FolderItem | ImageItem

  /** The word a kind is stored and shown as. */
  function KindName(k: MemoryKind): string {
    match k
    case FileItem => "file"
    case UrlItem => "url"
    case TextItem => "text"
    case FolderItem => "folder"
    case ImageItem => "image"
  }

  lemma KindNameInjective(a: MemoryKind, b: MemoryKind)
    requires KindName(a) == KindName(b)
    ensures a == b
  {
  }

  /**
   * A knowledge item. Of the metadata only the file extension (present for
   * files) and the hidden flag are kept; the directory fields are left out.
   */
  datatype Memory = Memory(
    kind: MemoryKind,
    name: string,
    content: string,
    url: string,
    filePath: string,
    folderPath: string,
    tags: seq<string>,
    size: Option<nat>,
    description: Option<string>,
    extension: Option<string>,
    isHidden: bool)

  /** A memory item with the defaults of its record for every field not given. */
  function NewMemory(kind: MemoryKind, name: string, filePath: string, folderPath: string, size: Option<nat>, extension: Option<string>, isHidden: bool): (m: Memory)
    ensures m.kind == kind && m.name == name && m.filePath == filePath && m.folderPath == folderPath
    ensures m.size == size && m.extension == extension && m.isHidden == isHidden
    ensures m.content == "" && m.url == "" && m.tags == [] && m.description.None?
  {
    Memory(kind, name, "", "", filePath, folderPath, [], size, None, extension, isHidden)
  }

  datatype Action = Action(
    id: string,
    caption: string,
    description: Option<string>,
    command: string,
    category: string,
    tags: seq<string>)

  datatype SuggestionMeta =
    | ActionMeta(command: string, category: string, tags: seq<string>)
    | FileMeta(itemKind: MemoryKind, path: string, size: Option<nat>)

  datatype SuggestionKind = FileSuggestion | ActionSuggestion

  datatype Suggestion = Suggestion(
    id: string,
    caption: string,
    description: Option<string>,
    kind: SuggestionKind,
    metadata: SuggestionMeta)
}
