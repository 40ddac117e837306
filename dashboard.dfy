// The dashboard's summary cards: the language-model card's counts and
// service labels, and the knowledge-base card's counts by file type, icon
// choice and file viewer.
module Dashboard {
  import opened Wrappers
  import opened Strings
  import opened Lists
  import opened LlmSettings

  // ---------------------------------------------------------------------
  // LLMServiceCard

  datatype LlmStats = LlmStats(
    totalServices: nat,
    activeServices: nat,
    totalModels: nat,
    availableModels: nat,
    defaultModel: string)

  predicate ServiceUp(s: ServiceInfo) {
    s.available
  }

  predicate ModelUp(m: ModelInfo) {
    m.available
  }

  predicate IsDefault(m: ModelInfo) {
    m.isDefault
  }

  /** `find(...)?.name || 'None'`. */
  function DefaultModelName(models: seq<ModelInfo>): (name: string)
    ensures name != ""
    ensures (forall i :: 0 <= i < |models| ==> !models[i].isDefault) ==> name == "None"
    ensures name != "None" ==> exists i :: 0 <= i < |models| && models[i].isDefault && models[i].name == name
    ensures forall i :: 0 <= i < |models| && models[i].isDefault && (forall j :: 0 <= j < i ==> !models[j].isDefault) ==>
              name == (if models[i].name != "" then models[i].name else "None")
  {
    match FirstIndex(models, IsDefault)
    case None => "None"
    case Some(i) => if models[i].name != "" then models[i].name else "None"
  }

  /** The stats `fetchLLMData` computes from the service records (in `Object.values` order) and the model list. */
  function LlmStatsOf(services: seq<ServiceInfo>, models: seq<ModelInfo>): (r: LlmStats)
    ensures r.totalServices == |services| && r.totalModels == |models|
    ensures r.activeServices == Count(services, ServiceUp) <= r.totalServices
    ensures r.availableModels == Count(models, ModelUp) <= r.totalModels
    ensures r.defaultModel == DefaultModelName(models)
  {
    LlmStats(|services|, Count(services, ServiceUp), |models|, Count(models, ModelUp), DefaultModelName(models))
  }

  /** The active count is the full count exactly when every service is up. */
  lemma {:induction false} AllActive(services: seq<ServiceInfo>, models: seq<ModelInfo>)
    ensures LlmStatsOf(services, models).activeServices == |services| <==> forall i :: 0 <= i < |services| ==> services[i].available
    decreases |services|
  {
    if |services| > 0 {
      AllActive(services[1..], models);
      assert forall i :: 1 <= i < |services| ==> services[i] == services[1..][i - 1];
    }
  }

  /** The card calls a service online only when it is both available and reported online. */
  function CardStatusText(available: bool, status: string): (t: string) {
    if available && status == "online" then "Online"
    else if status == "configured" then "Configured"
    else if StartsWith(status, "error:") then "Error"
    else "Offline"
  }

  function CardStatusColor(available: bool, status: string): (c: string) {
    if available && status == "online" then "text-green-500"
    else if status == "configured" then "text-blue-500"
    else "text-red-500"
  }

  /**
   * The card's labels are the settings dialog's for an available service;
   * an unavailable one reported online reads "Offline" in red. Each label
   * comes with its colour.
   */
  lemma CardStatusAgrees(available: bool, status: string)
    ensures available ==> CardStatusText(available, status) == ServiceStatusText(status)
    ensures available ==> CardStatusColor(available, status) == ServiceStatusColor(status)
    ensures !available && status == "online" ==> CardStatusText(available, status) == "Offline"
    ensures !available && status == "online" ==> CardStatusColor(available, status) == "text-red-500"
    ensures CardStatusText(available, status) == "Online" <==> CardStatusColor(available, status) == "text-green-500"
    ensures CardStatusText(available, status) == "Configured" <==> CardStatusColor(available, status) == "text-blue-500"
  {
    if status == "online" {
      assert status[0] != "error:"[0];
    }
  }

  // ---------------------------------------------------------------------
  // KnowledgeBaseCard

  datatype FileItem = FileItem(
    id: string,
    caption: string,  // `label`
    description: string,
    name: Option<string>,
    path: Option<string>,
    kind: Option<string>)

  datatype KnowledgeStats = KnowledgeStats(totalFiles: nat, totalFolders: nat, totalImages: nat, recentUploads: nat)

  predicate IsPlainFile(f: FileItem) {
    f.kind == Some("file")
  }

  predicate IsFolder(f: FileItem) {
    f.kind == Some("folder") || f.kind == Some("directory")
  }

  predicate IsImage(f: FileItem) {
    f.kind == Some("image")
  }

  /** The counts of the `reduce`: one counter per kind, recent uploads never counted. */
  function KnowledgeStatsSpec(files: seq<FileItem>): KnowledgeStats {
    KnowledgeStats(Count(files, IsPlainFile), Count(files, IsFolder), Count(files, IsImage), 0)
  }

  /** The `reduce` in `fetchKnowledgeData`, counter by counter. */
  method KnowledgeStatsOf(files: seq<FileItem>) returns (stats: KnowledgeStats)
    ensures stats == KnowledgeStatsSpec(files)
  {
    stats := KnowledgeStats(0, 0, 0, 0);
    for i := 0 to |files|
      invariant stats == KnowledgeStatsSpec(files[..i])
    {
      var f := files[i];
      FilterAppend(files[..i], f, IsPlainFile);
      FilterAppend(files[..i], f, IsFolder);
      FilterAppend(files[..i], f, IsImage);
      assert files[..i + 1] == files[..i] + [f];
      if f.kind == Some("file") {
        stats := stats.(totalFiles := stats.totalFiles + 1);
      } else if f.kind == Some("folder") || f.kind == Some("directory") {
        stats := stats.(totalFolders := stats.totalFolders + 1);
      } else if f.kind == Some("image") {
        stats := stats.(totalImages := stats.totalImages + 1);
      }
    }
    assert files[..|files|] == files;
  }

  /** Each item raises at most one counter, so the three counts together never exceed the number of items. */
  lemma {:induction false} KnowledgeStatsBounded(files: seq<FileItem>)
    ensures var s := KnowledgeStatsSpec(files);
      s.totalFiles + s.totalFolders + s.totalImages <= |files| && s.recentUploads == 0
    decreases |files|
  {
    if |files| > 0 {
      KnowledgeStatsBounded(files[1..]);
    }
  }

  /** A list of known kinds only is counted in full. */
  lemma {:induction false} KnowledgeStatsExact(files: seq<FileItem>)
    requires forall i :: 0 <= i < |files| ==> files[i].kind in {Some("file"), Some("folder"), Some("directory"), Some("image")}
    ensures var s := KnowledgeStatsSpec(files);
      s.totalFiles + s.totalFolders + s.totalImages == |files|
    decreases |files|
  {
    if |files| > 0 {
      KnowledgeStatsExact(files[1..]);
    }
  }

  datatype FileIcon = FolderIcon | ImageIcon | DefaultFileIcon

  function FileIconOf(kind: Option<string>): (icon: FileIcon)
    ensures icon == FolderIcon <==> kind == Some("folder") || kind == Some("directory")
    ensures icon == ImageIcon <==> kind == Some("image")
  {
    if kind == Some("folder") || kind == Some("directory") then FolderIcon
    else if kind == Some("image") then ImageIcon
    else DefaultFileIcon
  }

  /** The icon follows the same classes as the counts: folder icon for folders, green icon for images. */
  lemma IconMatchesCount(f: FileItem)
    ensures FileIconOf(f.kind) == FolderIcon <==> IsFolder(f)
    ensures FileIconOf(f.kind) == ImageIcon <==> IsImage(f)
    ensures IsPlainFile(f) ==> FileIconOf(f.kind) == DefaultFileIcon
  {
  }

  /** `viewFile`: the content shown for the answer, or for a failed request (`None`). */
  function ViewedContent(answer: Option<Option<string>>): (text: string)
    ensures text != ""
    ensures answer.Some? && answer.value.Some? && answer.value.value != "" ==> text == answer.value.value
    ensures answer.None? ==> text == "Error loading file content"
  {
    match answer
    case None => "Error loading file content"
    case Some(content) => if content.Some? && content.value != "" then content.value else "No content available"
  }
}
