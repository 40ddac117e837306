# HyperHint chat assistant: a verified model of its deterministic core

HyperHint is a chat assistant with a Next.js front end and a FastAPI back end.
Users chat with a language model over server-sent events. They attach files and
pick actions with `@` and `/` triggers. The app also keeps a knowledge base of
files, a task list, an activity feed and a help page, and it lets users configure
several language-model services. Most of the repository is UI and I/O glue.
This project models the sequential, deterministic logic beneath it, in Dafny,
and proves what that logic promises.

One module per source file (shared helpers live in `wrappers.dfy`, `strings.dfy` and `lists.dfy`):

- `chat_stream.dfy` (`ChatStream`): the chat client's read loop. It keeps a line
  buffer, dispatches on event tags, routes fragments on `<think>` markers, and
  handles stop and transport failures. `textUtils.ts` becomes `text_utils.dfy` (`TextUtils`).
- `knowledge_sidebar.dfy`: the knowledge tree builder, the extension and language lookups, and folder toggling.
- `input_triggers.dfy`, `enhanced_input.dfy`, `autocomplete_input.dfy`: trigger
  detection, suggestion splicing, cyclic selection, upload screening, send and
  filename confirmation.
- `todos.dfy`, `activity.dfy`, `help.dfy`, `dashboard.dfy`, `navigation.dfy`,
  `llm_settings.dfy`, `api_routes.dfy`: the rules of the tasks, activity, help,
  dashboard, navigation and service-settings pages, and the two Next.js
  fallback routes.
- `actions.dfy`, `knowledge_files.dfy`, `llm.dfy`, `routes.dfy`, `sse.dfy`,
  `database.dfy`, `memory_types.dfy`: the back end's registries, routing,
  sanitisers, stream registry and SQL text builders.

Components whose state the source updates in place become classes. Examples are
`ChatStream.ChatSession`, `Todos.TasksPage`, `Llm.LLMManager` and `Sse.StreamRegistry`.
Their methods are proved against specification functions of the old state.
Pure helpers become functions with lemmas.

The model takes as parameters what it cannot see:
- JSON parsing, as a parse oracle;
- the network's answers, as `Option` values;
- clocks, as timestamps;
- service availability, as an oracle;
- a concurrent stop, as a `stopBefore` oracle;
- the filesystem, as a map from names to contents plus a directory tree; names are compared as strings, without path normalisation.

Two behaviours of the code that a reader may not expect:
- a `complete` event does not end the chat client's read loop (frontend/src/components/ChatInterface.tsx:220-225);
- visible text can still hold a second `<think>` or `</think>` marker, because only the first occurrence of each is removed (frontend/src/components/ChatInterface.tsx:191-199).

## Model

| member | source | states |
|---|---|---|
| TextUtils.NoTripleNewlineMeansNotContained | frontend/src/lib/textUtils.ts:77 | a text has no three consecutive newlines iff it does not contain "\n\n\n" |
| TextUtils.CollapseKeepsText | frontend/src/lib/textUtils.ts:77 | collapsing newline runs changes nothing but newlines |
| TextUtils.CollapseLeavesNoTriple | frontend/src/lib/textUtils.ts:77 | after collapsing no three newlines stand together |
| TextUtils.CollapseIdentity | frontend/src/lib/textUtils.ts:77 | a text without three consecutive newlines is left as it is |
| TextUtils.CollapseIdempotent | frontend/src/lib/textUtils.ts:77 | collapsing twice is collapsing once |
| TextUtils.Accumulate | frontend/src/lib/textUtils.ts:67-84 | an empty chunk leaves the text as it is; otherwise the result holds no "\n\n\n", loses nothing but newlines of the text plus the chunk, and is exactly the text plus the chunk when that already has no triple newline |
| TextUtils.CollapseFacts | frontend/src/lib/textUtils.ts:77 | the collapsed text holds no "\n\n\n", keeps everything but newlines, and equals the text when that had no triple newline |
| TextUtils.AfterLastFenceHasNoClose | frontend/src/lib/textUtils.ts:20-23 | the text from the last fence on never contains a newline followed by a fence, so the inner check always passes |
| TextUtils.CloseOpenFence | frontend/src/lib/textUtils.ts:16-26 | a closing fence is appended exactly when the text ends inside an open fence |
| TextUtils.BulletMask | frontend/src/lib/textUtils.ts:52 | one flag per line, and the last line is never followed by the extra blank line |
| TextUtils.NumberedMask | frontend/src/lib/textUtils.ts:53 | one flag per line, and the last line is never followed by the extra blank line |
| TextUtils.SpacingKeepsText | frontend/src/lib/textUtils.ts:52-53 | the two list-spacing rules add only whitespace |
| TextUtils.ProcessMarkdownContent | frontend/src/lib/textUtils.ts:10-59 | an empty text gives ""; otherwise the result is trimmed, keeps every non-whitespace character of the text in order, adds only the closing fence for a text ending inside an open fence, and then ends with a fence |
| TextUtils.PreparedFacts | frontend/src/lib/textUtils.ts:14-58 | the prepared text has no whitespace at either end, keeps the non-whitespace text and adds only a closing fence, with which it then ends |
| TextUtils.PreparedKeepsText | frontend/src/lib/textUtils.ts:14-58 | the prepared text's non-whitespace characters are those of the input, plus "```" when a fence was closed |
| TextUtils.BulletKeepsFence | frontend/src/lib/textUtils.ts:52 | the bullet rule keeps a final fence line |
| TextUtils.NumberedKeepsFence | frontend/src/lib/textUtils.ts:53 | the numbered rule keeps a final fence line |
| TextUtils.PreparedClosesFence | frontend/src/lib/textUtils.ts:19-56 | text ending inside an open fence comes out ending with a fence |
| TextUtils.SpacingKeepsFence | frontend/src/lib/textUtils.ts:52-53 | both list rules together keep a final fence line |
| TextUtils.RemoveTrailingFence | frontend/src/lib/textUtils.ts:95 | removing the trailing fence leaves a prefix of the text |
| TextUtils.Finalize | frontend/src/lib/textUtils.ts:91-104 | the final text is the text without a trailing fence, trimmed; it has no whitespace at either end, so the last newline rule has nothing left to change |
| TextUtils.RemoveAppendedFence | frontend/src/lib/textUtils.ts:95 | the rule removes exactly a fence appended on its own line |
| TextUtils.FinalizeRemovesTemporaryFence | frontend/src/lib/textUtils.ts:95-98 | finalising undoes the temporary closing fence that processMarkdownContent appends: the result is the trimmed text |
| TextUtils.FindFence | frontend/src/lib/textUtils.ts:113 | the lazy body ends at the first fence at or after the position, and there is none when no fence follows |
| TextUtils.MatchAt | frontend/src/lib/textUtils.ts:113 | a match takes at least seven characters and ends within the text |
| TextUtils.NextMatch | frontend/src/lib/textUtils.ts:116 | each exec finds the leftmost match at or after the last index, or reports that none is left |
| TextUtils.NoMatchNearEnd | frontend/src/lib/textUtils.ts:113 | no match starts fewer than seven characters before the end |
| TextUtils.ExtractCodeBlocks | frontend/src/lib/textUtils.ts:111-124 | the exec loop collects one block per successive leftmost match, left to right |
| TextUtils.BlocksFromStep | frontend/src/lib/textUtils.ts:116-121 | each exec call gives its block, followed by the blocks found after its end |
| TextUtils.MatchWellFormed | frontend/src/lib/textUtils.ts:118-119 | a found block has "text" or a word as language, and trimmed code |
| TextUtils.BlocksWellFormed | frontend/src/lib/textUtils.ts:111-124 | every extracted block has "text" or a word as language, and trimmed code |
| TextUtils.ClosingFence | frontend/src/lib/textUtils.ts:113 | after fence-free code the first fence is the one that closes it |
| TextUtils.SingleBlockMatch | frontend/src/lib/textUtils.ts:113 | a single fenced block with a word language and fence-free code is matched as that language and that code, up to the text's end |
| TextUtils.IsContentStreaming | frontend/src/lib/textUtils.ts:131-157 | the text looks unfinished iff it is non-empty and has an odd fence count, a table row that nothing completes, or a trailing '*' or backtick |
| TextUtils.SingleFenceIsOdd | frontend/src/lib/textUtils.ts:135-136 | a text with exactly one fence has an odd fence count |
| TextUtils.FenceCountNone | frontend/src/lib/textUtils.ts:135 | a text without fences has fence count zero |
| ChatStream.OrDefault | frontend/src/components/ChatInterface.tsx:234 | a present, non-empty message is shown, and a missing or empty one falls back to the default |
| ChatStream.SetAssistant | frontend/src/components/ChatInterface.tsx:211-217 | only the assistant message (every message with its id) gets the new content and thinking text; every other message is kept, and the list keeps its length |
| ChatStream.RouteFragmentMarkers | frontend/src/components/ChatInterface.tsx:191-199 | a fragment with an opening marker and no closing one enters the think block; a fragment without markers keeps the state and its text |
| ChatStream.PartialLine | frontend/src/components/ChatInterface.tsx:148-149 | the text kept in the buffer holds no newline |
| ChatStream.LinesAndRest | frontend/src/components/ChatInterface.tsx:147-149 | the complete lines, joined by newlines, followed by the kept rest give back the buffered text |
| ChatStream.ChatSession.constructor | frontend/src/components/ChatInterface.tsx:27-29 | the chat starts with no messages, not loading, no action active, no stream and an empty buffer |
| ChatStream.ChatSession.BeginSend | frontend/src/components/ChatInterface.tsx:35-70 | the action flag follows the selected action; an empty request (blank text, no attachments, no action) changes nothing else; otherwise the user message, with the first clock reading as id, and an empty assistant message, with the second clock reading + 1 as id, are appended and loading starts |
| ChatStream.ChatSession.OpenStream | frontend/src/components/ChatInterface.tsx:132-138 | the stream id is remembered and the loop's buffer, visible text, thinking flag and thinking text start empty |
| ChatStream.ChatSession.DispatchLine | frontend/src/components/ChatInterface.tsx:151-259 | one complete line is handled as HandleLine specifies, leaving the buffer alone |
| ChatStream.ChatSession.RouteMarkers | frontend/src/components/ChatInterface.tsx:189-199 | the two marker tests give the flag and the fragment RouteFragment specifies |
| ChatStream.ChatSession.ShowFragment | frontend/src/components/ChatInterface.tsx:201-209 | inside a think block the fragment joins the thinking text; outside it is accumulated into the visible text, and loading ends when the visible text was empty or an action banner |
| ChatStream.ChatSession.ContentFragment | frontend/src/components/ChatInterface.tsx:188-218 | the 'content' case updates the state as OnContent specifies |
| ChatStream.ChatSession.ProcessChunk | frontend/src/components/ChatInterface.tsx:146-259 | a chunk is appended to the buffer, every complete line is handled in order, and the partial last line stays in the buffer; lines seen and buffer still re-form everything received |
| ChatStream.ChatSession.ConnectionFailed | frontend/src/components/ChatInterface.tsx:263-276 | a failed connection clears loading, the action flag and the stream, and appends one system notice; the assistant message and its partial text stay |
| ChatStream.ChatSession.FallbackArrives | frontend/src/components/ChatInterface.tsx:279-288 | the delayed mock reply is appended as one assistant message, changing nothing else |
| ChatStream.ChatSession.StopGeneration | frontend/src/components/ChatInterface.tsx:295-315 | a stop request is posted only while a stream id is held; either way loading ends and the id is dropped, and nothing else changes |
| ChatStream.BookkeepingStep | frontend/src/components/ChatInterface.tsx:147-149 | after a chunk, the lines seen and the new buffer still join to everything received |
| ChatStream.JoinAfterPrefix | frontend/src/components/ChatInterface.tsx:147-149 | replacing the old buffer by pieces that join to buffer plus chunk extends the joined text by the chunk |
| ChatStream.RemoveLeadingMarker | frontend/src/components/ChatInterface.tsx:191-194 | a fragment starting with "<think>" loses exactly that marker |
| ChatStream.RemoveClosingMarker | frontend/src/components/ChatInterface.tsx:196-199 | a fragment holding "</think>" loses its first one |
| ChatStream.BothMarkersInOneFragment | frontend/src/components/ChatInterface.tsx:191-199 | a fragment that opens and closes a think block ends outside it, with all its text visible |
| ChatStream.ThinkingFragmentIsHidden | frontend/src/components/ChatInterface.tsx:201-202 | inside a think block the fragment goes to the thinking text only and the loading state is unchanged |
| ChatStream.VisibleFragment | frontend/src/components/ChatInterface.tsx:203-209 | outside a think block the fragment is accumulated into the visible text, leaving the thinking text, ending loading after nothing or an action banner, and never leaving a triple newline |
| ChatStream.ActionEventsOverwrite | frontend/src/components/ChatInterface.tsx:161-186 | 'action_start' replaces the visible text with its banner and 'action_complete' empties it and ends the action state |
| ChatStream.TerminalEventsAppendNotice | frontend/src/components/ChatInterface.tsx:227-255 | 'cancelled' and 'error' clear the flags and append exactly one system message, keeping every earlier message; an empty cancel message shows "Generation stopped by user." |
| ChatStream.HandleEvent | frontend/src/components/ChatInterface.tsx:155-256 | one decoded event keeps the assistant message id; 'cancelled' and 'error' add exactly one message and every other event keeps the number of messages; 'complete', 'cancelled' and 'error' end loading and the action state and drop the stream id, which every other event keeps; 'start', an unknown type and a content event without text change nothing |
| ChatStream.HandleLine | frontend/src/components/ChatInterface.tsx:151-258 | a line that does not start with "data: " changes nothing; any line keeps the assistant message id, never removes a message, and either keeps the stream id or drops it |
| ChatStream.HandleLines | frontend/src/components/ChatInterface.tsx:150-259 | the complete lines of a chunk keep the assistant message id, never lower the number of messages, and either keep the stream id or drop it |
| ChatStream.HandleLinesAppend | frontend/src/components/ChatInterface.tsx:151 | the lines of a chunk may be handled in two halves |
| ChatStream.CompleteDoesNotStop | frontend/src/components/ChatInterface.tsx:220-225 | 'complete' does not end the read loop: the later lines are still handled, from the settled state |
| ChatStream.IgnoredLinesChangeNothing | frontend/src/components/ChatInterface.tsx:152-259 | lines that are not "data: " lines, or whose payload does not decode, change nothing |
| ChatStream.HandleEventKeepsMessages | frontend/src/components/ChatInterface.tsx:157-255 | no event removes a message or changes the id or role of one |
| ChatStream.HandleLinesKeepsMessages | frontend/src/components/ChatInterface.tsx:151-259 | nothing the stream sends removes a message, so the assistant message survives a later transport failure |
| KnowledgeSidebar.PathOf | frontend/src/components/KnowledgeSidebar.tsx:103 | an item's path is its non-empty metadata path; without one it is the description with the "File: " or "Folder: " label removed |
| KnowledgeSidebar.Parts | frontend/src/components/KnowledgeSidebar.tsx:104 | the path's segments are all non-empty and none contains a slash |
| KnowledgeSidebar.PrefixStep | frontend/src/components/KnowledgeSidebar.tsx:110 | the running path after the first segment is that segment, and each later step appends "/" and the next segment to a non-empty path |
| KnowledgeSidebar.FileTree.constructor | frontend/src/components/KnowledgeSidebar.tsx:92-93 | the tree starts with an empty path map and an empty top-level list |
| KnowledgeSidebar.FileTree.Attach | frontend/src/components/KnowledgeSidebar.tsx:123-124 | a new node is stored under its path and pushed onto the current level's list: at the top level the top-level list gains exactly that path and every stored node is unchanged; below it the level's children list gains exactly that path, the top-level list is unchanged and every other stored node is unchanged |
| KnowledgeSidebar.FileTree.Segment | frontend/src/components/KnowledgeSidebar.tsx:109-133 | one segment extends the running path, adds exactly that path to the map, creates it as a file node only for the last segment of a non-directory item and as a folder otherwise, and leaves existing nodes' kinds and names unchanged |
| KnowledgeSidebar.FileTree.Insert | frontend/src/components/KnowledgeSidebar.tsx:102-134 | one item adds exactly the prefix paths of its path to the map; old nodes keep kind and name, and every file node is the full path of a non-directory item |
| KnowledgeSidebar.FileTree.InsertPath | frontend/src/components/KnowledgeSidebar.tsx:106-133 | the segment walk adds the path's prefixes, makes every new node a folder except the full path of a file, and never descends into a stale level when no file sits on a proper prefix |
| KnowledgeSidebar.FileTree.WalkSegment | frontend/src/components/KnowledgeSidebar.tsx:109-133 | one pass of the segment loop keeps the tree well formed and carries the walk's facts and the cursor (the running path and the current level) from `j` to `j + 1` segments |
| KnowledgeSidebar.WalkStep | frontend/src/components/KnowledgeSidebar.tsx:109-133 | the walk's facts after `j` segments and one more segment give its facts after `j + 1` segments |
| KnowledgeSidebar.AttachKeepsNodes | frontend/src/components/KnowledgeSidebar.tsx:123-124 | storing a node and pushing its path keeps every stored node well formed, with its children stored too |
| KnowledgeSidebar.AttachKeepsLinks | frontend/src/components/KnowledgeSidebar.tsx:116-124 | storing a node keeps the top level one-segment paths and every child's path its parent's path, a slash and its name |
| KnowledgeSidebar.AttachKeepsRoots | frontend/src/components/KnowledgeSidebar.tsx:116-124 | pushing a one-segment path at the top level keeps every one-segment path of the map on the top-level list |
| KnowledgeSidebar.AttachKeepsChildren | frontend/src/components/KnowledgeSidebar.tsx:123-133 | pushing a new path onto its parent's children keeps every node below the top level on its parent's children list |
| KnowledgeSidebar.NotEarlierPrefix | frontend/src/components/KnowledgeSidebar.tsx:110 | the full path of an item is none of the running paths before its last segment |
| KnowledgeSidebar.ReachedStep | frontend/src/components/KnowledgeSidebar.tsx:102-134 | one more item keeps every earlier file item that no item before it reached a file node, and adds the new item when it is such an item |
| KnowledgeSidebar.ProperPrefixDiffers | frontend/src/components/KnowledgeSidebar.tsx:110 | a proper prefix of a path is never the whole path, so an item reaches its own node only at its last segment |
| KnowledgeSidebar.BuildFileTree | frontend/src/components/KnowledgeSidebar.tsx:91-135 | over the items in the order given, the path map holds exactly the prefix paths of all items; file nodes are only the full paths of non-directory items, and the full path of a non-directory item that no earlier item reached is a file node; every one-segment path is on the top-level list; and when no file item sits on a proper prefix of another item's path every child extends its parent's path by its name and every node below the top level is on its parent's children list |
| KnowledgeSidebar.ToggleFolder | frontend/src/components/KnowledgeSidebar.tsx:280-289 | the folder is in the new set exactly when it was not in the old one, and every other folder keeps its membership |
| KnowledgeSidebar.ToggleFolderTwice | frontend/src/components/KnowledgeSidebar.tsx:280-289 | toggling the same folder twice restores the set |
| KnowledgeSidebar.GetFileExtension | frontend/src/components/KnowledgeSidebar.tsx:351-352 | the extension is the lower-cased text after the last dot (the whole name when there is none) and contains no dot |
| KnowledgeSidebar.GetLanguageFromExtension | frontend/src/components/KnowledgeSidebar.tsx:356-385 | a known extension gets its language from the table, and any other extension gets "text" |
| KnowledgeSidebar.LanguageOfFileName | frontend/src/components/KnowledgeSidebar.tsx:351-385 | a file name whose final suffix lower-cases to a known extension is highlighted with that extension's language |
| KnowledgeSidebar.Unescape | frontend/src/components/KnowledgeSidebar.tsx:249-253 | the five replacements never lengthen the text |
| KnowledgeSidebar.UnescapeWithoutBackslash | frontend/src/components/KnowledgeSidebar.tsx:249-253 | text without a backslash is left unchanged |
| KnowledgeSidebar.ParseFileContent | frontend/src/components/KnowledgeSidebar.tsx:242-266 | content that is not JSON, or that parses to a JSON string, is unescaped and so never grows beyond that text |
| KnowledgeSidebar.PlainContentUnchanged | frontend/src/components/KnowledgeSidebar.tsx:258-264 | content that is not JSON and has no backslash is shown exactly as stored |
| KnowledgeSidebar.EscapedBackslashBeforeN | frontend/src/components/KnowledgeSidebar.tsx:249-253 | because the replacements run in order with `\\n` first, an escaped backslash followed by `n` still turns into a backslash and a newline |
| InputTriggers.DetectTrigger | frontend/src/components/EnhancedInput.tsx:116-135 | a detected trigger sits before the cursor and its character is the trigger's symbol |
| InputTriggers.DetectTriggerSound | frontend/src/components/EnhancedInput.tsx:116-135 | a detected trigger has no '@', '/' or space between it and the cursor |
| InputTriggers.DetectTriggerComplete | frontend/src/components/EnhancedInput.tsx:116-135 | a trigger character with no '@', '/' or space after it up to the cursor is the trigger detected, at that position |
| InputTriggers.DetectTriggerIff | frontend/src/components/EnhancedInput.tsx:116-135 | the test reports trigger `t` at `p` exactly when the character at `p` is `t`'s symbol and no '@', '/' or space follows it before the cursor |
| InputTriggers.Query | frontend/src/components/EnhancedInput.tsx:138 | the query is as long as the text between the trigger and the cursor |
| InputTriggers.QueryIsOneWord | frontend/src/components/EnhancedInput.tsx:138 | the query of a detected trigger holds no '@', '/' or space |
| InputTriggers.NextIndex | frontend/src/components/EnhancedInput.tsx:161-164 | ArrowDown stays in range, moving to the next suggestion and from the last one back to the first |
| InputTriggers.PrevIndex | frontend/src/components/EnhancedInput.tsx:165-170 | ArrowUp stays in range, moving to the previous suggestion and from the first one to the last |
| InputTriggers.PrevUndoesNext | frontend/src/components/EnhancedInput.tsx:161-170 | ArrowUp after ArrowDown returns to the same suggestion |
| InputTriggers.NextUndoesPrev | frontend/src/components/EnhancedInput.tsx:161-170 | ArrowDown after ArrowUp returns to the same suggestion |
| EnhancedInput.InputChange | frontend/src/components/EnhancedInput.tsx:103-156 | typing keeps the composer valid: the suggestion list is open only with an entry selected and mentions stay free of duplicates |
| EnhancedInput.InputChangeRequests | frontend/src/components/EnhancedInput.tsx:103-156 | the text is stored, a suggestion request for trigger `t` at `p` goes out exactly when that trigger opens before the cursor, and with no request the list closes and the trigger is cleared |
| EnhancedInput.ReceiveSuggestions | frontend/src/components/EnhancedInput.tsx:141-147 | arriving suggestions open the list exactly when there are some, and record the request's trigger and position |
| EnhancedInput.OpenAtMenu | frontend/src/components/EnhancedInput.tsx:355-366 | the '@' button opens the list exactly when files arrive, sets the '@' trigger and keeps the old trigger position |
| EnhancedInput.AddFile | frontend/src/components/EnhancedInput.tsx:195-198 | mentioning a file extends the list by at most that file, the ids present afterwards are the old ones plus the file's, and ids stay unique |
| EnhancedInput.RemoveDetectedTrigger | frontend/src/components/EnhancedInput.tsx:205-207 | right after a detection the splice removes exactly the trigger and the query typed after it, and nothing else |
| EnhancedInput.RemoveAtCursorZero | frontend/src/components/EnhancedInput.tsx:206 | a cursor reported as 0 falls back to the input's length, which drops everything from the trigger on |
| EnhancedInput.SelectSuggestion | frontend/src/components/EnhancedInput.tsx:191-212 | without a trigger nothing changes; '@' mentions the file, '/' selects the action by its label, the trigger text is cut out and the list closes, and attachments are kept |
| EnhancedInput.RemoveSelectedFile | frontend/src/components/EnhancedInput.tsx:226-228 | removing a mention never lengthens the list |
| EnhancedInput.RemovedIds | frontend/src/components/EnhancedInput.tsx:226-228 | after removal exactly the other ids are still mentioned |
| EnhancedInput.RemovalKeepsUnique | frontend/src/components/EnhancedInput.tsx:226-228 | removal keeps the mentioned ids unique |
| EnhancedInput.RemoveAttachment | frontend/src/components/EnhancedInput.tsx:230-232 | an index in range drops exactly that attachment and keeps the others in order; any other index changes nothing |
| EnhancedInput.AllAttachments | frontend/src/components/EnhancedInput.tsx:337-340 | the attachments sent are the mentioned files as file attachments by label, followed by the uploads |
| EnhancedInput.ActionParam | frontend/src/components/EnhancedInput.tsx:342 | the action is passed exactly when one is selected and its label is non-empty |
| EnhancedInput.Send | frontend/src/components/EnhancedInput.tsx:322-353 | a send keeps the composer valid |
| EnhancedInput.SendOutcomes | frontend/src/components/EnhancedInput.tsx:322-353 | loading with a stop handler stops; an add_knowledge action with attachments opens the filename dialog; otherwise a message goes out exactly when there is text, an attachment or an active action; every outcome but a send keeps the text and attachments |
| EnhancedInput.SentMessage | frontend/src/components/EnhancedInput.tsx:336-348 | a sent message carries the trimmed text, all attachments only when there are some, and the selected action, and the composer is emptied |
| EnhancedInput.KeyDown | frontend/src/components/EnhancedInput.tsx:158-189 | a key press keeps the composer valid |
| EnhancedInput.KeyDownRouting | frontend/src/components/EnhancedInput.tsx:158-189 | only a plain Enter with the list closed sends; Enter with the list open selects the highlighted suggestion; any key other than Enter leaves text, mentions and action unchanged |
| EnhancedInput.EndsWithExtensionIff | frontend/src/components/EnhancedInput.tsx:375 | the last-dot test agrees with the rule that the name ends in a dot followed by one or more characters that are neither '/' nor '.' |
| EnhancedInput.AppendedTxtHasExtension | frontend/src/components/EnhancedInput.tsx:375-377 | a name with ".txt" appended always has an extension |
| EnhancedInput.FinalFilename | frontend/src/components/EnhancedInput.tsx:369-377 | a blank name gives no filename; otherwise the name is the trimmed input, kept as it is exactly when it already has an extension and given ".txt" otherwise |
| EnhancedInput.ConfirmFilename | frontend/src/components/EnhancedInput.tsx:368-397 | a blank name changes nothing and sends nothing; otherwise the message goes out with all attachments, the action and the final filename, and the composer and dialog are reset |
| EnhancedInput.FileExtension | frontend/src/components/EnhancedInput.tsx:268 | the checked extension is a dot and the lower-cased text after the name's last dot |
| EnhancedInput.CheckFile | frontend/src/components/EnhancedInput.tsx:266-287 | a file passes exactly when its extension is allowed, it is at most 5 MiB, and the running total plus its size is at most 20 MiB |
| EnhancedInput.ScreenAccounts | frontend/src/components/EnhancedInput.tsx:266-287 | every picked file is either accepted or reported, and the total grows by exactly the accepted sizes |
| EnhancedInput.ScreenLast | frontend/src/components/EnhancedInput.tsx:266-287 | each file is appended to the accepted list with its size added to the total, or reported with the total unchanged |
| EnhancedInput.ScreenAccepted | frontend/src/components/EnhancedInput.tsx:266-287 | every accepted file was picked, has an allowed extension and is within the per-file cap |
| EnhancedInput.ScreenWithinCap | frontend/src/components/EnhancedInput.tsx:280-286 | the running total never drops below its start and never passes 20 MiB when it started within it |
| EnhancedInput.ScreenWithoutErrors | frontend/src/components/EnhancedInput.tsx:266-297 | with no error reported every picked file was accepted, in order |
| EnhancedInput.OversizedFileRejected | frontend/src/components/EnhancedInput.tsx:274-278 | a picked file over 5 MiB always produces an error, so the upload is refused |
| EnhancedInput.ScreenFiles | frontend/src/components/EnhancedInput.tsx:266-287 | the validation loop computes the accepted files, the errors and the final total of the screening pass |
| EnhancedInput.Upload | frontend/src/components/EnhancedInput.tsx:234-320 | the errors are those of screening from the estimated total; with any error the composer is unchanged, and otherwise every picked file is appended as an attachment |
| EnhancedInput.ComposerBox.constructor | frontend/src/components/EnhancedInput.tsx:71-81 | the component starts with an empty composer |
| EnhancedInput.ComposerBox.HandleInputChange | frontend/src/components/EnhancedInput.tsx:103-156 | the new state and the request are those of the typing handler |
| EnhancedInput.ComposerBox.SuggestionsArrived | frontend/src/components/EnhancedInput.tsx:141-147 | the new state is the one the arriving suggestions give |
| EnhancedInput.ComposerBox.HandleKeyDown | frontend/src/components/EnhancedInput.tsx:158-189 | the new state and outcome are those of the key handler, and the state stays valid |
| EnhancedInput.ComposerBox.HandleSend | frontend/src/components/EnhancedInput.tsx:322-353 | the new state and outcome are those of a send |
| EnhancedInput.ComposerBox.HandleSelectSuggestion | frontend/src/components/EnhancedInput.tsx:191-212 | the new state is that of selecting the suggestion |
| EnhancedInput.ComposerBox.HandleOpenAtMenu | frontend/src/components/EnhancedInput.tsx:355-366 | the new state is that of the '@' button |
| EnhancedInput.ComposerBox.HandleRemoveSelectedFile | frontend/src/components/EnhancedInput.tsx:226-228 | the mentions lose every file with that id |
| EnhancedInput.ComposerBox.HandleRemoveAttachment | frontend/src/components/EnhancedInput.tsx:230-232 | the attachments lose the one at that index |
| EnhancedInput.ComposerBox.HandleConfirmFilename | frontend/src/components/EnhancedInput.tsx:368-397 | the new state and the message sent are those of confirming the filename |
| EnhancedInput.ComposerBox.EstimateTotal | frontend/src/components/EnhancedInput.tsx:256-263 | the estimate counts 1024 bytes for each existing attachment that has a url |
| EnhancedInput.ComposerBox.AppendUploads | frontend/src/components/EnhancedInput.tsx:300-308 | one attachment is appended per accepted file, in order, with its object url |
| EnhancedInput.ComposerBox.HandleFileUpload | frontend/src/components/EnhancedInput.tsx:234-320 | the new attachments and the errors are those of the upload handler |
| AutocompleteInput.InputChange | frontend/src/components/AutocompleteInput.tsx:58-101 | the text is stored; a request goes out exactly when a trigger is detected, for that trigger's lower-cased query, and otherwise the list closes and the trigger is cleared |
| AutocompleteInput.ReceiveSuggestions | frontend/src/components/AutocompleteInput.tsx:89-96 | arriving suggestions open the list exactly when there are some, record the request's trigger and position, and leave the text alone |
| AutocompleteInput.CursorAfterInsertion | frontend/src/components/AutocompleteInput.tsx:139-157 | the new cursor sits right after the inserted space: before it the text up to the trigger, the trigger, the label and a space, after it the old tail |
| AutocompleteInput.InsertionReplacesQuery | frontend/src/components/AutocompleteInput.tsx:139-145 | right after a detection, choosing a suggestion replaces the typed query after the trigger by the label and a space, keeping the rest |
| AutocompleteInput.SelectSuggestion | frontend/src/components/AutocompleteInput.tsx:136-160 | without a trigger nothing changes and the cursor is not moved; otherwise the suggestion is written into the text, the cursor goes after it and the list closes |
| AutocompleteInput.Send | frontend/src/components/AutocompleteInput.tsx:162-168 | only non-blank text is sent, trimmed, and the text then empties and the list closes; blank text leaves everything as it was |
| AutocompleteInput.KeyDown | frontend/src/components/AutocompleteInput.tsx:103-134 | a key press keeps the box valid |
| AutocompleteInput.KeyDownRouting | frontend/src/components/AutocompleteInput.tsx:103-134 | text is sent only by a plain Enter with the list closed, and it is the trimmed text; the arrows keep the selection on the list and the text unchanged; Enter with the list open chooses the highlighted suggestion |
| AutocompleteInput.AutocompleteBox.constructor | frontend/src/components/AutocompleteInput.tsx:33-38 | the box starts empty with the list closed |
| AutocompleteInput.AutocompleteBox.HandleInputChange | frontend/src/components/AutocompleteInput.tsx:58-101 | the new state and the request are those of the typing handler |
| AutocompleteInput.AutocompleteBox.SuggestionsArrived | frontend/src/components/AutocompleteInput.tsx:89-96 | the new state is the one the arriving suggestions give |
| AutocompleteInput.AutocompleteBox.HandleKeyDown | frontend/src/components/AutocompleteInput.tsx:103-134 | the new state and the text sent are those of the key handler, and the state stays valid |
| AutocompleteInput.AutocompleteBox.HandleSelectSuggestion | frontend/src/components/AutocompleteInput.tsx:136-160 | the new state and the cursor are those of choosing the suggestion |
| AutocompleteInput.AutocompleteBox.HandleSend | frontend/src/components/AutocompleteInput.tsx:162-168 | the new state and the text sent are those of a send |
| Strings.ParseList | frontend/src/app/tasks/page.tsx:108 | the parsed list's items are trimmed, non-empty and free of commas |
| Strings.ParseJoined | frontend/src/app/tasks/page.tsx:108 | clean items joined with commas parse back to the same list |
| Todos.OptionalText | frontend/src/app/tasks/page.tsx:101 | an optional text field is kept, trimmed, exactly when it is not blank |
| Todos.Spaced | frontend/src/app/tasks/page.tsx:163 | the comma-split pieces of a ", "-joined list are the first tag and then each later tag with a leading space |
| Todos.JoinSpaced | frontend/src/app/tasks/page.tsx:163 | joining with ", " is joining the spaced pieces with "," |
| Todos.TrimAllSpaced | frontend/src/app/tasks/page.tsx:163 | trimming the spaced pieces of clean tags gives back the tags |
| Todos.TagsRoundTrip | frontend/src/app/tasks/page.tsx:108-163 | trimmed, non-empty, comma-free tags come back unchanged from the edit dialog's join and the save's parse |
| Todos.AddTodo | frontend/src/app/tasks/page.tsx:95-111 | a blank title adds nothing; otherwise exactly one open item with the trimmed title, the time stamp as id, the parsed tags and the chosen priority is put in front of the unchanged list |
| Todos.Edited | frontend/src/app/tasks/page.tsx:120-130 | an edited item keeps its id, completion and creation time |
| Todos.UpdateTodo | frontend/src/app/tasks/page.tsx:117-133 | without an item being edited or with a blank title the list is unchanged; otherwise the items with the edited id get the form's fields and every other item stays as it was |
| Todos.ToggleTodo | frontend/src/app/tasks/page.tsx:141-148 | the items with that id flip their completion and get the new time stamp, and every other item is unchanged |
| Todos.ToggleTwice | frontend/src/app/tasks/page.tsx:141-148 | toggling the same id twice restores every item except its time stamp |
| Todos.DeleteTodo | frontend/src/app/tasks/page.tsx:150-153 | no item with that id is left, every other item is kept, and the order is preserved |
| Todos.EditSaveRoundTrip | frontend/src/app/tasks/page.tsx:117-166 | opening an item with normalised fields in the edit dialog and saving it as is changes only its time stamp |
| Todos.FilteredTodos | frontend/src/app/tasks/page.tsx:169-174 | the shown items are an order-preserving subsequence; "active" shows only open items, "completed" only done ones, a priority filter only that priority, and no filter shows everything |
| Todos.ActiveCount | frontend/src/app/tasks/page.tsx:176-177 | the active count is the number of open items, and it and the completed count add up to the list's length |
| Todos.AddCountsOpen | frontend/src/app/tasks/page.tsx:176-177 | a successful add raises the active count by one and leaves the completed count unchanged |
| Todos.TasksPage.constructor | frontend/src/app/tasks/page.tsx:42-76 | the page starts with the stored list, or an empty one, an empty form, closed dialogs and no filters |
| Todos.TasksPage.SaveTodos | frontend/src/app/tasks/page.tsx:79-82 | storage and the page get the same list |
| Todos.TasksPage.HandleAddTodo | frontend/src/app/tasks/page.tsx:95-115 | a blank title changes nothing; otherwise the added list is saved, the form is reset and the dialog closes |
| Todos.TasksPage.HandleUpdateTodo | frontend/src/app/tasks/page.tsx:117-139 | without an edited item or with a blank title nothing changes; otherwise the updated list is saved, the form is reset, and the dialog closes with no item being edited |
| Todos.TasksPage.HandleToggleTodo | frontend/src/app/tasks/page.tsx:141-148 | the toggled list is saved |
| Todos.TasksPage.HandleDeleteTodo | frontend/src/app/tasks/page.tsx:150-153 | the list without that id is saved |
| Todos.TasksPage.HandleEditTodo | frontend/src/app/tasks/page.tsx:155-167 | the item becomes the one being edited, the form shows its fields and the dialog opens |
| Todos.CardAdd | frontend/src/components/dashboard/TodoCard.tsx:56-70 | a blank title adds nothing; otherwise exactly one open, medium-priority item with the trimmed title goes in front of the unchanged list |
| Todos.CardToggle | frontend/src/components/dashboard/TodoCard.tsx:72-77 | the items with that id flip their completion and nothing else changes |
| Todos.CardToggleTwice | frontend/src/components/dashboard/TodoCard.tsx:72-77 | toggling the same id twice restores the list |
| Todos.CardCounts | frontend/src/components/dashboard/TodoCard.tsx:79-80 | the pending and completed figures add up to the list's length |
| Todos.TodoCard.constructor | frontend/src/components/dashboard/TodoCard.tsx:30-48 | the card starts with the stored list, or an empty one, and an empty title |
| Todos.TodoCard.HandleAddTodo | frontend/src/components/dashboard/TodoCard.tsx:56-70 | a blank title changes nothing; otherwise the added list is stored and the title field is cleared |
| Todos.TodoCard.HandleToggleTodo | frontend/src/components/dashboard/TodoCard.tsx:72-77 | the toggled list is stored |
| Activity.TypeNameInjective | frontend/src/app/activity/page.tsx:129 | distinct kinds carry distinct type strings, so the type filter matches exactly one kind |
| Activity.Cutoff | frontend/src/app/activity/page.tsx:133-150 | "1h", "1d" and "1w" cut off one hour, one day and one week before now, and any other value cuts off at the epoch |
| Activity.OptionalStage | frontend/src/app/activity/page.tsx:120-152 | a stage that is skipped when switched off is the filter by "switched off or passes" |
| Activity.FilteredIsKept | frontend/src/app/activity/page.tsx:116-154 | the three chained filters equal one filter by the rule that an activity passes every filter that is switched on |
| Activity.FilteredActivitiesSpec | frontend/src/app/activity/page.tsx:116-154 | the shown activities are an order-preserving part of the log holding exactly those that match the search (case-insensitively, in the description or details), have the chosen type and are no older than the cutoff; with every filter off the whole log is shown |
| Activity.TimeAgo | frontend/src/app/activity/page.tsx:190-206 | under 60 seconds is "just now", then whole minutes from 1 to 59 below an hour, whole hours from 1 to 23 below a day, and whole days beyond, each the floor of the elapsed time |
| Activity.AgoText | frontend/src/app/activity/page.tsx:194-205 | the label is "Just now" exactly for the just-now case, and every other label opens with a digit and ends in " ago" |
| Activity.FormatTimeAgo | frontend/src/app/activity/page.tsx:190-206 | the label is "Just now" exactly when less than 60 whole seconds have passed, and otherwise a count followed by its unit and " ago" |
| Activity.TimeAgoMonotone | frontend/src/components/dashboard/RecentActivityCard.tsx:49-65 | an older entry never gets a more recent label than a newer one |
| Activity.Last24hWithinLast7d | frontend/src/app/activity/page.tsx:209-215 | with a separate clock reading for each count, the last-24-hours figure never exceeds the last-7-days figure when the second reading comes less than six days after the first |
| Activity.TypeStatsCounts | frontend/src/app/activity/page.tsx:217-220 | each kind's figure is the number of entries of that kind, a missing key reading as 0 |
| Activity.TypeStatsKeys | frontend/src/app/activity/page.tsx:217-220 | a kind has a figure exactly when some entry has that kind |
| Activity.TotalStep | frontend/src/app/activity/page.tsx:218 | one increment of the accumulator raises the sum of all figures by one |
| Activity.TypeStatsSum | frontend/src/app/activity/page.tsx:217-220 | the per-kind figures add up to the length of the log |
| Activity.IconsDistinct | frontend/src/app/activity/page.tsx:157-172 | on the log page every kind has its own icon, and on the card distinct kinds have distinct icons |
| Activity.CardDefaults | frontend/src/components/dashboard/RecentActivityCard.tsx:19-47 | only a kind outside chat, file upload, action and model change gets the card's "Other" badge and grey default icon |
| Activity.SingleOccurrence | frontend/src/app/activity/page.tsx:186 | replacing the first '_' of a text with one '_' turns that one into a space and leaves no '_' |
| Activity.NoOccurrence | frontend/src/app/activity/page.tsx:186 | a text without '_' is left unchanged |
| Activity.PageBadgeHasNoUnderscore | frontend/src/app/activity/page.tsx:174-188 | every type name's badge text shows no '_' and is as long as the type name |
| Activity.ActivityPage.constructor | frontend/src/app/activity/page.tsx:32-37 | the page starts loading, with an empty log, no search term and every filter at "all" |
| Activity.ActivityPage.ApplyFilters | frontend/src/app/activity/page.tsx:116-155 | the shown list becomes the log filtered by the current search term, type and time filters |
| Activity.ActivityPage.Loaded | frontend/src/app/activity/page.tsx:105-114 | the log is stored, loading ends and the shown list is the filtered log |
| Activity.ActivityPage.SetSearchTerm | frontend/src/app/activity/page.tsx:116-155 | a new search term is stored and the shown list is refiltered with it |
| Activity.ActivityPage.SetTypeFilter | frontend/src/app/activity/page.tsx:116-155 | a new type filter is stored and the shown list is refiltered with it |
| Activity.ActivityPage.SetTimeFilter | frontend/src/app/activity/page.tsx:116-155 | a new time filter is stored and the shown list is refiltered with it |
| Lists.Toggle | frontend/src/app/help/page.tsx:104-108 | an absent id is appended to the list; a present one is removed, every copy of it; every other id keeps its membership |
| Lists.ToggleTwice | frontend/src/app/help/page.tsx:104-108 | toggling the same id twice restores the open ids, and the list itself when the id was absent |
| Lists.ToggleKeepsDistinct | frontend/src/app/help/page.tsx:104-108 | toggling never makes an id appear twice |
| Help.FindGroup | frontend/src/app/help/page.tsx:112 | the search stops at the first section with that category, or past the end when there is none |
| Help.AddKeepsDistinct | frontend/src/app/help/page.tsx:111-117 | one step of the reduce keeps the section categories distinct |
| Help.AddKeepsContents | frontend/src/app/help/page.tsx:111-117 | one step of the reduce keeps every section holding exactly its category's entries in order |
| Help.AddKeepsCover | frontend/src/app/help/page.tsx:111-117 | one step of the reduce keeps a section for every entry's category and no section empty |
| Help.AddKeepsGroups | frontend/src/app/help/page.tsx:111-117 | one step of the reduce keeps the grouping correct for the entries seen so far plus the new one |
| Help.GroupedFaqsSpec | frontend/src/app/help/page.tsx:111-117 | the sections have distinct categories, there is one for every entry's category, none is empty, and each holds exactly that category's entries in their original order |
| Help.SectionAppears | frontend/src/app/help/page.tsx:111-117 | a section's category occurs among the entries |
| Help.AddKeepsOrder | frontend/src/app/help/page.tsx:112-116 | one step of the reduce keeps the sections in order of their categories' first appearance |
| Help.GroupedFaqsOrder | frontend/src/app/help/page.tsx:111-117 | the sections come in order of their categories' first appearance in the list |
| Help.SizeUpdate | frontend/src/app/help/page.tsx:115 | growing one section changes the total by the growth of that section |
| Help.AddGrowsSize | frontend/src/app/help/page.tsx:112-115 | each step of the reduce places exactly one more entry |
| Help.GroupedFaqsSize | frontend/src/app/help/page.tsx:111-117 | the sections hold as many entries as the list, so the total count is preserved |
| Help.HelpPage.constructor | frontend/src/app/help/page.tsx:102 | the page starts with no entry unfolded |
| Help.HelpPage.ToggleItem | frontend/src/app/help/page.tsx:104-108 | the unfolded ids become the toggled list |
| LlmSettings.ErrorText | frontend/src/components/ModelSelector.tsx:328 | an error is written as its name, ": " and its message, or as whichever of them is present when one is empty |
| LlmSettings.ClassifyError | frontend/src/components/ModelSelector.tsx:231-244 | an error naming 401 or "Authentication" reads as an authentication failure, otherwise one naming 403 as forbidden; a message is replaced only by one of the five fixed hints, and an error matching no rule is shown as it came |
| LlmSettings.ConnectionShadowsTimeout | frontend/src/components/ModelSelector.tsx:241-244 | because "Connection" is checked before "timeout", an error naming both reads as a failed connection, never as a timeout |
| LlmSettings.ErrorOr | frontend/src/components/ModelSelector.tsx:231 | the backend's error is shown when it is present and non-empty, and the fallback text otherwise |
| LlmSettings.TestConfig | frontend/src/components/ModelSelector.tsx:183-186 | the test sends the form's fields, with an OpenAI form's typed model list parsed (split on commas, trimmed, blanks dropped) in place of its own models |
| LlmSettings.StartTest | frontend/src/components/ModelSelector.tsx:170-200 | starting a test marks it running, clears the result and the discovered models, and sends the service type with the test config |
| LlmSettings.Connected | frontend/src/components/ModelSelector.tsx:204-225 | an available service shows the models it offers (an OpenAI form's configured list if any, else those found) and selects all of them, changing nothing else |
| LlmSettings.FinishTest | frontend/src/components/ModelSelector.tsx:202-271 | the test stops running; it succeeds exactly when the service answered success and available; a cancelled request shows the cancel text, any other exception the connection error, and a refusal the classified error; a failed test keeps the selection and the discovered models |
| LlmSettings.FailedTestDiscoversNothing | frontend/src/components/ModelSelector.tsx:170-271 | a test that does not find the service available leaves the selection as it was and no model discovered |
| LlmSettings.ServiceId | frontend/src/components/ModelSelector.tsx:282 | an edited service keeps its id, and a new one gets the service type, an underscore and the time stamp |
| LlmSettings.FreshIdsDiffer | frontend/src/components/ModelSelector.tsx:282 | new services of one type saved at different times get different ids |
| LlmSettings.SaveConfig | frontend/src/components/ModelSelector.tsx:283-291 | the saved config keeps the form's fields with the selected models, or, in ModelSelector, an OpenAI form's parsed typed list |
| LlmSettings.SaveRequestOf | frontend/src/components/ModelSelector.tsx:280-310 | a save first removes the old service exactly when one is being edited, under the same id as the new one, then sends the saved config under the service id |
| LlmSettings.ResetConfigForm | frontend/src/components/ModelSelector.tsx:460-471 | resetting puts the form, service type, result, model lists, edit id and typed list back to their start values |
| LlmSettings.FinishSave | frontend/src/components/ModelSelector.tsx:312-331 | an accepted save closes and resets the dialog; a refusal shows the backend's error or "Failed to save service"; an exception shows "Error saving service: " and the error |
| LlmSettings.EditService | frontend/src/components/ModelSelector.tsx:393-425 | editing fills the form from the service by its type, selects exactly the service's models, clears the result and opens the dialog; an OpenAI service's form keeps its name, has no host, takes its API key and base URL with missing ones as empty text, and lists the discovered models (shown and typed back joined with commas) |
| LlmSettings.EditedListParsesBack | frontend/src/components/ModelSelector.tsx:408-415 | an OpenAI service with clean model names, opened for editing and put through the connection test again, sends the same model list |
| LlmSettings.RescanFound | frontend/src/components/ModelSelector.tsx:353-370 | a rescan that finds the service opens it for editing as an Ollama service with the models found, keeping exactly its old selection |
| LlmSettings.MarkRefreshing | frontend/src/components/ModelSelector.tsx:338 | the refreshing set gains the service's id and nothing else |
| LlmSettings.Rescan | frontend/src/components/ModelSelector.tsx:333-391 | only Ollama services are rescanned, anything else changes nothing; the refreshing mark of the service is gone afterwards and every other mark is kept; a failure shows the backend's error or why it threw |
| LlmSettings.TestDecidesSave | frontend/src/components/ModelSelector.tsx:170-271 | after a test the save button is enabled exactly when the service was found available with at least one model offered |
| LlmSettings.EditingNeedsTest | frontend/src/components/ModelSelector.tsx:393-425 | a freshly reset form or one just opened for editing cannot be saved before it passes the connection test again |
| LlmSettings.RescanEnablesSave | frontend/src/components/ModelSelector.tsx:353-370 | a rescan that finds a service with selected models can be saved straight away |
| LlmSettings.ModelsLoaded | frontend/src/components/ModelSelector.tsx:114-136 | the list shown is the answer's list, or none; a choice is kept or cleared, and a kept choice is in the list; without a list the choice is untouched |
| LlmSettings.ListedChoiceKept | frontend/src/components/ModelSelector.tsx:121-127 | a choice that is in the list survives a reload |
| LlmSettings.ServiceStatusText | frontend/src/components/ModelSelector.tsx:502-513 | a service's label is one of four; it is "Error" exactly for a status that is neither online nor configured and starts with "error:" |
| LlmSettings.StatusLabelsAgree | frontend/src/components/ModelSelector.tsx:490-513 | label and colour agree: green exactly with "Online" and blue exactly with "Configured", for services and models alike |
| LlmSettings.ServiceDialog.constructor | frontend/src/components/ModelSelector.tsx:78-112 | the dialog starts with an empty Ollama form, no result, no models, nothing being edited and no service refreshing |
| LlmSettings.ServiceDialog.ToggleModelSelection | frontend/src/components/ModelSelector.tsx:473-481 | the selection gains the model when it was absent and loses it when present, and stays free of duplicates |
| LlmSettings.ServiceDialog.TestService | frontend/src/components/ModelSelector.tsx:170-272 | the request is the one a test starts with and the new state is the test's ending |
| LlmSettings.ServiceDialog.StatusTimerFired | frontend/src/components/ModelSelector.tsx:270 | the status line is cleared |
| LlmSettings.ServiceDialog.AddService | frontend/src/components/ModelSelector.tsx:280-331 | the requests are those of the save and the new state is the save's ending |
| LlmSettings.ServiceDialog.HandleEditService | frontend/src/components/ModelSelector.tsx:393-425 | the new state is the form filled from the service |
| LlmSettings.ServiceDialog.HandleRescan | frontend/src/components/ModelSelector.tsx:333-391 | only an Ollama service goes through the connection test again, with its saved config, and the new state and refreshing set are the rescan's |
| LlmSettings.ServiceDialog.HandleResetConfigForm | frontend/src/components/ModelSelector.tsx:460-471 | the new state is the reset form |
| LlmSettings.ServiceDialog.FetchModels | frontend/src/components/ModelSelector.tsx:114-136 | the model list and the choice become those the reload gives |
| LlmSettings.ServiceDialog.SetDefaultModel | frontend/src/components/LLMServiceConfig.tsx:316-326 | once the request returns an ok HTTP status, the model becomes the choice, also when the backend's reply refuses it with `success` false; when the request fails the choice is kept |
| Dashboard.DefaultModelName | frontend/src/components/dashboard/LLMServiceCard.tsx:44 | the name of the first default model, or "None" when its name is empty; "None" when no model is the default; never an empty label, and any other label is a default model's name |
| Dashboard.LlmStatsOf | frontend/src/components/dashboard/LLMServiceCard.tsx:39-45 | the totals are the list lengths, the active and available counts are the up services and models and never exceed their totals, and the default is the first default model's name |
| Dashboard.AllActive | frontend/src/components/dashboard/LLMServiceCard.tsx:41 | the active count equals the service count exactly when every service is available |
| Dashboard.CardStatusAgrees | frontend/src/components/dashboard/LLMServiceCard.tsx:58-69 | for an available service the card's label and colour are the settings dialog's; an unavailable service reported online reads "Offline" in red; "Online" comes with green and "Configured" with blue, in both directions |
| Dashboard.KnowledgeStatsOf | frontend/src/components/dashboard/KnowledgeBaseCard.tsx:60-65 | the loop's counters are the number of plain files, of folders or directories, and of images, with recent uploads left at zero |
| Dashboard.KnowledgeStatsBounded | frontend/src/components/dashboard/KnowledgeBaseCard.tsx:60-65 | each item raises at most one counter, so the three counts together never exceed the number of items |
| Dashboard.KnowledgeStatsExact | frontend/src/components/dashboard/KnowledgeBaseCard.tsx:60-65 | when every item has one of the four known kinds, the three counts add up to the number of items |
| Dashboard.FileIconOf | frontend/src/components/dashboard/KnowledgeBaseCard.tsx:92-102 | the folder icon exactly for folders and directories, the image icon exactly for images, the default icon otherwise |
| Dashboard.IconMatchesCount | frontend/src/components/dashboard/KnowledgeBaseCard.tsx:60-102 | the icon classes an item the same way the counters do: folder icon iff counted as a folder, image icon iff counted as an image, plain files get the default icon |
| Dashboard.ViewedContent | frontend/src/components/dashboard/KnowledgeBaseCard.tsx:74-86 | a non-empty content is shown as it is, a failed request shows "Error loading file content", and the text is never empty |
| Navigation.PrimaryActiveRule | frontend/src/components/AppLayout.tsx:78 | the dashboard entry is current only on "/" itself; any other primary entry is current exactly when its href is a prefix of the pathname |
| Navigation.PrefixNotSegment | frontend/src/components/AppLayout.tsx:78-99 | the prefix test is on characters, so "/tasks" is current on "/tasksx" and "/tasks/1", while a secondary entry such as "/help" is not current below its own path |
| Navigation.AtMostOnePrimary | frontend/src/components/AppLayout.tsx:26-78 | for any pathname, no two of the four primary entries are current at once |
| MemoryTypes.KindNameInjective | backend/hyperhint/memory/_types.py:8 | distinct item types are stored under distinct words |
| MemoryTypes.NewMemory | backend/hyperhint/memory/_types.py:7-19 | a new item keeps the given type, name, paths, size and metadata, and has empty content, URL and tags and no description |
| Actions.Suggestions | backend/hyperhint/memory/_actions.py:40-51 | there is one suggestion per action, in order, made from that action |
| Actions.ActionSearchMeaning | backend/hyperhint/memory/_actions.py:28-53 | the search answers the suggestions of the first ten actions whose label, non-empty description or one of whose tags contains the lowered query, in registry order; never more than ten; every match is listed when there are at most ten |
| Actions.ActionSearchCaseInsensitive | backend/hyperhint/memory/_actions.py:30 | the search gives the same suggestions for a query and for its lower-cased form |
| Actions.LabelOnlyMatch | backend/hyperhint/memory/_actions.py:35-39 | an action without tags and description matches iff its lowered label contains the lowered query |
| Actions.FindAction | backend/hyperhint/memory/_actions.py:399-404 | the lookup finds the first action with that id, and finds none iff no action has it |
| Actions.ByCategory | backend/hyperhint/memory/_actions.py:406-408 | the category's actions are exactly the registry's actions of that category, in registry order |
| Actions.PyIndex | backend/hyperhint/memory/_actions.py:423-430 | a list index is valid iff it lies in [-length, length), and a negative one counts from the end |
| Actions.UserNameBody | backend/hyperhint/memory/_actions.py:153-156 | the cleaned user-given name holds only word characters, '.' and '-' |
| Actions.WithTxt | backend/hyperhint/memory/_actions.py:158 | adding ".txt" gives a name that ends in ".txt" and keeps to the safe characters |
| Actions.SanitizeUserFilename | backend/hyperhint/memory/_actions.py:151-160 | the sanitised user-given name holds a '.' and only word characters, '.' and '-' |
| Actions.SafeNameIsBody | backend/hyperhint/memory/_actions.py:153-156 | a name of safe characters is left as it is by the cleaning |
| Actions.SanitizeIdempotent | backend/hyperhint/memory/_actions.py:151-160 | sanitising a sanitised name changes nothing |
| Actions.PlainNameGetsTxt | backend/hyperhint/memory/_actions.py:153-158 | a name of word characters only gets ".txt" added and nothing else |
| Actions.CleanGenerated | backend/hyperhint/memory/_actions.py:133-135 | the cleaned model answer holds only [a-z0-9_] |
| Actions.LetterWords | backend/hyperhint/memory/_actions.py:140 | every word found is a whole word of letters only, at least three long, made of characters of the text |
| Actions.FallbackBase | backend/hyperhint/memory/_actions.py:138-147 | the fallback base holds only [a-z0-9_] and is at least three long; an empty input gives "knowledge_file"; otherwise, of the lowered input's letter words of three letters or more, two or more give the first two joined by "_", exactly one gives that word, and none gives "note" |
| Actions.FallbackOfTwoWords | backend/hyperhint/memory/_actions.py:172-177 | an input opening with two lower-case words of three letters or more, a space between them and a break after, gets those two words joined by "_" |
| Actions.LowerOfTwoWords | backend/hyperhint/memory/_actions.py:172 | lowering such an input keeps the two words and the space, and the rest still opens with a break |
| Actions.RunsOfTwoWords | backend/hyperhint/memory/_actions.py:172 | the word runs of such an input are the two words followed by the runs of the rest |
| Actions.FilterOfTwoWords | backend/hyperhint/memory/_actions.py:172 | two letter words of three letters or more pass the length filter in front of whatever the rest gives |
| Actions.LowerWordsAreLower | backend/hyperhint/memory/_actions.py:140 | the words of the lowered input are lower-case letters only |
| Actions.GeneratedBase | backend/hyperhint/memory/_actions.py:133-149 | the generated base is the cleaned model answer when it has two characters or more, and the fallback otherwise, also when asking the model failed |
| Actions.ChosenFilename | backend/hyperhint/memory/_actions.py:151-178 | the file name is the sanitised user-given name when there is a non-empty one, and otherwise the generated base with ".txt"; it always holds a '.' and only safe characters |
| Actions.ModelAnswerAsWritten | backend/hyperhint/memory/_actions.py:163-164 | as written, no model answer ever reaches the file name, because `asyncio.run` is called inside the running event loop and raises |
| Actions.AnswerLostAsWritten | backend/hyperhint/memory/_actions.py:163-177 | as written, a usable model answer that differs from the fallback is replaced by the fallback name, while the intended code would save under the answer's name |
| Actions.FileAttachments | backend/hyperhint/memory/_actions.py:72-80 | the file attachments are the attachments of type "file" with non-empty content, every one of them |
| Actions.SizeVerdictOf | backend/hyperhint/memory/_actions.py:183-205 | the sizes pass iff every file is at most 5 MiB and the total is at most 20 MiB; otherwise the first file over 5 MiB is named, or else the total over 20 MiB is given |
| Actions.CheckSizes | backend/hyperhint/memory/_actions.py:185-205 | the size loop gives the verdict SizeVerdictOf specifies, stopping at the first oversized file |
| Actions.TenthsOfMiB | backend/hyperhint/memory/_actions.py:203 | the total printed in MiB with one decimal is the nearest tenth of the exact quotient |
| Actions.OriginalText | backend/hyperhint/memory/_actions.py:313-318 | without an "Attached Files" block the original text is the stripped input |
| Actions.TextToSave | backend/hyperhint/memory/_actions.py:318-356 | the saved note always contains the original text; it is the original text alone when that is at most 100 characters or the summary is missing or blank |
| Actions.Plan | backend/hyperhint/memory/_actions.py:55-356 | an unknown action answers "Action '...' not found", another known action "execution not implemented"; add_knowledge refuses oversized files, and otherwise saves, under the chosen file name, the files' collection when there are file attachments and the note text when there are none |
| Actions.SavedReply | backend/hyperhint/memory/_actions.py:363-383 | the reply succeeds iff a name was saved; it then gives that name and says "Files saved as" or "Note saved as", and otherwise "Failed to save content" without a file name |
| Actions.ActionHandler.constructor | backend/hyperhint/memory/_actions.py:9-26 | a new registry holds the built-in add_knowledge action only |
| Actions.ActionHandler.Clear | backend/hyperhint/memory/_actions.py:410-412 | clearing leaves the built-in action only |
| Actions.ActionHandler.AddAction | backend/hyperhint/memory/_actions.py:395-397 | adding an action appends it at the end |
| Actions.ActionHandler.Search | backend/hyperhint/memory/_actions.py:28-53 | the search loop answers the specified suggestions |
| Actions.ActionHandler.GetAction | backend/hyperhint/memory/_actions.py:399-404 | the lookup loop answers the first action with that id, or none |
| Actions.ActionHandler.ActionsByCategory | backend/hyperhint/memory/_actions.py:406-408 | answers the actions of that category in registry order |
| Actions.ActionHandler.Length | backend/hyperhint/memory/_actions.py:420-421 | the length is the number of actions |
| Actions.ActionHandler.GetItem | backend/hyperhint/memory/_actions.py:423-424 | reading an index gives the action there (from the end for a negative one) iff the index is valid |
| Actions.ActionHandler.SetItem | backend/hyperhint/memory/_actions.py:426-427 | writing a valid index replaces that action only; an invalid index changes nothing |
| Actions.ActionHandler.DelItem | backend/hyperhint/memory/_actions.py:429-430 | deleting a valid index removes that action only; an invalid index changes nothing |
| Actions.ActionHandler.ExecuteAction | backend/hyperhint/memory/_actions.py:55-393 | running an action answers its planned reply without touching memory or disk, or saves the planned content under a free name, writing exactly that file in the data directory, adds the saved item to memory and replies with that name when writing succeeds, and replies "Failed to save content" and changes nothing when it fails |
| Actions.SearchStep | backend/hyperhint/memory/_actions.py:33-51 | one more action scanned appends its suggestion exactly when it matches |
| KnowledgeFiles.PathName | backend/hyperhint/memory/_knowledge_files.py:53 | a path's name holds no '/' |
| KnowledgeFiles.Suffix | backend/hyperhint/memory/_knowledge_files.py:46 | a suffix is empty, or a '.' and at least one more character ending the name and shorter than it |
| KnowledgeFiles.SuffixOfDottedName | backend/hyperhint/memory/_knowledge_files.py:46 | "stem.ext" with a dot-free extension has the suffix ".ext" |
| KnowledgeFiles.HiddenNameHasNoSuffix | backend/hyperhint/memory/_knowledge_files.py:46 | a name whose only dot is its first character has no suffix |
| KnowledgeFiles.Normalise | backend/hyperhint/memory/_knowledge_files.py:210-211 | a leading "./" is dropped and any other path is kept |
| KnowledgeFiles.FileKindOf | backend/hyperhint/memory/_knowledge_files.py:44-49 | a file is an image exactly when its lowered suffix is one of the six image suffixes, and a plain file otherwise |
| KnowledgeFiles.ScanEntriesStep | backend/hyperhint/memory/_knowledge_files.py:38-90 | one more entry of a listing appends exactly that entry's items |
| KnowledgeFiles.ScanRules | backend/hyperhint/memory/_knowledge_files.py:32-93 | every scanned item is visible, and every file is classified by its suffix and records it |
| KnowledgeFiles.ScanEntriesRules | backend/hyperhint/memory/_knowledge_files.py:38-90 | every item scanned from a listing's entries keeps the scan rules |
| KnowledgeFiles.ScanEntryRules | backend/hyperhint/memory/_knowledge_files.py:39-90 | a hidden entry gives nothing, and the items of a visible one keep the scan rules |
| KnowledgeFiles.WellScannedConcat | backend/hyperhint/memory/_knowledge_files.py:69-90 | items listed one after the other keep the scan rules together |
| KnowledgeFiles.DepthLimit | backend/hyperhint/memory/_knowledge_files.py:34-35 | a directory two levels down is listed as a folder, but its own entries are not |
| KnowledgeFiles.LoadSpec | backend/hyperhint/memory/_knowledge_files.py:17-30 | a missing data directory loads the three fallback items, and an existing one the scan of its listing |
| KnowledgeFiles.Renamed | backend/hyperhint/memory/_knowledge_files.py:129-132 | one round of the duplicate loop makes the name longer |
| KnowledgeFiles.FreeName | backend/hyperhint/memory/_knowledge_files.py:125-134 | the duplicate loop ends with a name not taken on disk, and keeps a free name as it is |
| KnowledgeFiles.RenamedDotted | backend/hyperhint/memory/_knowledge_files.py:129-132 | one round on "stem.ext" with a dot-free extension gives "stem_k.ext" |
| KnowledgeFiles.SuffixesAccumulate | backend/hyperhint/memory/_knowledge_files.py:128-134 | each round renames the current name, so with "a.txt" and "a_2.txt" taken the name becomes "a_2_3.txt" |
| KnowledgeFiles.UndottedGetsTxt | backend/hyperhint/memory/_knowledge_files.py:130-132 | a taken name without a dot gets the extension "txt" on its first rename |
| KnowledgeFiles.SavedItem | backend/hyperhint/memory/_knowledge_files.py:144-161 | the recorded item is a file under the saved name, in the data directory, whose size is the content's UTF-8 length |
| KnowledgeFiles.Numbered | backend/hyperhint/memory/_knowledge_files.py:178-189 | there is one suggestion per matching item, with the id of its position among the matches |
| KnowledgeFiles.SearchStep | backend/hyperhint/memory/_knowledge_files.py:176-189 | one more item scanned appends its suggestion, numbered after the ones before, exactly when its lowered name contains the lowered query |
| KnowledgeFiles.SearchSpec | backend/hyperhint/memory/_knowledge_files.py:171-191 | the search gives at most ten suggestions and never more than there are items in memory |
| KnowledgeFiles.SearchMeaning | backend/hyperhint/memory/_knowledge_files.py:171-191 | the search answers at most ten suggestions, each that of an item whose lowered name contains the lowered query, with ids "file_0", "file_1", ... by position; the results are the first ten matches, numbered, in memory order; every match is listed when there are at most ten |
| KnowledgeFiles.SearchChosen | backend/hyperhint/memory/_knowledge_files.py:171-191 | the results are the suggestions of the first ten matching items, numbered by position, and those items keep their memory order |
| KnowledgeFiles.SearchListsAll | backend/hyperhint/memory/_knowledge_files.py:171-191 | when no more than ten items match, every matching item is listed, under the id of its position among the matches |
| KnowledgeFiles.SearchIdsDistinct | backend/hyperhint/memory/_knowledge_files.py:179 | distinct results have distinct ids |
| KnowledgeFiles.SearchCaseInsensitive | backend/hyperhint/memory/_knowledge_files.py:173 | the search gives the same suggestions for a query and for its lower-cased form |
| KnowledgeFiles.Truncated | backend/hyperhint/memory/_knowledge_files.py:250-252 | a text of at most 10000 characters is kept, a longer one cut at 10000 and marked as truncated |
| KnowledgeFiles.ReadNewlines | backend/hyperhint/memory/_knowledge_files.py:246-247 | a file opened in text mode reads "\r\n" and a lone "\r" as "\n": the text read holds no carriage return and is never longer than the stored text |
| KnowledgeFiles.ReadNewlinesIdentity | backend/hyperhint/memory/_knowledge_files.py:246-247 | text without a carriage return reads back unchanged |
| KnowledgeFiles.ReadNewlinesIdempotent | backend/hyperhint/memory/_knowledge_files.py:246-247 | translating text already read changes nothing further |
| KnowledgeFiles.CarriageReturnsRead | backend/hyperhint/memory/_knowledge_files.py:246-247 | "\r\n", and a "\r" not followed by "\n", each read as one "\n" while the text before them is kept |
| KnowledgeFiles.ReadSpec | backend/hyperhint/memory/_knowledge_files.py:206-257 | reading a missing path gives nothing, a path with a non-text suffix the binary-file marker, a text file its text with its line endings read as "\n" and cut at 10000 characters, and a directory with a text suffix nothing |
| KnowledgeFiles.ReadAfterWrite | backend/hyperhint/memory/_knowledge_files.py:246-252 | a text file written with some content reads back as that content with its line endings translated, cut at 10000 characters |
| KnowledgeFiles.ReadAfterWritePlain | backend/hyperhint/memory/_knowledge_files.py:246-252 | content of at most 10000 characters without a carriage return reads back exactly as written |
| KnowledgeFiles.SizeUpdated | backend/hyperhint/memory/_knowledge_files.py:279-282 | after a write only the first item with that file path gets the new size; every other item is unchanged |
| KnowledgeFiles.OnlyFirstSizeUpdated | backend/hyperhint/memory/_knowledge_files.py:279-282 | when several items share the path, the later ones keep their size |
| KnowledgeFiles.DotSlashItemsKeepSize | backend/hyperhint/memory/_knowledge_files.py:263-264 | an item recorded under a "./" path, as the fallback items are, is never updated by a write to that path |
| KnowledgeFiles.KnowledgeFileHandler.constructor | backend/sgope/memory/_knowledge_files.py:17-29 | the registry starts with what loading the data directory gives: the scan of its listing, or, for a missing directory, the fallback items in one backend and nothing in the other |
| KnowledgeFiles.KnowledgeFileHandler.LoadFromDirectory | backend/hyperhint/memory/_knowledge_files.py:17-30 | loading appends the fallback items for a missing directory and the scan of its listing otherwise |
| KnowledgeFiles.KnowledgeFileHandler.ScanDirectory | backend/hyperhint/memory/_knowledge_files.py:32-93 | the recursive scan appends exactly the items ScanListing specifies |
| KnowledgeFiles.KnowledgeFileHandler.AddKnowledgeFile | backend/hyperhint/memory/_knowledge_files.py:121-169 | when the write succeeds the file is written under the first free name, one item is recorded and the name is answered; when it fails nothing changes and "" is answered |
| KnowledgeFiles.KnowledgeFileHandler.Search | backend/hyperhint/memory/_knowledge_files.py:171-191 | the search loop answers the specified suggestions |
| KnowledgeFiles.KnowledgeFileHandler.Add | backend/hyperhint/memory/_knowledge_files.py:193-194 | adding an item appends it at the end |
| KnowledgeFiles.KnowledgeFileHandler.FindByName | backend/hyperhint/memory/_knowledge_files.py:199-204 | the lookup answers the first item with that name, or none when no item has it |
| KnowledgeFiles.KnowledgeFileHandler.ReadFileContent | backend/hyperhint/memory/_knowledge_files.py:206-257 | reading answers what ReadSpec specifies for the current disk |
| KnowledgeFiles.KnowledgeFileHandler.WriteFileContent | backend/hyperhint/memory/_knowledge_files.py:259-288 | a write succeeds iff the path names an existing file and the write goes through; the file then holds the new content and the first item with that path gets its size; otherwise nothing changes |
| KnowledgeFiles.KnowledgeFileHandler.Clear | backend/hyperhint/memory/_knowledge_files.py:290-292 | clearing leaves no items |
| KnowledgeFiles.KnowledgeFileHandler.Refresh | backend/hyperhint/memory/_knowledge_files.py:294-297 | refreshing leaves exactly what loading the directory gives |
| Llm.Lookup | backend/hyperhint/llm/__init__.py:64 | looking up a service id finds nothing iff no configured service has that id, and otherwise finds the entry stored under it |
| Llm.Put | backend/hyperhint/llm/__init__.py:49-53 | after storing an entry under an id, the id finds that entry, every other id finds what it found before, and the number of services grows by one only for a new id |
| Llm.Remove | backend/hyperhint/llm/__init__.py:58-59 | deleting an id leaves every other id's entry as it was, and deleting an absent id changes nothing |
| Llm.PutKeepsDistinct | backend/hyperhint/llm/__init__.py:49-53 | storing an entry keeps the service ids distinct, as dictionary keys are |
| Llm.PutMembers | backend/hyperhint/llm/__init__.py:49-53 | every service after storing is the stored one or was there before |
| Llm.RemoveDeletes | backend/hyperhint/llm/__init__.py:58-59 | after deleting an id no entry is stored under it, and the ids stay distinct |
| Llm.RemoveMembers | backend/hyperhint/llm/__init__.py:58-59 | deleting adds no service |
| Llm.PutThenRemove | backend/hyperhint/llm/__init__.py:44-60 | adding a new service and removing it again gives back the configuration as it was |
| Llm.AddedEntry | backend/hyperhint/llm/__init__.py:49-53 | every added service keeps its type and settings and is enabled |
| Llm.ServiceConfig.constructor | backend/hyperhint/llm/__init__.py:17-34 | the configuration is the stored file's services and default model, or, when none can be read, no services and no default model |
| Llm.ServiceConfig.AddService | backend/hyperhint/llm/__init__.py:44-54 | adding a service stores its enabled entry under its id, in place for a known id and last for a new one |
| Llm.ServiceConfig.RemoveService | backend/hyperhint/llm/__init__.py:56-60 | removing a service deletes its entry when present and changes nothing otherwise |
| Llm.ServiceConfig.GetServices | backend/hyperhint/llm/__init__.py:62-64 | the configured services are returned as stored |
| Llm.ServiceConfig.SetDefaultModel | backend/hyperhint/llm/__init__.py:66-69 | afterwards the default model is the given one |
| Llm.ServiceConfig.GetDefaultModel | backend/hyperhint/llm/__init__.py:71-73 | the default model is the stored one, or none |
| Llm.ClientFor | backend/hyperhint/llm/__init__.py:95-111 | a client is built iff the entry is enabled and is an OpenAI entry or an Ollama entry with a host; an unknown type builds none |
| Llm.ClientsOfMeaning | backend/hyperhint/llm/__init__.py:88-111 | after initialising, a service id has a client iff its configured entry gets one, and it is that entry's client |
| Llm.LookupInitLast | backend/hyperhint/llm/__init__.py:95 | with distinct ids, a lookup finds the last service by its id and any other id among the earlier services |
| Llm.CleanName | backend/hyperhint/llm/__init__.py:127 | the clean name is the model name up to its first ':', and holds no ':' |
| Llm.ModelKeys | backend/hyperhint/llm/__init__.py:125-129 | mapping a service's models keeps every key already mapped |
| Llm.ModelKeysMeaning | backend/hyperhint/llm/__init__.py:125-129 | after one service's models are mapped, a key is mapped iff it was before or is one of its models or their clean names; those keys map to the service, the others keep their service |
| Llm.MappingSound | backend/hyperhint/llm/__init__.py:113-129 | every key of the model map is a model or clean model name of an enabled service, and maps to the last enabled service that names it |
| Llm.MappingComplete | backend/hyperhint/llm/__init__.py:119-129 | every model of an enabled service, and its clean name, is a key of the model map |
| Llm.AllDisabledMapsNothing | backend/hyperhint/llm/__init__.py:119-121 | when every service is disabled the model map is empty |
| Llm.RouteChat | backend/hyperhint/llm/__init__.py:239-261 | a chat with no model and no default model gets the "no model" error; otherwise it uses the given model or else the default, and goes to the mapped service iff that id is non-empty and has a client, and gets the "not available" error otherwise |
| Llm.ChatStream | backend/hyperhint/llm/__init__.py:239-261 | the chat stream is one error chunk when no model or no service applies, and otherwise exactly the chosen service's chunks, in order |
| Llm.Redacted | backend/hyperhint/llm/__init__.py:286 | a service report's configuration never holds the API key and keeps every other key and the models |
| Llm.EntriesOf | backend/hyperhint/llm/__init__.py:289-369 | a service that is not enabled or has no client lists no models |
| Llm.ReportsOf | backend/hyperhint/llm/__init__.py:273-371 | there is one report per configured service, in configuration order |
| Llm.ReportOf | backend/hyperhint/llm/__init__.py:278-357 | a service's report keeps its id, type and enabled flag; it is available exactly when the service is running and, for Ollama, its probe answers up; it lists the configured models exactly when the service is running, and none otherwise |
| Llm.ReportRules | backend/hyperhint/llm/__init__.py:278-357 | no report shows an API key; a service that is not running is offline, unavailable and lists no models; a running non-Ollama service is "configured" and available with its configured models; a running Ollama service lists its configured models and is available iff its probe answers up |
| Llm.AllModelsMeaning | backend/hyperhint/llm/__init__.py:289-369 | every listed model is a configured model of a running service, is available exactly when that service's models are, and is the default exactly when it equals the default model |
| Llm.ModelAvailable | backend/hyperhint/llm/__init__.py:375-381 | a model is available only when a listed entry matches it by id or clean id and is marked available; with no matching entry it is not available |
| Llm.AvailableIn | backend/hyperhint/llm/__init__.py:378-381 | the loop answers the availability flag of the first listed entry that matches, and false when none does |
| Llm.LLMManager.constructor | backend/hyperhint/llm/__init__.py:77-86 | the manager starts from the stored configuration, or from a clean slate, with clients and model map built from it |
| Llm.LLMManager.InitializeServices | backend/hyperhint/llm/__init__.py:88-111 | the clients are rebuilt from the current configuration, one per running service |
| Llm.LLMManager.UpdateModelMapping | backend/hyperhint/llm/__init__.py:113-129 | the model map is rebuilt from the current configuration |
| Llm.LLMManager.Routing | backend/hyperhint/llm/__init__.py:239-252 | a chat is routed by the current default model, model map and clients |
| Llm.LLMManager.GetAvailableModels | backend/hyperhint/llm/__init__.py:263-373 | the report holds the default model, one report per configured service and the list of models of the running services |
| Llm.LLMManager.IsModelAvailable | backend/hyperhint/llm/__init__.py:375-381 | a model is available iff the current model list says so |
| Llm.LLMManager.SetDefaultModel | backend/hyperhint/llm/__init__.py:406-415 | the default model changes to the given one iff it is available, with a success reply; otherwise the reply is "Model '...' is not available" and the default is unchanged |
| Llm.LLMManager.AddService | backend/hyperhint/llm/__init__.py:131-164 | an unknown type is refused and an Ollama entry without a host fails, both before anything is saved; otherwise the entry is stored, the clients and map are rebuilt, and the reply reports the probe's answer and the OpenAI configured models or the Ollama server's listed models (none when unreachable); the default model never changes |
| Llm.LLMManager.RemoveService | backend/hyperhint/llm/__init__.py:166-172 | removing a service deletes its entry, rebuilds clients and map, answers success, and keeps the default model |
| Llm.RoutedToRunningService | backend/hyperhint/llm/__init__.py:250-255 | a chat is only routed to a running service that names its model: the last enabled service that does |
| Llm.DistinctLookup | backend/hyperhint/llm/__init__.py:95 | with distinct ids, looking up a service's id finds its own entry |
| Sse.StreamRegistry.constructor | backend/hyperhint/server/sse.py:16 | the registry of active streams starts empty |
| Sse.StreamRegistry.IsCancelled | backend/hyperhint/server/sse.py:133 | the check before a chunk cancels iff the stream id is non-empty, registered and flagged false; an unregistered id reads as still running |
| Sse.StreamRegistry.Start | backend/hyperhint/server/sse.py:172 | the chat endpoint registers the stream id as running, leaving every other entry as it was, so the stream is not cancelled |
| Sse.StreamRegistry.Stop | backend/hyperhint/server/sse.py:199-205 | the stop request finds the stream iff it names a non-empty registered id; then it flags it false and answers "Stream stopped successfully", otherwise the registry is unchanged and the answer is "Stream not found or already stopped" |
| Sse.StreamRegistry.Finish | backend/hyperhint/server/sse.py:152-155 | the generator's cleanup removes a non-empty stream id from the registry and changes nothing else; an empty id leaves the registry as it was |
| Sse.StopThenStart | backend/hyperhint/server/sse.py:172 | a stopped stream that is registered again under the same id runs again, whatever it was before |
| Sse.Forwards | backend/hyperhint/server/sse.py:138 | each chunk of the model's stream is forwarded as one event, in order |
| Sse.CancelPoint | backend/hyperhint/server/sse.py:133 | an empty or unregistered stream id is never cancelled |
| Sse.ForwardShape | backend/hyperhint/server/sse.py:131-141 | the forwarding loop yields at most one 'cancelled' event, always the last one; every event before it forwards the next chunk in order; the 'cancelled' event is there iff the cancel point lies before the end of the stream |
| Sse.UnregisteredForwardsAll | backend/hyperhint/server/sse.py:133 | a stream that is not (or no longer) registered forwards every chunk, whatever stop request arrives |
| Sse.Forward | backend/hyperhint/server/sse.py:131-141 | the loop yields the chunks up to the first check that finds the stream flagged, then one 'cancelled' event with "Generation stopped by user." and stops; it reports whether it was cancelled; a stop request can only flag a registered stream |
| Sse.ReplyHasNoActionEvents | backend/hyperhint/server/sse.py:131-150 | the model's stream, with or without an error, never yields an action event |
| Sse.AfterStopRemoved | backend/hyperhint/server/sse.py:152-155 | after the cleanup the registry is the starting one without the stream, whether or not a stop request flagged it |
| Sse.StreamReply | backend/hyperhint/server/sse.py:131-150 | the reply is the forwarded chunks, followed, when the model raised and the stream had not been cancelled, by one error event "LLM service error: ..." |
| Sse.FoundByName | backend/hyperhint/server/sse.py:113 | the memory item found by name is a memory item with that name; none is found only when no item has that name |
| Sse.MemoryText | backend/hyperhint/server/sse.py:113-116 | the memory fallback gives a file text only when the named item is found and its file reads as a non-empty text |
| Sse.ContextPiece | backend/hyperhint/server/sse.py:107-124 | a file attachment with content gives its "File:" block; one without content gives its "(from memory)" block when the memory holds its text and "(content not available)" otherwise; any other attachment type gives "Attachment: name (type)" |
| Sse.ContextPieces | backend/hyperhint/server/sse.py:100-124 | there is one context piece per attachment, in order, each as the rule for that attachment says |
| Sse.UploadedBlock | backend/hyperhint/server/sse.py:126-127 | no pieces add nothing; otherwise the block starts with the "Uploaded Files:" header |
| Sse.ChatMessage | backend/hyperhint/server/sse.py:96-128 | without attachments the model gets the user's message unchanged; with attachments it gets the message followed by the "Uploaded Files:" block |
| Sse.ContextPieceFor | backend/hyperhint/server/sse.py:104-124 | the piece computed for one attachment, reading the memory and the disk, is the one ContextPiece specifies |
| Sse.ChatContext | backend/hyperhint/server/sse.py:99-127 | the loop over the attachments builds exactly the uploaded-files block of their context pieces |
| Sse.RunSelectedAction | backend/hyperhint/server/sse.py:31-92 | an action yields 'action_start' then 'action_complete' carrying the action result (the handler's answer when it needs no disk write; memory and disk unchanged then; for a save, the saved reply with the free name, exactly that file written and the item added to memory when writing succeeds, and the failure reply with memory and disk unchanged when it fails); after add_knowledge the model is asked to confirm the note or the files when the result is a success and not asked otherwise; after any other action it is asked for a summary of the result's message |
| Sse.ActionStream | backend/hyperhint/server/sse.py:31-92 | the action path yields the two action events and no more action events; a failed add_knowledge ends with one 'complete' event and leaves the registry unchanged; otherwise the model's reply follows |
| Sse.PlainStream | backend/hyperhint/server/sse.py:94-141 | a normal chat sends the chat message with its attachments to the model and yields the model's reply |
| Sse.GenerateChatStream | backend/hyperhint/server/sse.py:19-155 | the generator ends with its stream removed from the registry; with an action it yields the action's two events then either 'complete' (failed add_knowledge) or the model's reply; without one it asks the model with the chat message and leaves memory and disk unchanged |
| Routes.CollectedContent | backend/hyperhint/server/routes.py:47-50 | the filename text is the concatenation of the content chunks' texts; a stream without content chunks gives the empty text |
| Routes.SpacesToUnderscores | backend/hyperhint/server/routes.py:54 | every space becomes an underscore and every other character is kept, at the same position |
| Routes.CleanFilename | backend/hyperhint/server/routes.py:54-56 | after stripping, lower-casing, replacing spaces, dropping everything but [a-z0-9_] and collapsing underscore runs, the text holds only [a-z0-9_] and never two underscores side by side |
| Routes.GeneratedFilename | backend/hyperhint/server/routes.py:54-59 | the answered filename is never empty, holds only [a-z0-9_], has no "__", and is "knowledge_file" exactly when sanitising left nothing |
| Routes.CleanNameFixed | backend/hyperhint/server/routes.py:54-59 | a non-empty name of [a-z0-9_] without "__" comes through the sanitiser unchanged |
| Routes.GeneratedFilenameIdempotent | backend/hyperhint/server/routes.py:54-59 | sanitising an answered filename again gives the same filename |
| Routes.SizeInfo | backend/hyperhint/server/routes.py:220 | the size note is empty iff the size is missing or zero, and otherwise reads " (N bytes)" |
| Routes.FileBlock | backend/hyperhint/server/routes.py:222 | an attachment's block starts with the line "File: name" plus its size note |
| Routes.ContentBlocks | backend/hyperhint/server/routes.py:213-223 | there is one block per attachment that has content |
| Routes.FullInputSpec | backend/hyperhint/server/routes.py:211-230 | the action's input is the user's text when no attachment has content, and otherwise the user's text followed by the "Attached Files" marker and the blocks |
| Routes.FormatFullInput | backend/hyperhint/server/routes.py:211-230 | the formatting loop builds exactly the specified input: the blocks of the attachments with content, in order, joined by blank lines between two rules of 50 '=' |
| Routes.ContentBlocksMeaning | backend/hyperhint/server/routes.py:219-223 | every attachment with content has its block in the input, and every block belongs to some attachment with content |
| Routes.AttachmentsDroppedByRoute | backend/hyperhint/server/routes.py:233 | the route runs the action without the attachments, so a note action saves the user's own text, stripped, whatever was attached, as long as that text does not run into the marker |
| Routes.FileContentAsWritten | backend/hyperhint/server/routes.py:77-83 | as written, a present file answers its content and a missing one answers 500 "Error reading file: 404: File not found" |
| Routes.MissingFileIsServerError | backend/hyperhint/server/routes.py:79-83 | as written, a missing file gets status 500 rather than the 404 the route raises |
| Routes.FileContentAnswer | backend/hyperhint/server/routes.py:78-81 | as intended, the answer is the content iff the file can be read, and otherwise 404 "File not found" |
| Routes.ActionIdGuardAsWritten | backend/hyperhint/server/routes.py:207-208 | as written, a missing, null or empty action id, and only that, answers 500 "Error executing action: 400: action_id is required" |
| Routes.MissingActionIdIsServerError | backend/hyperhint/server/routes.py:207-208 | as written, a missing or empty action id gets status 500, not 400 |
| Routes.ActionIdGuard | backend/hyperhint/server/routes.py:207-208 | as intended, a missing, null or empty action id, and only that, answers 400 "action_id is required" |
| Routes.GetFileContent | backend/hyperhint/server/routes.py:74-81 | GET /files/content answers the file's text iff the handler can read it, and 404 "File not found" otherwise |
| Routes.ExecuteActionRoute | backend/hyperhint/server/routes.py:199-234 | without an action id the answer is 400 and nothing is written; with one the action runs on the formatted input without attachments and its reply is the answer: a planned answer leaves memory and disk unchanged; a saved note is the text without the attachment block, written as exactly that file under a free name, added to memory and reported with that name; a failed write replies "Failed to save content" and changes nothing |
| Routes.MemoryStatsOf | backend/hyperhint/server/routes.py:113-118 | the memory statistics are the number of items and the numbers of file, folder and image items |
| Routes.KindCountsBounded | backend/hyperhint/server/routes.py:113-118 | the file, folder and image counts together never exceed the total number of items |
| Routes.ServiceStatOf | backend/hyperhint/server/routes.py:127-131 | a configured service is available iff it has a client and the client answers; its status reads "Available" or "Offline" accordingly, and its models are the configured ones |
| Routes.StatsOf | backend/hyperhint/server/routes.py:108-140 | /stats reports the memory statistics, the number of actions, the default model or "", the models of the model list, and one entry per configured service |
| Database.TasksQuery | backend/mcp/database.py:73-100 | the query is the base SELECT, then " WHERE " and the collected conditions joined by " AND " when there are any, then " ORDER BY created_at DESC"; the conditions and parameters are those of the status, priority, category and tag filters, in that order |
| Database.PlaceholdersMatchParams | backend/mcp/database.py:85-100 | for every filter, the number of `?` placeholders in the SELECT equals the number of parameters |
| Database.UnfilteredQuery | backend/mcp/database.py:75-100 | no filter object, or a filter whose fields are all None, empty or "all", gives "SELECT * FROM tasks ORDER BY created_at DESC" and no parameters |
| Database.QueryShape | backend/mcp/database.py:97-100 | the query starts with the base SELECT and ends with the ORDER BY clause; it is exactly those two when no condition was collected, and otherwise holds " WHERE " plus the " AND "-joined conditions between them |
| Database.StatusRule | backend/mcp/database.py:80-83 | "completed = 0" is a condition iff the status is "active", and "completed = 1" iff it is "completed"; any other status adds neither |
| Database.PriorityRule | backend/mcp/database.py:85-87 | "priority = ?" is a condition iff the priority is non-empty and not "all", and then the priority is the first parameter |
| Database.CategoryRule | backend/mcp/database.py:89-91 | "category = ?" is a condition iff the category is non-empty, and its value is the parameter right after the priority's, if any |
| Database.TagRule | backend/mcp/database.py:93-95 | "tags LIKE ?" is a condition iff the tag is non-empty, and then the last parameter is the tag wrapped as `%"tag"%` |
| Database.TagPatternInjective | backend/mcp/database.py:95 | different tags give different LIKE patterns |
| Database.BuildSetClauses | backend/mcp/database.py:160-175 | the loop over the update data gives one "field = ?" clause per entry, in order, and per entry the parameter: JSON text for tags, ISO text or NULL for the due date, ISO text for updated_at, the value itself otherwise |
| Database.UpdateTask | backend/mcp/database.py:148-184 | an unknown task id gives no statement and no result; an update that sets no field issues no UPDATE; otherwise the UPDATE assigns every set field plus updated_at, and its parameters are the converted values followed by the task id |
| Database.NothingSetNothingWritten | backend/mcp/database.py:155-156 | the update data is empty exactly when the request left every field unset |
| Database.ClausesMatchData | backend/mcp/database.py:163-175 | SET clause `i` assigns field `i` of the update data, and parameter `i` is that field's converted value |
| Database.UpdateEndsWithStamp | backend/mcp/database.py:157-177 | a non-empty update always ends its SET list with "updated_at = ?", bound to the update time, and the task id is the last parameter |
| Database.ClearedFieldWritesNull | backend/mcp/database.py:155-175 | a field explicitly set to None is still written: its clause is present and binds NULL |
| Database.UpdatePlaceholdersMatchParams | backend/mcp/database.py:163-182 | the UPDATE carries exactly one `?` per parameter, the task id included |
| Database.CreateTask | backend/mcp/database.py:35-51 | the new task is not completed, its creation and update times are the same clock reading, its id is the other clock reading in microseconds in decimal, and the other fields are those of the request |
| Database.InsertRow | backend/mcp/database.py:54-68 | the INSERT binds ten values in column order: the due date as ISO text or NULL and the tags as JSON text |
| Database.NewTaskRow | backend/mcp/database.py:44-63 | a newly created task is stored not completed, with equal creation and update times |
| Database.DistinctStampsDistinctIds | backend/mcp/database.py:37 | tasks created at different microsecond readings get different ids |
| ApiRoutes.QueryOf | frontend/src/app/api/actions/route.ts:7 | a missing query parameter reads as the empty query, a present one as it is |
| ApiRoutes.Route | frontend/src/app/api/actions/route.ts:9-43 | a successful backend answer is passed on unchanged; otherwise the answer is marked as fallback with the fixed error text and lists, in their order, exactly the built-in entries whose lower-cased caption or description contains the lower-cased query |
| ApiRoutes.EmptyQueryKeepsAll | frontend/src/app/api/actions/route.ts:33-36 | without a query, or with an empty one, the fallback lists every built-in entry in order |
| ApiRoutes.QueryCaseInsensitive | frontend/src/app/api/actions/route.ts:34-35 | an entry matches a query exactly when it matches the lower-cased query |
| ApiRoutes.UnmatchedQueryEmpty | frontend/src/app/api/actions/route.ts:33-36 | a query that no built-in caption or description contains gives an empty fallback list |
| ApiRoutes.ActionsRoute | frontend/src/app/api/actions/route.ts:5-44 | the backend's answer is passed on; without one the fallback holds at most the three built-in actions, all of them for an empty query |
| ApiRoutes.FilesRoute | frontend/src/app/api/files/route.ts:5-44 | the backend's answer is passed on; without one the fallback holds at most the three built-in files, all of them for an empty query |

## Left out

Back end:
- The routes that only pass data through are not modelled, because they add no logic of their own: GET /files, POST /files/content, /actions, /refresh, /models, /models/{id}/health, /models/refresh, /health, /services/* and /models/default.
- An explicit JSON `null` for `stream_id` or for an attachment field is not modelled. The model takes the field as present or absent.
- Exceptions other than the ones the routes raise themselves are not modelled, because they come from code outside this model.
- Request-body defaults set by the pydantic models are taken as already applied.
- `get_stream_status` is not modelled, because it uses `llm_manager.ollama`, an attribute the manager does not define.
- `test_service`, `get_model_health` and `save_config` are left out, because they are I/O against the services and the config file.
- `is_available` and `list_models` are oracles passed as parameters, because they call the services over the network.
- Concurrency of the stream registry is reduced to a `stopBefore` oracle. It says when a concurrent /stop lands; interleavings inside one step are not modelled.
- SSE framing is left out: the JSON encoding of events and their timestamps. Events are values of a datatype.
- The prompt texts sent to the language model are left out. The model's answers are parameters.
- SQLite execution and row decoding are not modelled. The model states only the statement text and its parameters.
- The `json.dumps` text of tags and ISO datetime strings are left out. Times are parameters.
- `delete_task` and `get_stats` in the task database are not modelled, because each is a single fixed statement with no construction logic.
- The `TodoCreate` defaults are taken as already applied.
- The `__str__`, `__repr__`, `__iter__` and `__contains__` methods of the memory types are left out, because they are presentation or Python protocol glue.
- The `collection` parameter of `add_knowledge` stands for the whole combined document it saves when files are attached (backend/hyperhint/memory/_actions.py:279-312), because only its analyses are written by a language model. The deterministic parts of that document are left out with it: the "# User Context" and "# File Collection Summary" headings, the file count, the total size formatted to two decimals in MB, the set of file types (a Python `set`, so in no fixed order), the per-file headings with sizes formatted to one decimal in KB, and the "### Original Content" sections.
- ServiceStatOf: a single `up` oracle stands for the two `is_available()` calls the /stats route makes for one service (backend/hyperhint/server/routes.py:128-129), so the model cannot show the two answers differing between the calls.
- The directory scan's filesystem calls are replaced by a given tree of entries.
- ReadSpec / ReadFileContent / WriteFileContent: the disk map is keyed by the path text after the leading "./" is dropped, with no further normalisation. The source joins the path with `pathlib` (backend/hyperhint/memory/_knowledge_files.py:213 and 266), which collapses "//", "/./" and a trailing "/", so for the path "notes//a.txt" the source reads or writes notes/a.txt while the model finds no file, answers None and fails the write. A file whose bytes do not decode as UTF-8 reads as None in the source (lines 255-257); the model's files hold text and always read. Writes (lines 271-272 and 140-141) store the content unchanged, as Python does on POSIX systems; on Windows it would write "\n" as "\r\n", which the model does not capture. Likewise `AddKnowledgeFile` treats the names "." and ".." as keys, where `pathlib` resolves them to existing directories.

Both ends:
- Character classes and case mapping are ASCII-only: Strings.IsJsSpace, Strings.IsPySpace, Strings.IsWordChar, Strings.Lower and the `\w` in Actions.UserNameBody. The source uses the Unicode-aware `lower()`, `strip()` and `\w` in Python and `toLowerCase()` and `trim()` in JavaScript, so for non-ASCII text the model differs: `'É'.lower()` in `generate_filename` gives "é" there and "É" here, and a non-ASCII query in the case-insensitive searches may match there and not here.

Front end:
- BuildFileTree: processes the items in the order given. The source first sorts them by path with `localeCompare` (frontend/src/components/KnowledgeSidebar.tsx:95-100), and that order decides which item creates a shared node, and so its kind and size, and whether a file is met before a path below it. The model therefore matches the source only for input already in `localeCompare` order of paths; the sort is left out because `localeCompare` depends on the locale's collation.
- `getLanguageFromExtension` is modelled without JavaScript prototype keys. The source's `languageMap[ext]` also finds keys such as "constructor"; the model's map holds only the listed entries.
- `handleGenerateFilename` in EnhancedInput.tsx is left out, because it is a fetch to /api/generate-filename.
- Textarea auto-resize, click-outside handling and alert texts are left out, because they are presentation only.
- `fetchSuggestions` is modelled as the `SuggestionRequest` it would send. The fetch itself is left out.
- EnhancedInput.StartTotal: counts an attachment whenever its `url` is present (`url.Some?`), because the model does not tell an empty url from a missing one; the source's `if (att.url)` also skips a present but empty url.
- The upload allowlist is a parameter of the screening lemmas. The 49-entry list is the constant the component uses.
- `getPriorityColor`, `getPriorityIcon`, `isOverdue` and the completion percentage on the tasks page are left out, because they are presentation only.
- The localStorage JSON decoding of tasks is left out. `Todos.TasksPage.constructor` takes the decoded list.
- Dates are strings or numbers given as parameters. The model does no calendar arithmetic.
- Todos.AddTodo / Todos.NewTodo / Todos.CardAdd: one clock reading `now` stands for the source's consecutive clock calls. The tasks page reads the clock three times, for the id and for `createdAt` and `updatedAt` (frontend/src/app/tasks/page.tsx:99-104). The card reads it twice, for the id and for `createdAt` (frontend/src/components/dashboard/TodoCard.tsx:59-62). If a millisecond passes between the calls, the source's id and stamps differ, while the model's are equal.
- ProcessChunk / HandleLines: one clock reading `now` stands for the per-notice `Date.now()` calls of a chunk's lines. The source reads the clock again for each 'cancelled' or 'error' notice (frontend/src/components/ChatInterface.tsx:234 and 249), so two notices in one chunk can get different ids there, while the model gives them the same id.
- `generateMockActivities` is left out, because it is random demo data.
- Only the five declared activity types are modelled. The activity page's default icon for any other type is unreachable.
- The FAQ grouping assumes categories are neither integer-like strings nor names that `Object.prototype` already provides. `Object.entries` lists integer-like keys first, in numeric order, and a category such as "constructor" or "toString" finds the inherited member in `acc[faq.category]`, so the source's `.push` throws. The FAQ list is a constant of the page holding neither kind.
- `removeService` and the `refreshModels` and `fetchServices` requests on the settings pages are left out, because they are I/O.
- `cancelTest` is modelled as a test outcome that threw "AbortError".
- The `String(error)` text of a thrown value that is not an `Error` is left out.
- `POST` on /api/actions and /api/files is left out, because it always answers 405 "Method not allowed".
- Rendering, styling and React re-render scheduling are not modelled anywhere. State updates apply in the order the handler issues them.

## Findings

| source | as written | input that shows it | evidently intended | confidence | as-written member | corrected member |
|---|---|---|---|---|---|---|
| backend/hyperhint/server/routes.py:77-83 | the 404 raised for a missing file is caught by the handler's own `except Exception` and re-raised as 500 "Error reading file: 404: File not found" | GET /files/content?path=x where no file x exists | answer 404 "File not found" | high (not executed) | Routes.FileContentAsWritten | Routes.FileContentAnswer |
| backend/hyperhint/memory/_actions.py:163-167 | `execute_action` runs inside the server's event loop, so `asyncio.run(generate_filename())` raises before the model is asked and the `except` always takes the fallback name; the same `asyncio.run` at lines 260 and 353 discards the file analyses and the summary | POST /actions/execute for add_knowledge without a filename, on any input whose model answer would clean to a name other than the fallback | the model's answer names the file | medium (not executed) | Actions.AnswerLostAsWritten | Actions.GeneratedBase |
| backend/hyperhint/server/routes.py:207-208 | the 400 raised for a missing action id is caught by the handler's own `except Exception` and re-raised as 500 "Error executing action: 400: action_id is required" | POST /actions/execute with body {} | answer 400 "action_id is required" | high (not executed) | Routes.ActionIdGuardAsWritten | Routes.ActionIdGuard |
