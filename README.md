# Franklin's Bids: a verified model of the window store, the gesture controller and the agent engine

Franklin's Bids is a browser workspace for construction estimating. Floating
windows (the file vault, the chat oracle, the discipline control panel, the
acoustic link and the system log) are kept in one store and moved, resized,
focused and toggled through a reducer. A chat message goes through a small
"kernel": the request is authorized, executed by a registered engine, then
observed and signed. Each step leaves an audit event, and the audit events
are mirrored into the system log. Premium agents are locked for unsubscribed
users. Uploaded blueprints can be attached to the chat and used to "train"
the active node's DNA. A separate static page (the Bid Zone listing) shows
sample auctions with a countdown.

This project models these parts in Dafny and proves what they promise:

- **Types** models the shared records: windows, users, chat messages, nodes, file metadata and the closed set of agents.
- **NeuralContext** models the store's reducer as a pure function over the state, with its window, log and node actions.
- **AppController** models the main layout as a class:
  - the two gesture snapshots that mouse-down arms, mouse-move reads and mouse-up clears;
  - the send button's guard.
- **KernelService** models the kernel singleton as a class:
  - an engine map and an append-only audit log;
  - authorize, register, execute, observe, adapt and sign;
  - the whole request pipeline.
- **NeuralEngine** models the engine hook as a class:
  - the premium gate;
  - message sending, with the optimizer and inference requests;
  - node training;
  - the audit lines the hook mirrors into the log.
- **GeminiService** models the AI client's pure and loop-based parts:
  - history preparation;
  - the agent routing table;
  - attaching files to a request;
  - assembling the reply.
  The SDK call itself is outside the model.
- **TerminalPanel** models the system log's command history, kept as a small state machine, and how log lines are classified.
- **FileService** models the export helpers: markdown cleaning, PDF pagination and the rows of the spreadsheet export.
- **FilePort** models the file vault:
  - file-extension languages;
  - the file list, with its progress and preview updates;
  - the simulated progress formula;
  - how an uploaded archive settles, as written and with its failure handled;
  - the manifest view.
- **ApiService** models the backend client: response checks, the project listing, and the mocked account store kept in one browser-storage slot.
- **ModelOrchestrator** models the agent panel:
  - the agent table and the active-agent lookup;
  - the lock rule, the upgrade button and the label formatting;
  - the numbered lines of the DNA view.
- **Countdown** models the Bid Zone page's remaining-time label, its cards and its bid button.
- **Strings** and **Wrappers** hold the JavaScript string operations used throughout (`trim`, `split`, `padStart`, number formatting) and `Option`/`Result`.

Clocks, random ids, the kernel hash, signatures and the results of network
or SDK calls enter as parameters. Each handler is one sequential step.

## Model

| member | source | states |
|---|---|---|
| Types.AgentSetIsClosed | franklins-bids-unified-enterprise-platform/types.ts:2-17 | the agent union has exactly fifteen members, each listed once, every agent is among them, and agents with the same name are the same agent |
| Types.NameFixesModel | franklins-bids-unified-enterprise-platform/types.ts:2-17 | two agents whose string names are equal are the same agent |
| NeuralContext.LastFifty | franklins-bids-unified-enterprise-platform/context/NeuralContext.tsx:77 | `slice(-50)` keeps at most fifty entries: all of them when fewer, otherwise exactly fifty (that they are the newest ones is LastFiftySuffix) |
| NeuralContext.LastFiftySuffix | franklins-bids-unified-enterprise-platform/context/NeuralContext.tsx:77 | the kept entries are the last ones of the log, in their order |
| NeuralContext.MapMatching | franklins-bids-unified-enterprise-platform/context/NeuralContext.tsx:85-98 | the map keeps the length and changes exactly the records whose id matches, each by the given update |
| NeuralContext.MaxZ | franklins-bids-unified-enterprise-platform/context/NeuralContext.tsx:94 | the value is at least 10 and at least every zIndex, and it is either 10 or some window's zIndex |
| NeuralContext.Reduce | franklins-bids-unified-enterprise-platform/context/NeuralContext.tsx:72-107 | no action changes the number of windows; only the three window actions touch the list; only TOGGLE and FOCUS set the active window; only ADD_LOG touches the log; only UPDATE_ACTIVE_NODE touches the node |
| NeuralContext.ReduceAll | franklins-bids-unified-enterprise-platform/context/NeuralContext.tsx:72-107 | dispatching actions in turn keeps the number of windows; without an ADD_LOG the logs, without an UPDATE_ACTIVE_NODE the active node, and without a window action the windows are unchanged |
| NeuralContext.AppendEntriesSuffix | franklins-bids-unified-enterprise-platform/context/NeuralContext.tsx:77 | after ADD_LOG one entry at a time, the log is a suffix of the old log followed by the new entries, holding min(total, 51) entries |
| NeuralContext.AppendEntriesLength | franklins-bids-unified-enterprise-platform/context/NeuralContext.tsx:77 | each appended entry grows the log by one until it holds 51, and then it stays at 51 |
| NeuralContext.AppendEntriesTail | franklins-bids-unified-enterprise-platform/context/NeuralContext.tsx:77 | the log after appending is the end of the old log followed by the new entries |
| NeuralContext.AppendEntriesNewest | franklins-bids-unified-enterprise-platform/context/NeuralContext.tsx:77 | when at most 51 entries are appended, they are exactly the newest entries of the log |
| NeuralContext.Entries | franklins-bids-unified-enterprise-platform/context/NeuralContext.tsx:77 | one log entry per message, in order, each `[time] message` |
| NeuralContext.AppendEntriesConcat | franklins-bids-unified-enterprise-platform/context/NeuralContext.tsx:77 | appending two batches of entries one after the other equals appending their concatenation |
| NeuralContext.LogMore | franklins-bids-unified-enterprise-platform/context/NeuralContext.tsx:77 | logging some messages and then more equals logging all of them at once |
| NeuralContext.LogActions | franklins-bids-unified-enterprise-platform/context/NeuralContext.tsx:111 | `addLog` dispatches one ADD_LOG action per message, in order |
| NeuralContext.LogLines | franklins-bids-unified-enterprise-platform/context/NeuralContext.tsx:77 | dispatching those ADD_LOG actions changes only the log, which becomes the old log with the entries appended |
| NeuralContext.FindWindow | franklins-bids-unified-enterprise-platform/App.tsx:132-139 | `find` returns a window with the id that no earlier window shares, that is the first match, or nothing exactly when none has it |
| NeuralContext.FocusRaisesTarget | franklins-bids-unified-enterprise-platform/context/NeuralContext.tsx:93-99 | FOCUS sets the active id and changes only the target's zIndex, to a value above every window's zIndex and at least 11; other records are unchanged |
| NeuralContext.LaterFocusWins | franklins-bids-unified-enterprise-platform/context/NeuralContext.tsx:93-99 | of two windows focused one after the other, the later one ends strictly above the earlier and is active |
| NeuralContext.UnknownIdLeavesWindows | franklins-bids-unified-enterprise-platform/context/NeuralContext.tsx:82-99 | an unknown id leaves the list unchanged under TOGGLE, FOCUS and UPDATE; TOGGLE and FOCUS still make that id active |
| NeuralContext.ToggleExplicitSets | franklins-bids-unified-enterprise-platform/context/NeuralContext.tsx:82-87 | TOGGLE with `open` sets isOpen to it on the matching records only and makes the id active, even when closing |
| NeuralContext.ToggleExplicitIdempotent | franklins-bids-unified-enterprise-platform/context/NeuralContext.tsx:82-87 | closing (or opening) twice gives the same state as doing it once |
| NeuralContext.ToggleTwiceRestores | franklins-bids-unified-enterprise-platform/context/NeuralContext.tsx:82-87 | TOGGLE without `open` flips isOpen, so two toggles restore the window list |
| NeuralContext.UpdateMergesPatch | franklins-bids-unified-enterprise-platform/context/NeuralContext.tsx:88-92 | UPDATE keeps the number of windows and the active id; in each matching record every one of the ten fields takes the patch's value when present and keeps its old value when absent; other records are unchanged |
| NeuralContext.MergeWindow | franklins-bids-unified-enterprise-platform/context/NeuralContext.tsx:90 | each of the ten fields comes from the patch when the patch has it and from the window otherwise; the empty patch changes nothing |
| NeuralContext.UpdateDoesNotClamp | franklins-bids-unified-enterprise-platform/context/NeuralContext.tsx:88-92 | any width, however small or negative, is stored as given |
| NeuralContext.MaximizeRestoreRoundTrip | franklins-bids-unified-enterprise-platform/context/NeuralContext.tsx:88-92 | maximizing then restoring leaves the geometry exactly as before and only isMaximized false |
| NeuralContext.WindowActionsKeepIds | franklins-bids-unified-enterprise-platform/context/NeuralContext.tsx:85-98 | every action keeps the list length and the id order, provided an UPDATE patch carries no id |
| NeuralContext.UpdateCanRename | franklins-bids-unified-enterprise-platform/context/NeuralContext.tsx:88-92 | a patch that carries an id renames the matching window, so the id order is not kept in general |
| NeuralContext.AddLogBounded | franklins-bids-unified-enterprise-platform/context/NeuralContext.tsx:76-77 | ADD_LOG keeps the last ≤50 earlier entries and appends the new one last, so the log has at most 51 entries |
| NeuralContext.MergeNode | franklins-bids-unified-enterprise-platform/context/NeuralContext.tsx:79 | `{...activeNode, ...payload}`: each of the eight node fields takes the patch's value when the patch carries it and keeps the old value otherwise; the empty patch changes nothing |
| NeuralContext.UpdateActiveNodeOnlyNode | franklins-bids-unified-enterprise-platform/context/NeuralContext.tsx:78-79 | UPDATE_ACTIVE_NODE changes only the active node; in it, every field the patch carries takes the patch's value and every other field is kept |
| NeuralContext.UnrecognisedIsIdentity | franklins-bids-unified-enterprise-platform/context/NeuralContext.tsx:104-105 | an unknown action type returns the state unchanged |
| NeuralContext.InitialWindowsShape | franklins-bids-unified-enterprise-platform/context/NeuralContext.tsx:27-64 | five windows with distinct ids; chat is active at zIndex 10 and the others are at 5; live and terminal start closed; one log entry |
| AppController.DragPatch | franklins-bids-unified-enterprise-platform/App.tsx:146-153 | a drag move patches only x and y, each moved from the window's origin by exactly the pointer's delta |
| AppController.ResizePatch | franklins-bids-unified-enterprise-platform/App.tsx:154-161 | a resize move patches only width and height, each the size plus the delta but never below 300 by 200 |
| AppController.MoveDispatches | franklins-bids-unified-enterprise-platform/App.tsx:145-162 | a move dispatches nothing when neither snapshot is armed and one update per armed snapshot, the drag first |
| AppController.DragExample | franklins-bids-unified-enterprise-platform/App.tsx:146-153 | start (100,100), window (50,50), pointer (130,115) asks for (80,65) |
| AppController.ResizeMoveKeepsMinimum | franklins-bids-unified-enterprise-platform/App.tsx:154-161 | after a resize move the window is at least 300 by 200 and has not moved |
| AppController.DragMoveKeepsSize | franklins-bids-unified-enterprise-platform/App.tsx:146-153 | a drag move never changes any window's size, and the dragged window's x becomes its origin plus the pointer's horizontal delta |
| AppController.MainLayout.constructor | franklins-bids-unified-enterprise-platform/App.tsx:37-44 | the layout starts with both snapshots empty and an empty input |
| AppController.MainLayout.Dispatch | franklins-bids-unified-enterprise-platform/context/NeuralContext.tsx:110 | a dispatch replaces the store by the reducer's result |
| AppController.MainLayout.OnDragStart | franklins-bids-unified-enterprise-platform/App.tsx:131-136 | an unknown or maximized window is refused with nothing dispatched and the snapshot unchanged; otherwise FOCUS is dispatched, then the pointer start and window origin are stored |
| AppController.MainLayout.OnResizeStart | franklins-bids-unified-enterprise-platform/App.tsx:138-143 | the same guard; otherwise FOCUS, then the pointer start and the window size are stored |
| AppController.MainLayout.HandleMouseMove | franklins-bids-unified-enterprise-platform/App.tsx:145-162 | the store becomes the result of dispatching exactly the move's updates, in order |
| AppController.MainLayout.HandleMouseUp | franklins-bids-unified-enterprise-platform/App.tsx:164-168 | mouse-up anywhere clears both snapshots, so later moves dispatch nothing |
| AppController.ReleaseEndsGesture | franklins-bids-unified-enterprise-platform/App.tsx:145-168 | after a drag is released a further mouse move leaves the store unchanged |
| AppController.MainLayout.HandleSendMessage | franklins-bids-unified-enterprise-platform/App.tsx:88-94 | a blank input or a loading reply sends nothing and keeps the input; otherwise the untrimmed input is sent and the box cleared |
| GeminiService.CleanedFilters | franklins-bids-unified-enterprise-platform/services/geminiService.ts:52 | the filter keeps only messages with non-blank content or a media URL, drops none of those, and adds nothing (CleanedConcat and CleanedSingle give it message by message) |
| GeminiService.CleanedAllKept | franklins-bids-unified-enterprise-platform/services/geminiService.ts:52 | a history whose messages all pass is returned unchanged |
| GeminiService.CleanedConcat | franklins-bids-unified-enterprise-platform/services/geminiService.ts:52 | filtering two histories one after the other gives the filtered first followed by the filtered second |
| GeminiService.CleanedSingle | franklins-bids-unified-enterprise-platform/services/geminiService.ts:52 | one message is kept exactly when it has non-blank content or a media URL |
| GeminiService.TurnTexts | franklins-bids-unified-enterprise-platform/services/geminiService.ts:65 | one text per merged entry, in order |
| GeminiService.Contents | franklins-bids-unified-enterprise-platform/services/geminiService.ts:61-65 | one content string per message, in order |
| GeminiService.MergeStepShape | franklins-bids-unified-enterprise-platform/services/geminiService.ts:56-67 | one loop step keeps the roles alternating and adds at most one entry, which is in the message's role |
| GeminiService.MergedShape | franklins-bids-unified-enterprise-platform/services/geminiService.ts:56-67 | the merged list alternates roles, is no longer than the input, is empty only for an empty input, and starts and ends in the first and last message's roles |
| GeminiService.MergeStepText | franklins-bids-unified-enterprise-platform/services/geminiService.ts:58-65 | one step adds the message's content, after a newline, to the joined texts |
| GeminiService.MergedKeepsText | franklins-bids-unified-enterprise-platform/services/geminiService.ts:56-67 | the merge loses no text: its entries joined by newlines equal all the contents joined by newlines |
| GeminiService.MergedAlternating | franklins-bids-unified-enterprise-platform/services/geminiService.ts:56-67 | a history whose roles already alternate becomes one entry per message |
| GeminiService.AsContents | franklins-bids-unified-enterprise-platform/services/geminiService.ts:65 | each entry becomes a request content with its role and exactly one text part |
| GeminiService.LastFifteen | franklins-bids-unified-enterprise-platform/services/geminiService.ts:70 | `slice(-15)` is the last min(n, 15) entries |
| GeminiService.DropLeadingModel | franklins-bids-unified-enterprise-platform/services/geminiService.ts:69 | the list is kept, or a leading model entry is removed |
| GeminiService.SuffixAlternates | franklins-bids-unified-enterprise-platform/services/geminiService.ts:69-70 | dropping a prefix keeps an alternating list alternating |
| GeminiService.AsContentsWellFormed | franklins-bids-unified-enterprise-platform/services/geminiService.ts:65 | alternating entries become well-formed contents: one text part each and no neighbours in one role |
| GeminiService.DropLeadingModelShape | franklins-bids-unified-enterprise-platform/services/geminiService.ts:69 | after the shift the list still alternates and, when not empty, starts with the user |
| GeminiService.KeptTurnsShape | franklins-bids-unified-enterprise-platform/services/geminiService.ts:69-70 | at most fifteen alternating entries survive, starting with the user whenever the merge had at most fifteen |
| GeminiService.PreparedHistoryShape | franklins-bids-unified-enterprise-platform/services/geminiService.ts:51-71 | the prepared history has at most fifteen well-formed entries and starts with the user when nothing was sliced off |
| GeminiService.SliceCanStartWithModel | franklins-bids-unified-enterprise-platform/services/geminiService.ts:69-70 | sixteen alternating messages starting with the user give fifteen entries that start with the model |
| GeminiService.StepContents | franklins-bids-unified-enterprise-platform/services/geminiService.ts:58-66 | on request contents one step either extends the last entry's text or pushes a new entry |
| GeminiService.AsContentsSuffix | franklins-bids-unified-enterprise-platform/services/geminiService.ts:69 | converting a suffix equals taking the suffix of the converted list |
| GeminiService.AsContentsLastFifteen | franklins-bids-unified-enterprise-platform/services/geminiService.ts:70 | slicing commutes with converting to contents |
| GeminiService.PrepareHistory | franklins-bids-unified-enterprise-platform/services/geminiService.ts:51-71 | the loop with its in-place text update returns exactly the specified prepared history: at most fifteen well-formed entries |
| GeminiService.PreparedHistory | franklins-bids-unified-enterprise-platform/services/geminiService.ts:51-71 | the prepared history holds at most fifteen entries, each a single text part, and neighbouring entries have different roles |
| GeminiService.MergeInto | franklins-bids-unified-enterprise-platform/services/geminiService.ts:56-66 | one loop iteration turns the contents of the merged prefix into the contents of the merge with one more message, and tracks the last role |
| GeminiService.ParseAlias | franklins-bids-unified-enterprise-platform/services/geminiService.ts:111 | an alias is read as the agent whose name it is |
| GeminiService.ParseAliasNone | franklins-bids-unified-enterprise-platform/services/geminiService.ts:243-244 | no agent is found exactly when no agent has that name |
| GeminiService.FindByName | franklins-bids-unified-enterprise-platform/services/geminiService.ts:111 | the search finds an agent with the name, or reports that none in the list has it |
| GeminiService.ParseAliasOfName | franklins-bids-unified-enterprise-platform/services/geminiService.ts:111 | every agent's own name routes to that agent |
| GeminiService.OrDefault | franklins-bids-unified-enterprise-platform/services/geminiService.ts:191-192 | `x \|\| fallback` gives the fallback or a present non-empty value |
| GeminiService.UnknownAliasDefaults | franklins-bids-unified-enterprise-platform/services/geminiService.ts:243-244 | an unknown alias routes to gemini-3-flash-preview with no thinking budget, no search and no image settings |
| GeminiService.ConfigureOfName | franklins-bids-unified-enterprise-platform/services/geminiService.ts:111-245 | an agent's own name selects exactly that agent's configuration |
| GeminiService.ConfigureFields | franklins-bids-unified-enterprise-platform/services/geminiService.ts:97-245 | an agent's own name sets its model, thinking budget, search tool, image settings and profile, over the context DNA or `EMPTY_DNA` |
| GeminiService.Configure | franklins-bids-unified-enterprise-platform/services/geminiService.ts:97-245 | the DNA is the given one or `EMPTY_DNA`; a profile is chosen exactly when the alias names an agent; a thinking budget only goes with the pro model and an image configuration only with the image model |
| GeminiService.ThinkingBudgetTable | franklins-bids-unified-enterprise-platform/services/geminiService.ts:111-245 | the budget is 32768 exactly for master, oracle and project manager, 16000 exactly for structural, MEP, risk and geotech, and absent otherwise |
| GeminiService.SearchToolTable | franklins-bids-unified-enterprise-platform/services/geminiService.ts:130-156 | web search is on exactly for the project manager, land procurement and environmental agents |
| GeminiService.ImageDefaults | franklins-bids-unified-enterprise-platform/services/geminiService.ts:188-223 | only the two image agents get image settings: without options, 16:9 or 1:1 and size 1K |
| GeminiService.InlinePayload | franklins-bids-unified-enterprise-platform/services/geminiService.ts:258 | the inline data holds no comma; data without a comma is sent whole, and data with one is the second comma-separated piece |
| GeminiService.FilePart | franklins-bids-unified-enterprise-platform/services/geminiService.ts:250-266 | a file gives a part exactly when it has data: inline data with the default mime type for media, else a text part made of the `[CRITICAL_SPEC_ARTIFACT: <name>]` header line followed by the first 40000 characters (the source counts UTF-16 code units; see Left out) |
| GeminiService.FileParts | franklins-bids-unified-enterprise-platform/services/geminiService.ts:250-267 | at most one part per file, and none exactly when no file has data |
| GeminiService.AttachFiles | franklins-bids-unified-enterprise-platform/services/geminiService.ts:248-268 | the loop over the files, pushing parts onto the last turn, returns exactly the specified attachment result |
| GeminiService.AttachedMeaning | franklins-bids-unified-enterprise-platform/services/geminiService.ts:248-268 | an empty history with a file that has data fails (the last message does not exist); otherwise every turn but the last is kept and the last gains the files' parts in order |
| GeminiService.FilePartsEmpty | franklins-bids-unified-enterprise-platform/services/geminiService.ts:250-251 | no file contributes a part exactly when no file has data |
| GeminiService.AppendFilePart | franklins-bids-unified-enterprise-platform/services/geminiService.ts:252-264 | one step for a file with data pushes exactly that file's part: inline data for media, a tagged note otherwise |
| GeminiService.ChunkUrls | franklins-bids-unified-enterprise-platform/services/geminiService.ts:287-288 | a chunk gives one URL per truthy URI, the maps URI first and the web URI last, none of them empty |
| GeminiService.GroundingUrls | franklins-bids-unified-enterprise-platform/services/geminiService.ts:284-290 | at most two URLs per chunk, none of them empty; GroundingUrlsAt places each chunk's URLs between those of the chunks before and after it |
| GeminiService.GroundingUrlsConcat | franklins-bids-unified-enterprise-platform/services/geminiService.ts:286-289 | the URLs of two chunk lists are those of the first followed by those of the second, so chunk order is kept |
| GeminiService.GroundingUrlsAt | franklins-bids-unified-enterprise-platform/services/geminiService.ts:286-289 | the URLs of the chunks are those of the chunks before any one of them, then its own, then those of the chunks after it |
| GeminiService.GroundingUrlsAround | franklins-bids-unified-enterprise-platform/services/geminiService.ts:286-289 | the URLs of a chunk list split around one chunk are the URLs of the three pieces in order |
| GeminiService.LastBlob | franklins-bids-unified-enterprise-platform/services/geminiService.ts:277-282 | the kept inline data is that of some part after which no part has any, and none is kept exactly when no part has any |
| GeminiService.ScanParts | franklins-bids-unified-enterprise-platform/services/geminiService.ts:277-282 | the loop over the response parts leaves the data URL of the last part with inline data, typed image, and nothing when no part has inline data |
| GeminiService.CollectUrls | franklins-bids-unified-enterprise-platform/services/geminiService.ts:284-290 | the loop over the grounding chunks collects exactly GroundingUrls: each truthy maps URI before its web URI, in chunk order |
| GeminiService.AssembleReply | franklins-bids-unified-enterprise-platform/services/geminiService.ts:272-308 | a first candidate whose content has no `parts` fails with the TypeError, which is rethrown; otherwise the reply text is the trimmed response text, with no whitespace at either end; an image URL is set exactly when a part had inline data, and it is the last such part's; the grounding URLs are those of the chunks, one per truthy URI in chunk order; the metrics are the three token counts exactly when the response has usage metadata |
| TerminalPanel.PushHistory | franklins-bids-unified-enterprise-platform/components/TerminalPanel.tsx:30 | the command goes first, the older entries follow in order, and at most fifty are kept |
| TerminalPanel.AfterKey | franklins-bids-unified-enterprise-platform/components/TerminalPanel.tsx:26-63 | only Enter changes the history; Enter either changes nothing or records the command at the front and clears the prompt |
| TerminalPanel.KeyKeepsValid | franklins-bids-unified-enterprise-platform/components/TerminalPanel.tsx:26-63 | every key press keeps the cursor at -1 or inside the history and the history at most fifty long |
| TerminalPanel.EnterBlankIgnored | franklins-bids-unified-enterprise-platform/components/TerminalPanel.tsx:27-28 | Enter on a blank command changes nothing and sends nothing |
| TerminalPanel.EnterRecordsCommand | franklins-bids-unified-enterprise-platform/components/TerminalPanel.tsx:27-39 | Enter on a non-blank command sends it untrimmed, puts it first in the history (at most fifty kept), stops browsing, forgets the draft and clears the prompt |
| TerminalPanel.ArrowUpBrowses | franklins-bids-unified-enterprise-platform/components/TerminalPanel.tsx:40-50 | with an empty history nothing changes; otherwise the cursor moves one entry older, stopping at the oldest, that entry is shown, and the draft is saved only when browsing starts |
| TerminalPanel.ArrowDownBrowses | franklins-bids-unified-enterprise-platform/components/TerminalPanel.tsx:51-61 | the cursor moves one entry newer and shows it; stepping past the newest ends browsing and shows the saved draft |
| TerminalPanel.UpThenDownRestoresDraft | franklins-bids-unified-enterprise-platform/components/TerminalPanel.tsx:40-61 | Up then Down from the resting prompt gives back exactly what was being typed |
| TerminalPanel.DownAtRestShowsDraft | franklins-bids-unified-enterprise-platform/components/TerminalPanel.tsx:51-57 | Down at the resting prompt replaces the typed command by the saved draft |
| TerminalPanel.Terminal.constructor | franklins-bids-unified-enterprise-platform/components/TerminalPanel.tsx:16-19 | the prompt starts empty, with no history, not browsing and no draft |
| TerminalPanel.Terminal.Type | franklins-bids-unified-enterprise-platform/components/TerminalPanel.tsx:128 | typing replaces the command and nothing else |
| TerminalPanel.Terminal.HandleKeyDown | franklins-bids-unified-enterprise-platform/components/TerminalPanel.tsx:26-63 | the field-by-field handler leaves exactly the state of the key-press specification, keeps it valid, and sends exactly the specified command |
| TerminalPanel.SessionSend | franklins-bids-unified-enterprise-platform/components/TerminalPanel.tsx:27-39 | Enter on `ls` sends `ls`, clears the prompt and records `ls` as the only history entry |
| TerminalPanel.SessionBrowse | franklins-bids-unified-enterprise-platform/components/TerminalPanel.tsx:40-61 | ArrowUp over the draft `dr` shows `ls` and saves the draft; ArrowDown then shows `dr` again and ends browsing |
| TerminalPanel.BrowsingSession | franklins-bids-unified-enterprise-platform/components/TerminalPanel.tsx:26-63 | on one terminal, sending `ls`, typing `dr`, then up and down sends `ls`, shows `ls` and restores the draft `dr` |
| TerminalPanel.Classify | franklins-bids-unified-enterprise-platform/components/TerminalPanel.tsx:105-112 | a line is input exactly when it holds `> `; error exactly when it does not but holds ERR or INTERRUPT; success exactly when it holds neither but holds COMPLETE or SYNC |
| TerminalPanel.ContainsAfterPrefix | franklins-bids-unified-enterprise-platform/components/TerminalPanel.tsx:107 | a substring stays a substring with text put before it |
| TerminalPanel.EchoedCommandIsInput | franklins-bids-unified-enterprise-platform/components/TerminalPanel.tsx:105-112 | a logged `> command` line is coloured as input, whatever the command says |
| TerminalPanel.LineNumber | franklins-bids-unified-enterprise-platform/components/TerminalPanel.tsx:111 | the line number has at least three characters, ends in the index's digits, and has exactly three below 1000 |
| KernelService.ObservedQuality | franklins-bids-unified-enterprise-platform/services/kernelService.ts:112 | the observed quality is always truthy: the result's own quality when truthy, otherwise 1.0 |
| KernelService.NatToStringInjective | franklins-bids-unified-enterprise-platform/services/kernelService.ts:74 | two indices with the same key are the same index |
| KernelService.CharFieldsKeys | franklins-bids-unified-enterprise-platform/services/kernelService.ts:74 | spreading a string gives exactly its index keys, one per character (the source has one per UTF-16 code unit; see Left out) |
| KernelService.CharFieldsValues | franklins-bids-unified-enterprise-platform/services/kernelService.ts:74 | each index key holds the one-character string at that index (a code unit in the source; see Left out) |
| KernelService.Sign | franklins-bids-unified-enterprise-platform/services/kernelService.ts:73-78 | the signed copy is an object with the spread fields plus `_signed_by` FRANKLIN and `_signature`, and every other spread field is kept |
| KernelService.SignKeepsObjectFields | franklins-bids-unified-enterprise-platform/services/kernelService.ts:73-78 | signing an object keeps each of its own fields other than the two signature fields |
| KernelService.SignedStringHasNoText | franklins-bids-unified-enterprise-platform/services/kernelService.ts:73-78 | a signed string result has no `text` field |
| KernelService.KernelRegistry.constructor | franklins-bids-unified-enterprise-platform/services/kernelService.ts:27-40 | the single registry starts with no engines, an empty audit log and the computed hash |
| KernelService.KernelRegistry.Audit | franklins-bids-unified-enterprise-platform/services/kernelService.ts:47-58 | exactly one event is appended, stamped with the time and the kernel hash |
| KernelService.Authorize | franklins-bids-unified-enterprise-platform/services/kernelService.ts:62-71 | the intent is authorized exactly when it is not empty; a refusal logs nothing, an authorization logs one governance event |
| KernelService.RegisterEngine | franklins-bids-unified-enterprise-platform/services/kernelService.ts:82-89 | the handler is stored under its name, replacing any earlier one, and one registration event is logged |
| KernelService.Execute | franklins-bids-unified-enterprise-platform/services/kernelService.ts:91-104 | an engine with no own entry in the registry fails with the not-registered message and logs nothing; a registered one logs its task and returns the handler's outcome (names inherited from `Object.prototype` are not modelled; see Left out) |
| KernelService.Observe | franklins-bids-unified-enterprise-platform/services/kernelService.ts:108-114 | one evolution event carrying the observed quality is logged |
| KernelService.Adapt | franklins-bids-unified-enterprise-platform/services/kernelService.ts:116-121 | one adaptation event is logged |
| KernelService.Stamp | franklins-bids-unified-enterprise-platform/services/kernelService.ts:47-53 | one stored event per body, in order, all with the same time and hash |
| KernelService.StampShapes | franklins-bids-unified-enterprise-platform/services/kernelService.ts:47-53 | one, two or three bodies are stored as exactly that many events, in order, with the same time and hash |
| KernelService.RequestEventsOrdered | franklins-bids-unified-enterprise-platform/services/kernelService.ts:124-133 | a request logs at most three events, governance then orchestration then evolution; it succeeds exactly when all three are logged; an empty intent logs none and fails with the governance error |
| KernelService.HandleKernelRequest | franklins-bids-unified-enterprise-platform/services/kernelService.ts:124-133 | the result is the specified outcome (refused, not registered, the engine's error, or the signed result) and the audit log grows by exactly the specified events, with RequestOutcome's treatment of engine names |
| KernelService.RequestOutcome | franklins-bids-unified-enterprise-platform/services/kernelService.ts:124-133 | an empty intent is unauthorized, an engine with no own entry is not registered (names inherited from `Object.prototype` aside; see Left out), and the request succeeds exactly when the intent is set, the engine is registered and its handler succeeds |
| KernelService.NullEngineRequest | franklins-bids-unified-enterprise-platform/services/kernelService.ts:136 | a request to the bootstrap engine succeeds with `output` "ack" and observes quality 1.0 |
| KernelService.Bootstrap | franklins-bids-unified-enterprise-platform/services/kernelService.ts:135-136 | at load the only engine is `null` and its registration is the first audit event |
| FileService.Repeat | franklins-bids-unified-enterprise-platform/services/fileService.ts:18-20 | the pattern `**` or three backticks as k copies of one character |
| FileService.LeadingRun | franklins-bids-unified-enterprise-platform/services/fileService.ts:17 | the length of the run of one character the string starts with, and the character after it differs |
| FileService.StartsWithRun | franklins-bids-unified-enterprise-platform/services/fileService.ts:18-20 | a string starts with k copies of c exactly when its leading run is at least k |
| FileService.RemoveAll | franklins-bids-unified-enterprise-platform/services/fileService.ts:18-20 | a global removal never makes the string longer |
| FileService.RemoveAllAbsent | franklins-bids-unified-enterprise-platform/services/fileService.ts:18-20 | a string without the pattern comes out unchanged |
| FileService.RemoveRunLeading | franklins-bids-unified-enterprise-platform/services/fileService.ts:18-20 | a leading run shorter than the pattern is left as it is |
| FileService.RemoveRunComplete | franklins-bids-unified-enterprise-platform/services/fileService.ts:18-20 | after the removal no position starts the pattern, so `**` and fences are gone for good |
| FileService.StripHeadings | franklins-bids-unified-enterprise-platform/services/fileService.ts:17 | removing heading marks never makes the string longer |
| FileService.StripHeadingsFirst | franklins-bids-unified-enterprise-platform/services/fileService.ts:17 | text not starting with `#` keeps its first character |
| FileService.StripHeadingsComplete | franklins-bids-unified-enterprise-platform/services/fileService.ts:17 | no `#` in the output is directly followed by whitespace |
| FileService.LowerRun | franklins-bids-unified-enterprise-platform/services/fileService.ts:19 | the length of the leading run of lower-case ASCII letters, the `[a-z]*` of the fence pattern |
| FileService.StripFenceOpenings | franklins-bids-unified-enterprise-platform/services/fileService.ts:19 | removing fence openings never makes the string longer |
| FileService.FenceOpeningRemoved | franklins-bids-unified-enterprise-platform/services/fileService.ts:19 | a fence with a lower-case language tag and its line break is removed entirely |
| FileService.LowerRunOf | franklins-bids-unified-enterprise-platform/services/fileService.ts:19 | the language tag is matched up to the first character that is not a lower-case letter |
| FileService.CloseBracket | franklins-bids-unified-enterprise-platform/services/fileService.ts:21 | the lazy match stops at the first `]`, with no line terminator before it |
| FileService.ReplaceArtifactsPlain | franklins-bids-unified-enterprise-platform/services/fileService.ts:21 | text with no opening bracket passes through the replacement |
| FileService.ArtifactReplaced | franklins-bids-unified-enterprise-platform/services/fileService.ts:21 | a one-line trained-artifact reference, name and bracket included, becomes `[ATTACHMENT]` |
| FileService.CloseBracketAt | franklins-bids-unified-enterprise-platform/services/fileService.ts:21 | after a name without `]` or line break, the match closes at the bracket that follows it |
| FileService.CleaningPasses | franklins-bids-unified-enterprise-platform/services/fileService.ts:16-21 | after the first pass no heading mark remains, after the second no `**`, after the fourth no fence |
| FileService.CleanMarkdown | franklins-bids-unified-enterprise-platform/services/fileService.ts:16-21 | the cleaning chain as one definition; what each pass removes is CleaningPasses and the lemmas above it |
| FileService.Slot | franklins-bids-unified-enterprise-platform/services/fileService.ts:41-51 | every line is drawn between y = 20 and y = 280 |
| FileService.SlotStep | franklins-bids-unified-enterprise-platform/services/fileService.ts:44-51 | each line's page and height follow from the previous line's by the loop's rule: a new page at 20 once y passes 280, else six lower |
| FileService.Paginate | franklins-bids-unified-enterprise-platform/services/fileService.ts:41-51 | one placement per line, in order, at the closed-form slot, always between 20 and 280, and the page count is the last line's page plus one |
| FileService.SecondPageStartsAtTop | franklins-bids-unified-enterprise-platform/services/fileService.ts:41-51 | the first page holds 41 lines, ending at y = 280; the 42nd line opens page two at 20, and the 86th opens page three |
| FileService.KeptLinesFilter | franklins-bids-unified-enterprise-platform/services/fileService.ts:60-68 | the two filters keep exactly the lines that are neither blank nor table separators, drop none of those, and add nothing (KeptLinesConcat and KeptLinesSingle give it line by line) |
| FileService.KeptLinesConcat | franklins-bids-unified-enterprise-platform/services/fileService.ts:60-68 | filtering two runs of lines one after the other gives the filtered first followed by the filtered second |
| FileService.KeptLinesSingle | franklins-bids-unified-enterprise-platform/services/fileService.ts:60-68 | one line is kept exactly when it is neither blank nor a table separator |
| FileService.TrimAll | franklins-bids-unified-enterprise-platform/services/fileService.ts:74-83 | each cell trimmed, in order |
| FileService.TableCells | franklins-bids-unified-enterprise-platform/services/fileService.ts:75-79 | the first and last cells are dropped exactly when empty; the inner cells are kept in order, even when empty; no cell is added |
| FileService.SplitOnPresentSeparator | franklins-bids-unified-enterprise-platform/services/fileService.ts:73 | a line holding the separator splits into at least two pieces |
| FileService.Row | franklins-bids-unified-enterprise-platform/services/fileService.ts:69-86 | a line with a pipe is a table row; otherwise one with a colon not starting with `http` is a key-value row; any other line is one cell |
| FileService.KeyValueRow | franklins-bids-unified-enterprise-platform/services/fileService.ts:81-84 | a key-value line gives at least two cells, each the trimmed piece between colons |
| FileService.TableRowCells | franklins-bids-unified-enterprise-platform/services/fileService.ts:70-79 | every cell of a table row is a trimmed piece, and at most the two edge pieces are dropped |
| FileService.ExcelRows | franklins-bids-unified-enterprise-platform/services/fileService.ts:59-86 | one row per kept line, in order |
| FileService.PlainLineRow | franklins-bids-unified-enterprise-platform/services/fileService.ts:85 | a single non-blank line without pipes or colons is one row of one cell holding the line |
| FilePort.Extension | franklins-bids-unified-enterprise-platform/components/FilePort.tsx:26 | the extension holds no dot and is no longer than the name |
| FilePort.ExtensionWithoutDot | franklins-bids-unified-enterprise-platform/components/FilePort.tsx:26 | a name without a dot is its own extension, lower-cased |
| FilePort.ExtensionAfterDot | franklins-bids-unified-enterprise-platform/components/FilePort.tsx:26 | the extension is the lower-cased text after the last dot |
| FilePort.GetLanguage | franklins-bids-unified-enterprise-platform/components/FilePort.tsx:25-46 | the language falls back to `clike` exactly when the extension is not one of the sixteen known ones |
| FilePort.LanguageImpliesCodeFile | franklins-bids-unified-enterprise-platform/components/FilePort.tsx:156-160 | every file with a known language is a code file; the code files that fall back to `clike` are exactly c, h, java and bim |
| FilePort.DrawingLanguage | franklins-bids-unified-enterprise-platform/components/FilePort.tsx:40-41 | drawings get the `autocad` language and a preview whatever the case of the extension |
| FilePort.NewRecord | franklins-bids-unified-enterprise-platform/components/FilePort.tsx:97-105 | the new record carries the file's id, name, path, size and mime type with no data and progress 0; an archive is a processing `zip`, anything else an uploading `raw` |
| FilePort.ReadModeOf | franklins-bids-unified-enterprise-platform/components/FilePort.tsx:109-126 | a file is read as a data URL exactly when its mime type starts with `image/` |
| FilePort.UpdateProgress | franklins-bids-unified-enterprise-platform/components/FilePort.tsx:76-78 | the list keeps its length, and every record keeps its metadata, manifest and preview flag |
| FilePort.TogglePreview | franklins-bids-unified-enterprise-platform/components/FilePort.tsx:152-154 | the list keeps its length and every field other than the preview flag; a matching record's flag becomes set, and open exactly when it was not open before |
| FilePort.UpdateProgressOnlyMatching | franklins-bids-unified-enterprise-platform/components/FilePort.tsx:76-78 | only the records with the id change: their progress is set and their status only when one is given; everything else stays |
| FilePort.TogglePreviewTwice | franklins-bids-unified-enterprise-platform/components/FilePort.tsx:152-154 | two toggles leave the flag defined: open when it was open, closed when it was closed or never set; other records are untouched |
| FilePort.TogglePreviewTwiceFromUnset | franklins-bids-unified-enterprise-platform/components/FilePort.tsx:152-154 | a never-set flag ends closed after two toggles |
| FilePort.SimulatedProgress | franklins-bids-unified-enterprise-platform/components/FilePort.tsx:84 | the simulated progress is always between 0 and 95 |
| FilePort.ProgressCapsAtDuration | franklins-bids-unified-enterprise-platform/components/FilePort.tsx:84-86 | once the duration has passed the bar shows exactly 95 |
| FilePort.ProgressMonotone | franklins-bids-unified-enterprise-platform/components/FilePort.tsx:84 | later ticks never show less progress |
| FilePort.FileVault.constructor | franklins-bids-unified-enterprise-platform/components/FilePort.tsx:72 | the vault starts empty, with its invariant |
| FilePort.FileVault.Ingest | franklins-bids-unified-enterprise-platform/components/FilePort.tsx:102-105 | the new record goes first in the list, and progress stays a percentage below 100 while a record is in flight |
| FilePort.FileVault.Tick | franklins-bids-unified-enterprise-platform/components/FilePort.tsx:82-90 | a tick sets the record's simulated progress, keeps the invariant, and reports completion exactly when the duration has passed |
| FilePort.FileVault.FinishUpload | franklins-bids-unified-enterprise-platform/components/FilePort.tsx:112-115 | the first-created record, now ready at 100 with the read data, replaces the record with its id |
| FilePort.FileVault.FinishArchive | franklins-bids-unified-enterprise-platform/components/FilePort.tsx:143-144 | the archive record becomes ready at 100 with its manifest |
| FilePort.FileVault.Fail | franklins-bids-unified-enterprise-platform/components/FilePort.tsx:147-148 | the records with the id are marked as errors; in the source this `catch` runs only when the synchronous progress call throws |
| FilePort.FileVault.ToggleFilePreview | franklins-bids-unified-enterprise-platform/components/FilePort.tsx:152-154 | the records with the id have their preview flag negated, an unset flag counting as closed |
| FilePort.ManifestView | franklins-bids-unified-enterprise-platform/components/FilePort.tsx:230-238 | at most the first ten paths are listed, in order, and a count of the rest appears exactly when there are more than ten, adding up to the manifest's length |
| FilePort.ArchiveOpenedAsWritten | franklins-bids-unified-enterprise-platform/components/FilePort.tsx:136-149 | an archive that cannot be opened leaves the list as the last progress tick left it |
| FilePort.RejectedArchiveHangs | franklins-bids-unified-enterprise-platform/components/FilePort.tsx:136-149 | a `.zip` upload whose archive is rejected stays in processing at 95 percent after the last tick |
| FilePort.ArchiveOpened | franklins-bids-unified-enterprise-platform/components/FilePort.tsx:136-149 | the list keeps its length and other records; a matching record becomes ready with the manifest when the archive opens, and an error when it does not |
| FilePort.RejectedArchiveFails | franklins-bids-unified-enterprise-platform/components/FilePort.tsx:136-149 | the same rejected upload ends as an error |
| FilePort.FileVault.SettleArchive | franklins-bids-unified-enterprise-platform/components/FilePort.tsx:136-149 | the vault stays valid and its list becomes ArchiveOpened of the old list |
| ApiService.Checked | franklins-bids-unified-enterprise-platform/services/apiService.ts:31-35 | a backend call succeeds exactly on a 2xx status, with the response body; otherwise it fails with the call's message followed by the status text |
| ApiService.CurrentEstimate | franklins-bids-unified-enterprise-platform/services/apiService.ts:49-59 | 404 gives "nothing in progress" and nothing else does; a non-ok status other than 404 fails with the estimate message; an ok one gives the body |
| ApiService.FetchProjects | franklins-bids-unified-enterprise-platform/services/apiService.ts:222-235 | a failed listing propagates its error; otherwise one project per listed entry, in order, named and identified by the entry's name, with no nodes |
| ApiService.DescriptionCountsFiles | franklins-bids-unified-enterprise-platform/services/apiService.ts:231 | the description is digits followed by ` files`, and the digits read back as the number of files listed |
| ApiService.AddCredits | franklins-bids-unified-enterprise-platform/services/apiService.ts:192 | adding to a number adds, adding to null counts from zero, adding to a missing field gives NaN, stored as null |
| ApiService.Authenticated | franklins-bids-unified-enterprise-platform/services/apiService.ts:143-173 | the stored record for the same email keeps its id and gets the asked plan and its credits; any other case creates a fresh account |
| ApiService.Upgraded | franklins-bids-unified-enterprise-platform/services/apiService.ts:188-194 | the record, or `{}`, becomes premium with a thousand more credits and its id and email kept |
| ApiService.SubscriptionOf | franklins-bids-unified-enterprise-platform/services/apiService.ts:200-213 | an empty slot reports basic, unsubscribed, zero credits; otherwise the stored plan fields are reported as they are |
| ApiService.ReauthenticateKeepsAccount | franklins-bids-unified-enterprise-platform/services/apiService.ts:164-171 | signing in again with the stored email keeps the id and email, resets plan and credits to those asked for, and the tier is premium exactly when subscribed |
| ApiService.UpgradeOnEmptySlotIsForgotten | franklins-bids-unified-enterprise-platform/services/apiService.ts:148-194 | an upgrade on an empty slot stores no email, so the next sign-in creates a fresh account |
| ApiService.DoubleUpgradeFromEmpty | franklins-bids-unified-enterprise-platform/services/apiService.ts:192 | the first upgrade from empty stores null credits, the second stores 1000 |
| ApiService.MockAccountStore.constructor | franklins-bids-unified-enterprise-platform/services/apiService.ts:144 | the storage slot starts with the given record |
| ApiService.MockAccountStore.Authenticate | franklins-bids-unified-enterprise-platform/services/apiService.ts:140-174 | the returned user is the specified sign-in record, and exactly that is stored |
| ApiService.MockAccountStore.SignOut | franklins-bids-unified-enterprise-platform/services/apiService.ts:176-180 | the slot is emptied |
| ApiService.MockAccountStore.CreateStripeSession | franklins-bids-unified-enterprise-platform/services/apiService.ts:183-198 | the upgraded record is stored and the success URL is the origin followed by `/premium-success` |
| ApiService.MockAccountStore.SyncSubscriptionStatus | franklins-bids-unified-enterprise-platform/services/apiService.ts:200-213 | the report is the stored plan fields or the basic defaults, and nothing changes |
| ApiService.SignInThenSync | franklins-bids-unified-enterprise-platform/services/apiService.ts:140-213 | a premium sign-in syncs as subscribed premium with 1000 credits, and after sign-out the sync reports basic with 0 |
| ApiService.CreditsFor | franklins-bids-unified-enterprise-platform/services/apiService.ts:160 | the credits of a fresh account, 1000 for premium and 100 for basic (used by Authenticated) |
| ModelOrchestrator.Flatten | franklins-bids-unified-enterprise-platform/components/ModelOrchestrator.tsx:29-89 | the flattened table holds AgentCount agents, and an agent is in it exactly when it is in one of the groups |
| ModelOrchestrator.FindAgent | franklins-bids-unified-enterprise-platform/components/ModelOrchestrator.tsx:98 | nothing is found exactly when no agent has the name; otherwise the first agent with that name |
| ModelOrchestrator.SearchGroups | franklins-bids-unified-enterprise-platform/components/ModelOrchestrator.tsx:97-100 | an agent found by the group search has the selected name and belongs to one of the groups |
| ModelOrchestrator.SearchGroupsIsFlatSearch | franklins-bids-unified-enterprise-platform/components/ModelOrchestrator.tsx:97-100 | searching group by group finds what one search of the whole table in order finds |
| ModelOrchestrator.FindAgentConcat | franklins-bids-unified-enterprise-platform/components/ModelOrchestrator.tsx:97-100 | searching two lists in a row is searching the first, then the second when the first has no match |
| ModelOrchestrator.FlattenTable | franklins-bids-unified-enterprise-platform/components/ModelOrchestrator.tsx:29-89 | the table read in order is the fourteen agents as listed |
| ModelOrchestrator.ListedAgents | franklins-bids-unified-enterprise-platform/components/ModelOrchestrator.tsx:29-89 | every agent but ACOUSTIC_LIVE is in the table |
| ModelOrchestrator.AgentTable | franklins-bids-unified-enterprise-platform/components/ModelOrchestrator.tsx:29-89 | four groups and fourteen agents, every agent but ACOUSTIC_LIVE listed, and exactly eight premium ones and six free ones |
| ModelOrchestrator.ActiveAgentShowsSelection | franklins-bids-unified-enterprise-platform/components/ModelOrchestrator.tsx:96-103 | the header shows the selected agent when it is listed, and MASTER_FRANKLIN for ACOUSTIC_LIVE |
| ModelOrchestrator.ActiveAgentPremium | franklins-bids-unified-enterprise-platform/components/ModelOrchestrator.tsx:96-103 | a listed selection is shown, and it is premium exactly when it is one of the eight premium agents |
| ModelOrchestrator.ActiveAgent | franklins-bids-unified-enterprise-platform/components/ModelOrchestrator.tsx:96-103 | the active agent has the selected name or is the first agent of the first group, and it is always one of the table's agents |
| ModelOrchestrator.Click | franklins-bids-unified-enterprise-platform/components/ModelOrchestrator.tsx:196-200 | a click selects the agent exactly when it is not locked (or already selected); otherwise the selection stays |
| ModelOrchestrator.SelectableAgents | franklins-bids-unified-enterprise-platform/components/ModelOrchestrator.tsx:196 | a subscriber may pick any listed agent; a visitor exactly the six free ones |
| ModelOrchestrator.TokenAtMeaning | franklins-bids-unified-enterprise-platform/components/ModelOrchestrator.tsx:214 | the token matched at a position is one of the six and starts the text there, and none is matched exactly when none starts it |
| ModelOrchestrator.NoTokenAt | franklins-bids-unified-enterprise-platform/components/ModelOrchestrator.tsx:214 | no token is matched at a character other than `_` |
| ModelOrchestrator.PlainCharStep | franklins-bids-unified-enterprise-platform/components/ModelOrchestrator.tsx:214 | a character other than `_` is kept and the rest is stripped on its own |
| ModelOrchestrator.StripTokens | franklins-bids-unified-enterprise-platform/components/ModelOrchestrator.tsx:214 | stripping tokens never makes the name longer |
| ModelOrchestrator.StripTokensPlain | franklins-bids-unified-enterprise-platform/components/ModelOrchestrator.tsx:214 | text without an underscore passes through unchanged |
| ModelOrchestrator.StripTokenAlone | franklins-bids-unified-enterprise-platform/components/ModelOrchestrator.tsx:214 | each token on its own is removed entirely |
| ModelOrchestrator.StripsTrailingToken | franklins-bids-unified-enterprise-platform/components/ModelOrchestrator.tsx:214 | a one-word name followed by a role token is shown as the word |
| ModelOrchestrator.StructuralLabel | franklins-bids-unified-enterprise-platform/components/ModelOrchestrator.tsx:214 | STRUCTURAL_AGENT is labelled STRUCTURAL |
| ModelOrchestrator.TemporalLabel | franklins-bids-unified-enterprise-platform/components/ModelOrchestrator.tsx:214 | TEMPORAL_VEO is labelled TEMPORAL |
| ModelOrchestrator.HeaderTitle | franklins-bids-unified-enterprise-platform/components/ModelOrchestrator.tsx:150 | every underscore becomes a space and every other character is kept |
| ModelOrchestrator.HeaderHasNoUnderscore | franklins-bids-unified-enterprise-platform/components/ModelOrchestrator.tsx:150 | no agent's header holds an underscore |
| ModelOrchestrator.DnaGutter | franklins-bids-unified-enterprise-platform/components/ModelOrchestrator.tsx:264-266 | one gutter entry per DNA line, in order, each holding its line |
| ModelOrchestrator.GutterNumbersCount | franklins-bids-unified-enterprise-platform/components/ModelOrchestrator.tsx:266 | each gutter number is all digits, reads back as the line's one-based position, and has three digits below 1000 |
| ModelOrchestrator.LineNumberValue | franklins-bids-unified-enterprise-platform/components/ModelOrchestrator.tsx:266 | a zero-padded number is all digits and reads back as the number |
| ModelOrchestrator.HandleUpgradeClick | franklins-bids-unified-enterprise-platform/components/ModelOrchestrator.tsx:114-133 | the stored record is upgraded twice, once by the billing call and once by the handler; it goes to SET_USER only when someone is signed in; the two billing messages are logged |
| ModelOrchestrator.UpgradeClickCredits | franklins-bids-unified-enterprise-platform/components/ModelOrchestrator.tsx:125 | one click adds 2000 credits to a signed-in account, and an empty slot ends with 1000 |
| NeuralEngine.GateExtendsPanelLock | franklins-bids-unified-enterprise-platform/hooks/useNeuralEngine.ts:79-80 | a message is refused exactly for the agents the panel locks plus VISUAL_RENDERER and TEMPORAL_VEO for a visitor, and never for ACOUSTIC_LIVE |
| NeuralEngine.Gated | franklins-bids-unified-enterprise-platform/hooks/useNeuralEngine.ts:79-80 | the refusal rule itself; GateExtendsPanelLock states which agents and users it refuses |
| NeuralEngine.PremiumAgentsSplit | franklins-bids-unified-enterprise-platform/hooks/useNeuralEngine.ts:15-26 | the hook's premium list is the panel's eight premium agents plus the two media agents |
| NeuralEngine.FinalPrompt | franklins-bids-unified-enterprise-platform/hooks/useNeuralEngine.ts:90-101 | a failed optimizer leaves the typed prompt; otherwise the prompt sent is the typed one, a string result, or a non-empty `text` of the result |
| NeuralEngine.FinalPromptOfSigned | franklins-bids-unified-enterprise-platform/hooks/useNeuralEngine.ts:97-98 | for a signed result the prompt sent is the engine's non-empty string `text` exactly when it returned an object with one, and the typed prompt in every other case |
| NeuralEngine.FinalDna | franklins-bids-unified-enterprise-platform/hooks/useNeuralEngine.ts:62 | a string result is the DNA itself; a result with no truthy `text` gives `DNA_ERROR` |
| NeuralEngine.FinalDnaOfSigned | franklins-bids-unified-enterprise-platform/hooks/useNeuralEngine.ts:62 | for a signed result the DNA is the engine's truthy `text` when it returned an object with one, and `DNA_ERROR` otherwise |
| NeuralEngine.OptimizedPromptDiscarded | franklins-bids-unified-enterprise-platform/hooks/useNeuralEngine.ts:92-98 | with the optimizer as registered, returning a string, the request succeeds but the typed prompt is sent, not the optimized one |
| NeuralEngine.OptimizedPromptUsed | franklins-bids-unified-enterprise-platform/hooks/useNeuralEngine.ts:92-98 | with the optimizer's string wrapped as `{ text }`, its non-empty output is the prompt sent |
| NeuralEngine.TrainedDnaLost | franklins-bids-unified-enterprise-platform/hooks/useNeuralEngine.ts:56-62 | with the trainer as registered, returning a string, every successful training yields `DNA_ERROR` |
| NeuralEngine.TrainedDnaKept | franklins-bids-unified-enterprise-platform/hooks/useNeuralEngine.ts:56-62 | with the trainer's string wrapped as `{ text }`, its non-empty output is the DNA |
| NeuralEngine.AuditLines | franklins-bids-unified-enterprise-platform/hooks/useNeuralEngine.ts:41-43 | one log line per audit event, in order |
| NeuralEngine.SuccessfulRequestLabels | franklins-bids-unified-enterprise-platform/hooks/useNeuralEngine.ts:41-43 | a successful request mirrors three lines: GOVERNANCE with its intent, then ORCHESTRATION and EVOLUTION both labelled OBSERVATION, all with the kernel hash |
| NeuralEngine.ModelMessage | franklins-bids-unified-enterprise-platform/hooks/useNeuralEngine.ts:126-134 | the reply is in the model role, marked synaptic exactly when the node is ACTIVE, and reads `NO_DATA` exactly when the response has no truthy text or its text is `NO_DATA` |
| NeuralEngine.SentHistoryShape | franklins-bids-unified-enterprise-platform/hooks/useNeuralEngine.ts:106-136 | the old history is kept as a prefix; the user message carries the final prompt; the reply follows only on success, in the model role |
| NeuralEngine.OptimizeLogShape | franklins-bids-unified-enterprise-platform/hooks/useNeuralEngine.ts:88-101 | the optimizing entry, then the mirrored audit lines, then the optimized or the failed entry |
| NeuralEngine.InferLogShape | franklins-bids-unified-enterprise-platform/hooks/useNeuralEngine.ts:111-139 | the engaged entry with the agent's name, then the mirrored audit lines, then the complete entry or `AGENT_ERR:` with the message |
| NeuralEngine.SentLogShape | franklins-bids-unified-enterprise-platform/hooks/useNeuralEngine.ts:86-139 | a sent message logs four entries more than the mirrored lines: it starts with the optimizing entry, the engaged entry follows the optimizer's lines, and it ends with the outcome |
| NeuralEngine.EngagedStore | franklins-bids-unified-enterprise-platform/hooks/useNeuralEngine.ts:86-139 | the optimizer step followed by the conversation step leaves the store a sent message specifies: the sent log appended and the sent history on the node |
| NeuralEngine.LoggedInTurn | franklins-bids-unified-enterprise-platform/hooks/useNeuralEngine.ts:88-101 | three batches of log entries added one after the other leave the log of adding them as one batch |
| NeuralEngine.StrandsHeaderPlain | franklins-bids-unified-enterprise-platform/hooks/useNeuralEngine.ts:64 | the first header line holds no line break |
| NeuralEngine.MappingLinePlain | franklins-bids-unified-enterprise-platform/hooks/useNeuralEngine.ts:64 | the second header line, with a time stamp without line breaks, holds no line break |
| NeuralEngine.MergedDnaLines | franklins-bids-unified-enterprise-platform/hooks/useNeuralEngine.ts:64 | the merged DNA's lines are the two headers followed by the trained DNA's own lines |
| NeuralEngine.TrainedNode | franklins-bids-unified-enterprise-platform/hooks/useNeuralEngine.ts:51-66 | the files are appended whatever the outcome; a success also sets the merged DNA and makes the node ACTIVE; a failure keeps the DNA and the status; nothing else changes |
| NeuralEngine.TrainLogShape | franklins-bids-unified-enterprise-platform/hooks/useNeuralEngine.ts:48-69 | the mapping entry, then the mirrored audit lines, then the indexed entry or `MAPPING_ERR:` with the message |
| NeuralEngine.TrainedStore | franklins-bids-unified-enterprise-platform/hooks/useNeuralEngine.ts:46-69 | the start of a training run, the trainer request and the applied outcome together give the trained node, the training log and, on success only, the merged DNA |
| NeuralEngine.Mirrored | franklins-bids-unified-enterprise-platform/hooks/useNeuralEngine.ts:41-43 | once the callback is installed every event is mirrored, before it none |
| NeuralEngine.EngineHook.constructor | franklins-bids-unified-enterprise-platform/hooks/useNeuralEngine.ts:8-12 | the hook starts with all four flags off and no audit callback |
| NeuralEngine.EngineHook.Mount | franklins-bids-unified-enterprise-platform/hooks/useNeuralEngine.ts:29-44 | as written: the three handlers are registered unwrapped, in order, with three registration events, and only then is the audit callback installed |
| NeuralEngine.EngineHook.MountCorrected | franklins-bids-unified-enterprise-platform/hooks/useNeuralEngine.ts:29-44 | the corrected wiring: the same registrations and events, with the trainer and the optimizer wrapped by `TextEngine` |
| NeuralEngine.EngineHook.Request | franklins-bids-unified-enterprise-platform/services/kernelService.ts:124-133 | a request inside the hook returns the kernel's outcome, and its audit events, at most three, are mirrored into the log as they are recorded |
| NeuralEngine.EngineHook.Optimize | franklins-bids-unified-enterprise-platform/hooks/useNeuralEngine.ts:87-104 | the prompt sent is the final prompt of the optimizer's outcome; the log grows by the optimizer step's entries; the flag is off at the end |
| NeuralEngine.EngineHook.Reply | franklins-bids-unified-enterprise-platform/hooks/useNeuralEngine.ts:126-139 | on success the reply is appended to the given history; either way exactly one outcome entry is logged |
| NeuralEngine.EngineHook.Converse | franklins-bids-unified-enterprise-platform/hooks/useNeuralEngine.ts:106-143 | the user message with the final prompt is appended to the node's history, then the inference step runs with the node's agent and status |
| NeuralEngine.EngineHook.Infer | franklins-bids-unified-enterprise-platform/hooks/useNeuralEngine.ts:110-143 | the log grows by the inference step's entries; on success the reply is appended to the history; the flag is off at the end |
| NeuralEngine.EngineHook.Engage | franklins-bids-unified-enterprise-platform/hooks/useNeuralEngine.ts:86-143 | the log grows by the sent log; the node's history becomes the sent history; the audit log grows by the optimizer's then the inference's events; all flags are off |
| NeuralEngine.EngineHook.SendMessage | franklins-bids-unified-enterprise-platform/hooks/useNeuralEngine.ts:75-144 | a blank prompt or a loading message changes nothing; a refused agent logs only the denial; otherwise the engaged exchange, as above |
| NeuralEngine.EngineHook.ApplyTraining | franklins-bids-unified-enterprise-platform/hooks/useNeuralEngine.ts:62-69 | a failure only logs `MAPPING_ERR`; a success sets the merged DNA as the store's DNA and the node's, makes the node ACTIVE, and logs the indexed entry |
| NeuralEngine.EngineHook.BeginTraining | franklins-bids-unified-enterprise-platform/hooks/useNeuralEngine.ts:48-54 | the mapping entry is logged and the new files are added after the node's own, nothing else changes |
| NeuralEngine.EngineHook.TrainSynapticNode | franklins-bids-unified-enterprise-platform/hooks/useNeuralEngine.ts:46-73 | the log grows by the training log; the node becomes the trained node; the store's DNA is merged on success only; the audit log grows by the request's events; the flag is off at the end |
| Countdown.HoursFloor | js/app.js:57-58 | the hour count is the floor of the remaining milliseconds over an hour, negative totals included |
| Countdown.DaysFloor | js/app.js:59 | the day count is the floor of the hours over 24 |
| Countdown.DaysOfHours | js/app.js:57-59 | flooring to hours, then to days, is flooring the milliseconds to days |
| Countdown.SomeDayLeft | js/app.js:59-61 | at least one day is counted exactly when a full day's worth of milliseconds remains |
| Countdown.TimeRemainingMeaning | js/app.js:56-65 | with a full day left the label counts whole days, the largest count not above the time left; otherwise whole hours (fewer than 24, zero or negative too) by the same rule |
| Countdown.TimeRemaining | js/app.js:56-65 | the label itself; its meaning is TimeRemainingMeaning |
| Countdown.TimeRemainingLabel | js/app.js:56-65 | with a full day left the label is the floor of the days; otherwise the floor of the hours |
| Countdown.PastDeadline | js/app.js:56-65 | a deadline one millisecond past shows `-1 hour` |
| Countdown.LastHour | js/app.js:56-65 | the last hour before the deadline shows `0 hour` |
| Countdown.TwoHours | js/app.js:56-65 | two hours left show `2 hours` |
| Countdown.LabelPlural | js/app.js:62-64 | the label starts with the count and the unit, and ends in `s` exactly when the count is above one |
| Countdown.SampleAuctions | js/app.js:7-29 | three auctions with ids 1, 2 and 3, ending one, two and three days after the page loads |
| Countdown.CardOf | js/app.js:42-53 | the card shows the title, the description and the remaining-time label, its button bids on the auction's id, and its price is `$` followed by digits that read back as the current bid |
| Countdown.Cards | js/app.js:32-39 | one card per auction, in listing order |
| Countdown.SampleCountdownAtLoad | js/app.js:7-65 | rendered in the loading millisecond the samples show 1, 2 and 3 days; within the next hour they show 23 hours, 1 day and 2 days |
| Countdown.PlaceBid | js/app.js:82-85 | the bid button alerts that bidding is unavailable and logs the auction id; nothing else happens |
| Strings.TrimStart | franklins-bids-unified-enterprise-platform/components/TerminalPanel.tsx:28 | only leading whitespace is removed, and the result does not start with whitespace |
| Strings.TrimEnd | franklins-bids-unified-enterprise-platform/components/TerminalPanel.tsx:28 | only trailing whitespace is removed, and the result does not end with whitespace |
| Strings.Trim | franklins-bids-unified-enterprise-platform/hooks/useNeuralEngine.ts:76 | the trimmed text neither starts nor ends with whitespace (that it is the input without its outer whitespace is TrimSlice) |
| Strings.TrimSlice | franklins-bids-unified-enterprise-platform/hooks/useNeuralEngine.ts:76 | the trimmed text is a slice of the input with only whitespace before and after it |
| Strings.TrimEmptyIffBlank | franklins-bids-unified-enterprise-platform/hooks/useNeuralEngine.ts:76 | a text trims to nothing exactly when it is all whitespace |
| Strings.ContainsCharIffHasChar | franklins-bids-unified-enterprise-platform/services/fileService.ts:70 | `includes` of one character holds exactly when the character occurs |
| Strings.Split | franklins-bids-unified-enterprise-platform/services/fileService.ts:60 | at least one piece, no piece holds the separator, and joining the pieces gives the text back |
| Strings.SplitWithoutSep | franklins-bids-unified-enterprise-platform/services/fileService.ts:60 | a text without the separator is one piece |
| Strings.SplitLastAfterSep | franklins-bids-unified-enterprise-platform/components/FilePort.tsx:26 | the text after the last separator is the last piece |
| Strings.SplitConcat | franklins-bids-unified-enterprise-platform/services/fileService.ts:60 | splitting at a separator splits the two sides apart |
| Strings.TwoLinesThen | franklins-bids-unified-enterprise-platform/components/ModelOrchestrator.tsx:264 | two lines without the separator come first among the pieces, before those of the rest |
| Strings.Prefix | franklins-bids-unified-enterprise-platform/services/geminiService.ts:264 | `slice(0, n)` keeps the first min(n, length) characters |
| Strings.ToLower | franklins-bids-unified-enterprise-platform/components/FilePort.tsx:26 | the same length, each character lowered |
| Strings.NatToString | franklins-bids-unified-enterprise-platform/components/TerminalPanel.tsx:111 | at least one decimal digit and no leading zero |
| Strings.NatToStringShort | franklins-bids-unified-enterprise-platform/components/TerminalPanel.tsx:111 | numbers below 10, 100 and 1000 have at most one, two and three digits |
| Strings.NatToStringRoundTrip | franklins-bids-unified-enterprise-platform/services/apiService.ts:231 | the digits written read back as the number |
| Strings.LeadingZeroValue | franklins-bids-unified-enterprise-platform/components/TerminalPanel.tsx:111 | a leading zero does not change the number |
| Strings.PadZerosValue | franklins-bids-unified-enterprise-platform/components/TerminalPanel.tsx:111 | padding digits with zeros keeps them digits and keeps the number |
| Strings.IntToString | js/app.js:62-64 | a minus sign comes first exactly for a negative number (IntToStringDigits reads the rest back) |
| Strings.IntToStringDigits | js/app.js:62-64 | after the sign come decimal digits that read back as the number's magnitude |
| Strings.PadStart | franklins-bids-unified-enterprise-platform/components/TerminalPanel.tsx:111 | the result has the target width (or the text's length if longer), ends with the text, and is padded with the fill character |
| Strings.PadStartStep | franklins-bids-unified-enterprise-platform/components/TerminalPanel.tsx:111 | padding a short text is padding it after one more fill character |

## Left out

- The network, the generative-AI SDK, audio capture and playback, canvas effects and all rendering (JSX, styles, icons) are outside the model. The outcome of every backend, SDK or engine call enters as a parameter: a status and a body, or a settled `Result`.
- Clocks, `Math.random`, the kernel hash, the signature and the ISO time stamp are parameters. So are the time strings the log writes and the moment a countdown label is drawn. One call reads each clock once.
- Asynchronous interleaving is not modelled. Each handler runs as one sequential step, and React's batching and stale closures are collapsed. In that step the hook's `state` is the store as it was before the step.
- The tasks handed to the inference engine (history, model, DNA and files) and to the trainer (`{ files }`) are opaque `Value`s given by the caller. What the engines do with them, the Gemini request and its system instructions, is outside the model.
- NeuralEngine.JsString: writes a number by its integer part, because the model's values carry no floating-point formatting.
- NeuralEngine.ModelMessage: does not carry `groundingUrls` into the reply, because the model's values have no arrays.
- KernelService.Execute: looks engines up among the registered names only. The source's registry is an object literal, so `!engines[engine]` also finds names inherited from `Object.prototype`: `toString` passes the test, logs its task and returns `"[object Object]"`, and `__proto__` logs its task and then throws a TypeError. The model refuses both as not registered and logs nothing. The application itself passes only the fixed engine names.
- KernelService.RequestOutcome: inherits Execute's lookup, so a request naming an `Object.prototype` member is modelled as not registered.
- KernelService.HandleKernelRequest: inherits the same lookup through RequestOutcome.
- Strings.Prefix: a model string is a sequence of characters (Unicode scalar values), whereas JavaScript strings are sequences of UTF-16 code units. Lengths, `slice(0, n)` and the 40000-character cut of an attached file count characters here and code units in the source. So on text with characters outside the Basic Multilingual Plane, such as emoji, the source keeps fewer characters and may cut a surrogate pair in half.
- KernelService.CharFieldsKeys: spreading a string gives one index key per character here, and one per UTF-16 code unit in the source. A character outside the Basic Multilingual Plane gives the keys `"0"` and `"1"` in the source and only `"0"` in the model.
- KernelService.CharFieldsValues: each index key holds a whole character here and a single UTF-16 code unit in the source. The two differ only for characters outside the Basic Multilingual Plane. That `text` is absent from a signed string holds either way.
- Strings.ToLower: lowers ASCII letters only; Unicode case mapping is not modelled.
- Strings.IsSpace: covers the ASCII spaces, the Unicode space separators, the line terminators and the byte-order mark. No other Unicode data is modelled.
- FilePort.SimulatedProgress: computes `elapsed / duration * 100` on exact rationals and rounds halves up. The source rounds a double product, so where that product falls just below .5 the model shows one percent more; for 116 ms of 800 the source shows 14 and the model 15. The bounds, the cap and monotonicity hold either way.
- copyToClipboard and its two callers (copying the log and copying the DNA) are left out; the clipboard is browser I/O.
- The jsPDF, XLSX and JSZip libraries are outside the model. `splitTextToSize` enters as the list of wrapped lines, a sheet is its list of rows, and an archive is its list of paths.
- Timers, intervals and polling are left out. `simulateProgress` is modelled one tick at a time, with the elapsed time as a parameter.
- The `catch` of the Gemini request opens the API-key selector when the error mentions a missing entity; that browser call is left out. AssembleReply returns the error that the `catch` rethrows.
- The catch branch of `handleUpgradeClick` is left out, because the simulated billing call it guards cannot fail.
- The page's DOM wiring is left out: `initAuctions` appending cards, the start-bidding scroll handler, and the HTML that `innerHTML` builds from the card fields.
- The other components (AuthScreen, ChatPort, LivePort, PortWindow and the visual effects) are not part of this model.
- The reducer stores any width or height as given; only the resize handler applies the 300 by 200 minimum. Arming a drag or a resize checks that the window exists and is not maximized; it does not check `isOpen`.

## Findings

| source | as written | input that shows it | evidently intended | confidence | as-written member | corrected member |
|---|---|---|---|---|---|---|
| franklins-bids-unified-enterprise-platform/hooks/useNeuralEngine.ts:97 | `Franklin.sign` spreads the optimizer's string result into an object keyed by character index. The copy has `_signed_by` and no `text`, so `finalPrompt` is that object and is replaced by the typed prompt. | any prompt, with the optimizer returning any string, for example `"precise"` | the optimized prompt is sent | not executed | NeuralEngine.OptimizedPromptDiscarded | NeuralEngine.OptimizedPromptUsed |
| franklins-bids-unified-enterprise-platform/hooks/useNeuralEngine.ts:62 | the trainer's string result is signed the same way, so `typeof result` is `object` and it has no `text`: every trained node stores `DNA_ERROR` | any files, with the trainer returning any string, for example `"DNA"` | the trained DNA is stored under the headers | not executed | NeuralEngine.TrainedDnaLost | NeuralEngine.TrainedDnaKept |
| franklins-bids-unified-enterprise-platform/components/FilePort.tsx:136-149 | the `try` wraps only the synchronous call that starts the progress timer; the archive is opened later, in the completion callback, so a rejected `JSZip.loadAsync` is never caught and the record is left processing at 95 percent | a `.zip` file that JSZip cannot read, uploaded and left for the full 2000 ms | the record is marked as an error | not executed | FilePort.RejectedArchiveHangs | FilePort.RejectedArchiveFails |
