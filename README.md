# claude-history-viewer, modelled in Dafny

claude-history-viewer is a local web viewer for the conversation logs a coding assistant
writes as JSON Lines files under `~/.claude/projects/<project>/<id>.jsonl`. It has two halves:

- **The history parser** (`src/historyParser.js`) runs on the server. It lists every
  conversation, newest first, with a summary of each one:
  - the title (the first user text);
  - the message, user-message and token counts;
  - the id and the project path (decoded from the file's location);
  - the timestamps and the session.

  It also fetches one conversation with its messages, and searches all logs for a phrase,
  best match first.
- **The viewer** (`public/app.js`) runs in the browser.
  - For the conversation on screen it indexes messages by uuid, and sidechain (sub-agent)
    messages by session. It flags every message that some message names as its parent.
  - It keeps the main thread, which is the messages that are not sidechain messages.
  - It groups each assistant tool call with the first later user message that answers it.
  - It decides what a tool card shows: the icon, the status, the result text (with a preview
    when the text is long) and the kind of payload that came with the result.

The model keeps the logic and drops the I/O and the markup. Some inputs become parameters:

- a file's content is a string;
- `JSON.parse` for a log line is a function `parse: string -> Option<Record>`;
- the file system is a `Disk` value: whether the projects directory exists, the files the
  glob finds, and the read functions.

Loops become methods with invariants, proved equal to reference functions. Properties of the
reference functions are proved as lemmas.

Modules, one per concern:

| module | file | models |
|---|---|---|
| `Records` | records.dfy | a decoded log line: kind, uuid, parent, session, sidechain flag, timestamp, content parts, usage, `toolUseResult` |
| `Seqs` | seqs.dfy | `find`, `join`, `includes`, and the skip-and-push loop (`Collect`) |
| `TextLines` | text_lines.dfy | `content.trim().split('\n').filter(line => line)` |
| `PathNames` | path_names.dfy | `path.join`, `path.dirname`, `path.basename`, and the project-path rewrite |
| `Sorting` | sorting.dfy | the stable descending sorts |
| `HistoryMetadata` | history_metadata.dfy | `parseConversationMetadata` |
| `HistoryQueries` | history_queries.dfy | `findConversations`, `getConversation`, `searchConversations` |
| `ContentParts` | content_parts.dfy | the content-part helpers and `getToolIcon` |
| `ViewerState` | viewer_state.dfy | `processConversation` over message objects, and the main thread |
| `FlowGrouper` | flow_grouper.dfy | `groupMessagesByFlow` |
| `ToolResultView` | tool_result_view.dfy | `formatToolResultContent`, `formatToolResultData`, and the card `renderToolFlow` draws |

## Model

| member | source | states |
|---|---|---|
| Seqs.FindFirst | claude-history-viewer/src/historyParser.js:92 | a found index is in range and its element passes the test |
| Seqs.FindFirstSpec | claude-history-viewer/src/historyParser.js:92 | the found element is the first that passes; nothing is found exactly when no element passes |
| Seqs.Collect | claude-history-viewer/src/historyParser.js:25-30 | the skip-and-push loop keeps at most as many values as it visits |
| Seqs.CollectMembers | claude-history-viewer/src/historyParser.js:25-30 | a value is kept exactly when some visited element yields it |
| Seqs.CollectAppend | claude-history-viewer/src/historyParser.js:25-30 | collecting over a concatenation is the concatenation of the two collections, so input order is kept |
| Seqs.CollectFirst | claude-history-viewer/src/historyParser.js:76 | the first kept value comes from the first element that yields one |
| Seqs.ContainsEmpty | claude-history-viewer/src/historyParser.js:146 | every text contains the empty search term |
| Seqs.Join | claude-history-viewer/src/historyParser.js:142 | joining a single piece gives that piece; otherwise the pieces are joined with the separator between consecutive ones, as `join(' ')` does |
| TextLines.TrimStartSpec | claude-history-viewer/src/historyParser.js:40 | what trimming removes at the front is white space, and what it keeps does not start with white space |
| TextLines.TrimEndSpec | claude-history-viewer/src/historyParser.js:40 | what trimming removes at the back is white space, and what it keeps does not end with white space |
| TextLines.TrimSpec | claude-history-viewer/src/historyParser.js:40 | the trimmed text is a slice of the content with only white space around it, and has none at either end |
| TextLines.TrimEmptyIffAllSpace | claude-history-viewer/src/historyParser.js:40 | trimming leaves nothing exactly when the content is all white space |
| TextLines.Split | claude-history-viewer/src/historyParser.js:40 | splitting always yields at least one piece |
| TextLines.SplitPiecesLackSeparator | claude-history-viewer/src/historyParser.js:40 | no piece contains a line feed |
| TextLines.SplitJoin | claude-history-viewer/src/historyParser.js:40 | joining the pieces with line feeds gives back the text that was split |
| TextLines.NonEmptyMembers | claude-history-viewer/src/historyParser.js:40 | the filter keeps exactly the non-empty pieces |
| TextLines.NonEmptyAppend | claude-history-viewer/src/historyParser.js:40 | the filter distributes over concatenation, so kept pieces stay in order |
| TextLines.Lines | claude-history-viewer/src/historyParser.js:40 | every log line is non-empty and holds no line feed |
| TextLines.NoLinesIffBlank | claude-history-viewer/src/historyParser.js:40-42 | a file has no lines exactly when its content is all white space |
| PathNames.JoinPath | claude-history-viewer/src/historyParser.js:12 | the joined path ends with the name |
| PathNames.DirName | claude-history-viewer/src/historyParser.js:70 | the directory of the empty path is "." |
| PathNames.DirNameOfChild | claude-history-viewer/src/historyParser.js:70 | the directory of `d/name` is `d`, for a plain name and a `d` not ending in a slash |
| PathNames.LastSegment | claude-history-viewer/src/historyParser.js:73 | the last segment holds no slash and is a suffix of the path |
| PathNames.BaseName | claude-history-viewer/src/historyParser.js:73 | a base name never holds a slash |
| PathNames.LastSegmentOfChild | claude-history-viewer/src/historyParser.js:73 | the last segment of `dir/rest` is `rest` when `rest` has no slash |
| PathNames.BaseNameOfFile | claude-history-viewer/src/historyParser.js:73 | the base name of `dir/name.jsonl` without `.jsonl` is `name` |
| PathNames.FirstOccurrenceFrom | claude-history-viewer/src/historyParser.js:70 | the index found is an occurrence with none before it; none is found only when there is no occurrence |
| PathNames.RemoveFirst | claude-history-viewer/src/historyParser.js:70 | the text is unchanged when the pattern does not occur; otherwise exactly the first occurrence is cut out, and what precedes and follows it is kept |
| PathNames.RemovePrefix | claude-history-viewer/src/historyParser.js:70 | removing a prefix's first occurrence leaves what follows the prefix |
| PathNames.StripLeadingSlash | claude-history-viewer/src/historyParser.js:70 | exactly one leading slash is dropped, and a text without one is unchanged |
| PathNames.ReplaceDashes | claude-history-viewer/src/historyParser.js:75 | the length is kept; every dash becomes a slash and every other character stays; no dash is left |
| PathNames.ProjectPath | claude-history-viewer/src/historyParser.js:69-75 | the project path is the log's directory with the projects directory and one leading slash removed and dashes read as slashes, so it holds no dash |
| PathNames.DirOfLog | claude-history-viewer/src/historyParser.js:70 | the directory of `projectsDir/project/name` is `projectsDir/project` |
| PathNames.ProjectOfDir | claude-history-viewer/src/historyParser.js:70 | removing the projects directory and then the leading slash from `projectsDir/project` leaves `project` |
| PathNames.ProjectPathOfLog | claude-history-viewer/src/historyParser.js:69-75 | the project path of a log stored at `projectsDir/project/name` is `project` with its dashes read back as slashes |
| Sorting.Insert | claude-history-viewer/src/historyParser.js:32 | inserting adds exactly one element |
| Sorting.InsertPermutes | claude-history-viewer/src/historyParser.js:32 | inserting adds the element and loses nothing (multiset) |
| Sorting.SortDesc | claude-history-viewer/src/historyParser.js:32 | the sort keeps the length |
| Sorting.SortDescPermutes | claude-history-viewer/src/historyParser.js:32 | the sort is a permutation of its input (multiset) |
| Sorting.InsertSorted | claude-history-viewer/src/historyParser.js:32 | inserting into a sorted sequence keeps it sorted |
| Sorting.SortDescSorted | claude-history-viewer/src/historyParser.js:32 | the result is sorted by key, largest first |
| Sorting.InsertWithKey | claude-history-viewer/src/historyParser.js:32 | among the elements with any one key, the inserted element (when it has that key) comes first and the others keep their order |
| Sorting.SortDescStable | claude-history-viewer/src/historyParser.js:32 | the sort is stable: for every key, elements with that key come out in input order |
| Sorting.InsertLex | claude-history-viewer/src/historyParser.js:168 | inserting an element whose second key is at least every other's keeps the two-key order |
| Sorting.SortDescKeepsEarlierOrder | claude-history-viewer/src/historyParser.js:168 | sorting by a first key a sequence already sorted by a second key orders it by the first key, ties by the second |
| HistoryMetadata.UserText | claude-history-viewer/src/historyParser.js:54-58 | a user record yields a text exactly when its content is truthy; for string content the text is that string |
| HistoryMetadata.RecordsTokensAppend | claude-history-viewer/src/historyParser.js:61-63 | the token total of a concatenation is the sum of the two totals |
| HistoryMetadata.TokenSumOverParsedRecords | claude-history-viewer/src/historyParser.js:48-67 | the running token total is the total over the records that parse; malformed lines add nothing |
| HistoryMetadata.Title | claude-history-viewer/src/historyParser.js:76 | the title is never empty, and it is the first user text when that text is non-empty |
| HistoryMetadata.ParseConversationMetadata | claude-history-viewer/src/historyParser.js:37-88 | the method's result is the reference summary of the file, or none when the file cannot be read |
| HistoryMetadata.SummarizeLines | claude-history-viewer/src/historyParser.js:42-83 | the line loop's result is the reference summary of the lines |
| HistoryMetadata.NoMetadataIff | claude-history-viewer/src/historyParser.js:39-45 | there is no summary exactly when the file is unreadable or has no lines, or its first or last line does not parse; middle lines do not matter |
| HistoryMetadata.MetadataCounts | claude-history-viewer/src/historyParser.js:77-79 | the message count is the number of lines, malformed ones included, and is positive; there are no more user messages than messages; the token total is over the parsed records |
| HistoryMetadata.TitleIsFirstUserText | claude-history-viewer/src/historyParser.js:54-76 | the title is the text of the first user line with truthy content; it is "Empty conversation" when that text is empty or there is no such line |
| HistoryMetadata.TitleOfUserTexts | claude-history-viewer/src/historyParser.js:54-76 | the title of the collected user texts comes from the first line that yields a user text |
| HistoryMetadata.MetadataIdentity | claude-history-viewer/src/historyParser.js:72-82 | the id is the base name without `.jsonl`; the project path is derived from the directory; `created` and the session come from the first line; `lastUpdate` is the last line's timestamp, falling back to the first's |
| HistoryMetadata.SummaryOfStoredLog | claude-history-viewer/src/historyParser.js:69-75 | a log stored as `projects/project/name.jsonl` has id `name`, and its project path is `project` with dashes read back as slashes |
| HistoryMetadata.LogFileName | claude-history-viewer/src/historyParser.js:73 | a plain name plus `.jsonl` is a non-empty file name without a slash |
| HistoryQueries.FindConversations | claude-history-viewer/src/historyParser.js:11-35 | the method's result is the reference listing |
| HistoryQueries.ListingFailsIff | claude-history-viewer/src/historyParser.js:14-18 | the listing fails exactly when the projects directory is missing, and then names that directory |
| HistoryQueries.ListingIsSortedSelection | claude-history-viewer/src/historyParser.js:25-32 | the listing is sorted newest first and is a permutation of the summaries found; a summary is listed exactly when some file yields it; for every `lastUpdate`, the summaries with it keep the glob order |
| HistoryQueries.ParseMessages | claude-history-viewer/src/historyParser.js:101-110 | the messages are the records of the lines that parse, in file order |
| HistoryQueries.GetConversation | claude-history-viewer/src/historyParser.js:90-116 | the method's result is the reference lookup |
| HistoryQueries.ConversationFound | claude-history-viewer/src/historyParser.js:92-116 | when the listing holds the id, the lookup succeeds with the first conversation carrying it exactly when its file can be read again, and otherwise fails naming that file |
| HistoryQueries.ConversationLookup | claude-history-viewer/src/historyParser.js:90-116 | a listing failure is passed on; "not found" happens exactly when no listed conversation has the id; a success is the first listed conversation with the id, with the records of its file read again |
| HistoryQueries.ToLower | claude-history-viewer/src/historyParser.js:122 | lowercasing keeps the length and maps each character on its own |
| HistoryQueries.ToLowerIdempotent | claude-history-viewer/src/historyParser.js:122 | lowercasing twice is lowercasing once, so a lowered term is unchanged by lowering it again |
| HistoryQueries.TextOf | claude-history-viewer/src/historyParser.js:140-141 | a part contributes text exactly when it is a text part |
| HistoryQueries.TextContent | claude-history-viewer/src/historyParser.js:134-144 | defines the searchable text: a string content as is, the texts of the text parts joined by spaces for array content, and `''` for absent content (its cases are stated by HistoryQueries.TextContentCases) |
| HistoryQueries.TextContentCases | claude-history-viewer/src/historyParser.js:134-144 | the searchable text of string content is the string, of absent content is empty, and of parts with one text part is that part's text |
| HistoryQueries.MatchesIn | claude-history-viewer/src/historyParser.js:128-157 | there are no more matches than lines |
| HistoryQueries.MatchesInSound | claude-history-viewer/src/historyParser.js:146-153 | every match is a line that parses and whose lowered text contains the term, with that line's index, text, kind and timestamp |
| HistoryQueries.MatchesInRising | claude-history-viewer/src/historyParser.js:130 | line numbers rise strictly along the matches |
| HistoryQueries.MatchesInComplete | claude-history-viewer/src/historyParser.js:146-153 | every matching line is reported |
| HistoryQueries.MatchesInReportsIff | claude-history-viewer/src/historyParser.js:130-157 | a line is reported exactly when it matches |
| HistoryQueries.EmptyQueryMatchesParsedLines | claude-history-viewer/src/historyParser.js:146 | with an empty query, a line matches exactly when it parses |
| HistoryQueries.ScanLines | claude-history-viewer/src/historyParser.js:128-157 | the inner loop's matches are the reference matches |
| HistoryQueries.ResultAt | claude-history-viewer/src/historyParser.js:159-165 | a conversation yields a result only with at least one match, and `matchCount` is the number of matches |
| HistoryQueries.SearchConversations | claude-history-viewer/src/historyParser.js:118-171 | the method's result is the reference search |
| HistoryQueries.SearchListed | claude-history-viewer/src/historyParser.js:124-166 | the outer loop's result is the reference scan of the listed conversations |
| HistoryQueries.SearchNext | claude-history-viewer/src/historyParser.js:125-165 | one step either stops the search at an unreadable file, or extends the results by that conversation's result |
| HistoryQueries.SearchInScanned | claude-history-viewer/src/historyParser.js:124-166 | once every conversation has been read, the scan succeeds with the collected results |
| HistoryQueries.SearchInReadable | claude-history-viewer/src/historyParser.js:124-166 | when every file can be read again, the results are the per-conversation results, in listing order |
| HistoryQueries.SearchInStopsAt | claude-history-viewer/src/historyParser.js:125 | the search fails at, and names, the first listed file that can no longer be read |
| HistoryQueries.SearchFile | claude-history-viewer/src/historyParser.js:125-165 | the per-file search's result is the reference result for that conversation |
| HistoryQueries.CollectKeepsOrder | claude-history-viewer/src/historyParser.js:159-165 | keeping results in listing order keeps the listing's `lastUpdate` order |
| HistoryQueries.SearchResultsAreMatchingConversations | claude-history-viewer/src/historyParser.js:124-166 | a successful scan, before the sort, read every listed file; it keeps a result exactly when it belongs to a listed conversation with at least one match, and the result's matches are those of that file |
| HistoryQueries.SearchReturnsMatchingConversations | claude-history-viewer/src/historyParser.js:118-171 | the sorted results are exactly the results of the listed conversations with at least one match; each `matchCount` is the number of that file's matches |
| HistoryQueries.SearchOrder | claude-history-viewer/src/historyParser.js:168 | results are ordered by match count, highest first, and ties keep the newest-first order |
| ContentParts.HasToolUse | claude-history-viewer/public/app.js:594-597 | defines `hasToolUse`: some part of array content is a `tool_use`; a record whose content is not an array never has one |
| ContentParts.HasToolResult | claude-history-viewer/public/app.js:599-604 | defines `hasToolResult`: some part of array content is a `tool_result` whose `tool_use_id` is the call's id; a record whose content is not an array never has one |
| ContentParts.GetToolUseContent | claude-history-viewer/public/app.js:612-615 | a tool call is found exactly when the record has one |
| ContentParts.ToolUseIsFirstCall | claude-history-viewer/public/app.js:612-615 | the call found is a part of the record |
| ContentParts.GetToolUseId | claude-history-viewer/public/app.js:606-610 | an id is found exactly when the record has a tool call |
| ContentParts.ToolUseIdOfFirstCall | claude-history-viewer/public/app.js:606-610 | the id found is that of a tool-call part of the record |
| ContentParts.GetToolResultContent | claude-history-viewer/public/app.js:617-620 | a result part is found exactly when the record has one |
| ContentParts.ToolResultIsFirstResult | claude-history-viewer/public/app.js:617-620 | the result part found is a part of the record |
| ContentParts.GetSpawnedSidechainId | claude-history-viewer/public/app.js:622-640 | defines `getSpawnedSidechainId` as returning no session, which every path of the source does (stated by ContentParts.NoSidechainIsSpawned) |
| ContentParts.NoSidechainIsSpawned | claude-history-viewer/public/app.js:622-640 | no message ever names a spawned sidechain |
| ContentParts.GetToolIcon | claude-history-viewer/public/app.js:642-663 | the icon is never empty; a listed tool gets its table icon; the wrench is shown exactly for tools not in the table |
| ContentParts.AssistantRendersEmpty | claude-history-viewer/public/app.js:395-400 | defines when `renderAssistantMessage` returns `''` early: the content is not truthy, or the record has a tool call |
| ViewerState.UuidIndex | claude-history-viewer/public/app.js:139-140 | every entry maps a uuid to a message of the conversation carrying that uuid |
| ViewerState.UuidIndexKeys | claude-history-viewer/public/app.js:139-140 | the keys are exactly the conversation's uuids |
| ViewerState.UuidIndexLastWins | claude-history-viewer/public/app.js:140 | when a uuid repeats, the last message carrying it holds the entry |
| ViewerState.SessionMembers | claude-history-viewer/public/app.js:142-148 | a session's list holds only sidechain messages of that session |
| ViewerState.IndexStep | claude-history-viewer/public/app.js:139-148 | visiting one more message adds its uuid entry and appends it to its session's list |
| ViewerState.SidechainIndexIsClustering | claude-history-viewer/public/app.js:142-148 | the sidechain map's keys are exactly the sessions of sidechain messages, and each list holds that session's sidechain messages in input order |
| ViewerState.SessionMembersEmpty | claude-history-viewer/public/app.js:142-148 | a session without sidechain messages has no members |
| ViewerState.HasChildIffNamed | claude-history-viewer/public/app.js:152-157 | with unique uuids, a message has a child exactly when some message's truthy `parentUuid` is its uuid |
| ViewerState.MainThread | claude-history-viewer/public/app.js:162 | the main thread holds exactly the non-sidechain messages, and no more than the conversation |
| ViewerState.MainThreadDisjointFromSidechains | claude-history-viewer/public/app.js:162 | no message of a sidechain list is on the main thread |
| ViewerState.MainThreadWithoutSidechains | claude-history-viewer/public/app.js:162 | without sidechain messages the main thread is the whole conversation, in order |
| ViewerState.MainThreadAppend | claude-history-viewer/public/app.js:162 | the filter keeps order: the main thread of two consecutive stretches is the main thread of the first followed by that of the second |
| ViewerState.Viewer.ProcessConversation | claude-history-viewer/public/app.js:134-158 | both maps are rebuilt from the current conversation alone; a message's flag is set exactly when it was set before or some message names it as its parent; nothing else changes |
| ViewerState.Viewer.IndexMessages | claude-history-viewer/public/app.js:136-149 | the clearing and first loop leave the uuid map and the sidechain map equal to their reference indexes |
| ViewerState.Viewer.FlagParents | claude-history-viewer/public/app.js:152-157 | the second loop flags exactly the messages that some message names through the uuid map, and writes no other field |
| FlowGrouper.FindResult | claude-history-viewer/public/app.js:211-221 | an answer found lies at or after the start of the scan and inside the thread |
| FlowGrouper.FindResultSpec | claude-history-viewer/public/app.js:211-221 | the answer found is the first user message after the call that carries its `tool_result`; none is found only when there is none |
| FlowGrouper.FindToolResult | claude-history-viewer/public/app.js:211-221 | the inner loop's result is the reference answer search |
| FlowGrouper.NextGroup | claude-history-viewer/public/app.js:204-253 | every step moves the scan forward and stays inside the thread |
| FlowGrouper.NextGroupSound | claude-history-viewer/public/app.js:208-253 | the group emitted covers exactly the messages it skips; a flow is well formed; a message emitted alone is never a call that something after it answers |
| FlowGrouper.FlattenLength | claude-history-viewer/public/app.js:202-256 | a greedy grouping has no more groups than messages |
| FlowGrouper.GroupedFromCovers | claude-history-viewer/public/app.js:202-256 | concatenating the groups' messages gives back the thread, exactly and in order |
| FlowGrouper.GroupedFromGreedy | claude-history-viewer/public/app.js:208-253 | every group keeps the first-match discipline |
| FlowGrouper.GreedyGroupingIsUnique | claude-history-viewer/public/app.js:200-257 | the scan's grouping is the only covering grouping that keeps the first-match discipline |
| FlowGrouper.FlowLiesAt | claude-history-viewer/public/app.js:223-230 | a well-formed flow opens with its tool call and ends with that call's first answer; its message list is the thread between them |
| FlowGrouper.GroupedSound | claude-history-viewer/public/app.js:200-257 | the grouping covers the thread in order, has at most one group per message, and is greedy |
| FlowGrouper.GroupMessagesByFlow | claude-history-viewer/public/app.js:200-257 | the scan's groups are the reference grouping |
| FlowGrouper.UnansweredCallRendersEmpty | claude-history-viewer/public/app.js:223-253 | a tool call that ends up in a plain group draws nothing |
| FlowGrouper.NoCallsAllPlain | claude-history-viewer/public/app.js:236-253 | without assistant tool calls the grouping is one plain group per message, in order |
| ToolResultView.ViewContent | claude-history-viewer/public/app.js:673-692 | JSON text is shown as JSON; only non-JSON text longer than 1000 characters is split; the preview is 500 characters long |
| ToolResultView.ContentIsRecoverable | claude-history-viewer/public/app.js:679-688 | the preview and the collapsed rest concatenate back to the result text, and the preview is the text's first 500 characters |
| ToolResultView.TruthyStr | claude-history-viewer/public/app.js:710-716 | a string item is shown only when truthy, and then unchanged |
| ToolResultView.TruthyNat | claude-history-viewer/public/app.js:718-724 | a number item is shown only when truthy, and then unchanged |
| ToolResultView.ShownTodos | claude-history-viewer/public/app.js:759-770 | a todo list is shown only when present and non-empty, and then unchanged |
| ToolResultView.ClassifyToolResultData | claude-history-viewer/public/app.js:702-793 | the payload is a task summary, shell output, a todo change or generic data, in that order of precedence; each item is shown exactly when truthy |
| ToolResultView.ClassifierTakesFirstTestThatHolds | claude-history-viewer/public/app.js:707-789 | the kind chosen is the first of the task, shell and todo tests that holds, and generic exactly when none holds |
| ToolResultView.EmptyStdoutIsStillBash | claude-history-viewer/public/app.js:736-742 | a payload with an empty `stdout` key still counts as shell output, with the block left out |
| ToolResultView.FormatToolResultContent | claude-history-viewer/public/app.js:665-700 | "No result" exactly when there is no result part; otherwise the whole result text is shown, and the payload is shown exactly when there is one |
| ToolResultView.MatchingResultPart | claude-history-viewer/public/app.js:599-604 | a part is found exactly when the record answers the call; it is the first part that answers it |
| ToolResultView.FlowCardAsWritten | claude-history-viewer/public/app.js:259-317 | the card shows the name and icon of the first tool call; "No result" appears exactly when the answering record has no result part at all; otherwise the status and the text are those of the record's first result part, whichever call it answers |
| ToolResultView.AsWrittenCardShowsAnotherCallsResult | claude-history-viewer/public/app.js:262-264 | for call `b` answered by a record whose first part answers call `a`, the card shows `a`'s failure and text |
| ToolResultView.ToolFlowCard | claude-history-viewer/public/app.js:259-317 | the card's status and text are those of the first result part that answers the card's own call; "No result" appears exactly when the record answers no such call |
| ToolResultView.FlowCardShowsItsOwnAnswer | claude-history-viewer/public/app.js:223-230 | every flow the grouping emits gets a card with an output |
| ToolResultView.CorrectedCardShowsItsOwnResult | claude-history-viewer/public/app.js:262-264 | with the corrected card, call `b` shows its own success and text |

## Left out

- Rendering: the HTML string building and DOM work of the viewer are not modelled. This includes every `render*` method, `escapeHtml`, the collapsibles, the developer view, scrolling and event handling. Only the decisions those methods take are modelled: grouping, icon, status, text split and payload kind.
- `formatMessageContent` is presentation built from a chain of regular-expression replacements, so it is not modelled.
- `formatTokens`, `formatDate` and `formatTimestamp` are not modelled. They use floating point, the clock and the locale.
- I/O is not modelled:
  - `fetch` and the asynchronous loading of the viewer;
  - `fs.access`, `fs.readFile`, and the glob of historyParser.js.
- File system inputs: the glob's file list is an input, taken in the order the glob returns it.
  - A read is a function that may fail.
  - The read of a listed file in `getConversation` and `searchConversations` is a separate function (`Disk.reread`), because the file may have changed since it was listed.
- `JSON.parse` of a log line is the parameter `parse`, which yields a record or `None`. `None` stands both for a line that is not JSON and for a JSON value that is not an object (`null`, a boolean, a number, a string, an array). For those values the model departs from the source in the three places below. Outside `getConversation` a `null` line behaves as in the source, and in `parseConversationMetadata` so does every such value on a middle line.
- HistoryQueries.ParseMessages: `getConversation` (historyParser.js:105-106) pushes whatever `JSON.parse` returns, so a `null`, boolean, number, string or array line is a message in the source; the model drops it.
- HistoryMetadata.NoMetadataIff: a first or last line holding a boolean, number, string or array does not throw in the source (its `timestamp` and `sessionId` read as undefined, historyParser.js:80-82), so that file is listed; the model gives it no summary.
- HistoryQueries.EmptyQueryMatchesParsedLines: a boolean, number, string or array line has the searchable text `''` in the source (historyParser.js:134-135) and so matches an empty query; the model never reports it.
- In `formatToolResultContent`, JSON detection is the parameter `isJson`. Re-indenting with `JSON.stringify` is not modelled: a JSON block carries the raw text.
- Array-valued `tool_result` content is not modelled: a result part's content is a string.
- Strings are sequences of characters, so `.length` and `substring` count characters, not UTF-16 code units.
- HistoryQueries.ToLower: an ASCII-only mapping stands in for the full Unicode `toLowerCase`.
- PathNames.JoinPath: `path.join` normalisation is not modelled, so `..`, `.` and repeated slashes are kept. The configuration directory is taken as a plain path.
- Sorting.SortDesc: a missing `lastUpdate` sorts after every timestamp, with key -1. In the source, `new Date(undefined)` yields NaN, which the comparator treats as equal to everything, an inconsistent order whose outcome depends on the engine.
- Records: an empty-string timestamp is treated as absent. Timestamps are instants in milliseconds rather than ISO strings.
- ContentParts.GetToolIcon: a tool named like an `Object.prototype` member (for example `constructor`) gets the wrench. In the source, such a name would find the inherited member instead.
- FlowGrouper: the `sidechain` branch of `groupMessagesByFlow` (public/app.js:235-246) is not written. `getSpawnedSidechainId` never names a session (ContentParts.NoSidechainIsSpawned), so the branch cannot run.
- The messages between a tool call and its answer are kept in the flow group, but how `renderToolFlow` draws them (it shows only the call and the card) is not modelled.
- The constructor's fallback to `CLAUDE_CONFIG_DIR` or the home directory (historyParser.js:8) reads the environment. The configuration directory is an input instead.
- `src/server.js`, `bin/cli.js` and `src/utils.js` are not part of this model. They are HTTP routing, argument parsing, port finding and number formatting.

## Findings

| source | as written | input that shows it | evidently intended | confidence | as-written member | corrected member |
|---|---|---|---|---|---|---|
| claude-history-viewer/public/app.js:262 | `renderToolFlow` takes the status and output from the first `tool_result` part of the answering message, whichever call that part answers. The grouping picked that message because one of its parts answers this call. | call `b` answered by a user message with parts `tool_result(a, "failure of a", is_error)` then `tool_result(b, "output of b")` (`CallB`, `AnswersAThenB`); the card of `b` shows "Failed" and `a`'s text | the card shows the result part whose `tool_use_id` is the card's own call | not executed | ToolResultView.AsWrittenCardShowsAnotherCallsResult | ToolResultView.CorrectedCardShowsItsOwnResult |
