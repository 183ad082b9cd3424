# AgentOps blog core in Dafny

This project models the logic of a small blog site with AgentOps telemetry.
It has three parts:

- **Articles** (`Articles.dfy`). The static article table and its three
  queries:
  - published articles, newest first;
  - lookup by id;
  - published articles carrying a tag, where the tag match ignores case.
- **Markdown** (`Markdown.dfy`). The article page's Markdown renderer:
  - trim the body, split it into lines, and classify each line;
  - headings `#`/`##`/`###`;
  - fenced code blocks that take the lines up to the closing fence;
  - lists that take the run of `- ` lines;
  - paragraphs, whose inline code is split on backticks and whose bold is
    split on `**`;
  - element keys numbered in order.
- **AgentOps** (`AgentOps.dfy`). The telemetry client:
  - an initialised flag, at most one active session, and the active traces
    keyed by id;
  - events recorded into the session and posted to the collector with a
    bearer token;
  - the module-level `agentOps` object, whose calls throw
    `AgentOps not initialized` before `init`;
  - the `operation`, `tool` and `trace` instrumentation wrappers.

`Wrappers.dfy` holds the `Option` type the three modules share.

The pure parts are functions:
- the article queries;
- `split`, `trim`, and the inline and block structure;
- the session, trace and event values.

Each has lemmas stating what it promises.

The parts the source writes as loops or as updates to objects are
imperative Dafny:
- The renderer's line loop is `RenderMarkdown`, which is proved equal to
  the recursive specification `Render`.
- The client is the class `Client`, with a `Valid` invariant that every
  method keeps:
  - the active session is open and its events all carry its id;
  - every active trace is open and filed under its own id.
- The module-level object is the class `Facade`.

Each state-changing method states its whole effect: which ids and clock
readings it draws, the new session and trace map, and the deliveries it
adds to the outbox. An effect is a relation between two `Snapshot`
values, each holding the session, the trace map, the count of ids and
readings drawn, and the outbox:
- `SessionStartedFrom`, `SessionEndedFrom`, `TraceFiledFrom`,
  `TraceEndedFrom` and `RecordedFrom` are the client's primitive steps;
- `TraceStartedFrom` is `startTrace`: the snapshot after is `AfterStart`
  of the one before;
- `TraceConcludedFrom` is the end of a wrapped call: the error event
  (`Failures`) on a throw, then the trace closed by `CloseTrace`;
- `TracedFrom` is a whole wrapped call: `AfterStart`, then
  `TraceConcludedFrom`.

The methods state them through two-state predicates of the same names
in the past tense (`StartedSession`, `StartedTrace`, `Concluded`,
`TracedRun`, …), which compare the client before and after the call.
Lemmas prove that the steps compose into the larger effects.

## Model

| member | source | states |
|---|---|---|
| ArticleQueries.IsPublished | src/lib/articles.ts:452 | `article.status === 'published'`; used by `PublishedInSpec` and `TaggedInSpec` |
| ArticleQueries.Filter | src/lib/articles.ts:450-452 | the result keeps exactly the elements satisfying the predicate, each as many times as it occurs in the input, in their original order (a subsequence) |
| ArticleQueries.FilterAgree | src/lib/articles.ts:460-465 | two predicates that agree on every element of the table select the same list |
| ArticleQueries.FilterKeepsAll | src/lib/articles.ts:450-452 | a filter whose predicate holds for every element returns the table unchanged |
| ArticleQueries.Insert | src/lib/articles.ts:453 | one insertion step of the stable sort adds one element; `InsertPermutes` and `InsertNewestFirst` state what it inserts and where |
| ArticleQueries.InsertPermutes | src/lib/articles.ts:453 | one insertion step of the stable newest-first sort adds exactly the inserted article |
| ArticleQueries.InsertNewestFirst | src/lib/articles.ts:453 | inserting into a newest-first list keeps it newest first |
| ArticleQueries.NewestFirstCons | src/lib/articles.ts:453 | a list with a head is newest first iff its tail is and the head is at least as new as every later article |
| ArticleQueries.SortNewestFirst | src/lib/articles.ts:453 | `sort` by `publishedAt` descending keeps the length; `SortPermutes` and `SortIsNewestFirst` state the rest |
| ArticleQueries.SortPermutes | src/lib/articles.ts:453 | sorting by `publishedAt` descending is a permutation of its input |
| ArticleQueries.SortIsNewestFirst | src/lib/articles.ts:453 | the sorted list is ordered newest first |
| ArticleQueries.PublishedIn | src/lib/articles.ts:450-454 | the published articles, newest first; its contract is `PublishedInSpec` |
| ArticleQueries.PublishedInSpec | src/lib/articles.ts:450-454 | `getPublishedArticles` holds only published articles, every published article, as a permutation of the filtered table, newest first |
| ArticleQueries.FindById | src/lib/articles.ts:456-458 | `find` returns nothing iff no article has the id, and otherwise the first article with that id |
| ArticleQueries.ToLower | src/lib/articles.ts:463 | lower-casing keeps the length and maps each character on its own |
| ArticleQueries.HasTag | src/lib/articles.ts:463 | `tags.some(t => t.toLowerCase() === tag.toLowerCase())`; used by `TaggedInSpec` |
| ArticleQueries.TaggedIn | src/lib/articles.ts:460-465 | the published articles carrying the tag; its contract is `TaggedInSpec` |
| ArticleQueries.TaggedInSpec | src/lib/articles.ts:460-465 | an article is in `getArticlesByTag` iff it is in the table, published, and has a tag equal to the query up to case; each such article appears as often as in the table, and table order is kept |
| ArticleQueries.ToLowerIdempotent | src/lib/articles.ts:463 | lower-casing twice is lower-casing once |
| ArticleQueries.TaggedInCaseInsensitive | src/lib/articles.ts:460-465 | two queries that agree up to case select the same articles |
| ArticleQueries.TaggedInLowerQuery | src/lib/articles.ts:460-465 | lower-casing the query first changes nothing |
| ArticleTable.Articles | src/lib/articles.ts:12-448 | the four articles in source order with their ids, titles, tags, dates, status and read times; see `TableIdsDistinct` and `GetPublishedArticlesOrder` |
| ArticleTable.GetPublishedArticles | src/lib/articles.ts:450-454 | `getPublishedArticles()` on the table; its contract is `GetPublishedArticlesOrder` |
| ArticleTable.GetArticleById | src/lib/articles.ts:456-458 | `getArticleById(id)` on the table; its contract is `GetArticleByIdUnique` |
| ArticleTable.GetArticlesByTag | src/lib/articles.ts:460-465 | `getArticlesByTag(tag)` on the table; its contract is `TaggedInSpec` |
| ArticleTable.TableIdsDistinct | src/lib/articles.ts:12-448 | the four article ids of the table are pairwise distinct |
| ArticleTable.GetArticleByIdUnique | src/lib/articles.ts:456-458 | `getArticleById` returns the table's article with that id, and nothing iff no article has it |
| ArticleTable.GetPublishedArticlesOrder | src/lib/articles.ts:12-454 | the published list is the four articles newest first: agentic-ai-marketing-term, ai-revolution-2025, ai-powered-development-tools, future-ai-collaboration |
| ArticleTable.SortFour | src/lib/articles.ts:453 | four articles in the table's date pattern sort into the expected order |
| ArticleTable.InsertAfter | src/lib/articles.ts:453 | inserting past a prefix of strictly newer articles leaves that prefix in front |
| ArticleTable.InsertOldest | src/lib/articles.ts:453 | an article older than all others is inserted at the end |
| Markdown.StartsWith | src/components/MarkdownRenderer.tsx:20 | `startsWith(prefix)`: the prefix fits and matches; used by `ClassifyExact` |
| Markdown.Slice | src/components/MarkdownRenderer.tsx:23 | `slice(n)` drops the first n characters, and is empty when n passes the end |
| Markdown.Trim | src/components/MarkdownRenderer.tsx:12 | `trim()` is empty iff the text is all JavaScript white space, and otherwise starts and ends with a non-space |
| Markdown.SkipSpaces | src/components/MarkdownRenderer.tsx:12 | the first index at or after `i` that is not JavaScript white space, everything skipped being white space |
| Markdown.DropTrailingSpaces | src/components/MarkdownRenderer.tsx:12 | the end of the text once its trailing white space is dropped, everything dropped being white space |
| Markdown.TrimInfix | src/components/MarkdownRenderer.tsx:12 | the trimmed text is an infix of the text with only white space cut from either side |
| Markdown.IndexOf | src/components/MarkdownRenderer.tsx:12 | `indexOf` finds the first occurrence at or after the start, or reports that there is none |
| Markdown.Split | src/components/MarkdownRenderer.tsx:12 | `split` always yields at least one piece (what the pieces are is stated by `SplitPieces` and `SplitJoin`) |
| Markdown.FirstOccurrenceKept | src/components/MarkdownRenderer.tsx:12 | cutting at the first occurrence of the separator: that occurrence is still the first once the text after it is dropped |
| Markdown.SplitPieces | src/components/MarkdownRenderer.tsx:12 | every piece of `split(d)` but the last ends right where the first `d` after it starts, and the last piece contains no `d`; with `SplitJoin` this makes the pieces the cuts at the leftmost non-overlapping occurrences |
| Markdown.JoinWith | src/components/MarkdownRenderer.tsx:58 | `parts.join(d)`; `SplitJoin` and the round trips state it |
| Markdown.SplitJoin | src/components/MarkdownRenderer.tsx:12 | joining the pieces of `split(d)` with `d` gives the text back |
| Markdown.InlineCode | src/components/MarkdownRenderer.tsx:85-94 | one piece per backtick-separated part, holding that part's text; exactly the odd-indexed pieces are code, each keyed by its index |
| Markdown.InlineCodeRoundTrip | src/components/MarkdownRenderer.tsx:85-94 | the pieces' texts joined with backticks give the line back |
| Markdown.BoldParts | src/components/MarkdownRenderer.tsx:97-108 | the parts are the pieces of `split('**')`; exactly the odd parts are bold, each keyed by its group and part index, and the parts joined with `**` give the text back |
| Markdown.ProcessBold | src/components/MarkdownRenderer.tsx:97-111 | `processBold`; its contract is `BoldParts` per string and `ProcessBoldKeepsCode` |
| Markdown.ParagraphContent | src/components/MarkdownRenderer.tsx:113 | `processBold(processInlineCode(line))`; its contract is `ParagraphRoundTrip` |
| Markdown.ParagraphRoundTrip | src/components/MarkdownRenderer.tsx:83-113 | after inline code and bold processing, rejoining with `**` and then backticks gives the line back |
| Markdown.ProcessBoldKeepsCode | src/components/MarkdownRenderer.tsx:97-111 | bold processing leaves the inline code spans exactly as they were, in order |
| Markdown.FenceEnd | src/components/MarkdownRenderer.tsx:45-48 | the first fence line at or after j, or the end; no line before it is a fence |
| Markdown.ListEnd | src/components/MarkdownRenderer.tsx:68-71 | the first non-list line at or after j, or the end; every line before it is a list line |
| Markdown.Classify | src/components/MarkdownRenderer.tsx:20-83 | a line is classified as a list line iff it starts with `- `, and as a fence only if it starts with three backticks |
| Markdown.ClassifyExact | src/components/MarkdownRenderer.tsx:20-83 | each class holds exactly when its own test does: `# `, `## `, `### `, three backticks, `- `, and a line that trims to nothing |
| Markdown.BlockAt | src/components/MarkdownRenderer.tsx:20-119 | the block the line at `i` opens; its contract is `BlockAtByPrefix` |
| Markdown.BlockAtByPrefix | src/components/MarkdownRenderer.tsx:20-119 | `# ` opens an h1 of `slice(2)`, `## ` an h2 of `slice(3)`, `### ` an h3 of `slice(4)`; a fence opens a code block with language `slice(3)` and the lines up to the closing fence joined by newlines; `- ` opens a list of the run's items; a line that trims to nothing opens nothing; any other line opens a paragraph of its inline content |
| Markdown.Next | src/components/MarkdownRenderer.tsx:43-72 | the renderer always moves forward, at most one line past the end |
| Markdown.CodeLinesFrom | src/components/MarkdownRenderer.tsx:42-48 | the inner loop collects exactly the lines up to the closing fence and stops there |
| Markdown.ListItemsFrom | src/components/MarkdownRenderer.tsx:65-72 | the inner loop collects every line of the list run without its `- `, and stops at the first non-list line |
| Markdown.RenderLine | src/components/MarkdownRenderer.tsx:17-120 | one pass of the loop body emits the block `BlockAt` describes and resumes where `Next` says |
| Markdown.ParseAdvance | src/components/MarkdownRenderer.tsx:16-121 | one pass of the loop moves the block at `i` from the blocks still to come to the blocks emitted, and nothing else changes |
| Markdown.Lines | src/components/MarkdownRenderer.tsx:12 | `text.trim().split('\n')` |
| Markdown.ParseFrom | src/components/MarkdownRenderer.tsx:16-121 | the blocks of the lines from `i` on, consuming lines as the loop does; see `ParseAdvance` and `RenderMarkdown` |
| Markdown.Render | src/components/MarkdownRenderer.tsx:11-124 | the blocks of a whole body; `RenderMarkdown` is proved to emit exactly these |
| Markdown.RenderMarkdown | src/components/MarkdownRenderer.tsx:11-124 | the elements are exactly the blocks of `Render(text)`, in order, keyed 0, 1, 2, … |
| Markdown.ParseMatchesRoles | src/components/MarkdownRenderer.tsx:16-121 | the kinds of the emitted blocks are the element-opening roles of a forward-only two-flag line classifier (in code, in list), so every line is consumed once in the role the renderer gives it |
| Markdown.CodeRoles | src/components/MarkdownRenderer.tsx:40-61 | inside a code block every line up to the closing fence opens nothing |
| Markdown.ListRoles | src/components/MarkdownRenderer.tsx:64-81 | the list lines after a list item open nothing |
| Markdown.RenderBound | src/components/MarkdownRenderer.tsx:12-121 | there are never more elements than lines |
| AgentOps.MergeOptions | src/lib/agentops.ts:303-309 | `{ apiKey, ...options }`: every option that is given wins over the key argument |
| AgentOps.EndpointOf | src/lib/agentops.ts:74 | the endpoint is never empty: the configured one, or the default collector URL when it is absent or empty |
| AgentOps.Dispatched | src/lib/agentops.ts:68-88 | nothing is posted iff the API key is empty; otherwise one POST of the event to the endpoint with `Bearer <key>` |
| AgentOps.OpenSession | src/lib/agentops.ts:90-118 | a new session is open and holds only its `session_start` event, with the drawn id and timestamp and no trace id; its tags come from the argument, else the config, else `[]`; its trace name is the argument unless that is absent or empty, else the config's |
| AgentOps.CloseSession | src/lib/agentops.ts:120-142 | ending keeps id, start time, tags, trace name and the earlier events, sets end time and state, and appends one `session_end` with the drawn id and timestamp and no trace id, carrying the duration |
| AgentOps.OpenTrace | src/lib/agentops.ts:144-179 | a new trace is open, holds only its `trace_start` event with the drawn id and timestamp, and has tags `tags \|\| []` |
| AgentOps.CloseTrace | src/lib/agentops.ts:181-205 | ending keeps id, name, start time, tags, session and the earlier events, sets end time and state, and appends one `trace_end`, with the drawn id and timestamp, carrying the duration, session and trace ids |
| AgentOps.RecordedEvent | src/lib/agentops.ts:207-288 | a recorded event carries the drawn id and timestamp, its kind and payload, names the active session if there is one, and names no trace |
| AgentOps.Appended | src/lib/agentops.ts:225 | `activeSession?.events.push(e)`: there is no session afterwards iff there was none before |
| AgentOps.AppendKeepsOpen | src/lib/agentops.ts:207-288 | appending an event that names the session keeps the session open |
| AgentOps.OperationName | src/lib/agentops.ts:371 | the given name if non-empty, else `ClassName.method` |
| AgentOps.SessionTags | src/lib/agentops.ts:96 | `tags \|\| this.config.tags \|\| []`, with an argument array winning even when empty; stated in `OpenSession`'s contract |
| AgentOps.SessionTraceName | src/lib/agentops.ts:97 | `traceName \|\| this.config.traceName`, an empty name falling back; stated in `OpenSession`'s contract |
| AgentOps.Failures | src/lib/agentops.ts:378-379 | on a throw, exactly one `error` event with the error's message and stack and the wrapper's context, the drawn id and timestamp, naming the session and no trace; on a return, none |
| AgentOps.StartedTraceBegun | src/lib/agentops.ts:144-179 | after `startTrace` the new trace is open, named and tagged as asked, holds its `trace_start`, and is filed under its id in the session then active; no other trace changes. That session is the one that was active, and the trace id is the next id; or else it is a new session holding only its `session_start` with the default tags and trace name, and the trace id is the third id |
| AgentOps.StartComposes | src/lib/agentops.ts:144-179 | `startSession()` when no session is active, followed by filing the trace in the active session, is exactly `startTrace` |
| AgentOps.ReturnConcludes | src/lib/agentops.ts:375-377 | on a return, `endTrace(traceId, 'Success')` is the whole end of the call: no error event |
| AgentOps.ThrowConcludes | src/lib/agentops.ts:378-381 | on a throw, recording the error with the context and then `endTrace(traceId, 'Fail')` is the whole end of the call |
| AgentOps.TracedComposes | src/lib/agentops.ts:372-382 | `startTrace` followed by the end of the call is the whole wrapped call, with `before` the session's events as `startTrace` left them |
| AgentOps.TracedTrace | src/lib/agentops.ts:366-387 | after a wrapped call the trace is named and tagged as asked, belongs to the session the call ran in, and is no longer active; it holds exactly its `trace_start` and a `trace_end` that carries the outcome (`Success` or `Fail`), the elapsed time `endTime - startTime`, and the trace and session ids. The session's events are `before` on a return, and `before` plus one error event with the context on a throw |
| AgentOps.Env.Stamp | src/lib/agentops.ts:64-66 | a fresh id followed by a clock reading, each taken from its stream in order |
| AgentOps.Env.Now | src/lib/agentops.ts:123 | one clock reading, taken in order: the end time of `endSession` (line 123) and `endTrace` (line 185) and the tool wrapper's start and end times (lines 411 and 415) |
| AgentOps.Env.Post | src/lib/agentops.ts:76-84 | the delivery is appended to the outbox and nothing else changes |
| AgentOps.Client.constructor | src/lib/agentops.ts:44-52 | a client starts uninitialised, with no session and no traces |
| AgentOps.Client.Init | src/lib/agentops.ts:54-62 | only the first call sets the flag; it starts a session unless `autoStartSession` is `false` |
| AgentOps.Client.SendEvent | src/lib/agentops.ts:68-88 | the outbox grows by exactly what `Dispatched` says, and no ids or readings are drawn |
| AgentOps.Client.StartSession | src/lib/agentops.ts:90-118 | the active session is replaced, without being ended, by `OpenSession` over the next two ids and readings; traces are kept; its start event is sent |
| AgentOps.Client.EndSession | src/lib/agentops.ts:120-142 | with no session nothing changes; otherwise the session is closed by `CloseSession`, its end event sent, and it is no longer active |
| AgentOps.Client.StartTrace | src/lib/agentops.ts:144-179 | `StartedTrace`: the state after is `AfterStart` of the state before. A session, the `OpenSession` of the first two ids and readings, is opened first when none is active. The `OpenTrace` of the next two ids and readings is filed under its id in that session, and other traces stay. Two ids and readings are drawn (four with the session). The session's and the trace's start events are sent in that order |
| AgentOps.Client.FileTrace | src/lib/agentops.ts:149-178 | the trace built by `OpenTrace` is added to the map and its start event sent |
| AgentOps.Client.EndTrace | src/lib/agentops.ts:181-205 | an unknown id changes nothing; otherwise the trace is closed by `CloseTrace`, its end event sent, and it is removed from the map |
| AgentOps.Client.Record | src/lib/agentops.ts:207-288 | one event is appended to the active session (if any) and sent; traces are untouched |
| AgentOps.Client.RecordLLMEvent | src/lib/agentops.ts:207-228 | `Recorded` with kind `llm` and the call data |
| AgentOps.Client.RecordToolEvent | src/lib/agentops.ts:230-250 | `Recorded` with kind `tool` and the call data |
| AgentOps.Client.RecordActionEvent | src/lib/agentops.ts:252-270 | `Recorded` with kind `action` and the call data |
| AgentOps.Client.RecordError | src/lib/agentops.ts:272-288 | `Recorded` with kind `error`, the error's message and stack, and the context |
| AgentOps.Client.GetActiveSession | src/lib/agentops.ts:290-292 | the active session, which is open |
| AgentOps.Client.GetActiveTraces | src/lib/agentops.ts:294-296 | every active trace exactly once: length and contents match the map, and no two have the same id |
| AgentOps.ValuesOf | src/lib/agentops.ts:295 | `Array.from(map.values())`: each value once, paired with distinct keys it is stored under |
| AgentOps.Facade.constructor | src/lib/agentops.ts:300 | the module starts with no client |
| AgentOps.Facade.Init | src/lib/agentops.ts:303-312 | only the first call creates a client from the merged config and initialises it; later calls change nothing |
| AgentOps.Facade.StartSession | src/lib/agentops.ts:314-317 | before `init` it throws `AgentOps not initialized` and changes nothing; otherwise it has the client's effect and returns the session id |
| AgentOps.Facade.EndSession | src/lib/agentops.ts:319-322 | throws before `init`; otherwise ends the session, with state defaulting to `Success` |
| AgentOps.Facade.StartTrace | src/lib/agentops.ts:324-327 | throws before `init`; otherwise starts the trace with the client's effect, including its draws and deliveries, and returns its id |
| AgentOps.Facade.EndTrace | src/lib/agentops.ts:329-332 | throws before `init`; otherwise ends the trace, with state defaulting to `Success` |
| AgentOps.Facade.RecordLLM | src/lib/agentops.ts:334-337 | throws before `init`; otherwise records an `llm` event |
| AgentOps.Facade.RecordTool | src/lib/agentops.ts:339-342 | throws before `init`; otherwise records a `tool` event |
| AgentOps.Facade.RecordAction | src/lib/agentops.ts:344-347 | throws before `init`; otherwise records an `action` event |
| AgentOps.Facade.RecordError | src/lib/agentops.ts:349-352 | throws before `init`; otherwise records an `error` event, even with no active session |
| AgentOps.Facade.GetActiveSession | src/lib/agentops.ts:354-357 | `null` before `init`, else the client's active session |
| AgentOps.Facade.GetActiveTraces | src/lib/agentops.ts:359-362 | `[]` before `init`, else every active trace once |
| AgentOps.Facade.Traced | src/lib/agentops.ts:366-387 | `TracedRun`: the call runs after `startTrace`, in the session that was active or else in the `OpenSession` of the first two ids and readings; `before` is that session's event list. The trace `startTrace` opened is closed by `CloseTrace` with `Success` or `Fail` as the call returned or threw, with the next clock reading as end time, and is removed. On a throw exactly one error event, carrying the error's message, stack and the given context, is appended to the session first. The posts are, in order: the session start (when one was opened), the trace start, the error (on a throw) and the trace end. Every id and reading drawn is counted. The call's result or error passes through unchanged. Before `init` the call never runs and nothing is drawn or sent |
| AgentOps.Facade.Finish | src/lib/agentops.ts:375-381 | `Concluded`: on a throw the error event `Failures` builds (message, stack, context, the next id and reading, naming the session) is appended to the session and posted. Then the active trace is closed by `CloseTrace` as `Success` or `Fail`, with the next reading, id and reading, removed from the map, and its end posted |
| AgentOps.Facade.EndReturned | src/lib/agentops.ts:375-377 | after a return, `endTrace(traceId, 'Success')` is `Concluded` with no error event |
| AgentOps.Facade.EndThrown | src/lib/agentops.ts:378-381 | after a throw, `recordError(error, context)` then `endTrace(traceId, 'Fail')` is `Concluded` with the error event |
| AgentOps.Facade.OperationWrapper | src/lib/agentops.ts:366-387 | `@operation`: `TracedRun` for a trace named by `OperationName` (`name \|\| Class.method`), tagged `operation`, with error context `{ operation, args }`; the result or error passes through |
| AgentOps.Facade.TraceWrapper | src/lib/agentops.ts:436-456 | `@trace`: `TracedRun` for a trace with the given name and tags and error context `{ trace, args }`; the result or error passes through |
| AgentOps.Facade.ToolWrapper | src/lib/agentops.ts:406-434 | `@tool`: on return the call is recorded with latency `end - start`; on a throw the error is recorded with `{ tool, args }` and rethrown; before `init` the call still runs, one or two clock readings are drawn, nothing is sent, and `AgentOps not initialized` is thrown |
| AgentOps.Facade.ToolReturned | src/lib/agentops.ts:413-425 | after a returning call: the end time is read, and the tool call is recorded with its latency |
| AgentOps.TraceOpensSessionRun | src/lib/agentops.ts:144-147 | a trace started on a client with no session first opens one (ids 0 and 1), and the trace takes id 2 |
| AgentOps.TraceRun | src/lib/agentops.ts:144-179 | after starting "checkout" tagged "flow", it is the one active trace, in the session opened for it |
| AgentOps.ErrorWithoutSessionRun | src/lib/agentops.ts:272-288 | with auto-start off, `recordError` does not throw, posts one error event that names no session, and no session appears |
| AgentOps.UninitializedRun | src/lib/agentops.ts:300-362 | before `init`: `startTrace` throws `AgentOps not initialized`, the getters give `null` and `[]`, a tool call's recording throws, and nothing is posted |
| AgentOps.InitTwiceRun | src/lib/agentops.ts:303-312 | a second `init` is ignored: one session, one post, with the first key |
| AgentOps.NoKeyRun | src/lib/agentops.ts:68-72 | without an API key a session still starts but nothing is posted |

## Left out

- Network and console: `fetch`, its headers and JSON body, `console.warn` and `console.error` are not modelled. A POST is a `Delivery` (endpoint, authorization header, event) appended to a ghost outbox. A failed or rejected fetch is not modelled; the source ignores it.
- Ids and time: `generateId` (`Math.random` plus `Date.now`) and `Date.now` are injected streams, `Env.ids` and `Env.clock`, read in call order. The `Date.now` inside `generateId` is part of the id, not a clock reading. Ids are not assumed distinct.
- `async` and decorators: each wrapper is a method that takes the outcome of the wrapped call (`Outcome<Json>`) and runs sequentially. The wrapped call's own telemetry calls, and any interleaving of concurrent calls, are not modelled.
- The `agent` class decorator is not modelled.
- Aliasing: sessions and traces are values. A caller holding the object returned by `getActiveSession` does not see later pushes. `EndSession` and `EndTrace` hand the finished object back as a ghost result instead.
- `Client.FileTrace`: the source stores the trace in the map before pushing its start event into it. The model builds the finished trace first and stores it once. No observable difference remains once aliasing is not modelled.
- `Client.GetActiveTraces` and `Facade.GetActiveTraces` (which delegates to it): the insertion order of the JavaScript `Map` is not modelled, because a Dafny map has no order. Only the contents, their count and distinct ids are stated.
- `Facade.Traced`, `Facade.OperationWrapper`, `Facade.TraceWrapper` and `Facade.ToolWrapper` model only `Error`-like thrown values, `Threw(JsError(message, stack))`. If the wrapped call throws `null` or `undefined`, `recordError` raises a `TypeError` on `error.message`. Then `endTrace(traceId, 'Fail')` never runs, the trace stays active, nothing is posted, and the `TypeError` replaces the original error. A thrown primitive gives an error event whose message is `undefined`. Neither case is modelled.
- The event `tags` field is never set by the source and is left out.
- An option passed explicitly as `undefined` to `init` is not distinguished from an absent one.
- `Payload` stands for the `data` object. Its field names and the `event_type` strings are represented by constructors, and `any` values are opaque strings (`Json`). The `stack` of the facade's own `AgentOps not initialized` error is not modelled.
- `toLowerCase` is modelled on ASCII letters only; Unicode case mapping is not modelled.
- `publishedAt`: dates are integers, the epoch milliseconds that V8's `new Date` gives the table's strings. Date parsing is not modelled. `'2024-01-25'` is in ECMAScript's date-time format and is read as UTC midnight. The other three dates, such as `'2025-07-05 8:30:00 -0400'` (space separator, one-digit hour), are not in that format. `new Date` parses them with an engine-specific fallback, so another engine may give other values or `NaN`, and then another order.
- Article texts: `excerpt` and `content` are omitted from the table. `ArticleTable` keeps id, title, tags, date, status and read time.
- `Array.prototype.sort` is modelled as a stable insertion sort under the same comparator. The order of articles with equal dates is the input order, which is what a stable sort gives.
- Rendering: JSX elements, class names and the `language &&` label are replaced by `Block` and `Inline` values. `Element` keeps the `currentIndex` key, and `Strong` and `Code` keep their piece indices.
- `Markdown.RenderMarkdown`: the source is one loop with two inner loops. The model factors the inner loops into `CodeLinesFrom` and `ListItemsFrom`, and the loop body into `RenderLine`. Lines are consumed exactly as in the source, including the `i--` after a list and the step past a missing closing fence.
