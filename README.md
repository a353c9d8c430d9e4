# A verified model of the TypeScript agent-workflow engine

The repository is a small TypeScript framework for agent workflows. A
`Workflow` holds named steps and runs them one after another. Each step's
input is resolved from a schema and from the step's input source: a data
object, the previous step's output, a human's answers, or the global state.
An agent step then talks to a language model until the model says it is
done, and a code step calls a function. Each step's input and output are
recorded in an append-only global state. Around the engine sit nodes:
a loop node that maps a child over an array, a file node that reads or
writes files, and an agent node. There are also JSON-file databases,
file-backed response caches for two enrichment APIs, a builder that turns
Zod schemas into tool declarations, and the helpers of a business-enrichment
workflow, a Reddit reader, a step logger and a command-line parser.

This Dafny project models that core, one module per source file:

| module | file | source |
|---|---|---|
| `StructuredData` | structured_data.dfy | src/types/workflow/StructuredData.ts |
| `Input` | input.dfy | src/types/workflow/Input.ts |
| `Steps` | steps.dfy | src/types/workflow/Step.ts |
| `Engine` | workflow.dfy | src/types/workflow/Workflow.ts |
| `StepAgent` | step_agent.dfy | src/types/workflow/StepAgent.ts |
| `AgentNode` | agent_node.dfy | src/nodes/Agent.ts |
| `Loop` | loop_node.dfy | src/nodes/Loop.ts |
| `Files` | file_node.dfy | src/nodes/File.ts |
| `LowDb` | low_db.dfy | src/utils/lowDb.ts |
| `Caches` | base_cache.dfy | src/services/BaseCache.ts |
| `Cufinder` | cufinder.dfy | src/tools/cufinder.ts |
| `Enrichment` | enrichment_api.dfy | src/services/enrichmentApiService.ts |
| `Tools` | tool.dfy | src/types/workflow/Tool.ts |
| `Statistics` | statistics.dfy | src/_workflows/businessEnrichment/statisticsHelper.ts |
| `AddressMatcher` | address_matcher.dfy | src/_workflows/businessEnrichment/addressMatcher.ts |
| `CompaniesFile` | companies_file.dfy | src/_workflows/businessEnrichment/companiesFile.ts |
| `Reddit` | reddit_read.dfy | src/tools/redditRead.ts |
| `StepLogger` | workflow_logger.dfy | src/utils/workflowLogger.ts |
| `CommandLine` | command_line.dfy | src/utils/commandLine.ts |

Shared support modules:

- `Values` holds JavaScript run-time values, with `undefined`, `null` and host objects.
- `Records` holds objects as records whose keys keep the order they were added in, which is the order `Object.keys` gives for keys that are not integer-like.
- `Json` is `JSON.stringify`.
- `Strings` holds the string operations.
- `Sorting` is `Array.prototype.sort` on strings.
- `Arrays` is `Array.prototype.find`.
- `Zod` holds the part of a Zod schema the code inspects.
- `Wrappers` holds `Option` and `Result`.

Thrown errors become `Err` values. `process.exit(1)` becomes a distinct
`Terminated` outcome. The language model, the human at the terminal, HTTP
servers, the clock, MD5 and base64url are passed in as data or functions.
Classes whose methods update fields in place are Dafny classes:

- `Workflow`;
- the two databases;
- the two caches and the two services;
- the file system;
- the step logger.

Their loops are methods, proved against the functions that specify them.

## Model

| member | source | states |
|---|---|---|
| StructuredData.Merge | src/types/workflow/StructuredData.ts:23-47 | The merged keys are the first map's keys in order, then the keys only the second map has, so the key set is the union of both. Each field is the first map's field overridden, property by property, by the second map's field. |
| StructuredData.MergeEmptyLeft | src/types/workflow/StructuredData.ts:33-42 | Merging a map into an empty map gives the map back. |
| StructuredData.MergeEmptyRight | src/types/workflow/StructuredData.ts:33-42 | Merging an empty map into a map gives the map back. |
| StructuredData.SpreadOverNothing | src/types/workflow/StructuredData.ts:41 | Spreading a field over a missing field, or a missing field over it, gives the field unchanged. |
| StructuredData.MergeCopiesOneSided | src/types/workflow/StructuredData.ts:40-42 | A key that only one side has is copied unchanged. |
| StructuredData.MergeSecondValueWins | src/types/workflow/StructuredData.ts:41 | Where the second map's field has a value, the merged field has that value. |
| StructuredData.MergeKeepsFirstDescription | src/types/workflow/StructuredData.ts:41 | A description survives unless the second map's field brings its own. |
| StructuredData.Draft | src/types/workflow/StructuredData.ts:49-67 | A schema that is not an object fails with the fixed message. Otherwise there is exactly one field per shape key, in shape order, each with an `undefined` value and a description. |
| StructuredData.DescriptionOr | src/types/workflow/StructuredData.ts:58 | The description is the schema's own when it is non-empty, and otherwise the key, so it is never empty for a non-empty key. |
| StructuredData.FromRaw | src/types/workflow/StructuredData.ts:69-90 | A string becomes the single field `content`. An object gives one description-less field per own key, holding that key's value, in key order. `null` and `undefined` throw. |
| StructuredData.ToRaw | src/types/workflow/StructuredData.ts:93-105 | A map whose only key is `content` gives that value. Any other map gives an object with the same keys, each holding its field's value (`undefined` when absent). |
| StructuredData.RawObjectRoundTrip | src/types/workflow/StructuredData.ts:69-105 | Converting an object to structured data and back gives the object, unless its only key is `content`. |
| StructuredData.RawStringRoundTrip | src/types/workflow/StructuredData.ts:74-98 | Converting a string to structured data and back gives the string. |
| StructuredData.ContentObjectCollapses | src/types/workflow/StructuredData.ts:97-98 | An object whose only key is `content` does not round-trip: it comes back as that key's value. |
| StructuredData.ArrayComesBackIndexed | src/types/workflow/StructuredData.ts:82-103 | An array comes back as an object keyed by its indices. |
| StructuredData.StructuredRoundTrip | src/types/workflow/StructuredData.ts:69-105 | Description-less structured data with every value present comes back unchanged from a round trip through raw data, unless its only key is `content`. |
| Input.Prompt | src/types/workflow/Input.ts:72-75 | The question ends in `?` or `:`. It is the description itself when that already ends so, the description plus `:` otherwise, and `?` when there is no description. |
| Input.Questions | src/types/workflow/Input.ts:71-75 | One question per field, in key order, each built from that field's description. |
| Input.Answered | src/types/workflow/Input.ts:70-76 | Answering fields keeps the draft's keys and their order. |
| Input.AnsweredFields | src/types/workflow/Input.ts:70-76 | After `n` answers, descriptions are untouched. The first `n` fields in key order hold their answers and the rest are as drafted. |
| Input.GetUserInput | src/types/workflow/Input.ts:63-78 | With enough answers: every field holds its answer, and the questions asked are exactly one per field in key order. With too few answers: no result, and the questions stop at the first one left unanswered. |
| Input.ResolveInput | src/types/workflow/Input.ts:22-61 | Whenever structured data is produced, it is well formed. |
| Input.GetStepInput | src/types/workflow/Input.ts:22-61 | The dispatch, including the prompt loop, gives what `ResolveInput` specifies. |
| Input.GlobalIgnoresSchema | src/types/workflow/Input.ts:32-35 | A `GLOBAL` source returns the global state object itself, not a copy, and ignores the schema. |
| Input.NoSchemaIsEmpty | src/types/workflow/Input.ts:37 | Any other source without a schema resolves to empty structured data. |
| Input.DataObjectMerges | src/types/workflow/Input.ts:49-51 | For `DATA_OBJECT` with an object, the keys are the schema's keys plus the object's keys. The object's values win. Every schema key keeps the schema's own description, or the key itself when the schema has none. |
| Input.LastStepOverrides | src/types/workflow/Input.ts:52-53 | For `LAST_STEP`, the keys are the schema's keys plus the previous output's keys, and the previous output's values override the drafts. |
| Input.UserInputFillsEveryField | src/types/workflow/Input.ts:54-76 | For `USER_INPUT`, the result has exactly the schema's keys, and the `i`-th holds the `i`-th answer. With too few answers there is no result. |
| Input.QuestionsFollowSchema | src/types/workflow/Input.ts:71-75 | The `i`-th question is built from the `i`-th shape field's description, or from its key when that description is empty. |
| Input.DraftDescriptions | src/types/workflow/StructuredData.ts:55-64 | Each drafted field is described by its schema description, or else by its key. |
| Input.UnexpectedSourceFails | src/types/workflow/Input.ts:49-56 | With a schema, `MIXED`, an unset source, or `DATA_OBJECT` without a truthy object all throw `input not expected`. |
| Steps.TagInjective | src/types/workflow/Input.ts:14-20 | The five members of the `InputSource` enum in Input.ts have pairwise distinct strings. |
| Steps.SourcesAgree | src/types/workflow/Step.ts:6-11 | The enum in Step.ts gives every member it shares with Input.ts the same string, and `DATA_OBJECT` is the one string it has no member for. |
| Steps.TagsExclusive | src/types/workflow/Step.ts:40-61 | No step is both an agent step and a code step. |
| Steps.CreateAgentStep | src/types/workflow/Step.ts:31-38 | The result is an agent step and not a code step. It equals the parameters in every field but the type, which is forced to `AgentStep`. |
| Steps.CreateCodeStep | src/types/workflow/Step.ts:50-57 | The result is a code step and not an agent step. It equals the parameters in every field but the type, which is forced to `CodeStep`. |
| Engine.ValidateStep | src/types/workflow/Workflow.ts:127-141 | The data-object error is thrown exactly for a `DATA_OBJECT` step without a truthy data object. Otherwise the schema error is thrown exactly for a non-`GLOBAL` step without a schema. Nothing is thrown exactly when neither applies. |
| Engine.Record | src/types/workflow/Workflow.ts:77 | A step's result completes the step, with `rawDataObjectToStructuredData` of the result as its well-formed output, unless the result is `null` or `undefined`, which fails the step. |
| Engine.StepRun | src/types/workflow/Workflow.ts:50-87 | A completed step's output is well-formed structured data. |
| Engine.RunStep | src/types/workflow/Workflow.ts:57-77 | The loop body gives what `StepRun` specifies: validation, then input resolution, then the code step's `run` or the agent step, and an unknown tag throws. |
| Engine.RunSteps | src/types/workflow/Workflow.ts:46-103 | The loop over the step keys gives the outcome and state of `RunWorkflow`. Its global state and last result are `Recorded` for the completed prefix of the keys. |
| Engine.RunWorkflow | src/types/workflow/Workflow.ts:45-104 | The reference run of the steps in key order. It completes at most one step per key, and it completes exactly when every step has completed. A completed run returns the global state it built. |
| Engine.RecordedPut | src/types/workflow/Workflow.ts:86-87 | Storing `{input, output}` under the next key, and making that output the last result, extends the recorded prefix by one key. |
| Engine.Stopped | src/types/workflow/Workflow.ts:50-102 | A step that does not complete stops the run without a completed outcome. |
| Engine.Advance | src/types/workflow/Workflow.ts:50-87 | One iteration either stops the run at this key or stores this key's entry and passes its output on, both as the last result and as the next step's input source. |
| Engine.RunFrom | src/types/workflow/Workflow.ts:46-103 | A run from a given key completes between none and all of the remaining steps. It completes all of them exactly when its outcome is completed, and then it returns the global state. A run that completes none leaves the global state and the last result as they were. |
| Engine.LastStepInput | src/types/workflow/Workflow.ts:63 | A completed `LAST_STEP` step's recorded input is its schema draft merged with the output of the step before it (`{}` for the first step). |
| Engine.InvalidStepFails | src/types/workflow/Workflow.ts:57 | A step that fails validation fails with that message, before its input is resolved. |
| Engine.UntaggedStepFails | src/types/workflow/Workflow.ts:69-75 | A valid step tagged neither `CodeStep` nor `AgentStep` throws `Unknown step type`. |
| Engine.GlobalStepInput | src/types/workflow/Workflow.ts:51-86 | A completed step whose input source is `GLOBAL` records as its input the global state object itself, so the entry refers to the state that holds it. |
| Engine.AgentStepSeesWrapper | src/types/workflow/Workflow.ts:72 | Since the agent step receives the `{step, stepInput}` wrapper as its step, it always uses the non-interactive response schema, and its opening message has no content. |
| Engine.NoResultIsEmptyObject | src/types/workflow/Workflow.ts:33 | Before any run, the flattened result is the empty object. |
| Engine.Workflow.constructor | src/types/workflow/Workflow.ts:31-38 | A new workflow holds its steps, an empty last result and an empty global state. |
| Engine.Workflow.Execute | src/types/workflow/Workflow.ts:45-104 | The steps run in key order until one does not complete. The completed steps are a prefix of the keys, and the run completes exactly when all of them are done, returning the global state. The global state gains exactly the completed keys, in order when it started empty, and keeps every other entry. `lastStepResult` is the last completed step's output. |
| Engine.Workflow.GetResult | src/types/workflow/Workflow.ts:110-114 | Gives the last step's structured output, or its flattening. |
| Engine.Workflow.GetGlobal | src/types/workflow/Workflow.ts:116-125 | Gives the global state, or an object with the same keys holding each step's output flattened. |
| Loop.WalkPath | src/nodes/Loop.ts:42-51 | The loop that reassigns `current` segment by segment gives `Walk`: the value at the end of the path, or nothing when a segment cannot be read. |
| Loop.Walk | src/nodes/Loop.ts:42-51 | The reference walk of a path. An empty path stays at the start value. A walk that succeeds could descend at its first segment: the value there was a truthy object holding that key. |
| Loop.MapFrom | src/nodes/Loop.ts:65-97 | The reference sequential map from item `i` on. A finished map adds one result and one child call per remaining item, and keeps the earlier results as a prefix. A stopped map made at least one more call and at most one per remaining item. |
| Loop.Run | src/nodes/Loop.ts:28-108 | The reference `execute`. A missing child terminates with its message. On success there are as many results and child calls as elements in the located array. |
| Loop.Execute | src/nodes/Loop.ts:28-108 | `LoopNode.execute` gives `Run`: the effective child and path, the located array, then the sequential child calls. Errors end in termination. |
| Loop.MapFromDone | src/nodes/Loop.ts:65-100 | A finished map from item `i` on keeps the earlier results and calls. It adds one result per remaining item, the child's answer for that item, with the calls made in item order. |
| Loop.MapFromTerminated | src/nodes/Loop.ts:68-96 | A map stopped by a child error at item `j` was called on exactly the items up to `j`. Every earlier answer was a success, and the error is the one the child raised at `j`. |
| Loop.DoneMapsEveryItem | src/nodes/Loop.ts:65-100 | On success there is one result per element of the located array, and result `i` is the child's output for element `i`. The child was called on the elements in order, with the step passed through. |
| Loop.FailFast | src/nodes/Loop.ts:75-107 | The first child failure terminates the run with its message. The elements before it succeeded, and no later element reaches the child. |
| Loop.EmptyArrayRunsNothing | src/nodes/Loop.ts:68 | An empty array gives `[]` and makes no child call. |
| Loop.NoPathTakesInput | src/nodes/Loop.ts:54-61 | Without a path, an array input is the array, and anything else fails with `Expected array but got <typeof>`. |
| Loop.SetupErrors | src/nodes/Loop.ts:33-61 | A missing child terminates with its message. A path that cannot be followed terminates with `Array path '<p>' not found in input data`. A located non-array terminates with `Expected array but got <typeof> at path '<p>'`. None of these calls the child. |
| Loop.WalkReadsEachSegment | src/nodes/Loop.ts:45-51 | Walking a path is walking its first part and then the rest from where that ended. A failure anywhere stops the walk. |
| Loop.SingleSegment | src/nodes/Loop.ts:42-47 | A one-segment path reads that property of an object that has it. |
| Loop.CallTimeOverrides | src/nodes/Loop.ts:30-31 | A call-time child or path that is given replaces the constructor's, so two nodes that differ only there behave the same under such a call. |
| Files.Listing | src/nodes/File.ts:75-96 | The reference reading of a directory. It succeeds exactly when every listed name exists, and gives one `# `-headed block per readable regular file. |
| Files.Contribution | src/nodes/File.ts:79-95 | An entry contributes at most one block. Directories and unreadable files contribute none. |
| Files.ReadPath | src/nodes/File.ts:61-114 | `readFile`, with its directory loop, gives `Read`: a single file's block, or a directory's blocks joined by blank lines. |
| Files.Read | src/nodes/File.ts:61-114 | The reference `readFile`. Success means the path exists. A readable regular file gives `# <path>`, a newline and its content. Every failure is a message starting `Failed to read from <path>: `. |
| Files.Collect | src/nodes/File.ts:75-96 | The reference directory loop from name `i` on. It succeeds exactly when every remaining name exists in the directory. |
| Files.Write | src/nodes/File.ts:116-129 | The reference `writeFile`. On success the path holds the content as a readable regular file, and no earlier entry is gone. Every failure is a message starting `Failed to write to <path>: `. |
| Files.Run | src/nodes/File.ts:36-59 | The reference `execute`. Only a write changes the file system, and a write happens only in write mode with truthy content. |
| Files.MakeDirs | src/nodes/File.ts:118-121 | A recursive `mkdir` only adds entries, so every earlier file and directory is kept, and on success the directory exists. A failure means the path or one of its ancestors is a file. When the path itself is a file the error is Node's `EEXIST` for that path, and otherwise it is `ENOTDIR` for the requested path. |
| Files.MakeMissing | src/nodes/File.ts:121 | Creating the missing directories of a path that is not a root either only adds entries and ends with the path a directory, or stops because the path or an ancestor is a file. |
| Files.MakeDirsFailsIff | src/nodes/File.ts:121 | When every entry's parent is a directory, a recursive `mkdir` fails exactly when the path or one of its ancestors is a file. |
| Files.Execute | src/nodes/File.ts:36-59 | `execute` gives `Run`'s outcome, and its new file system is `Run`'s. |
| Files.CollectJoins | src/nodes/File.ts:70-90 | From any point, the loop's `joinedContent` is the blocks so far and the remaining reference blocks, joined by `\n\n`, with no separator before the first block or after the last. |
| Files.CollectAll | src/nodes/File.ts:70-99 | The whole loop gives the reference blocks joined by a blank line. |
| Files.ReadDirectory | src/nodes/File.ts:67-99 | The names are visited in sorted order, whatever order the listing has. The text is the readable regular files' blocks in that order, joined by a blank line. |
| Files.MissingEntryFails | src/nodes/File.ts:77 | A listed name that cannot be stat'ed fails the whole read. |
| Files.DirectoryText | src/nodes/File.ts:70-99 | A directory reads as `''` exactly when it has no readable regular file. Otherwise its text starts with a header. |
| Files.SkipUnreadable | src/nodes/File.ts:79-94 | A name that is not a readable regular file changes nothing: the read is as if it were not listed. |
| Files.ReadSingleFile | src/nodes/File.ts:100-105 | Reading a regular file gives `'# ' + path + '\n' + content`. |
| Files.ReadErrors | src/nodes/File.ts:106-113 | A missing path reports the failed stat. A failed file read is wrapped in `Failed to read from <path>:` twice. |
| Files.WriteThenRead | src/nodes/File.ts:116-124 | After a write, the parent directory exists and lists the file, and reading the path gives the written content. Every other entry but the parent is kept. |
| Files.WriteUnderFileFails | src/nodes/File.ts:118-128 | A write whose parent path is a file fails with `Failed to write to <path>: ` followed by the `EEXIST` error that `mkdir` raises for the parent. |
| Files.CallTimeOverrides | src/nodes/File.ts:39-41 | Truthy call-time mode, path and content replace the node's own, and `execute` sees only the result. |
| Files.ModeErrors | src/nodes/File.ts:45-58 | Write mode without truthy content, and any mode other than read or write, terminate with their messages and change nothing. |
| Files.RunEffects | src/nodes/File.ts:43-49 | Read mode never changes the file system. A successful write returns `true` and leaves the content readable. |
| AgentNode.ResponseSchema | src/nodes/Agent.ts:50-114 | The response schema always has `responseStorage` and `gotToNextStep`, and has `humanQuestion` only in the interactive branch. It never has `humanResponse`, because the extend that would add it is discarded. |
| AgentNode.ExecuteNode | src/nodes/Agent.ts:39-218 | `AgentNode.execute` gives `Execute`: the conversation loop, then the formatting call. |
| AgentNode.Execute | src/nodes/Agent.ts:39-218 | A `null` or `undefined` step ends the process. A completed node made at least two model calls, the last of which replied, and its result is that reply's result. |
| AgentNode.Converse | src/nodes/Agent.ts:142-200 | A finished loop made at least one more model call and no more calls than were available. |
| AgentNode.Finish | src/nodes/Agent.ts:210-253 | Completion needs a finished loop. It makes one call more than the loop, that call replied, and the result is its result. The messages sent are the collected ones followed by the request to convert to the output schema. |
| AgentNode.RunConversation | src/nodes/Agent.ts:136-200 | The `while` loop gives `Converse`, starting from the single `inputData` message, no collected messages and no iterations. |
| AgentNode.FormatStepResult | src/nodes/Agent.ts:221-254 | After a finished loop, exactly one more model call is made over the collected messages plus one conversion request, and its result is returned. Calls total iterations + 1. |
| AgentNode.CallMessagesAppend | src/nodes/Agent.ts:172 | Collecting the messages of two runs of calls concatenates what each run collected. |
| AgentNode.ConverseCollects | src/nodes/Agent.ts:141-172 | A finished loop made between one call and the number available. Its `allMessages` is the concatenation, in call order, of the message lists those calls returned. |
| AgentNode.ConverseConversation | src/nodes/Agent.ts:174-185 | A finished loop keeps its opening messages and appends one assistant message per call and one user message per question asked. There are never more questions than answers. |
| AgentNode.ConverseExit | src/nodes/Agent.ts:187-189 | The call that ends the loop said `gotToNextStep` and had no permitted question pending. |
| AgentNode.CompletedNode | src/nodes/Agent.ts:137-253 | A completed node made one more call than its loop did. The last call received the loop's collected messages and then the conversion request, and its result is returned. The conversation opened with the one `inputData` message. |
| AgentNode.NodeStopsWhenToldTo | src/nodes/Agent.ts:187-189 | The loop of a completed node ended on the call just before the formatting one. That call said `gotToNextStep`, with no permitted question pending. |
| AgentNode.SilentConverse | src/nodes/Agent.ts:182-185 | Without interaction, no question is put to the human. |
| AgentNode.QuestionsOnlyWhenAllowed | src/nodes/Agent.ts:70-73 | A step whose source is neither unset nor `USER_INPUT` never asks the human anything. |
| StepAgent.ResponseSchema | src/types/workflow/StepAgent.ts:20-77 | The response format always has `humanResponse` and `gotToNextStep`. It has an optional `humanQuestion` exactly when it is interactive. |
| StepAgent.ExecuteAgentStep | src/types/workflow/StepAgent.ts:7-150 | The `while` loop of `executeAgentStep` gives `Execute`. |
| StepAgent.Execute | src/types/workflow/StepAgent.ts:7-150 | A `null` or `undefined` step ends the process, since reading `allowUserInteraction` throws. A completed step made between one model call and the number of replies available. |
| StepAgent.ConverseCounts | src/types/workflow/StepAgent.ts:98-135 | A completed loop keeps its opening messages and appends one assistant message per model call and one user message per question asked. It made no more calls than replies and asked no more questions than answers, and the response schema is unchanged. |
| StepAgent.ConverseStopsOnLastReply | src/types/workflow/StepAgent.ts:133-135 | The reply the loop stops at is the returned `llmResult`. It said `gotToNextStep` and carried no question the human was allowed to see. |
| StepAgent.CompletedRun | src/types/workflow/StepAgent.ts:97-145 | A completed step's messages open with the one user message holding `JSON(stepInput)`. One assistant message per call and one user message per question follow. The last reply is the result, with no final formatting call. |
| StepAgent.SilentConverse | src/types/workflow/StepAgent.ts:128-131 | With interaction switched off, no question reaches the human. |
| StepAgent.NoQuestionsWhenDisallowed | src/types/workflow/StepAgent.ts:35 | A step with `allowUserInteraction: false` never asks: there is one assistant message per call after the opening one, and the schema is the non-interactive one. |
| StepAgent.WrappedRepliesNeverStop | src/types/workflow/StepAgent.ts:126-135 | Replies shaped like `{result, messages}` carry neither `gotToNextStep` nor `humanQuestion` at the top level, so the loop never ends on them. |
| StepAgent.InteractiveSchema | src/types/workflow/StepAgent.ts:37 | The interactive schema is used exactly for a `USER_INPUT` step that does not forbid interaction. |
| StepAgent.ModelErrorTerminates | src/types/workflow/StepAgent.ts:137-140 | A model call that throws ends the process with the error's message. |
| StepAgent.ResultValue | src/types/workflow/StepAgent.ts:145 | The returned object has exactly the keys `llmResult`, `messages` and `responseSchema`. `llmResult` is the last reply, and there is one message object per message. |
| StepAgent.MessageValues | src/types/workflow/StepAgent.ts:98-130 | One `{role, content}` object per message. |
| LowDb.DatabasePath | src/utils/lowDb.ts:17 | The database file is `<name>.json`. |
| LowDb.MatchesKeys | src/utils/lowDb.ts:228-247 | `matchesWhere` throws exactly when there is a key to read and the item is `null` or `undefined`. Otherwise it holds exactly when every key matches: plain-object values by JSON text, everything else by `===`. |
| LowDb.EmptyWhereMatchesAll | src/utils/lowDb.ts:232 | An empty where clause matches every item, `null` included. |
| LowDb.NullItemThrows | src/utils/lowDb.ts:234 | A where clause with keys throws on a `null` or `undefined` item. |
| LowDb.FirstMatch | src/utils/lowDb.ts:330-337 | `findIndex` gives the index of a matching item that no earlier item matches, or -1 when none matches. A test that throws stops the search at that item. |
| LowDb.Find | src/utils/lowDb.ts:320-325 | `find` gives the item at `findIndex`, or `undefined` when nothing matches. |
| LowDb.Filtered | src/utils/lowDb.ts:342-350 | `filter` keeps exactly the matching items, in their order. A throwing test is an error. |
| LowDb.FilteredFromItems | src/utils/lowDb.ts:342-350 | Every item `filter` keeps comes from the array, counted with multiplicity. |
| LowDb.FilteredAppend | src/utils/lowDb.ts:346-348 | Filtering a concatenation filters each part in turn and concatenates the results, so kept items keep their relative order. |
| LowDb.SpliceStart | src/utils/lowDb.ts:359 | The start of `splice(index, 1)`: an index in range as given, a negative index counted from the end, clamped to the array. |
| LowDb.Merged | src/utils/lowDb.ts:407 | `{...item, ...updates}` has the item's own keys and the update keys. The updates win, and untouched fields keep their values. |
| LowDb.ArrayDb.constructor | src/utils/lowDb.ts:15-41 | A new array database reads its file. A missing file leaves the default `[]` in memory, and no file is written until the first change. |
| LowDb.ArrayDb.Length | src/utils/lowDb.ts:252-255 | `getLength` is the number of items. |
| LowDb.ArrayDb.GetByIndex | src/utils/lowDb.ts:298-303 | `getByIndex` gives the item at the index, and `undefined` past the end. A negative index reads the property a negative `setByIndex` left on the in-memory array, or `undefined`. |
| LowDb.ArrayDb.Push | src/utils/lowDb.ts:260-264 | `push` adds the item at the end and keeps the rest in order, and the file holds the new array. |
| LowDb.ArrayDb.Pop | src/utils/lowDb.ts:269-274 | `pop` removes and returns the last item. An empty array stays empty and gives `undefined`. |
| LowDb.ArrayDb.Unshift | src/utils/lowDb.ts:279-283 | `unshift` adds the item at the front and keeps the rest in order. |
| LowDb.ArrayDb.Shift | src/utils/lowDb.ts:288-293 | `shift` removes and returns the first item. An empty array stays empty and gives `undefined`. |
| LowDb.ArrayDb.SetByIndex | src/utils/lowDb.ts:308-315 | An index in range replaces that item. An index past the end grows the array, with `undefined` in the gap. A negative index leaves the elements unchanged and sets a property of that name on the in-memory array, which the written file does not hold. |
| LowDb.ArrayDb.Filter | src/utils/lowDb.ts:342-350 | The array becomes exactly the matching items, in order, and is a new array without the old one's properties. A throwing test changes nothing. |
| LowDb.ArrayDb.RemoveAt | src/utils/lowDb.ts:355-362 | `removeAt` removes exactly the one item at the index, counted from the end when negative, and returns it. It gives `undefined` and changes nothing when there is none. |
| LowDb.ArrayDb.Remove | src/utils/lowDb.ts:367-376 | `remove` removes and returns the first matching item. With no match it returns `undefined` and changes nothing, and a throwing test changes nothing. |
| LowDb.ArrayDb.Set | src/utils/lowDb.ts:381-394 | `set` replaces only the first matching item and returns the one it replaced. With no match it returns `undefined` and changes nothing. |
| LowDb.ArrayDb.Update | src/utils/lowDb.ts:399-412 | `update` shallow-merges the updates into only the first matching item and returns a copy of the item as it was. With no match it returns `undefined` and changes nothing. |
| LowDb.ArrayDb.Clear | src/utils/lowDb.ts:417-421 | `clear` leaves the array, and the file, empty, and the new array has no properties. |
| LowDb.Field | src/utils/lowDb.ts:147-150 | A field's value, `undefined` when absent. |
| LowDb.JsonText | src/utils/lowDb.ts:182-183 | `setJsonField` stores a string unchanged and any other value as its JSON text. |
| LowDb.FromJsonText | src/utils/lowDb.ts:191-202 | `getJsonField` parses a stored string when it is valid JSON, returns the raw string when it is not, and returns any other value unchanged. |
| LowDb.JsonFieldRoundTrip | src/utils/lowDb.ts:180-202 | A non-string value stored with `setJsonField` comes back from `getJsonField` whenever parsing undoes `JSON.stringify`. |
| LowDb.InvalidJsonComesBackRaw | src/utils/lowDb.ts:194-199 | A stored string that is not valid JSON comes back unchanged. |
| LowDb.ObjectDb.constructor | src/utils/lowDb.ts:124-133 | A new object database reads its file. A missing file leaves the default `{}` in memory, and no file is written until the first change. |
| LowDb.ObjectDb.SetData | src/utils/lowDb.ts:66-70 | `setData` replaces the data and writes it. |
| LowDb.ObjectDb.Update | src/utils/lowDb.ts:138-142 | `update` shallow-merges the updates over the data: the updated keys take the new values, and untouched fields keep theirs. |
| LowDb.ObjectDb.GetField | src/utils/lowDb.ts:147-150 | `getField` gives the field's value, or `undefined` when absent. |
| LowDb.ObjectDb.SetField | src/utils/lowDb.ts:155-159 | `setField` puts the value under the key and writes the data. |
| LowDb.ObjectDb.Push | src/utils/lowDb.ts:164-174 | `push` appends to an array field, first resetting a field that is not an array to `[]`. |
| LowDb.ObjectDb.SetJsonField | src/utils/lowDb.ts:180-186 | `setJsonField` stores the value's JSON text, or the string itself. |
| LowDb.ObjectDb.GetJsonField | src/utils/lowDb.ts:191-202 | `getJsonField` gives the stored field read back through `JSON.parse`, or the raw value. |
| Caches.EffectiveTtl | src/services/BaseCache.ts:67 | An absent or zero time to live falls back to the default, and any other one is kept. |
| Caches.BaseCache.constructor | src/services/BaseCache.ts:16-21 | The cache directory defaults to `./cache/<service name in lower case>`, and the time to live to 24 hours. |
| Caches.BaseCache.Get | src/services/BaseCache.ts:35-58 | `get` gives `Lookup`: `null` for a missing or unreadable file, and the data `JSON.parse` read for a live entry. An expired entry, one older than its time to live, is deleted and gives `null`. |
| Caches.BaseCache.Set | src/services/BaseCache.ts:60-76 | `set` stores under the key's file the data as writing it with `JSON.stringify` and reading it back with `JSON.parse` leaves it, with timestamp `now` and the effective time to live. |
| Caches.BaseCache.Cleanup | src/services/BaseCache.ts:78-111 | `cleanup` deletes exactly the unreadable or expired `.json` files, returns how many it deleted, and leaves every other file. |
| Caches.Lookup | src/services/BaseCache.ts:35-58 | The reference `get`. It either leaves the directory unchanged or deletes the key's file. A hit is the data of the key's file, whose entry has not expired, and deletes nothing. |
| Caches.Store | src/services/BaseCache.ts:60-76 | The reference `set`. The directory gains the key's file, holding an entry stamped `now`, and every other file is unchanged. |
| Caches.Stale | src/services/BaseCache.ts:78-111 | The files `cleanup` deletes are files of the directory whose names end in `.json`. |
| Json.Stringify | src/services/BaseCache.ts:71 | `JSON.stringify` gives no text exactly for `undefined`. |
| Json.Reparse | src/services/BaseCache.ts:44-71 | The value `JSON.parse(JSON.stringify(v))` gives. It is `undefined` exactly when `v` is. |
| Json.ReparsePlain | src/services/BaseCache.ts:44-71 | A well-formed value with no `undefined` inside and no host object survives the round trip unchanged. |
| Json.ReparseIsPlain | src/services/BaseCache.ts:44-71 | After the round trip no `undefined` is left inside the value, and no host object. |
| Json.ReparseWellFormed | src/services/BaseCache.ts:44-71 | The round trip of a well-formed value is well formed. |
| Json.ReparseIdempotent | src/services/BaseCache.ts:44-71 | A second round trip changes nothing. |
| Json.StringifyReparse | src/services/BaseCache.ts:71 | The round trip serializes to the same text as the original, so the file holds the same text either way. |
| Caches.Sweep | src/services/BaseCache.ts:87-105 | The loop over the directory listing, in any order, leaves the directory minus the stale files and counts them. |
| Caches.VisitOne | src/services/BaseCache.ts:89-104 | Visiting one more file adds one to the count exactly when that file is stale. |
| Caches.RemoveOneMore | src/services/BaseCache.ts:97-102 | Deleting one more file is deleting the union. |
| Caches.GetMissing | src/services/BaseCache.ts:40-42 | A key with no file gives `null` and changes nothing. |
| Caches.ExpiryIsStrict | src/services/BaseCache.ts:47-50 | An entry exactly as old as its time to live is still a hit. One millisecond older, it is deleted and gives `null`. |
| Caches.UnreadableMisses | src/services/BaseCache.ts:54-57 | A file that cannot be read or parsed gives `null` instead of an error, and stays. |
| Caches.GetAfterSet | src/services/BaseCache.ts:35-76 | `get` after `set` with the same key returns the data's JSON round trip while the time to live has not passed, and nothing after. For data with no `undefined` and no host object, that is the data itself. |
| Caches.CleanupKeepsLive | src/services/BaseCache.ts:89-104 | Cleanup keeps exactly the files that are not `.json` or hold a live entry. |
| Caches.SortedParams | src/services/enrichmentApiService.ts:17-22 | The parameters are rebuilt with the same entries and their keys in sorted order. |
| Caches.SortedParamsOrderFree | src/tools/cufinder.ts:98-103 | Two parameter objects with the same entries, in whatever key order, sort to the same object. |
| Cufinder.EndpointDir | src/tools/cufinder.ts:111 | The endpoint's directory name has the endpoint's length. Each letter and digit is kept, and every other character becomes `_`. |
| Cufinder.CachePath | src/tools/cufinder.ts:109-113 | The cache file of a request is a `.json` file named by the MD5 of the endpoint and the sorted parameters. |
| Cufinder.CufinderCache.constructor | src/tools/cufinder.ts:82-83 | The cache holds the given files under `temp/cufinder`. |
| Cufinder.CufinderCache.Get | src/tools/cufinder.ts:122-153 | `get` gives `Lookup`: `null` for an uncached endpoint or a missing or unreadable file, and the data while it is live. An expired file is deleted. |
| Cufinder.CufinderCache.Set | src/tools/cufinder.ts:155-177 | `set` stores the JSON round trip of the data and of the parameters, with the time and the endpoint's time to live, for configured endpoints only. |
| Cufinder.CufinderCache.Cleanup | src/tools/cufinder.ts:179-219 | `cleanup` deletes exactly the unreadable or expired `.json` files under the cache directory, and every other file stays. |
| Cufinder.Prune | src/tools/cufinder.ts:185-213 | The directory walk, in any order, leaves exactly the files that are not stale. |
| Cufinder.FormPairs | src/tools/cufinder.ts:264-269 | The form body holds one `key=String(value)` pair for exactly the parameters that are neither `undefined` nor `null`. |
| Cufinder.AddIf | src/tools/cufinder.ts:348-351 | A truthy string is appended under its key, and anything else leaves the parameters unchanged. |
| Cufinder.CompanyParams | src/tools/cufinder.ts:348-351 | `enrichCompany` sends exactly the truthy ones of domain, linkedin and name, under those keys. |
| Cufinder.PersonParams | src/tools/cufinder.ts:395-399 | `enrichPerson` sends exactly the truthy ones of full_name, company, linkedin and email. |
| Cufinder.Route | src/tools/cufinder.ts:315-429 | Each service method names its endpoint and parameters. It fails before any request exactly when `enrichCompany` has no domain, linkedin or name, or `enrichPerson` has no full name, linkedin or email. |
| Cufinder.Service.constructor | src/tools/cufinder.ts:223-228 | A new service is not yet initialized and holds a fresh cache over the given files. |
| Cufinder.Service.Initialize | src/tools/cufinder.ts:229-234 | The cache is cleaned up on the first call only. |
| Cufinder.Service.MakeRequest | src/tools/cufinder.ts:236-313 | `makeRequest` gives `Respond`: initialization, the key check, the cache lookup, then the form request and its handling. The cache ends as `Respond` leaves it. |
| Cufinder.Service.Perform | src/tools/cufinder.ts:315-429 | Any service method validates first, then requests the endpoint its route names. |
| Cufinder.CachePathOrderFree | src/tools/cufinder.ts:96-113 | Parameter objects with the same entries share a cache file, whatever the order of their keys. |
| Cufinder.KeyText | src/tools/cufinder.ts:105 | The key text is the endpoint, `_`, and the parameters' JSON object. |
| Cufinder.CacheKey | src/tools/cufinder.ts:96-107 | The cache key is the MD5 of the key text of the parameters with their keys sorted. |
| Cufinder.Lookup | src/tools/cufinder.ts:122-153 | The reference `get`. It either leaves the cache unchanged or deletes the request's cache file. A hit needs a configured endpoint, gives the data of the request's cache file, and deletes nothing. |
| Cufinder.Save | src/tools/cufinder.ts:155-177 | The reference `set`. An unconfigured endpoint changes nothing. Otherwise only the request's cache file is added or replaced, and every other file is unchanged. |
| Cufinder.Stale | src/tools/cufinder.ts:179-219 | The files `cleanup` deletes are files of the cache whose names end in `.json`. |
| Cufinder.Handle | src/tools/cufinder.ts:281-304 | The reply handling succeeds exactly for a 200 reply whose body is not `null` or `undefined`. A success is never marked `fromCache`, and a failure leaves the cache alone. |
| Cufinder.Respond | src/tools/cufinder.ts:236-313 | The reference `makeRequest`. Without an API key it fails with the fixed message and sends nothing. A cache hit sends nothing. A request that is sent is the form request of the endpoint, with the parameters and the key. |
| Cufinder.Call | src/tools/cufinder.ts:315-429 | A service method whose validation fails returns that failure, sends nothing and leaves the cache. A sent request goes to the endpoint the method's route names. |
| Cufinder.UncachedEndpoint | src/tools/cufinder.ts:124-127 | An endpoint that is not configured, or is disabled, is never read from or written to the cache. |
| Cufinder.ExpiryInMilliseconds | src/tools/cufinder.ts:140-142 | The age is compared in seconds, so an entry expires once it is more than `1000 * ttl` milliseconds old. |
| Cufinder.GetAfterSet | src/tools/cufinder.ts:122-177 | After `set` on a cached endpoint, `get` returns the data's JSON round trip until the endpoint's time to live has passed, and nothing after. For data with no `undefined` and no host object, that is the data itself. |
| Cufinder.EnrichmentIsNeverCached | src/tools/cufinder.ts:86-94 | The company and person enrichment endpoints have no cache configuration, so their responses are never cached. |
| Cufinder.LookupsAreCached | src/tools/cufinder.ts:86-94 | Every other service method requests a configured endpoint. |
| Cufinder.NoKeyNoRequest | src/tools/cufinder.ts:238-246 | Without an API key, the call fails before reading the cache or sending anything. Only the first call's cleanup happens. |
| Cufinder.CacheHit | src/tools/cufinder.ts:250-259 | A truthy cache hit is a success marked `fromCache`, with the array length or 1 as its result count, and nothing is sent. |
| Cufinder.PositiveTtl | src/tools/cufinder.ts:86-94 | Every configured time to live is positive. |
| Cufinder.MissSends | src/tools/cufinder.ts:261-304 | On a cache miss with an API key, the form request goes out and its reply decides the outcome. |
| Cufinder.FreshDataIsCached | src/tools/cufinder.ts:281-297 | A 200 reply's data is returned, not marked as cached, and stored. The same request at the same moment finds the data's JSON round trip, which is the data itself when it holds no `undefined` and no host object. |
| Cufinder.CompanyAloneIsNotEnough | src/tools/cufinder.ts:381-386 | A person enrichment with only a company fails validation. |
| Enrichment.CacheKeyOrderFree | src/services/enrichmentApiService.ts:15-26 | Parameter objects with the same entries share a cache key, whatever the order of their keys. |
| Enrichment.KeyText | src/services/enrichmentApiService.ts:24-25 | The key text is the endpoint, `:`, and the parameters' JSON object. |
| Enrichment.CacheKey | src/services/enrichmentApiService.ts:15-26 | The cache key is the base64url encoding of the key text of the parameters with their keys sorted. |
| Enrichment.Respond | src/services/enrichmentApiService.ts:49-88 | The reference `makeRequest`. A missing or empty API key gives the fixed failure, sends nothing and leaves the cache. A request that is sent is the query for the endpoint with the key. A success without a request is the cache's hit for the request's key. |
| Enrichment.Routed | src/services/enrichmentApiService.ts:91-159 | A service method whose validation fails returns that failure, sends nothing and leaves the cache. A sent request goes to the endpoint the method's route names. |
| Enrichment.QueryPairs | src/services/enrichmentApiService.ts:66 | One query pair per key, in key order, each holding `String` of that key's value. |
| Enrichment.Query | src/services/enrichmentApiService.ts:66-68 | The request goes to the endpoint, with `api_key` as its first query pair. |
| Enrichment.QuerySends | src/services/enrichmentApiService.ts:66 | The first query pair is `api_key`, holding the configured key unless the parameters carry their own `api_key`, which wins. Then come the parameters' other keys in their order, each with `String` of its value. |
| Enrichment.ExtractId | src/services/enrichmentApiService.ts:97-99 | A handle without the separator is kept whole. Otherwise the id is the text between the first separator and the next one, or the end, with its first `/` removed. |
| Strings.SecondPiece | src/services/enrichmentApiService.ts:98 | `split(sep)[1]` is `undefined` exactly when the separator does not occur. Otherwise it is the text from the end of the first occurrence up to the next occurrence, or to the end of the string. |
| Strings.PieceAfterFirstUnique | src/services/enrichmentApiService.ts:98 | That description fits one text only. |
| Strings.ReplaceFirst | src/services/enrichmentApiService.ts:98 | `replace` with a string pattern changes nothing when the pattern does not occur, and otherwise replaces its first occurrence only. |
| Enrichment.CompanyRoute | src/services/enrichmentApiService.ts:104-125 | `enrichCompany` fails without a name or a LinkedIn handle. A LinkedIn handle wins and requests `/company` with its extracted id. Otherwise the name requests `/company_to_domain`. |
| Enrichment.PersonRoute | src/services/enrichmentApiService.ts:150-159 | `enrichPerson` fails without a LinkedIn handle, and otherwise requests `/person` with the id after `/in/`. |
| Enrichment.SearchPersonByEmail | src/services/enrichmentApiService.ts:127-132 | Always the fixed failure, with no request. |
| Enrichment.SearchPersonByNameAndCompany | src/services/enrichmentApiService.ts:143-148 | Always the fixed failure, with no request. |
| Enrichment.BulkCompanies | src/services/enrichmentApiService.ts:161-173 | One response per company, in order. |
| Enrichment.BulkPersons | src/services/enrichmentApiService.ts:175-187 | One response per person, in order. |
| Enrichment.NoKeyNoRequest | src/services/enrichmentApiService.ts:50-55 | Without an API key, the call fails at once: no cache lookup, no request, and the cache untouched. |
| Enrichment.CacheHitNoRequest | src/services/enrichmentApiService.ts:57-63 | A truthy cached value is returned as a success, and nothing is sent. |
| Enrichment.SuccessIsCached | src/services/enrichmentApiService.ts:65-79 | The data of a successful request is returned. The next identical call finds its JSON round trip in the cache, which is the data itself when it holds no `undefined` and no host object. |
| Enrichment.FailureNotCached | src/services/enrichmentApiService.ts:80-87 | A failed request reports the server's message when it has one, and nothing is cached. |
| Enrichment.BulkCompaniesPrefix | src/services/enrichmentApiService.ts:164-167 | The first `i` bulk results are the results for the first `i` companies alone, so an item's outcome never depends on later ones. |
| Enrichment.BulkCompaniesItem | src/services/enrichmentApiService.ts:164-167 | Result `i` is the single enrichment of company `i`, against the cache the earlier ones left. |
| Enrichment.BulkPersonsPrefix | src/services/enrichmentApiService.ts:178-181 | The first `i` bulk results are the results for the first `i` persons alone. |
| Enrichment.BulkPersonsItem | src/services/enrichmentApiService.ts:178-181 | Result `i` is the single enrichment of person `i`, against the cache the earlier ones left. |
| Enrichment.Service.constructor | src/services/enrichmentApiService.ts:10-13 | The cache lives in `./cache/enrichmentapi`, with service name `EnrichmentAPI`, and keeps entries for 24 hours. |
| Enrichment.Service.MakeRequest | src/services/enrichmentApiService.ts:49-88 | `makeRequest` gives `Respond`, and the cache ends as `Respond` leaves it. |
| Enrichment.Service.EnrichCompany | src/services/enrichmentApiService.ts:91-125 | `enrichCompany`, `searchCompanyByLinkedin` and `searchCompanyByName` request what `CompanyRoute` names. |
| Enrichment.Service.EnrichPerson | src/services/enrichmentApiService.ts:134-159 | `enrichPerson` and `searchPersonByLinkedin` request what `PersonRoute` names. |
| Enrichment.Service.BulkEnrichCompanies | src/services/enrichmentApiService.ts:161-173 | Always a success, holding one response per company in order. |
| Enrichment.Service.BulkEnrichPersons | src/services/enrichmentApiService.ts:175-187 | Always a success, holding one response per person in order. |
| Enrichment.Service.CleanupCache | src/services/enrichmentApiService.ts:189-191 | Runs the cache's own cleanup, which deletes and counts the stale files. |
| Enrichment.AsValues | src/services/enrichmentApiService.ts:169-172 | The bulk data array has one `{success, data, error}` object per response. |
| Tools.Unwrapped | src/types/workflow/Tool.ts:27-38 | An `Optional` wrapper and then a `Default` wrapper are taken off. The flag is set exactly when the field was optional. |
| Tools.Described | src/types/workflow/Tool.ts:42-44 | A description is copied exactly when it is a non-empty string. |
| Tools.FieldProperty | src/types/workflow/Tool.ts:40-72 | After unwrapping, exactly the string, enum and number fields get a property: `number` for a number, `string` otherwise. It carries the unwrapped field's description when that is non-empty. A string's `includes` check becomes its `enum`, an enum's values become its `enum`, and only a number has a minimum and maximum. |
| Tools.PropertiesOf | src/types/workflow/Tool.ts:22-72 | The properties object holds exactly the shape's keys whose field has a property, each with that property. |
| Tools.PropertiesStep | src/types/workflow/Tool.ts:22-78 | One more shape entry adds its property, if it has one, last, and its key to `required` when the field is required. |
| Tools.RequiredOf | src/types/workflow/Tool.ts:74-77 | `required` lists exactly the shape's keys whose field is not optional and is not still a `Default` once one `Optional` and then one `Default` wrapper are removed, and no more keys than the shape has. A field with a single `.default()` is therefore required. |
| Tools.ZodToJsonSchema | src/types/workflow/Tool.ts:17-86 | The loop of `zodToJsonSchema` computes the schema `JsonSchema` defines, and fails on a schema that is not an object. |
| Tools.JsonSchemaOfObject | src/types/workflow/Tool.ts:17-86 | An object schema gives type `object` with no additional properties. Its properties are exactly the string, enum and number fields. `required` holds exactly the fields that are not optional and not still a `Default` after one `Default` wrapper is removed. |
| Tools.RequiredOfAppend | src/types/workflow/Tool.ts:22-78 | `required` follows the shape's order: the list for two runs of keys, one after the other, is the two lists concatenated. |
| Tools.RequiredOfDistinct | src/types/workflow/Tool.ts:74-77 | `required` has no duplicates when the shape's keys have none. |
| Tools.WrapperRules | src/types/workflow/Tool.ts:27-38 | An optional field is never required. A field whose default wrapper comes off is still required, and both keep the inner field's property. |
| Tools.OtherTypesRequiredWithoutProperty | src/types/workflow/Tool.ts:40-77 | A field of any other type gets no property but is still required. |
| Tools.NumberAndEnumProperties | src/types/workflow/Tool.ts:53-71 | A number's min and max checks become `minimum` and `maximum`, and an enum's values become `enum` on a string property. |
| Tools.MakeTool | src/types/workflow/Tool.ts:88-99 | `tool` succeeds exactly for an object schema. It declares a strict `function` with the configured name and description, the JSON schema of the parameters and the configured `run`. |
| Tools.KeptProperties | src/types/workflow/Tool.ts:110-119 | The new properties are exactly the old ones whose key is not fixed, and they are unchanged. |
| Tools.KeptRequired | src/types/workflow/Tool.ts:114-116 | The new `required` holds exactly the old required keys that are properties and are not fixed. |
| Tools.KeptStep | src/types/workflow/Tool.ts:111-118 | One more property is kept, and kept as required when it was, unless its key is fixed. |
| Tools.WithFixedParams | src/types/workflow/Tool.ts:101-137 | `toolWithFixedParams` keeps the declaration but drops the fixed parameters from it, wraps `run` to merge in the fixed values, and records them. |
| Tools.FixedParametersContents | src/types/workflow/Tool.ts:106-129 | Fixing parameters drops exactly the fixed keys from `properties` and leaves the rest unchanged. A key stays required only if it was required and still has a property. Every other declaration field is kept. |
| Tools.FixedRunMerges | src/types/workflow/Tool.ts:130-134 | The wrapped `run` calls the base with `{...fixedParams, ...params}`. A value given at call time overrides a fixed one, and a fixed one fills a key the call leaves out. |
| Statistics.Count | src/_workflows/businessEnrichment/statisticsHelper.ts:39-47 | A filtered count never exceeds the number of results, and is 0 when no result passes. |
| Statistics.EnrichedData | src/_workflows/businessEnrichment/statisticsHelper.ts:39-41 | Reading `enrichedData` succeeds exactly when no result is `null` or `undefined`, and then gives each result's field in order. |
| Statistics.Rate | src/_workflows/businessEnrichment/statisticsHelper.ts:50-51 | The rate is 0 without results, and never negative. |
| Statistics.Round | src/_workflows/businessEnrichment/statisticsHelper.ts:50-51 | `Math.round` gives the integer nearest to its argument, with halves rounded up. |
| Statistics.GooglePlacesStatistics | src/_workflows/businessEnrichment/statisticsHelper.ts:36-61 | The Places statistics exist exactly when no result is `null` or `undefined`. |
| Statistics.WebsiteSearchStatistics | src/_workflows/businessEnrichment/statisticsHelper.ts:66-99 | The website-search statistics exist exactly when no result is `null` or `undefined`. |
| Statistics.WebsitesWithinFound | src/_workflows/businessEnrichment/statisticsHelper.ts:39-47 | There are never more places with a website than places found. |
| Statistics.RateBounded | src/_workflows/businessEnrichment/statisticsHelper.ts:50-51 | The rate of a part of the total lies in 0..100. |
| Statistics.GooglePlacesInvariants | src/_workflows/businessEnrichment/statisticsHelper.ts:36-61 | The total is the number of results, and found and not found add up to it. Places with a website are at most the places found. Both rates lie in 0..100 and are 0 without results. |
| Statistics.WebsiteSearchInvariants | src/_workflows/businessEnrichment/statisticsHelper.ts:66-99 | Found and not found add up to the total, and the search count is at most the total. The success rate lies in 0..100, but the website rate is only known to be non-negative. |
| Statistics.DoubleCountedWebsite | src/_workflows/businessEnrichment/statisticsHelper.ts:85-88 | One company whose place has a website and whose search also found one is counted twice, for a website rate of 200. |
| Statistics.CorrectedWebsiteSearchStatistics | src/_workflows/businessEnrichment/statisticsHelper.ts:66-99 | The corrected statistics count a company with a website from either source once. They exist exactly when no result is `null` or `undefined`. |
| Statistics.CorrectedWebsiteRateBounded | src/_workflows/businessEnrichment/statisticsHelper.ts:85-88 | Counted once per company, the website rate lies in 0..100, and the website count is at least the search count. |
| Statistics.SearchWithinAny | src/_workflows/businessEnrichment/statisticsHelper.ts:79-85 | Companies with a search website are among those with a website from either source. |
| AddressMatcher.BeforeComma | src/_workflows/businessEnrichment/addressMatcher.ts:19 | The street part is a comma-free prefix of the address, ending just before its first comma when it has one. |
| AddressMatcher.ExtractStreet | src/_workflows/businessEnrichment/addressMatcher.ts:18-21 | The street has no comma and no space at either end. It is empty for an empty address or one that starts with a comma. |
| AddressMatcher.LongWordsMember | src/_workflows/businessEnrichment/addressMatcher.ts:29-30 | A word is significant exactly when it is a word of the street longer than two characters. |
| AddressMatcher.AreStreetsSimilar | src/_workflows/businessEnrichment/addressMatcher.ts:26-42 | The nested loops answer true exactly when both streets are non-empty and some significant word of one contains, or is contained in, some significant word of the other. |
| AddressMatcher.FindMatchingPlace | src/_workflows/businessEnrichment/addressMatcher.ts:47-88 | `undefined` exactly when no place with an address has a similar street. Otherwise the first such place, with its rating count and phone number renamed. |
| AddressMatcher.SimilarSymmetric | src/_workflows/businessEnrichment/addressMatcher.ts:33-39 | Similarity does not depend on which street is the company's. |
| AddressMatcher.ShortWordsNeverMatch | src/_workflows/businessEnrichment/addressMatcher.ts:29-30 | A street whose words are all at most two characters long matches nothing. |
| AddressMatcher.SharedWordMatches | src/_workflows/businessEnrichment/addressMatcher.ts:33-39 | Two non-empty streets that share a word longer than two characters match. |
| CompaniesFile.Transform | src/_workflows/businessEnrichment/companiesFile.ts:80-88 | The name is the trade name, or the legal name when that is empty. City, state, activity and size are copied, and the country is `Brazil`. |
| CompaniesFile.TransformCompanyData | src/_workflows/businessEnrichment/companiesFile.ts:79-89 | One transformed company per record, in the same order. |
| CompaniesFile.LoadAndTransformCompanies | src/_workflows/businessEnrichment/companiesFile.ts:50-100 | A missing file gives `Companies file not found at: <path>`, and a parse error is passed on. Otherwise the parsed records are transformed. |
| CompaniesFile.AddressSplitsIntoParts | src/_workflows/businessEnrichment/companiesFile.ts:85 | When no part holds a comma, splitting the address on commas gives back the street, district, postal code, city and state, each after the first with one leading space. |
| CompaniesFile.AddressOf | src/_workflows/businessEnrichment/companiesFile.ts:85 | The address is the street, district, postal code, city and state, joined by `, `. |
| CommandLine.WorkflowName | src/utils/commandLine.ts:7 | Removing the flag leaves the name, which the flag followed. |
| CommandLine.ParseCommandLineArgs | src/utils/commandLine.ts:1-12 | `null` exactly when no argument from the third on starts with `--workflow=`. Otherwise the name after the flag in the first such argument. |
| CommandLine.FirstTwoIgnored | src/utils/commandLine.ts:3 | The node binary and the script path never change the result. |
| CommandLine.LaterArgumentsIgnored | src/utils/commandLine.ts:4 | Arguments added after a workflow flag do not change the result. |
| CommandLine.FlagRoundTrip | src/utils/commandLine.ts:4-8 | `--workflow=<name>` right after the script path is read back as `name`, whatever follows it. |
| StepLogger.SafeName | src/utils/workflowLogger.ts:14-16 | The length is kept, and every character is a letter, digit, `_` or `-`. Those are kept, and any other becomes `_`. |
| StepLogger.StepFileName | src/utils/workflowLogger.ts:50 | A step's log file name starts with its two-digit index and a `-`, and ends with `.md`. |
| StepLogger.FormatJson | src/utils/workflowLogger.ts:18-24 | The serializer's text when it succeeds. When it throws, it still gives a text. |
| StepLogger.WriteFile | src/utils/workflowLogger.ts:84 | A successful write puts the content at the path, adds only that path, and changes no other file. |
| StepLogger.WorkflowStepLogger.constructor | src/utils/workflowLogger.ts:26-32 | The base directory defaults to `./temp/workflow-logs`, and no run is active. |
| StepLogger.WorkflowStepLogger.StartRun | src/utils/workflowLogger.ts:34-43 | The run directory and its parents are created, and it becomes the current run. A failing `mkdir` leaves the logger as it was. |
| StepLogger.WorkflowStepLogger.LogStep | src/utils/workflowLogger.ts:45-88 | The files become what `Logged` gives: the step's file written into the current run, if there is one. A write error is swallowed. |
| StepLogger.WorkflowStepLogger.EndRun | src/utils/workflowLogger.ts:90-92 | No run is active afterwards. |
| StepLogger.Timestamp | src/utils/workflowLogger.ts:35 | The ISO time keeps its length, with every `:` and `.` replaced. |
| StepLogger.RunDir | src/utils/workflowLogger.ts:34-37 | The run directory is under the base directory and ends in the safe run label, or the safe timestamp when there is no label. |
| StepLogger.LogContent | src/utils/workflowLogger.ts:54-81 | The log opens with the line `# Step <two-digit index> - <name, or key>`. |
| StepLogger.Logged | src/utils/workflowLogger.ts:45-88 | Without a run directory nothing changes. No file is removed. Either nothing changes, after a write error, or the step's file in the run directory holds the log content. |
| StepLogger.SafeNameIdempotent | src/utils/workflowLogger.ts:14-16 | Applying `safeName` twice is the same as applying it once. |
| StepLogger.SafeNameKeepsAllowed | src/utils/workflowLogger.ts:14-16 | A name made only of allowed characters is kept as it is. |
| StepLogger.NoRunNoLog | src/utils/workflowLogger.ts:46 | Without an active run, logging a step changes no file. |
| StepLogger.LogStepWritesOneFile | src/utils/workflowLogger.ts:50-87 | Logging a step either changes nothing or writes the step's content to its own file, adding only that path. |
| StepLogger.StepFileNamesDistinct | src/utils/workflowLogger.ts:50 | Different step indices never share a log file name. |
| StepLogger.TwoDigitsInjective | src/utils/workflowLogger.ts:50 | Zero-padding to two digits tells different indices apart. |
| Reddit.WithoutTrailingSlash | src/tools/redditRead.ts:43 | The URL is unchanged, or loses exactly one trailing `/`. |
| Reddit.NormalizeUrl | src/tools/redditRead.ts:35-43 | The cleaned URL always ends in `.json`. |
| Reddit.Iterate | src/tools/redditRead.ts:88 | An array is visited element by element. |
| Reddit.Comments | src/tools/redditRead.ts:83-115 | At or beyond the depth limit, the walk gives no comments. |
| Reddit.Outcome | src/tools/redditRead.ts:59-123 | A body that is not an array of at least two elements is the invalid-URL error. A read result's `total_comments` is the number of its top-level comments. |
| Reddit.ExtractComments | src/tools/redditRead.ts:83-115 | The loop and its recursion compute `Comments`: kept items in order, each with its nested replies. |
| Reddit.CommentsAreKeptItems | src/tools/redditRead.ts:87-112 | A walk that succeeds returns exactly one comment for each item that is not skipped, in the items' order, each built from that item's `data` at the current level. |
| Reddit.ErrorStops | src/tools/redditRead.ts:88-112 | An error in one item ends the whole loop with that error. |
| Reddit.ReadPost | src/tools/redditRead.ts:26-135 | `run` gives what `Run` defines: the request, then the checks on the reply and the walk, with a request failure reported as `Failed to read Reddit post`. |
| Reddit.ReadReply | src/tools/redditRead.ts:59-123 | The handling of the reply body gives what `Outcome` defines. |
| Reddit.RequestUrl | src/tools/redditRead.ts:35-53 | The request goes to the cleaned URL followed by `?limit=`, and ends in `&raw_json=1`. |
| Reddit.MakePost | src/tools/redditRead.ts:69-80 | The title and self text are the post data's, and the permalink is on Reddit's host. |
| Reddit.ItemComment | src/tools/redditRead.ts:89-111 | A kept item becomes a comment at the current depth whose body is its `data.body`. |
| Reddit.ItemsComments | src/tools/redditRead.ts:86-114 | A listing gives at most one comment per item, all at the current depth. |
| Reddit.Run | src/tools/redditRead.ts:26-135 | A failed request gives `Failed to read Reddit post` with the request's error. A read result's `total_comments` is the number of comments it holds. |
| Values.Get | src/tools/redditRead.ts:89 | Reading a property throws exactly on `null` and `undefined`. |
| Values.Opt | src/tools/cufinder.ts:302 | Optional chaining gives `undefined` on `null` and `undefined`, and otherwise the property read. |
| Values.Truthy | src/tools/cufinder.ts:251 | The falsy values are exactly `undefined`, `null`, `false`, `0` and `''`. |
| Values.ToText | src/tools/cufinder.ts:267 | `String` of a string is the string, of an object `[object Object]`, and of an empty array `''`. |
| Values.TypeOf | src/nodes/Loop.ts:60 | `typeof` is `undefined` exactly for `undefined`, and `object` exactly for `null`, arrays and objects. |
| Sorting.Sort | src/nodes/File.ts:73 | `sort` gives an ordered permutation of the names. |
| Reddit.CommentsWellNested | src/tools/redditRead.ts:83-115 | Every comment the walk returns is well nested: its depth is its level, its body is kept, and its replies are one level deeper and below the limit. |
| Reddit.ItemsWellNested | src/tools/redditRead.ts:88-112 | The comments kept from a listing below the limit are well nested. |
| Reddit.ItemWellNested | src/tools/redditRead.ts:92-111 | A kept item has the current depth and a kept body, and its replies are well nested one level down. |
| Reddit.TopLevelBelowLimit | src/tools/redditRead.ts:117-123 | No comment in a read result reaches the depth limit, however deep the thread goes. |
| Reddit.ItemsAtMost | src/tools/redditRead.ts:88-112 | A listing yields at most one comment per item. |
| Reddit.PathAndFullUrlAgree | src/tools/redditRead.ts:38-40 | A `/r/` path and the same path on Reddit's host request the same URL. |
| Reddit.TrailingSlashIgnored | src/tools/redditRead.ts:43 | One trailing `/` makes no difference to the URL requested, except for the URL `/r`. |

## Left out

- Console output is not modelled anywhere: `console.log`, `chalk` colouring, `agentSays` and the logging of every error before `process.exit(1)`.
- The `introductionText` print of an agent step is left out as console output. So is the output-schema check, which the source only marks as to do.
- Engine.Workflow.Execute: the model assigns `globalState` and `lastStepResult` once, after the loop, rather than after each step. A `GLOBAL` step does receive the live state object while the loop runs, but the model's step oracles never read through that reference, so assigning once after the loop yields the same final state and the same step results.
- Engine.Workflow.Execute: at `Workflow.ts:72` the source passes one `{step, stepInput}` object to `executeAgentStep`, which takes two positional parameters. The model follows the call as written: the agent step sees that object as its step.
- Input.ResolveInput and Engine.Workflow.Execute: a `GLOBAL` step receives the global state object itself, and its entry stores that object as its input, so the state comes to contain itself. The model records this as `GlobalStateRef` and proves it (Engine.GlobalStepInput). It has no serializer for the global state, so it does not model that `JSON.stringify` of such a state throws on the cycle.
- Engine.UntaggedStepFails: the source's message is `Unknown step type: ` followed by `JSON.stringify(step)`. The model's message is that prefix alone, because a step holds functions and a schema that the model's `Json` does not serialize.
- Values: numbers are integers. Fractions, `NaN` and the infinities are not modelled, so a `NaN` argument, which is falsy, or a limit of `1.5`, which reaches the request text as `1.5`, has no counterpart in the model.
- Records: JavaScript lists integer-like keys first, in increasing order, and then the other keys in the order they were added (`Object.keys({b: 1, 1: 2})` is `["1", "b"]`). Records keep the order of addition for every key, so key order, and with it `JSON.stringify` output, differs for objects with integer-like keys.
- Tools.KeptProperties, Tools.WithFixedParams and Loop.Walk: the `in` operator (`key in fixedParams` in `Tool.ts`, `part in current` in `Loop.ts`) also finds keys inherited from `Object.prototype`, such as `constructor` or `toString`, and the model looks only at an object's own keys. The source drops a parameter with such a name, and the model keeps it. For a path segment such as `constructor`, the source descends into the inherited function and then throws `Expected array but got function`, while the model throws the `Array path ... not found` error.
- `Input.ts` declares only five `InputSource` members, so `InputSource.LastStepAndUserInput` in `Agent.ts` is `undefined`. The model keeps that: a step without an input source may ask the human.
- The test-mode shim of `getUserInput` is left out. Under `NODE_ENV=test` it returns hard-coded values.
- StepAgent.ExecuteAgentStep and AgentNode.ExecuteNode: the conversation loops have no bound in the source. The model's replies and answers are finite sequences, and a run that uses them all up reports that it did not finish.
- `callModel` and its concurrent tool dispatch are not part of this model. Each model call is one oracle value: the parsed reply, or the error it throws.
- JSON: `JSON.stringify` is modelled without indentation and without lone-surrogate escaping, and host objects serialize as `{}`.
- `JSON.parse` is a function parameter, and so are MD5 (RFC 1321), base64url (section 5 of RFC 4648), URL query encoding and form encoding.
- Strings: `toLowerCase`, `trim` and `split` are modelled over ASCII only.
- Sorting: `Array.prototype.sort` compares UTF-16 code units, and the model compares code points. The two orders differ only for characters outside the Basic Multilingual Plane.
- Files: `path.join` is modelled as joining with one `/`; normalisation of `..`, `.` and repeated slashes is left out. `path.dirname` is simplified the same way.
- Files: only the file system errors the code distinguishes are modelled: a missing path, and a file where a directory is needed. Permission errors, for instance, are not.
- Files.MakeDirsFailsIff: that a file on the path makes `mkdir` fail is proved only for file systems where every entry's parent is a directory. In any other, an existing directory deeper down is found first and `mkdir` succeeds, in Node and in the model alike.
- LowDb: persistence is abstracted. `getData`, `save`, `reload`, `exists`, `delete`, `getInfo` and `toArray` only read or write the backing file or return the data as it is, so they are not modelled.
- LowDb: the asynchronous `ensureInitialized` and the creation of the database directory are left out. A database object is built already holding the file's data, or the default.
- LowDb.ArrayDb.SetByIndex: an index that is not an integer, such as `1.5`, also becomes a property of the array in JavaScript. The model's indices are integers.
- Caches.BaseCache.Get: the clock is the `now` parameter. Write errors of `set`, the `mkdir` of the cache directory and the console messages are left out.
- Caches.BaseCache.Get, Cufinder.CufinderCache.Get and Enrichment.Service.MakeRequest: a cache file holds JSON text, and the model keeps the value that text parses to. For an entry that `set` wrote, that is `Json.Reparse` of the data, and `Json.StringifyReparse` shows it serializes to the same text. A file written by other means is modelled by the value it parses to, or as unreadable.
- Cufinder.CufinderCache.Cleanup: removing directories that end up empty is left out, because the cache directory is a flat map from file paths.
- Cufinder.ExpiryInMilliseconds: the source divides the age by 1000 in floating point. The model compares the age in milliseconds with `1000 * ttl`, which is the same test over exact arithmetic.
- Cufinder.Service.MakeRequest: the axios timeout, the headers and the URL prefix are left out. The server is a function from endpoint and form body to a reply.
- The `cufinder*` tool wrappers (`src/tools/cufinder.ts:433` on) are not modelled. They only call the service methods and reshape the reply for the model.
- Enrichment.Service.MakeRequest: the axios timeout and the console logging are left out. `getByEndpoint` and `setByEndpoint` of the enrichment cache are folded into the request, which is their only caller.
- Statistics.Rate: `Math.round` is applied to the exact rational, not to a floating-point number.
- CompaniesFile.LoadAndTransformCompanies: the existence check and the read of `companies.json` are the `content` parameter.
- StepLogger.WorkflowStepLogger.StartRun: the clock is the ISO text, passed in. The disk is the file node's file system.
- Reddit.Comments: `extractComments` tests `kind` on an item's `data` object, not on the item. A `more` item is still skipped because its data has no `body`. The model follows the code.
- Reddit.TrailingSlashIgnored: the URL `/r` is excluded. With a trailing slash it becomes `/r/`, which the source moves onto Reddit's host.
- Reddit.Iterate: a value that is neither an array nor a string cannot be iterated. The model fails with its own message, not the exact text of the JavaScript engine's error.
- Reddit: the HTTP request is a function parameter from the full request URL to the reply. The `User-Agent` header is left out.
- The rest of the repository is not part of this model: the network adapters, HTML scraping, the example workflow scripts, the CLI entry point, `AppState`, and the code node, which the loop node's child stands for.

## Findings

| source | as written | input that shows it | evidently intended | confidence | as-written member | corrected member |
|---|---|---|---|---|---|---|
| src/_workflows/businessEnrichment/statisticsHelper.ts:85-88 | The website count adds the companies whose place has a website to the companies whose search found one. A company with both is counted twice. | One result whose `enrichedData` has `googlePlace.website` and `websiteSearchResult` both set: `foundWithWebsite` is 2 and `websiteRate` is 200. | Count each company with a website from either source once, so the rate stays within 0..100. The only caller, the website search step at src/_workflows/businessEnrichment/businessEnrichment.ts:136-145, searches only when the place has no website and otherwise clears `websiteSearchResult`, so in this workflow the double count is latent. | not executed | Statistics.DoubleCountedWebsite | Statistics.CorrectedWebsiteSearchStatistics |
