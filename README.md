# Arna core, modelled in Dafny

Arna is a desktop assistant that plans and executes programming tasks with the
help of a language model. This project models its deterministic core. It proves
properties of the model with the Dafny verifier.

- **Task orchestration** (`src/core/agent_core.py`, module `AgentCore`):
  - the four-state `Task`, with a recursive `to_dict`/`from_dict` round trip;
  - the `TaskPlanner` id counter and task decomposition;
  - working and long-term memory;
  - the `ExecutionEngine`, which dispatches on a description's type prefix;
  - the `AgentManager`, which holds one current task.
- **Code-structure editor with dotted paths** (`src/tools/code_structure.py`, module `CodeStructureTool`):
  - a project of nested function dicts;
  - first-match path lookup, insertion and in-place field edits;
  - recursive counting and the indented text rendering;
  - the module-level wrappers, which build a fresh manager on every call.
- **Class-based code-structure model with slash paths** (`src/core/code_structure_manager.py`, module `CodeStructureModel`):
  - the definitions' dict round trips;
  - `find_function` with its quirk: the second segment is searched at the top level again;
  - the manager's add operations.
- **Language-model helpers** (`src/services/llm_service.py`, module `LlmService`):
  - prompt-template lookup;
  - chat-message construction;
  - the fenced code-block scanner `extract_code`;
  - the bounded conversation window `ContextManager`.
- **Question queue** (`src/tools/question_tool.py`, module `QuestionTool`): numbered questions with a single current-question slot.
- **Data storage** (`src/services/data_storage.py`, module `DataStorage`):
  - dotted-key get/set on the nested configuration;
  - the most-recently-used project list;
  - the project name that an import derives from its path.

Shared definitions:
- `Common`: `Option`, `Result`, Python's `str.split` on one character, and decimal rendering.
- `Values`: the JSON/YAML value type and Python truthiness.

Python exceptions are modelled as `Err` results. Clock readings are parameters.
Files on disk are maps held by the objects that read and write them.

## Model

| member | source | states |
|---|---|---|
| AgentCore.StatusValue | src/core/agent_core.py:15-20 | each status's string value is read back to that status by `TaskStatus(value)` |
| AgentCore.ParseStatus | src/core/agent_core.py:15-20 | `TaskStatus(v)` accepts exactly the four status strings and raises on anything else |
| AgentCore.ParseStatusInverse | src/core/agent_core.py:15-20 | a string that `TaskStatus` accepts is the value of the status it gives |
| AgentCore.NewTask | src/core/agent_core.py:26-44 | a new task is PENDING with no subtasks; it has no start or completion time, no result and no error |
| AgentCore.Start | src/core/agent_core.py:46-49 | `start` sets IN_PROGRESS and started_at and changes no other field |
| AgentCore.Complete | src/core/agent_core.py:51-60 | `complete` sets COMPLETED, completed_at and the result and changes no other field |
| AgentCore.Fail | src/core/agent_core.py:62-71 | `fail` sets FAILED, completed_at and the error and changes no other field |
| AgentCore.AddSubtask | src/core/agent_core.py:73-80 | the subtask is appended after the existing ones and nothing else changes |
| AgentCore.ToDict | src/core/agent_core.py:82-100 | a task record has exactly the ten keys |
| AgentCore.ToDicts | src/core/agent_core.py:99 | one record per subtask |
| AgentCore.FromDict | src/core/agent_core.py:102-124 | only a dict decodes, the decoded task's id is the record's "task_id", and a "subtasks" value other than a list gives no subtasks when it decodes |
| AgentCore.EmptySubtasksAsAbsent | src/core/agent_core.py:121-122 | an empty string or dict under "subtasks" reads exactly as a missing key, since the loop visits nothing |
| AgentCore.FromDicts | src/core/agent_core.py:121-122 | a decoded subtask list has one task per record |
| AgentCore.HeaderRoundTrip | src/core/agent_core.py:82-124 | decoding a task record's scalar fields gives back id, description, parent, status, the three times, result and error |
| AgentCore.RoundTrip | src/core/agent_core.py:82-124 | `from_dict(to_dict(t))` rebuilds the whole tree, with children in the same order |
| AgentCore.RoundTripAll | src/core/agent_core.py:119-122 | a list of subtask records decodes back to the same list of tasks |
| AgentCore.TaskIdInjective | src/core/agent_core.py:143 | different counter values give different "task_N" ids |
| AgentCore.PlanExecution | src/core/agent_core.py:168-180 | `plan_execution` returns its input unchanged |
| AgentCore.TaskPlanner.constructor | src/core/agent_core.py:130-132 | the counter starts at 1 and no id has been issued |
| AgentCore.TaskPlanner.IssuedDistinct | src/core/agent_core.py:134-147 | no id is issued twice by one planner |
| AgentCore.TaskPlanner.CreateTask | src/core/agent_core.py:134-147 | it returns a new PENDING task "task_N" for the current counter N; the counter grows by one and the id is fresh |
| AgentCore.CreatedSnoc | src/core/agent_core.py:158-164 | creating the task for the next description extends the tasks created so far, in order |
| AgentCore.TaskPlanner.DecomposeTask | src/core/agent_core.py:149-166 | it appends one new PENDING child per description, in order, with the parent's id; it keeps the existing children and returns exactly the new ones; their ids are consecutive and were never issued before; child i is created at the i-th clock reading of the call |
| AgentCore.MemoryManager.constructor | src/core/agent_core.py:186-195 | working memory starts empty; long-term memory is what is stored |
| AgentCore.MemoryManager.SetWorkingMemory | src/core/agent_core.py:201-209 | one working-memory key is set; long-term memory is unchanged |
| AgentCore.MemoryManager.GetWorkingMemory | src/core/agent_core.py:211-222 | it returns the stored value, or the default for a missing key |
| AgentCore.MemoryManager.SaveLongTermMemory | src/core/agent_core.py:224-234 | one long-term key is set; working memory is unchanged |
| AgentCore.MemoryManager.LoadLongTermMemory | src/core/agent_core.py:236-252 | it returns the stored record, or the default for a missing key |
| AgentCore.TaskType | src/core/agent_core.py:297-298 | the type is the text before the first ':', or "default" when there is no colon |
| AgentCore.Executed | src/core/agent_core.py:289-312 | executing a task reads the clock at least twice, once to start it and once to finish it |
| AgentCore.ExecutedAll | src/core/agent_core.py:314-322 | a plan executes to as many tasks as it has, reading the clock forward only |
| AgentCore.ExecutedAllAt | src/core/agent_core.py:314-322 | task i of a plan is executed on its own, from the first clock reading that the tasks before it leave |
| AgentCore.ExecutedAllSnoc | src/core/agent_core.py:314-322 | executing a plan with one more task appends that task's execution, which reads the clock after the plan's |
| AgentCore.ExecutedAllStep | src/core/agent_core.py:314-322 | executing the first k+1 tasks is executing the first k, then task k |
| AgentCore.ExecutedAllSplit | src/core/agent_core.py:314-322 | a plan reads the clock for its first k tasks, then for the rest |
| AgentCore.ExecutedOutcome | src/core/agent_core.py:289-312 | with a handler for the type, the task ends COMPLETED with the handler's result or FAILED with the exception text, and its children are not run; without one, every child runs in order and the task ends COMPLETED with result None; either way it is started at its first clock reading and finished at its last |
| AgentCore.StartedBeforeCompleted | src/core/agent_core.py:299-312 | with a clock that never goes backwards, no task finishes before it starts |
| AgentCore.ChildReadings | src/core/agent_core.py:306-310 | child i of a task without a handler runs from the reading its earlier siblings leave, within the parent's readings |
| AgentCore.ChildWithinParent | src/core/agent_core.py:299-312 | with a clock that never goes backwards, each child starts no earlier and finishes no later than its parent |
| AgentCore.ChildrenInOrder | src/core/agent_core.py:308-309 | with a clock that never goes backwards, each child finishes before the next one starts |
| AgentCore.ExecutedKeepsSkeleton | src/core/agent_core.py:289-322 | execution never raises and keeps every task of the tree in place |
| AgentCore.ExecutionEngine.constructor | src/core/agent_core.py:269-277 | the engine starts with no handlers |
| AgentCore.ExecutionEngine.RegisterTaskHandler | src/core/agent_core.py:279-287 | the last registration for a type wins |
| AgentCore.ExecutionEngine.ExecuteTask | src/core/agent_core.py:289-312 | the task is executed as `Executed` describes, reading the clock in call order |
| AgentCore.ExecutionEngine.ExecutePlan | src/core/agent_core.py:314-322 | every task of the plan is executed, in order, as `ExecutedAll` describes |
| AgentCore.TaskStatusRecord | src/core/agent_core.py:380-390 | without a task the record is {"status": "no_task"}; otherwise it decodes back to the current task |
| AgentCore.SavedTaskReloads | src/core/agent_core.py:392-411 | a saved task record is truthy and decodes to the task, so `load_state` after `save_state` restores it |
| AgentCore.AgentManager.constructor | src/core/agent_core.py:328-333 | there is no current task; the counter is at 1; there are no handlers |
| AgentCore.BreakdownCreated | src/core/agent_core.py:345-358 | a fresh root decomposed into the fixed breakdown is that root with exactly five children: `task_{N+1}`..`task_{N+5}`, PENDING, under the root, with the fixed descriptions, no times, result or error, created at successive readings |
| AgentCore.BreakdownIdsDistinct | src/core/agent_core.py:335-358 | the root's id and its five children's ids are pairwise distinct |
| AgentCore.AgentManager.ProcessInstruction | src/core/agent_core.py:335-360 | the current task becomes the new root `task_N` for the instruction, PENDING with no parent, times, result or error, created at the first clock reading; its children are exactly the five fixed ones, `task_{N+1}`..`task_{N+5}` in order, child i created at the (i+1)-th reading after it; the counter grows by six |
| AgentCore.AgentManager.ExecuteCurrentTask | src/core/agent_core.py:362-378 | it returns None without a task; otherwise it executes the task and returns its result |
| AgentCore.AgentManager.GetTaskStatus | src/core/agent_core.py:380-390 | without a task, {"status": "no_task"}; otherwise a record that decodes to the current task |
| AgentCore.AgentManager.SaveState | src/core/agent_core.py:392-398 | the current task's record is stored under "current_task", if there is a current task |
| AgentCore.AgentManager.LoadState | src/core/agent_core.py:400-411 | the current task is replaced if and only if a truthy record exists; the method reports whether it was replaced |
| CodeStructureTool.NewFunction | src/tools/code_structure.py:64-71 | a new function has its name and description, no parameters, empty return and logic, and no children |
| CodeStructureTool.FirstMatch | src/tools/code_structure.py:80-86 | it gives the first function with that name at or after the start, or none |
| CodeStructureTool.Find | src/tools/code_structure.py:350-377 | the walk resolves a path to a location, one level per segment, that names the last segment |
| CodeStructureTool.FindIsFirstMatch | src/tools/code_structure.py:350-377 | each level of a found location is the first match of its segment |
| CodeStructureTool.ApplyEdit | src/tools/code_structure.py:94-157 | parameters and children are appended; return and logic are overwritten; name and description are kept |
| CodeStructureTool.UpdateAt | src/tools/code_structure.py:96-162 | an edit keeps the number of top-level entries and every top-level entry other than the one it goes through |
| CodeStructureTool.UpdateAtTarget | src/tools/code_structure.py:96-162 | the edited function stays where it was, with the edit applied |
| CodeStructureTool.UpdateAtElsewhere | src/tools/code_structure.py:96-162 | every function that neither is the edited one nor encloses it is unchanged |
| CodeStructureTool.ChildrenPrefixKeepsNode | src/tools/code_structure.py:94 | appending children keeps every existing function at its location |
| CodeStructureTool.UpdateAtAncestor | src/tools/code_structure.py:96-162 | enclosing functions keep every field other than their children, and keep the number of their children |
| CodeStructureTool.CountZero | src/tools/code_structure.py:230-245 | the count is zero exactly when no entry is a function |
| CodeStructureTool.EntryCount | src/tools/code_structure.py:230-245 | a function counts itself and everything nested in it; an entry without "function" counts nothing |
| CodeStructureTool.CountAppend | src/tools/code_structure.py:230-245 | the count of a list is additive in its entries |
| CodeStructureTool.CountReplace | src/tools/code_structure.py:230-245 | replacing one entry changes the count by the difference of their counts |
| CodeStructureTool.CountAfterEdit | src/tools/code_structure.py:212-245 | adding a function raises the count by exactly one; other edits leave it unchanged |
| CodeStructureTool.Indent | src/tools/code_structure.py:191 | the indentation is two spaces per level |
| CodeStructureTool.ParameterLines | src/tools/code_structure.py:197-199 | one line per parameter |
| CodeStructureTool.LinesLength | src/tools/code_structure.py:182-210 | every function at every depth renders at least its header and its description; a list without functions renders nothing |
| CodeStructureTool.EntryLinesLength | src/tools/code_structure.py:188-210 | one function renders at least two lines per function it holds, itself included |
| CodeStructureTool.StructureLines | src/tools/code_structure.py:164-180 | the three heading lines, then at least two lines per function at every depth; only the headings when there are no functions |
| CodeStructureTool.SummaryLines | src/tools/code_structure.py:212-228 | the summary has three lines |
| CodeStructureTool.SummaryShowsCount | src/tools/code_structure.py:226 | the count line determines the number of functions |
| CodeStructureTool.LinesAppend | src/tools/code_structure.py:182-210 | the rendering of a list is the renderings of its entries in order |
| CodeStructureTool.LinesContainEntry | src/tools/code_structure.py:182-210 | every line of an entry's rendering appears in the list's rendering |
| CodeStructureTool.RenderShowsEveryFunction | src/tools/code_structure.py:182-210 | every function at depth d is listed, two levels deeper per depth |
| CodeStructureTool.CountFunctions | src/tools/code_structure.py:230-245 | the loop counts the functions at every depth |
| CodeStructureTool.AppendStructure | src/tools/code_structure.py:182-210 | the rendering of the entries is appended to the result |
| CodeStructureTool.FunctionLines | src/tools/code_structure.py:188-210 | one function renders as its header, its description and only its non-empty sections |
| CodeStructureTool.AppendParameters | src/tools/code_structure.py:197-199 | the parameter lines are appended in order |
| CodeStructureTool.Locate | src/tools/code_structure.py:350-377 | the loop walk computes `Find` |
| CodeStructureTool.CodeStructureManager.constructor | src/tools/code_structure.py:20-29 | a new manager has no project |
| CodeStructureTool.CodeStructureManager.CreateProject | src/tools/code_structure.py:31-47 | a new empty project replaces the current one |
| CodeStructureTool.CodeStructureManager.FindFunction | src/tools/code_structure.py:350-377 | it returns the location the dotted path resolves to, or None; it never raises |
| CodeStructureTool.CodeStructureManager.AddFunction | src/tools/code_structure.py:49-94 | without a project it raises; without a parent path the function goes at the end of the top level; otherwise it goes under the resolved parent, and a missing segment raises and inserts nothing; success raises the count by one |
| CodeStructureTool.CodeStructureManager.EditFunction | src/tools/code_structure.py:96-162 | without a project or with an unresolved path it raises; otherwise only the resolved function changes |
| CodeStructureTool.CodeStructureManager.AddParameter | src/tools/code_structure.py:96-120 | the parameter is appended after the existing ones and is returned |
| CodeStructureTool.CodeStructureManager.AddReturn | src/tools/code_structure.py:122-141 | only that function's return description is overwritten |
| CodeStructureTool.CodeStructureManager.AddLogic | src/tools/code_structure.py:143-162 | only that function's logic description is overwritten |
| CodeStructureTool.CodeStructureManager.ShowStructure | src/tools/code_structure.py:164-180 | without a project it returns the fixed "not created" text; otherwise the name and description lines, then every function |
| CodeStructureTool.CodeStructureManager.ShowSummary | src/tools/code_structure.py:212-228 | the name, the description and the number of functions at every depth |
| CodeStructureTool.CodeStructureManager.SaveYaml | src/tools/code_structure.py:247-258 | without a project it raises; otherwise the project is dumped |
| CodeStructureTool.CliCreateProject | src/tools/code_structure.py:379-382 | it returns a new empty project |
| CodeStructureTool.CliAddFunction | src/tools/code_structure.py:384-387 | it always raises, because the manager is fresh |
| CodeStructureTool.CliAddParameter | src/tools/code_structure.py:389-392 | it always raises |
| CodeStructureTool.CliAddReturn | src/tools/code_structure.py:394-397 | it always raises |
| CodeStructureTool.CliAddLogic | src/tools/code_structure.py:399-402 | it always raises |
| CodeStructureTool.CliShowStructure | src/tools/code_structure.py:404-407 | it always returns the "not created" text |
| CodeStructureTool.CliShowSummary | src/tools/code_structure.py:409-412 | it always returns the "not created" text |
| CodeStructureTool.CliSaveYaml | src/tools/code_structure.py:414-417 | it always raises |
| CodeStructureModel.NewFunction | src/core/code_structure_manager.py:140-153 | a new definition has no parameters, return, logic or children |
| CodeStructureModel.ParameterToDict | src/core/code_structure_manager.py:30-40 | a parameter record has exactly the keys "name" and "description" |
| CodeStructureModel.ParameterFromDict | src/core/code_structure_manager.py:42-56 | a record decodes exactly when it is a dict whose name and description are strings or missing; a missing one reads as "" |
| CodeStructureModel.EmptyRecordDefaults | src/core/code_structure_manager.py:43-134 | missing keys read as "" |
| CodeStructureModel.DefinitionRoundTrips | src/core/code_structure_manager.py:30-134 | parameter, return and logic definitions read back what they wrote |
| CodeStructureModel.ParametersRoundTrip | src/core/code_structure_manager.py:218-256 | the parameter list reads back in order |
| CodeStructureModel.FunctionToDict | src/core/code_structure_manager.py:211-237 | name and description are always written; parameters, returns, logic and code_structure are written exactly when present and non-empty; no other key |
| CodeStructureModel.FunctionFromDict | src/core/code_structure_manager.py:239-274 | only a dict decodes; missing parameters, returns, logic or code_structure give none, and so does a parameters or code_structure value other than a list when the record decodes |
| CodeStructureModel.NestedFunctions | src/core/code_structure_manager.py:269-272 | the loop over a string or dict, when it does not raise, reads no function |
| CodeStructureModel.SkippedStructureAsAbsent | src/core/code_structure_manager.py:269-272 | a string under "code_structure", or a dict none of whose keys holds "function", reads exactly as a missing key |
| CodeStructureModel.StringItems | src/core/code_structure_manager.py:269-271 | a string item without "function" is skipped, and one holding "function" raises when indexed |
| CodeStructureModel.FunctionHeaderRoundTrip | src/core/code_structure_manager.py:211-266 | name, description, parameters, return and logic read back, including the keys omitted when empty |
| CodeStructureModel.FunctionRoundTrip | src/core/code_structure_manager.py:211-274 | `from_dict(to_dict(f))` equals f, with parameters and nested functions in order |
| CodeStructureModel.FunctionsRoundTrip | src/core/code_structure_manager.py:230-272 | a wrapped function list reads back in order |
| CodeStructureModel.SkipsItemsWithoutFunction | src/core/code_structure_manager.py:269-272 | the items `"function" in item` rejects without raising (dicts without the key, strings without "function" in them, lists without the string "function") are skipped; one function is read per remaining item |
| CodeStructureModel.ProjectToDict | src/core/code_structure_manager.py:347-360 | a project record has exactly name, description and code_structure, with one item per top-level function |
| CodeStructureModel.ProjectFromDict | src/core/code_structure_manager.py:362-383 | only a dict decodes; a missing name reads as "", and a missing code_structure or one other than a list gives no functions when the record decodes |
| CodeStructureModel.ProjectRoundTrip | src/core/code_structure_manager.py:347-383 | a project reads back its name, its description and its ordered top-level functions |
| CodeStructureModel.FirstNamed | src/core/code_structure_manager.py:318-322 | it gives the first function with the name at or after the start, or none |
| CodeStructureModel.Walk | src/core/code_structure_manager.py:330-343 | each segment selects the first match among the previous match's children |
| CodeStructureModel.FindPath | src/core/code_structure_manager.py:307-345 | the empty path gives None; a resolved location is valid and ends at a function with the last segment's name |
| CodeStructureModel.FindPathResolves | src/core/code_structure_manager.py:315-324 | one segment gives the first top-level function with that name |
| CodeStructureModel.FindPathSkipsFirstSegment | src/core/code_structure_manager.py:315-345 | after a first segment that matches, the rest of the path is walked from the top level again |
| CodeStructureModel.SecondSegmentSearchesTopLevel | src/core/code_structure_manager.py:315-345 | "main/sub" does not resolve to main's child "sub", while "main/main" resolves to "main" |
| CodeStructureModel.FirstMatchLoop | src/core/code_structure_manager.py:318-322 | the first loop finds the first top-level match |
| CodeStructureModel.FindFunction | src/core/code_structure_manager.py:307-345 | the loops compute `FindPath` |
| CodeStructureModel.PrefixedLocTwice | src/core/code_structure_manager.py:330-343 | prefixing a location twice is prefixing it by the joined prefix |
| CodeStructureModel.ApplyEdit | src/core/code_structure_manager.py:155-209 | `add_parameter` and `add_function` append; `set_return` and `set_logic` replace any earlier value |
| CodeStructureModel.UpdateAt | src/core/code_structure_manager.py:519-590 | an edit keeps the number of top-level functions and every top-level function other than the one it goes through |
| CodeStructureModel.UpdateAtTarget | src/core/code_structure_manager.py:519-590 | the resolved function is edited in place |
| CodeStructureModel.UpdateAtElsewhere | src/core/code_structure_manager.py:519-590 | functions that neither are the resolved one nor enclose it are unchanged |
| CodeStructureModel.ChildrenPrefixKeepsFunction | src/core/code_structure_manager.py:196-209 | appending children keeps every existing function at its location |
| CodeStructureModel.CodeStructureManager.constructor | src/core/code_structure_manager.py:462-476 | there is no current project |
| CodeStructureModel.CodeStructureManager.CreateProject | src/core/code_structure_manager.py:478-490 | a new empty project replaces the current one |
| CodeStructureModel.CodeStructureManager.AddFunction | src/core/code_structure_manager.py:492-517 | without a project it raises; with no parent path or an empty one the function goes at the end of the top level; otherwise it goes under the resolved function; an unresolved path raises and changes nothing |
| CodeStructureModel.CodeStructureManager.EditFunction | src/core/code_structure_manager.py:519-590 | without a project or with an unresolved path it raises; otherwise only the resolved function changes |
| CodeStructureModel.CodeStructureManager.AddParameter | src/core/code_structure_manager.py:519-542 | the parameter is appended to the resolved function |
| CodeStructureModel.CodeStructureManager.AddReturn | src/core/code_structure_manager.py:544-566 | the resolved function's return definition is replaced |
| CodeStructureModel.CodeStructureManager.AddLogic | src/core/code_structure_manager.py:568-590 | the resolved function's logic definition is replaced |
| LlmService.PromptManager.constructor | src/services/llm_service.py:180-214 | the four default templates apply when no templates are loaded; otherwise the loaded ones |
| LlmService.PromptManager.GetTemplate | src/services/llm_service.py:216-226 | it returns None if and only if the name is unknown, and the template otherwise |
| LlmService.PromptManager.PromptTemplate | src/services/llm_service.py:228-243 | `format_prompt` raises if and only if the template is unknown or empty |
| LlmService.CreateChatMessages | src/services/llm_service.py:245-273 | the system message, then the zipped pairs only when both histories are non-empty, then the user prompt; length 2 + 2·min or 2 |
| LlmService.WordEnd | src/services/llm_service.py:291 | the greedy `\w*` stops at the first non-word character |
| LlmService.FenceFrom | src/services/llm_service.py:291 | the lazy `.*?` stops at the first closing fence |
| LlmService.MatchAt | src/services/llm_service.py:291-302 | a match spans at least the two fences and the newline |
| LlmService.ExtractFrom | src/services/llm_service.py:291-302 | each match spans at least seven characters, so there are at most a seventh as many blocks as characters scanned; every block has a non-empty language |
| LlmService.ExtractCode | src/services/llm_service.py:279-304 | the loop finds the same blocks as `finditer`, in order |
| LlmService.ScanAt | src/services/llm_service.py:291 | one attempt of the pattern at a position |
| LlmService.SkipUnmatched | src/services/llm_service.py:291 | positions where the pattern does not match add no block; scanning moves to the next position |
| LlmService.ProseUnmatched | src/services/llm_service.py:291 | no match starts in prose without three backticks in a row, not even one that runs into the block's opening fence |
| LlmService.CodeClear | src/services/llm_service.py:291 | no fence starts inside a code body without three backticks in a row that does not end in a backtick, so the lazy body stops at the block's own closing fence |
| LlmService.MatchAtBlock | src/services/llm_service.py:291-302 | a fenced block is matched where it starts, with language "text" for an empty tag |
| LlmService.ExtractCodeOfRendered | src/services/llm_service.py:279-304 | for blocks written out between prose, `extract_code` returns one block per fence, in order, with language "text" for an empty tag, whenever no prose, code body or trailing text holds three backticks in a row and no code body ends in a backtick |
| LlmService.InlineBackticksKept | src/services/llm_service.py:279-304 | inline code before a block and a single backtick inside its body leave the block as written |
| LlmService.ExtractLaidOut | src/services/llm_service.py:279-304 | the same, for blocks laid out from any position under the same conditions |
| LlmService.RenderedLaidOut | src/services/llm_service.py:291 | written-out blocks are laid out one after the other |
| LlmService.SliceFrom | src/services/llm_service.py:394 | Python's `s[start:]`, negative starts included |
| LlmService.Systems | src/services/llm_service.py:390 | only system messages, and no more than the history holds |
| LlmService.Others | src/services/llm_service.py:391 | only non-system messages, and no more than the history holds |
| LlmService.Trimmed | src/services/llm_service.py:388-396 | a history within the maximum is kept as it is; trimming never lengthens it |
| LlmService.SplitByRole | src/services/llm_service.py:390-391 | every message is either a system message or another message |
| LlmService.SystemsAppend | src/services/llm_service.py:390-391 | the role filters distribute over concatenation |
| LlmService.TrimKeepsSystems | src/services/llm_service.py:388-396 | trimming keeps every system message in order and keeps the most recent other messages |
| LlmService.TrimBound | src/services/llm_service.py:388-396 | when the maximum exceeds the number of system messages, an over-long history is cut to exactly the maximum |
| LlmService.TrimNotEnforcedAtSystemCount | src/services/llm_service.py:394 | when the system messages fill the maximum, `[-0:]` keeps everything |
| LlmService.ContextManager.constructor | src/services/llm_service.py:363-371 | the history starts empty |
| LlmService.ContextManager.AddMessage | src/services/llm_service.py:373-396 | the message is appended, then the history is trimmed when it is over the maximum |
| LlmService.ContextManager.GetConversationMessages | src/services/llm_service.py:398-406 | role and content of every entry, in order, without timestamps |
| LlmService.ContextManager.ClearConversation | src/services/llm_service.py:408-418 | only the system messages are kept, in order, or nothing is kept |
| LlmService.ClearKeepsExactlySystems | src/services/llm_service.py:408-418 | after clearing with keep_system, every entry is a system message and none is lost |
| QuestionTool.FirstUnanswered | src/tools/question_tool.py:45-47 | it gives the first unanswered question, or none when all are answered |
| QuestionTool.Answers | src/tools/question_tool.py:65-82 | there is at most one answer per question |
| QuestionTool.AnswersAreAnswered | src/tools/question_tool.py:65-82 | a record is returned if and only if its question is answered |
| QuestionTool.AnswersExactly | src/tools/question_tool.py:65-82 | every answered question has its record among the answers, and every answer is the record of an answered question |
| QuestionTool.AnswersAppend | src/tools/question_tool.py:72-82 | answers keep queue order |
| QuestionTool.AnswersOfNewQuestion | src/tools/question_tool.py:23-40 | adding a question adds no answer |
| QuestionTool.AnswersAfterAnswering | src/tools/question_tool.py:52-82 | answering inserts exactly that question's record, at its queue position |
| QuestionTool.HasUnansweredIffNext | src/tools/question_tool.py:42-86 | there is an unanswered question if and only if `get_next_question` can offer one |
| QuestionTool.QuestionManager.constructor | src/tools/question_tool.py:17-21 | the queue is empty, there is no current question and the counter is 0 |
| QuestionTool.QuestionManager.AddQuestion | src/tools/question_tool.py:23-40 | the next number, unanswered, at the end of the queue; earlier questions are kept |
| QuestionTool.QuestionManager.GetNextQuestion | src/tools/question_tool.py:42-50 | an empty slot takes the first unanswered question; a filled slot is returned unchanged, so repeated calls are idempotent |
| QuestionTool.QuestionManager.AnswerCurrentQuestion | src/tools/question_tool.py:52-63 | the current question is marked answered with the answer and the slot is cleared; without a current question nothing changes; no question is removed |
| QuestionTool.QuestionManager.GetAllAnswers | src/tools/question_tool.py:65-82 | at most one record per question: the record of every answered question and of no other |
| QuestionTool.QuestionManager.HasUnansweredQuestions | src/tools/question_tool.py:84-86 | true exactly when `get_next_question` has an unanswered question to offer |
| QuestionTool.AskAnswerAsk | src/tools/question_tool.py:23-86 | after answering the first of two questions, only it is answered and the second is next |
| QuestionTool.NormalizeCategory | src/tools/question_tool.py:91-112 | a known category is kept; anything else becomes "OTHERS" |
| QuestionTool.QuestionTool.constructor | src/tools/question_tool.py:99-100 | a new tool has an empty question manager |
| QuestionTool.QuestionTool.AskQuestion | src/tools/question_tool.py:102-113 | the question is queued under its normalised category |
| QuestionTool.QuestionTool.GetAnswers | src/tools/question_tool.py:115-122 | the record of every answered question of the manager and of no other, at most one per question |
| DataStorage.LoadConfig | src/services/data_storage.py:56-90 | the default settings when there is no file; {} when the file is unreadable or empty; otherwise the stored mapping |
| DataStorage.Lookup | src/services/data_storage.py:123-130 | a value is found only when the first segment names an entry of a mapping |
| DataStorage.LookupComposes | src/services/data_storage.py:123-130 | the walk goes one segment at a time: looking up a + b is looking up b in what a gives |
| DataStorage.Child | src/services/data_storage.py:148-155 | set_config descends into the mapping that get_config reads at that key, or into a fresh {} |
| DataStorage.LookupMissing | src/services/data_storage.py:123-130 | a missing segment or a non-mapping on the way gives None |
| DataStorage.SetPath | src/services/data_storage.py:145-159 | the first segment is set; other top-level keys are unchanged |
| DataStorage.GetAfterSet | src/services/data_storage.py:110-162 | after `set_config(key, v)`, `get_config(key)` is v |
| DataStorage.SetLeavesSiblings | src/services/data_storage.py:145-159 | set_config below an existing mapping leaves every path that leaves the key there unchanged |
| DataStorage.RemoveFirst | src/services/data_storage.py:191-192 | `list.remove` drops one occurrence of a listed name; otherwise the list is unchanged |
| DataStorage.RemoveFirstIsWithout | src/services/data_storage.py:191-192 | in a list without duplicates, removing the first occurrence removes the name entirely |
| DataStorage.MovedToFront | src/services/data_storage.py:188-197 | the opened name comes first, and there are at most ten entries |
| DataStorage.MovedToFrontProperties | src/services/data_storage.py:188-197 | a list without duplicates stays without duplicates; the other names keep their order; only the oldest are dropped |
| DataStorage.RecentAfterOpen | src/services/data_storage.py:188-197 | the update succeeds if and only if the recent entry is a list or absent; only "recent_projects" changes |
| DataStorage.RecentAfterDelete | src/services/data_storage.py:290-296 | without a recent list the config is kept; the update fails only for a recent entry that is not a list; only "recent_projects" may change |
| DataStorage.DeleteDropsName | src/services/data_storage.py:290-296 | deleting drops exactly the name and keeps the rest in order; other settings are unchanged |
| DataStorage.ReopenNewest | src/services/data_storage.py:188-197 | reopening the newest project leaves the list as it was |
| DataStorage.BaseStart | src/services/data_storage.py:356 | the base name starts after the last '/' |
| DataStorage.Basename | src/services/data_storage.py:356 | a base name contains no '/' |
| DataStorage.LastDot | src/services/data_storage.py:356 | it gives the last '.' of the name |
| DataStorage.StripExtension | src/services/data_storage.py:356 | the stem is a prefix of the base name |
| DataStorage.ImportName | src/services/data_storage.py:353-356 | the derived name contains no '/' |
| DataStorage.ImportNameOfFile | src/services/data_storage.py:353-356 | `dir/stem.ext` gives stem |
| DataStorage.ImportNameWithoutExtension | src/services/data_storage.py:353-356 | a name without a dot is kept as it is |
| DataStorage.DataStorageService.constructor | src/services/data_storage.py:25-54 | the configuration is what `_load_config` yields |
| DataStorage.DataStorageService.GetConfig | src/services/data_storage.py:110-132 | without a key, the whole configuration; otherwise the walk along the dot-separated segments |
| DataStorage.DataStorageService.SetConfig | src/services/data_storage.py:134-162 | the configuration becomes `SetPath` of the key and value; the call reports whether the config file was written |
| DataStorage.DataStorageService.OpenRecent | src/services/data_storage.py:188-198 | the recent list is updated as `RecentAfterOpen` says, after which `get_recent_projects` lists the name first; the configuration is kept when that update fails |
| DataStorage.DataStorageService.GetRecentProjects | src/services/data_storage.py:260-267 | the stored list, as `get_config("recent_projects")` reads it, or [] when there is none |
| DataStorage.DataStorageService.SaveProject | src/services/data_storage.py:164-203 | the project is stored; the method reports failure exactly when the list update raises |
| DataStorage.DataStorageService.LoadProject | src/services/data_storage.py:205-243 | an unknown project gives None; otherwise the stored data, after the list update |
| DataStorage.DataStorageService.DeleteProject | src/services/data_storage.py:269-301 | an unknown project gives false; otherwise the project is removed and the name dropped from the list |
| DataStorage.DataStorageService.ImportProject | src/services/data_storage.py:337-384 | a missing source gives false; otherwise the file is stored under the given or derived name and the list is updated |
| Common.Split | src/services/data_storage.py:123 | `str.split` always gives at least one piece |
| Common.SplitJoin | src/services/data_storage.py:123 | joining the pieces with the separator gives back the key, and no piece contains the separator |
| Common.SplitNoSeparator | src/core/code_structure_manager.py:320 | a path without the separator is one piece |
| Common.SplitAtFirst | src/core/code_structure_manager.py:320 | the text before the first separator is the first piece, and the rest is split on its own |
| Common.NatToString | src/core/agent_core.py:145 | `str(n)` is a non-empty run of decimal digits |
| Common.NatToStringInjective | src/core/agent_core.py:145 | different numbers print differently |
| Values.Truthy | src/core/agent_core.py:408 | None is false, and a dict or list is true exactly when it is non-empty |

## Left out

- Task objects are modelled as values. A caller that keeps a reference to a subtask and mutates it later is not captured. `start`, `complete`, `fail` and `add_subtask` return the updated task.
- FunctionDefinition and ProjectStructure objects are modelled as values, and the function dicts of `src/tools/code_structure.py` are values as well. Edits rebuild the tree along the index path of the edited function. Object identity and aliasing of returned definitions are not captured.
- Clock readings (`time.time()`) come from a clock given as a parameter: the i-th reading of a call is `clock(n + i)`, so every `time.time()` call of the source reads its own value, in call order. Timestamps are ordered only where the clock is assumed never to go backwards (`Monotone`). Handlers read no clock of their own.
- Execution handlers are a table from type to an outcome (a result or the text of a raised exception). Their side effects are not modelled.
- File, JSON, YAML and Jinja I/O are modelled as maps held by the objects that read and write them. A JSON or YAML write followed by a read is taken to be the identity. The following are not modelled:
  - MemoryManager's directory and `list_long_term_memories`;
  - `save_yaml`/`load_yaml` and `generate_code`;
  - YAMLSerializer and CodeGenerator;
  - the loading of template files;
  - ContextManager `save_conversation`/`load_conversation`;
  - DataStorage's cache, backup and export, and `list_projects`.
- `_load_config`: a config file whose content is not a mapping is not modelled. An unreadable or empty file is the `Unreadable` case. When there is no file, the default config is also written out; whether that write succeeds does not change the result, and it is not modelled.
- `_save_config` is modelled only through its outcome: DataStorage.DataStorageService.SetConfig takes whether the write succeeds as a parameter and returns it. The YAML dump itself is not modelled.
- LlmService.ExtractFrom: code bodies are returned as the regex captures them, without `strip()`. This follows `extract_code` at src/services/llm_service.py:297-301; the expectation of stripped code in tests/test_llm_service.py:179-181 does not match that code.
- `from_dict` on records that `to_dict` never writes: a field with a JSON type the source would carry along unchecked (a number as a name or description, say) is rejected with `Err`. The loops over "subtasks", "parameters" and "code_structure" are modelled as Python iterates: an empty string or dict gives nothing, a string under "code_structure" is skipped character by character, and string and list items are tested by `in`. A non-empty dict under "subtasks" or "parameters" is an `Err` whatever its keys, since its keys are strings that the record reader rejects; the order in which a dict hands over its keys is not modelled, as it changes no outcome.
- LlmService.PromptManager.PromptTemplate: covers only the lookup of `format_prompt`. The `str.format` substitution (and its KeyError for a missing argument) is not modelled.
- `extract_json` and `extract_list` (JSON parsing and regex lookahead) are not modelled.
- LLMConnector and LLMService (network calls) are not modelled.
- LlmService.ExtractCodeOfRendered: the round trip is stated for texts whose prose, code bodies and trailing text hold no three backticks in a row, and whose code bodies do not end in a backtick. Outside those texts the pattern can close a block early or match inside the prose, and the model states nothing about those texts.
- LlmService.ExtractLaidOut: the same condition, stated through `LaidOut` and `WellFormed` for blocks laid out from any position.
- LlmService.WordChar: `\w` is restricted to ASCII letters, digits and '_'. Python's Unicode word characters are not modelled.
- `show_structure` of `src/core/code_structure_manager.py` is not part of this model. Its source text is cut off in the middle of its body.
- The project name in `import_project` is derived as posix `os.path.basename` and `splitext`. Windows path separators are not modelled.
- `save_project`, `import_project` and `delete_project` are modelled with the project file operations themselves always succeeding. Only the exceptions raised by the recent-list update are modelled as a `false` result.
- Logging calls are not modelled.
