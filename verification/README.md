# facereclib GBU job graph, modelled in Dafny

This project models the part of facereclib's GBU face-verification script
that plans experiments and dispatches their work:

- how a list is cut into SGE array jobs: the array size and the index range of one slot;
- how `ToolChainExecutor.submit_grid_job` names a job, sizes its array and
  submits it, or only counts up a fake job id in a dry run;
- how `add_jobs_to_grid` submits the nine guarded stages of one protocol
  (preprocessing, extractor training, extraction, projector training,
  projection, enroller training, enrollment, score computation,
  concatenation) and which earlier jobs each stage waits for;
- how `execute_tool_chain` runs the same stages locally;
- how `execute_grid_job` maps a sub-task name to exactly one tool-chain
  operation or a `ValueError`;
- how `face_verify` runs one sub-task, or submits protocol after protocol to
  the grid (only the first protocol trains, and dry-run ids start 30 apart),
  or runs the protocols locally.

Modules:

- `Wrappers`: `Option` and `Result`.
- `Partition`: job arrays and slot index ranges.
- `Naming`: the default job name, the log sub-directory and the common parameter string.
- `Stages`: the stages, their sub-task names and keys, and which stages a run takes (`Plan`).
- `JobGraph`: the reference definition of what one protocol run submits: dependency lists, jobs and the stage-to-id map.
- `Executor`: the `ToolChainExecutor` class, the job manager and the tool chain.
- `GbuScript`: the entry point `face_verify`.

The executor is a class whose fields are updated as the Python object's
are (`commonParameters`, `fakeJobId`). The grid job manager and the tool
chain are classes whose state is the list of jobs handed to them and the
list of operations asked of them. What the executor reports for every
submission is kept in a ghost transcript, `Submissions`. Every method that
changes state is proved against the reference functions of `JobGraph` and
`Stages`. The lemmas next to those functions state the dependency, naming
and slicing properties.

Two behaviours of the code that are easy to misread:

- `indices` (facereclib/script/ToolChainExecutor.py:174-176) clamps the end of a slot's range to the list but not its start. A slot beyond the array therefore gives a range whose start lies past its end: 10 items at 3 per job, slot 5, gives (12, 10).
- `face_verify` (facereclib/script/faceverify_gbu.py:383-386 and 395) hands every protocol the same `external_dependencies`. The comment at line 383 and the unused `resulting_dependencies` at line 386 suggest that later protocols were meant to get dependencies of their own. As written, a later protocol's jobs wait on an earlier protocol only through the carried-over `'preprocessing'` id, not on its training jobs (`GbuScript.CrossProtocolDependencies`).

## Model

| member | source | states |
|---|---|---|
| Partition.JobArray | facereclib/script/ToolChainExecutor.py:156-159 | the array is (1, count, 1) and count is the ceiling of items / perJob: count * perJob covers every item, and one slot fewer would not |
| Partition.CeilingBounds | facereclib/script/ToolChainExecutor.py:158 | the integer form of the ceiling meets both ceiling bounds |
| Partition.Indices | facereclib/script/ToolChainExecutor.py:162-176 | without a task id the range is the whole list (0, len); the end never passes the list's end; a slot covers at most perJob items |
| Partition.SlotWithinList | facereclib/script/ToolChainExecutor.py:171-176 | a slot of the array gets a non-empty range inside the list, starting at (slot - 1) * perJob, of at most perJob items |
| Partition.SlotsTile | facereclib/script/ToolChainExecutor.py:156-176 | the slots of the array tile the list: the first starts at 0, each ends where the next starts, the last ends at len |
| Partition.IndexInExactlyOneSlot | facereclib/script/ToolChainExecutor.py:156-176 | every index of the list lies in exactly one slot's range, slot i / perJob + 1, and that slot is in the array |
| Partition.SlotBeyondArray | facereclib/script/ToolChainExecutor.py:171-176 | a slot beyond the array gets a range whose start is at or past len and whose end is at most len, so it covers nothing |
| Partition.ArraySize | facereclib/script/ToolChainExecutor.py:156-159 | a non-empty list that fits one slot gets one slot; the list is empty exactly when the array is |
| Partition.TenItemsThreePerSlot | facereclib/script/ToolChainExecutor.py:156-176 | 10 items at 3 per job give the array (1, 4, 1), slot 1 gives (0, 3), slot 4 gives (9, 10), slot 5 gives (12, 10), and no task id gives (0, 10) |
| Naming.FirstWord | facereclib/script/ToolChainExecutor.py:192 | the result is a prefix of the command without spaces, followed in the command by a space or by nothing |
| Naming.FirstWordOfPrefix | facereclib/script/ToolChainExecutor.py:192 | the first word of a word followed by a space and more text is that word |
| Naming.DropDoubleDashes | facereclib/script/ToolChainExecutor.py:192-193 | the result has no "--", is no longer than the input and keeps a first character that is not a dash |
| Naming.DropDoubleDashesNonDash | facereclib/script/ToolChainExecutor.py:192-193 | only dashes are removed: the characters other than dashes survive, in order |
| Naming.DashRunThen | facereclib/script/ToolChainExecutor.py:192-193 | a maximal run of k dashes followed by another character keeps k mod 2 dashes; that character stays and the rest is processed on its own |
| Naming.DashRunAtEnd | facereclib/script/ToolChainExecutor.py:192-193 | a run of k dashes at the end keeps k mod 2 dashes |
| Naming.SpacesToUnderscores | facereclib/script/ToolChainExecutor.py:193 | the result has no space, is at least as long as the input and has the same characters apart from spaces and underscores |
| Naming.SpacesToUnderscoresAppend | facereclib/script/ToolChainExecutor.py:193 | the replacement distributes over concatenation, so it works character by character |
| Naming.SpacesToUnderscoresChar | facereclib/script/ToolChainExecutor.py:193 | a space becomes "__" and every other character stays as it is |
| Naming.JobNaming | facereclib/script/ToolChainExecutor.py:190-196 | a given name is both the job name and the log sub-directory; a default name and log sub-directory have no space and no "--", and apart from dashes they are the command's first word and the command with spaces turned into "__" |
| Naming.PlainCommandNaming | facereclib/script/ToolChainExecutor.py:190-194 | a one-word command without "--" is its own default job name and log sub-directory |
| Naming.DropDoubleDashesIdempotent | facereclib/script/ToolChainExecutor.py:192-193 | removing "--" a second time changes nothing |
| Naming.DropDoubleDashesIdentity | facereclib/script/ToolChainExecutor.py:192-193 | a string without "--" is left unchanged |
| Naming.FirstWordOfOneWord | facereclib/script/ToolChainExecutor.py:192 | the first word of a string without a space is the string itself |
| Naming.SpacesToUnderscoresIdentity | facereclib/script/ToolChainExecutor.py:193 | a string without a space is left unchanged |
| Naming.JoinedParametersAppend | facereclib/script/ToolChainExecutor.py:96-98 | joining two parameter lists one after the other gives the join of their concatenation |
| Naming.JoinedParametersLength | facereclib/script/ToolChainExecutor.py:96-98 | the common parameter string has one space per parameter on top of the parameters' lengths and ends in a space |
| Stages.AllStages | facereclib/script/faceverify_gbu.py:141-237 | the nine stages in the order runs visit them, each at its rank |
| Stages.ParseSubTask | facereclib/script/faceverify_gbu.py:246-317 | a recognised name is the sub-task name of the stage returned; an unrecognised name is the sub-task name of no stage |
| Stages.ParseSubTaskName | facereclib/script/faceverify_gbu.py:246-317 | every stage's sub-task name, as submitted at lines 148-235, parses back to that stage |
| Stages.PreprocessingKey | facereclib/script/faceverify_gbu.py:145-147 | the carried-over id is looked up under the key that preprocessing stores its id under, and under no other stage's key |
| Stages.SubTaskNameIsOneWord | facereclib/script/faceverify_gbu.py:148-235 | every sub-task name is one non-empty word |
| Stages.CommandDispatches | facereclib/script/faceverify_gbu.py:139-237 | the first word of a stage's command is its sub-task name, which parses back to that stage |
| Stages.JobNameShape | facereclib/script/faceverify_gbu.py:149-237 | a training job's name is a fixed "?-train", the same in every protocol; every other name is a prefix of at least three characters, a dash and the protocol |
| Stages.JobNamesDistinct | facereclib/script/faceverify_gbu.py:149-237 | within one protocol the stages' job names, and so their log sub-directories, are distinct |
| Stages.SelectedGuards | facereclib/script/faceverify_gbu.py:141-233 | a skipped stage is never taken, a training stage only with the training pass, and a stage other than training and projection exactly when it is not skipped |
| Stages.SelectFrom | facereclib/script/faceverify_gbu.py:141-237 | a stage is taken exactly when it was visited and its guard holds: skip flag unset, training pass and capability for training stages, capability for projection |
| Stages.Plan | facereclib/script/faceverify_gbu.py:141-237 | a run takes at most nine stages, in strictly increasing stage order, and takes a stage exactly when its guard holds |
| Stages.SkipRemovesOnlyThatStage | facereclib/script/faceverify_gbu.py:141-237 | setting one more skip flag removes exactly that stage from a selection and keeps the rest in order |
| Stages.SkipInPlan | facereclib/script/faceverify_gbu.py:141-237 | the same for a whole run |
| Stages.TrainingStagesInPlan | facereclib/script/faceverify_gbu.py:160-202 | a training stage is taken only with the training pass, and then exactly when its flag is unset and the tool can train; projection exactly when its flag is unset and the tool projects |
| Stages.WithoutTraining | facereclib/script/faceverify_gbu.py:160-202 | keeps exactly the stages that are not training stages |
| Stages.NoTrainingDropsOnlyTraining | facereclib/script/faceverify_gbu.py:160-202 | leaving out the training pass removes exactly the training stages from a selection, in order |
| Stages.NoTrainingPlan | facereclib/script/faceverify_gbu.py:160-202 | a run without the training pass takes exactly the non-training stages of the run with it |
| Stages.SubmittedList | facereclib/script/faceverify_gbu.py:147-237 | a stage's array is sized by a list exactly when it is neither a training stage nor concatenation |
| Stages.SlicedList | facereclib/script/faceverify_gbu.py:246-313 | a stage's sub-task slices a list by slot exactly when it is neither a training stage nor concatenation |
| Stages.SubmittedVersusSlicedList | facereclib/script/faceverify_gbu.py:189-196 | submission and slicing use the same list for every stage except projection, whose array is sized by the feature list while its slots slice the preprocessed-image list (lines 275-281) |
| JobGraph.StageDependencies | facereclib/script/faceverify_gbu.py:136-237 | every dependency list starts with the external dependencies |
| JobGraph.TrainingInputs | facereclib/script/faceverify_gbu.py:137-199 | the training inputs are ids of earlier jobs of the run, at most one per job |
| JobGraph.TrainingInputsExactly | facereclib/script/faceverify_gbu.py:137-199 | an id is a training input exactly when it is the id of an earlier preprocessing, extraction or projection job |
| JobGraph.DependencyClosure | facereclib/script/faceverify_gbu.py:136-237 | a stage waits only for external dependencies, jobs submitted before it in the run and, for preprocessing only, the carried-over preprocessing id |
| JobGraph.TrainingWaitsOnlyForInputs | facereclib/script/faceverify_gbu.py:160-208 | a training stage waits for an earlier job of its run exactly when that job is a preprocessing, extraction or projection job |
| JobGraph.OtherStagesWaitForAllEarlier | facereclib/script/faceverify_gbu.py:141-237 | a non-training stage waits for every external dependency and every earlier job of the run; apart from preprocessing, for exactly those, in order |
| JobGraph.StageArray | facereclib/script/ToolChainExecutor.py:199-203 | a stage that splits a list gets the fewest slots of its chunk size that hold the whole list; any other stage gets a single slot |
| JobGraph.ExpectedRunJobs | facereclib/script/faceverify_gbu.py:147-237 | the j-th submission of a run carries the j-th id, is named after its stage with the name also as log sub-directory, waits for the external dependencies, its command dispatches back to its stage, and its array is its stage's `StageArray` over the run's list lengths |
| JobGraph.ExpectedRunAt | facereclib/script/faceverify_gbu.py:136-237 | the j-th submission waits for exactly what its stage prescribes after the j stages before it |
| JobGraph.KeyInjective | facereclib/script/faceverify_gbu.py:147-234 | distinct stages store their ids under distinct keys |
| JobGraph.StageIdMap | facereclib/script/faceverify_gbu.py:147-234 | the returned map's keys are exactly the keys of the submitted stages |
| JobGraph.StageIdMapAt | facereclib/script/faceverify_gbu.py:147-234 | each submitted stage's key maps to that stage's job id |
| JobGraph.MergedIds | facereclib/script/faceverify_gbu.py:130-240 | the returned map keeps every key it was given; a value changes only under a submitted stage's key, which then holds that stage's id |
| Executor.SubTaskOperation | facereclib/script/faceverify_gbu.py:243-317 | a recognised sub-task performs its own stage, sliced exactly when the stage splits a list, over the whole list without a task id; otherwise a `ValueError` carrying the unformatted message |
| Executor.SubTaskKnown | facereclib/script/faceverify_gbu.py:243-317 | a sub-task succeeds exactly when it names one of the nine stages |
| Executor.SubTaskOperationOf | facereclib/script/faceverify_gbu.py:243-317 | the sub-task named after a stage performs that stage over `indices` of the list it slices, or without indices for the stages that do not split a list |
| Executor.WholeListOperations | facereclib/script/faceverify_gbu.py:39-125 | the local run of a stage list performs each stage over its whole list, in order |
| Executor.JobManager.Submit | facereclib/script/ToolChainExecutor.py:210-216 | the job manager records the job; nothing is promised about the id |
| Executor.ToolChain.Perform | facereclib/script/faceverify_gbu.py:243-313 | the tool chain records the operation |
| Executor.ToolChainExecutor.constructor | facereclib/script/faceverify_gbu.py:14-23 | the executor keeps the options, the protocol, the list lengths of the file selector built for that protocol, the tool chain and the job manager, and starts with no submissions |
| Executor.ToolChainExecutor.SetCommonParameters | facereclib/script/ToolChainExecutor.py:89-101 | the common parameters are every parameter followed by a space, and the dry-run counter starts at the given id |
| Executor.ToolChainExecutor.SubmitGridJob | facereclib/script/ToolChainExecutor.py:179-220 | the job gets the default or given name and log sub-directory, an array sized by its list or (1, 1, 1) without one; a dry run returns the counter plus one, advances the counter by one and leaves the job manager alone; a real run hands the job to the job manager and leaves the counter alone |
| Executor.ToolChainExecutor.SubmitStage | facereclib/script/faceverify_gbu.py:141-237 | one taken stage is submitted with its command, name, array and the dependency list it is passed; the run then matches the reference run extended by that stage, and the running lists and the id map are extended by its id |
| Executor.ToolChainExecutor.Finished | facereclib/script/faceverify_gbu.py:130-240 | after all nine stages the stages taken are the run's plan and the submissions are the reference run |
| Executor.ToolChainExecutor.AddStage | facereclib/script/faceverify_gbu.py:141-230 | one guarded stage (not concatenation) submits exactly when its guard holds, with the dependency list the reference prescribes, and updates both running dependency lists and the id map as the reference does |
| Executor.ToolChainExecutor.AddFirstStages | facereclib/script/faceverify_gbu.py:141-187 | the first four stages keep the executor in step with the reference run |
| Executor.ToolChainExecutor.AddConcatenation | facereclib/script/faceverify_gbu.py:233-240 | the last stage completes the reference run of the plan |
| Executor.ToolChainExecutor.AddStages | facereclib/script/faceverify_gbu.py:136-240 | the nine stages in order add exactly the reference run of the plan |
| Executor.ToolChainExecutor.AddJobsToGrid | facereclib/script/faceverify_gbu.py:130-240 | the executor submits exactly the reference run of the plan, in stage order, each job with its reference dependency list; the returned map is the given map updated with the submitted stages' ids; a dry run numbers the jobs consecutively from the counter plus one and leaves the job manager alone; a real run hands it every job in order |
| Executor.ToolChainExecutor.RunStage | facereclib/script/faceverify_gbu.py:41-125 | one guarded stage runs exactly when its guard holds, as a whole-list operation unless it is a dry run |
| Executor.ToolChainExecutor.ExecuteToolChain | facereclib/script/faceverify_gbu.py:39-125 | the local run takes exactly the stages of the plan, in order; a dry run asks nothing of the tool chain, otherwise each stage is performed once over its whole list |
| Executor.ToolChainExecutor.ExecuteGridJob | facereclib/script/faceverify_gbu.py:243-317 | a recognised sub-task performs exactly its one operation; any other name raises the `ValueError` and performs nothing |
| GbuScript.ProtocolRun | facereclib/script/faceverify_gbu.py:389-396 | the `k`-th protocol's reference run has one submission per stage of its plan, carrying the ids it was given (its jobs are sized by that protocol's own lists: `GbuScript.ProtocolArrays`) |
| GbuScript.ProtocolArrays | facereclib/script/faceverify_gbu.py:141-237 | the `j`-th job of the `k`-th protocol is named after its stage and that protocol, and its array is the ceiling array of its stage's list in the `k`-th protocol's own file selector (`args.lists(args.protocols[k])`), or a single job for a stage without a list |
| GbuScript.FakeIds | facereclib/script/faceverify_gbu.py:388-401 | each protocol's dry-run block has one id per stage of its plan |
| GbuScript.OnlyFirstProtocolTrains | facereclib/script/faceverify_gbu.py:387-399 | every later protocol takes exactly the first protocol's non-training stages, in order, and no training stage |
| GbuScript.FakeIdsInBlock | facereclib/script/faceverify_gbu.py:388-401 | each protocol's dry-run ids lie strictly inside its own block of 30 |
| GbuScript.FakeIdsApart | facereclib/script/faceverify_gbu.py:388-401 | dry-run ids never collide: every id of a later protocol is above every id of an earlier one, and all are above the given start |
| GbuScript.PreprocessingChain | facereclib/script/faceverify_gbu.py:141-153 | with the map carried from protocol to protocol at line 396: when preprocessing is run, it comes first in each protocol and waits for the external dependencies, plus the previous protocol's preprocessing job from the second protocol on |
| GbuScript.InheritedAfter | facereclib/script/faceverify_gbu.py:145-147 | after `k` protocols that preprocess, the carried-over preprocessing id is the last protocol's |
| GbuScript.NoPreprocessingNoChain | facereclib/script/faceverify_gbu.py:141-147 | with preprocessing skipped no preprocessing id is carried over, so no protocol waits for another |
| GbuScript.IdsAfterLast | facereclib/script/faceverify_gbu.py:395-396 | after a protocol, its ids win under the keys of its stages; every other key keeps the value collected before |
| GbuScript.CrossProtocolDependencies | facereclib/script/faceverify_gbu.py:383-396 | a grid job waits only for the external dependencies, for earlier jobs of its own protocol and, as the first job of a later protocol, for the previous protocol's first (preprocessing) job |
| GbuScript.GridLocalParity | facereclib/script/faceverify_gbu.py:389-412 | the grid run and the local run of a protocol take the same stages in the same order; both sides are read off the same `ProtocolPlan`, so this holds by construction, and the parity of the code itself comes from `AddJobsToGrid` and `ExecuteToolChain` both being proved against `Plan` |
| GbuScript.FaceVerify | facereclib/script/faceverify_gbu.py:356-415 | a sub-task performs its one operation over the lists of the protocol `args.protocol` names, or fails with its `ValueError`, and returns the empty result; the grid branch returns the merged id map of all protocols' reference runs and keeps dry-run ids in their blocks; the local branch runs every protocol's plan and returns the empty result; neither the sub-task nor the local branch submits anything |
| GbuScript.SubmitProtocols | facereclib/script/faceverify_gbu.py:384-403 | protocol after protocol, the `k`-th submits its reference run with training only when k = 0, dry-run ids counted from start + 30k, and the id map merged so far; the tool chain is not touched |
| GbuScript.SubmitNextProtocol | facereclib/script/faceverify_gbu.py:389-401 | one more protocol extends the ids, the runs, the merged map and the job manager's jobs by that protocol's reference run |
| GbuScript.SubmitProtocol | facereclib/script/faceverify_gbu.py:391-396 | one protocol's executor, built with that protocol's list lengths, submits its reference run in the context of the map collected so far |
| GbuScript.RunProtocolsLocally | facereclib/script/faceverify_gbu.py:404-415 | protocol after protocol runs its plan locally, only the first with training, and nothing is submitted |
| GbuScript.RunProtocolLocally | facereclib/script/faceverify_gbu.py:407-412 | one protocol's local run adds exactly its whole-list operations, unless it is a dry run |

## Left out

- Printing, logging and the "would have ..." messages are not modelled. The executor's ghost `Submissions` transcript stands for what a dry run prints.
- Not modelled: file paths, the executable path, the temp directory and the log directory paths. The log sub-directory name is modelled.
- Command-line parsing, configuration loading (`imp.load_source`), `main` and the protocol-specific configuration are outside the model. `Args` and `Config` hold their outcome. `Args.subTask` is never `Some("")`: the parser only accepts the nine sub-task names (facereclib/script/faceverify_gbu.py:347-348), so the model's `args.subTask.Some?` takes the same branch as the truthiness test of `args.sub_task` at line 367.
- gridtk's job ids are opaque: `JobManager.Submit` promises nothing about the id it returns. The queue keyword arguments are not modelled.
- Failures of the job manager are not modelled: `JobManager.Submit` never fails. In the source an exception from `job_manager.submit` (facereclib/script/ToolChainExecutor.py:211) propagates, so the rest of `add_jobs_to_grid` and all later protocols are not submitted.
- Failures of the tool chain are not modelled: `ToolChain.Perform` never fails. In the source an exception from a tool-chain call (facereclib/script/faceverify_gbu.py:46-127) aborts the remaining stages and, through the loop at lines 407-412, the remaining protocols.
- The tool chain's work (preprocessing, training, extraction, projection, enrollment, scoring, concatenation) is not modelled. A call is an `Operation` recorded by `ToolChain.Perform`: the stage and the index range. Options such as `force`, `groups`, `compute_zt_norm` and `preload_probes` are left out.
- Partition.JobArray: computes the ceiling exactly in integers. The source divides in floating point, which can round wrongly only for lists far larger than any database.
- Partition.JobArray: the source raises ZeroDivisionError for 0 files per job. For a negative number of files per job it raises nothing: `int(math.ceil(...))` at facereclib/script/ToolChainExecutor.py:158 gives a count of 0 or less, and that array is handed to the job manager. The model excludes both cases with `perJob >= 1`, and `ChunksValid` and `GridChunksValid` demand it of each stage a run submits.
- Partition.Indices: the `SGE_TASK_ID` environment variable is a parameter (`slot`). A value that `int()` cannot parse is not modelled.
- The list lengths of each protocol's file selector and the chunk sizes of the grid configuration are inputs: `Args.lists` gives the `ListLengths` of the file selector built for a protocol name (facereclib/script/faceverify_gbu.py:19-22), and `Config.chunks` the `ChunkSizes`. Every grid executor gets its own protocol's lengths; a sub-task's executor gets those of the protocol that `--protocol` names (`args.lists(args.protocol)`), which every submitted command passes (line 139). The lists themselves, and the per-protocol directories such as `models_dir` (line 36), are not modelled. `GridChunksValid` demands positive chunk sizes only when there is a protocol to submit.
- The capability checks are inputs (`Capabilities`). These are `hasattr(self.m_extractor, 'train')`, `hasattr(self.m_tool, 'train_projector')`, `'train_enroller'` and `'project'`.
- The missing `m_extractor` attribute is not modelled: the model reads `self.m_extractor` as the configured feature extractor. The base class sets only `m_feature_extractor` (facereclib/script/ToolChainExecutor.py:34), and nothing in the script assigns `m_extractor`, so as written every evaluation of `self.m_extractor` raises `AttributeError`:
  - in `add_jobs_to_grid` at facereclib/script/faceverify_gbu.py:160, for the protocol that trains, unless extractor training is skipped; preprocessing has already been submitted by then (lines 141-153), and nothing after it is;
  - in `execute_tool_chain` at facereclib/script/faceverify_gbu.py:51, for the protocol that trains, unless extractor training is skipped; outside a dry run also at the tool-chain calls of lines 65, 76, 85, 95 and 104 (extraction, projector training, projection, enroller training and enrollment); the call at line 56 is only reached after line 51 has already raised;
  - in `execute_grid_job` at facereclib/script/faceverify_gbu.py:255-293, for six of the nine sub-tasks: `train-extractor`, `extract`, `train-projector`, `project`, `train-enroller` and `enroll`.
- The sub-task flag is not modelled. The submitted command passes `--execute-sub-task` while the parser defines `--sub-task`. The model treats the submitted sub-task name as the one `execute_grid_job` receives.
- Executor.ToolChainExecutor.AddJobsToGrid: the body of `add_jobs_to_grid` is split into `AddFirstStages`, `AddStage`, `AddStages` and `AddConcatenation`, to keep each proof small. The order and the guards are unchanged.
- GbuScript.FaceVerify: its grid and local branches are split into `SubmitProtocols`, `SubmitNextProtocol`, `SubmitProtocol`, `RunProtocolsLocally` and `RunProtocolLocally`, for the same reason.
- Python passes the running `deps` list to the job manager by reference and appends to it afterwards. The model treats the job manager as copying the list when it records a job, so that aliasing is not modelled.
- The empty list that `face_verify` returns in its sub-task and local branches is modelled as the empty map.
- Each protocol gets a new executor (facereclib/script/faceverify_gbu.py:391 and 409). Each executor builds its own tool chain (faceverify_gbu.py:23) and, in `set_common_parameters`, its own gridtk `JobManager` over the same state file `args.gridtk_db` (facereclib/script/ToolChainExecutor.py:108). The model passes one `JobManager` to every executor. It stands for that shared submission database. Likewise, one `ToolChain` stands for the local work of all protocols. The global `parameters` is a parameter of the model.
