# Kestra: Switch branch selection and the deduplicating executor stage

This project models two decision procedures of the Kestra workflow engine and
proves properties of them in Dafny.

- **Switch** (`SwitchTask`, `switch.dfy`). A flowable task that renders its
  `value` template, selects the task list of the case whose key equals the
  rendered string (or its `defaults` when no key does), hands that list and its
  own error handlers to the shared `FlowableUtils` helpers to compute its state
  and its next runs, and reports the rendered value and a `defaults` flag.
- **ExecutorProcessTransformer** (`ExecutorProcess`, `executor_process.dfy`).
  The stream stage that applies newly computed next task runs at most once. It
  keeps, per execution key, the list of identities
  (`parentTaskRunId-taskId-value`) of the next runs already accepted. A batch
  that contains any already-recorded identity is dropped whole. Otherwise all
  of its identities are appended and `onNexts` folds the batch into the
  execution.

Supporting modules: `Wrappers` (`Option` for Java `null`, `Result` for
exceptions), `Models` (task runs, executions, the `Executor` record) and
`Flowable` (the run context's renderer and the `FlowableUtils` helpers).

The collaborators are function-valued fields: `RunContext.render`,
`FlowableUtils.resolveTasks/resolveState/resolveSequentialNexts`, and
`AbstractExecutor.process/onNexts`. They are total and deterministic
functions of their arguments. Being values, they cannot modify the objects
they are given; "## Left out" says what this assumes of the Java. Beyond
that, the properties hold for any implementation of them. The keyed state
store is an explicit `map<string, seq<string>>` passed in and returned.

Points where the model follows the code closely:

- `childTasks` calls the renderer inside its entry filter. With an empty
  `cases` map the renderer is never called. The defaults are then selected
  even when the template would fail to render. `outputs` always renders.
- A batch is all-or-nothing. One duplicate identity drops the batch, including
  identities not yet seen. When the batch is accepted, `onNexts` receives every
  next run. A reading in which only the new runs are recorded and applied is
  not what the code does, and the model does not do it.
- The store entry is a list, and membership is tested against the loaded list
  only. A batch that repeats an identity not yet stored appends both copies.

## Model

| member | source | states |
|---|---|---|
| SwitchTask.RendererValue | core/src/main/java/org/kestra/core/tasks/flows/Switch.java:34-40 | Rendering succeeds exactly when the renderer does, with the rendered string. A render error is not swallowed: it is rethrown as an unchecked exception whose cause is the render error. |
| SwitchTask.SelectBranch | core/src/main/java/org/kestra/core/tasks/flows/Switch.java:44-51 | With no cases the defaults are selected, without rendering. With cases, the case of the rendered value is selected iff the value is a key, and the defaults iff it is not. Selection fails exactly when there is a case and rendering fails. A selected case key is always a key of `cases`. |
| SwitchTask.ChildTasks | core/src/main/java/org/kestra/core/tasks/flows/Switch.java:34-52 | If the rendered value is a key of `cases`, the result is that key's tasks resolved against the parent run. If it is not a key, or there are no cases at all, the result is the defaults resolved against the parent run. The result is a render failure exactly when there is a case and rendering fails, and that failure carries the renderer's error as its cause. |
| SwitchTask.ResolveState | core/src/main/java/org/kestra/core/tasks/flows/Switch.java:54-62 | The state helper receives exactly the selected case's tasks (or the defaults), plus the switch's `errors`, both resolved against the same parent run. A render failure is propagated under the same conditions as for the children. |
| SwitchTask.ResolveNexts | core/src/main/java/org/kestra/core/tasks/flows/Switch.java:64-72 | The sequential-nexts helper receives exactly the selected case's tasks (or the defaults), plus the switch's `errors`, both resolved against the same parent run. Render failures propagate as for the children. |
| SwitchTask.Outputs | core/src/main/java/org/kestra/core/tasks/flows/Switch.java:74-90 | A render failure is the result. Otherwise the output value is the rendered value, and the `defaults` flag is true iff the rendered value is not a key of `cases`. |
| SwitchTask.NoneMatch | core/src/main/java/org/kestra/core/tasks/flows/Switch.java:78-81 | The entry-by-entry test "no key equals the rendered value" holds iff the rendered value is not a key of `cases`. |
| SwitchTask.DefaultsFlagAgreesWithSelection | core/src/main/java/org/kestra/core/tasks/flows/Switch.java:44-81 | Whenever the outputs are computed, the branch selection succeeds. The flag is false exactly when a case branch was selected. The children are then that case's tasks when the flag is false and the defaults when it is true. |
| SwitchTask.RenderFailurePropagates | core/src/main/java/org/kestra/core/tasks/flows/Switch.java:34-40 | A render failure is never treated as "no match". The unchecked exception wrapping it is the result of `outputs`. When there is at least one case, it is also the result of the children, the state and the nexts. |
| SwitchTask.ExampleSwitch | core/src/main/java/org/kestra/core/tasks/flows/Switch.java:42-83 | For cases {"1": [t1]}, defaults [t2] and a value rendering to "1", the children are [t1] resolved against the parent run and the output is ("1", false). When the value renders to "2", the children are the defaults [t2] resolved against the parent run and the output is ("2", true). |
| ExecutorProcess.Load | runner-kafka/src/main/java/io/kestra/runner/kafka/streams/ExecutorProcessTransformer.java:42 | An identity is in the loaded list iff the key has an entry and that entry holds it; an absent entry holds nothing. |
| ExecutorProcess.Identity | runner-kafka/src/main/java/io/kestra/runner/kafka/streams/ExecutorProcessTransformer.java:46 | The identity starts with the parent run id (or "null") and a dash. Its length is the parent part, the task id and the value part (or "null") plus two dashes. |
| ExecutorProcess.IdentityOfRecomputedRun | runner-kafka/src/main/java/io/kestra/runner/kafka/streams/ExecutorProcessTransformer.java:46 | A run's identity does not depend on its run id or state, so a recomputed next run has the same identity. A null parent id renders as a leading "null-", and a null value as a trailing "-null". |
| ExecutorProcess.Identities | runner-kafka/src/main/java/io/kestra/runner/kafka/streams/ExecutorProcessTransformer.java:44-46 | There is one identity per next run, in the order of the nexts. |
| ExecutorProcess.PartitionBy | runner-kafka/src/main/java/io/kestra/runner/kafka/streams/ExecutorProcessTransformer.java:44-47 | The two groups together are a permutation of the identities. Every duplicate is in the stored list and every other identity is not. When there are no duplicates, the second group is the identity list itself, in order. |
| ExecutorProcess.DuplicatesIffReplay | runner-kafka/src/main/java/io/kestra/runner/kafka/streams/ExecutorProcessTransformer.java:44-49 | The duplicate group is non-empty iff some next run's identity is already in the stored list. |
| ExecutorProcess.Transform | runner-kafka/src/main/java/io/kestra/runner/kafka/streams/ExecutorProcessTransformer.java:36-67 | With no nexts, the input executor and the store are returned unchanged. If any next's identity is already stored for the key, the result is the same, even when other nexts are new. Otherwise the key's list becomes the old list (empty if absent) followed by all identities in order. The forwarded executor is then the input with its execution replaced by `onNexts(flow, execution, nexts)` over the full nexts list. |
| ExecutorProcess.TransformFramesOtherKeys | runner-kafka/src/main/java/io/kestra/runner/kafka/streams/ExecutorProcessTransformer.java:42-58 | Entries for keys other than the processed key are neither added, removed nor changed. |
| ExecutorProcess.TransformStoreGrows | runner-kafka/src/main/java/io/kestra/runner/kafka/streams/ExecutorProcessTransformer.java:57-58 | The key's old list is a prefix of its new list. |
| ExecutorProcess.TransformIdempotent | runner-kafka/src/main/java/io/kestra/runner/kafka/streams/ExecutorProcessTransformer.java:42-58 | Replaying the same input on the store left by the first step forwards the input unchanged and leaves that store as it was. |
| ExecutorProcess.RedeliveryIsNoOp | runner-kafka/src/main/java/io/kestra/runner/kafka/streams/ExecutorProcessTransformer.java:42-58 | However many times the same input is redelivered after its first processing, each redelivery forwards the input unchanged, and the store stays as the first processing left it. |
| ExecutorProcess.AbsentEntryActsAsEmpty | runner-kafka/src/main/java/io/kestra/runner/kafka/streams/ExecutorProcessTransformer.java:42 | An absent entry for the key and an empty entry give the same forwarded executor and the same list for the key afterwards. |

## Left out

- `ui/src/filters.js`: presentation filters over date and duration libraries that are not part of this model.
- Stream plumbing (`init`, `close`, the state-store lookup from the processor context): the store is passed in and returned explicitly.
- The trace logging of duplicate identities: it has no observable effect.
- `AbstractExecutor.process`, `AbstractExecutor.onNexts` and `Executor.withExecution` are taken to leave their arguments unmodified. The Java passes the mutable input executor to `process` and then returns that same object when nothing is applied. The "input unchanged" results of `Transform`, `TransformIdempotent` and `RedeliveryIsNoOp` hold of the Java only under this assumption.
- The internals of `FlowableUtils.resolveTasks/resolveState/resolveSequentialNexts`, `AbstractExecutor.process/onNexts` and `RunContext.render`: their sources are not part of this model. They are uninterpreted, deterministic function values.
- `Executor.withExecution`: its source is not part of this model. It is taken to replace the execution and record the stage name "onNexts".
- Null `cases`, `defaults` or `errors`: `cases` is a total map and the task lists are sequences.
- Lombok builders, equality, serialization and `serialVersionUID`.
- Identity collisions when ids contain "-": the code makes no promise about them, and the model states none.
- Task definitions keep only their id. The fields of the other task types are not used by the modelled code.
