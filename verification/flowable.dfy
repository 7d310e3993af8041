/** The collaborators a flowable task relies on. Their implementations are not
    part of this model: each is a total, deterministic function value, so the
    proofs hold for every possible implementation. */
module Flowable {
  import opened Wrappers
  import opened Models

  /** The failure of rendering a template (an `IOException` in the source,
      rethrown unchecked). */
  datatype RenderError = RenderError(message: string)

  /** The run context, reduced to its template renderer. */
  datatype RunContext = RunContext(render: string -> Result<string, RenderError>)

  /** The shared helpers of `FlowableUtils`: binding tasks to a parent run,
      aggregating child states, and choosing the next sequential runs. */
  datatype FlowableUtils = FlowableUtils(
    resolveTasks: (seq<Task>, TaskRun) -> seq<ResolvedTask>,
    resolveState: (Execution, seq<ResolvedTask>, seq<ResolvedTask>, TaskRun) -> Option<StateType>,
    resolveSequentialNexts: (Execution, seq<ResolvedTask>, seq<ResolvedTask>, TaskRun) -> seq<TaskRun>
  )
}
