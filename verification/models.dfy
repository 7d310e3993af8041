/** The value types of the execution engine that the two modelled components
    read and produce: task definitions, task runs, executions and the
    executor record that travels through the stream. */
module Models {
  import opened Wrappers

  /** Progress of a task run or of an execution, named as in the source's
      `State.Type` enumeration. */
  datatype StateType = CREATED | RUNNING | SUCCESS | WARNING | FAILED | KILLED

  /** A task definition; only its id matters to the modelled code, the
      type-specific fields of the other task kinds are not modelled. */
  datatype Task = Task(id: string)

  /** One attempt of a task inside an execution. A `None` parent or value
      stands for a Java `null`. */
  datatype TaskRun = TaskRun(
    id: string,
    taskId: string,
    parentTaskRunId: Option<string>,
    value: Option<string>,
    state: StateType
  )

  /** A task bound to the run of the flowable task that owns it. */
  datatype ResolvedTask = ResolvedTask(task: Task, parentTaskRun: TaskRun)

  /** A flow definition, referenced by id. */
  datatype Flow = Flow(id: string)

  /** One run of a flow: its task runs in creation order and its overall state. */
  datatype Execution = Execution(id: string, flowId: string, taskRunList: seq<TaskRun>, state: StateType)

  /** The record handed from stage to stage of the executor stream: the
      execution, its flow, the task runs proposed next, and the names of the
      stages that changed the execution. */
  datatype Executor = Executor(flow: Flow, execution: Execution, nexts: seq<TaskRun>, from: seq<string>) {

    /** Replaces the execution and records which stage produced it. */
    function WithExecution(newExecution: Execution, stage: string): Executor {
      this.(execution := newExecution, from := from + [stage])
    }
  }
}
