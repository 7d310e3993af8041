/** The `Switch` flowable task: renders its `value` template, runs the tasks
    of the case whose key equals the rendered string, or its `defaults` when
    no key does, and reports the rendered value and whether `defaults` ran. */
module SwitchTask {
  import opened Wrappers
  import opened Models
  import opened Flowable

  /** A switch task: its id and error handlers (common to every task), the
      template whose rendering picks the branch, the branches by key, and the
      fallback branch. */
  datatype Switch = Switch(
    id: string,
    errors: seq<Task>,
    value: string,
    cases: map<string, seq<Task>>,
    defaults: seq<Task>
  )

  /** The branch a switch selects: one of its case keys, or its defaults. */
  datatype Branch = Case(key: string) | Defaults

  /** What a switch reports once it has run. */
  datatype Output = Output(value: string, defaults: bool)

  /** The unchecked exception a switch raises when its template cannot be
      rendered; it carries the renderer's error as its cause. */
  datatype SwitchError = RuntimeException(cause: RenderError)

  /** The `value` template rendered against the run context. A render error
      is not swallowed: it is rethrown unchecked, with the render error as
      its cause. */
  function RendererValue(sw: Switch, ctx: RunContext): (r: Result<string, SwitchError>)
    ensures r.Success? <==> ctx.render(sw.value).Success?
    ensures r.Success? ==> r.value == ctx.render(sw.value).value
    ensures r.Failure? ==> r.error.cause == ctx.render(sw.value).error
  {
    match ctx.render(sw.value)
    case Success(rendered) => Success(rendered)
    case Failure(e) => Failure(RuntimeException(e))
  }

  /** The entry filter and `findFirst` of `childTasks`. The renderer is
      called from inside the filter, so it runs only when there is at least
      one case to compare; with no cases, the defaults are chosen without
      rendering. */
  function SelectBranch(sw: Switch, ctx: RunContext): (r: Result<Branch, SwitchError>)
    ensures r.Success? && r.value.Case? ==> r.value.key in sw.cases
    ensures |sw.cases| == 0 ==> r == Success(Defaults)
    ensures var v := ctx.render(sw.value);
      |sw.cases| > 0 && v.Success? ==>
        && (r == Success(Case(v.value)) <==> v.value in sw.cases)
        && (r == Success(Defaults) <==> v.value !in sw.cases)
    ensures r.Failure? <==> |sw.cases| > 0 && ctx.render(sw.value).Failure?
    ensures r.Failure? ==> r.error == RuntimeException(ctx.render(sw.value).error)
  {
    if |sw.cases| == 0 then Success(Defaults)
    else
      var rendered :- RendererValue(sw, ctx);
      Success(if rendered in sw.cases then Case(rendered) else Defaults)
  }

  /** The task list of a branch. */
  function BranchTasks(sw: Switch, branch: Branch): seq<Task>
    requires branch.Case? ==> branch.key in sw.cases
  {
    match branch
    case Case(key) => sw.cases[key]
    case Defaults => sw.defaults
  }

  /** The selected task list, bound to the parent run. */
  function ChildTasks(sw: Switch, ctx: RunContext, utils: FlowableUtils, parentTaskRun: TaskRun): (r: Result<seq<ResolvedTask>, SwitchError>)
    ensures var v := ctx.render(sw.value);
      v.Success? && v.value in sw.cases ==> r == Success(utils.resolveTasks(sw.cases[v.value], parentTaskRun))
    ensures var v := ctx.render(sw.value);
      (v.Success? && v.value !in sw.cases) || |sw.cases| == 0 ==> r == Success(utils.resolveTasks(sw.defaults, parentTaskRun))
    ensures r.Failure? <==> |sw.cases| > 0 && ctx.render(sw.value).Failure?
    ensures r.Failure? ==> r.error == RuntimeException(ctx.render(sw.value).error)
  {
    var branch :- SelectBranch(sw, ctx);
    Success(utils.resolveTasks(BranchTasks(sw, branch), parentTaskRun))
  }

  /** The switch's state, aggregated by the shared helper over the selected
      children and the switch's own error handlers. */
  function ResolveState(sw: Switch, ctx: RunContext, utils: FlowableUtils, execution: Execution, parentTaskRun: TaskRun): (r: Result<Option<StateType>, SwitchError>)
    ensures var v := ctx.render(sw.value);
      v.Success? && v.value in sw.cases ==>
        r == Success(utils.resolveState(execution, utils.resolveTasks(sw.cases[v.value], parentTaskRun),
                                        utils.resolveTasks(sw.errors, parentTaskRun), parentTaskRun))
    ensures var v := ctx.render(sw.value);
      (v.Success? && v.value !in sw.cases) || |sw.cases| == 0 ==>
        r == Success(utils.resolveState(execution, utils.resolveTasks(sw.defaults, parentTaskRun),
                                        utils.resolveTasks(sw.errors, parentTaskRun), parentTaskRun))
    ensures r.Failure? <==> |sw.cases| > 0 && ctx.render(sw.value).Failure?
    ensures r.Failure? ==> r.error == RuntimeException(ctx.render(sw.value).error)
  {
    var children :- ChildTasks(sw, ctx, utils, parentTaskRun);
    Success(utils.resolveState(execution, children, utils.resolveTasks(sw.errors, parentTaskRun), parentTaskRun))
  }

  /** The next runs, chosen sequentially by the shared helper over the
      selected children and the switch's own error handlers. */
  function ResolveNexts(sw: Switch, ctx: RunContext, utils: FlowableUtils, execution: Execution, parentTaskRun: TaskRun): (r: Result<seq<TaskRun>, SwitchError>)
    ensures var v := ctx.render(sw.value);
      v.Success? && v.value in sw.cases ==>
        r == Success(utils.resolveSequentialNexts(execution, utils.resolveTasks(sw.cases[v.value], parentTaskRun),
                                                  utils.resolveTasks(sw.errors, parentTaskRun), parentTaskRun))
    ensures var v := ctx.render(sw.value);
      (v.Success? && v.value !in sw.cases) || |sw.cases| == 0 ==>
        r == Success(utils.resolveSequentialNexts(execution, utils.resolveTasks(sw.defaults, parentTaskRun),
                                                  utils.resolveTasks(sw.errors, parentTaskRun), parentTaskRun))
    ensures r.Failure? <==> |sw.cases| > 0 && ctx.render(sw.value).Failure?
    ensures r.Failure? ==> r.error == RuntimeException(ctx.render(sw.value).error)
  {
    var children :- ChildTasks(sw, ctx, utils, parentTaskRun);
    Success(utils.resolveSequentialNexts(execution, children, utils.resolveTasks(sw.errors, parentTaskRun), parentTaskRun))
  }

  /** True when no case key equals `rendered`, tested key by key over the
      entries; this is exactly "`rendered` is not a key". */
  function NoneMatch(sw: Switch, rendered: string): (none: bool)
    ensures none <==> rendered !in sw.cases
  {
    forall key :: key in sw.cases ==> key != rendered
  }

  /** The rendered value and whether the defaults were taken. Unlike
      `ChildTasks`, this always renders, whether or not there are cases. */
  function Outputs(sw: Switch, ctx: RunContext, execution: Execution, parentTaskRun: TaskRun): (r: Result<Output, SwitchError>)
    ensures ctx.render(sw.value).Failure? ==> r == Failure(RuntimeException(ctx.render(sw.value).error))
    ensures ctx.render(sw.value).Success? ==>
      && r.Success?
      && r.value.value == ctx.render(sw.value).value
      && (r.value.defaults <==> ctx.render(sw.value).value !in sw.cases)
  {
    var rendered :- RendererValue(sw, ctx);
    Success(Output(rendered, NoneMatch(sw, rendered)))
  }

  /** The defaults flag and the branch selection use the same key test: when
      the outputs can be computed, the flag is false exactly when a case was
      selected, and the children are that case's tasks or the defaults
      accordingly. */
  lemma DefaultsFlagAgreesWithSelection(sw: Switch, ctx: RunContext, utils: FlowableUtils, execution: Execution, parentTaskRun: TaskRun)
    requires Outputs(sw, ctx, execution, parentTaskRun).Success?
    ensures var out := Outputs(sw, ctx, execution, parentTaskRun).value;
      && SelectBranch(sw, ctx).Success?
      && (out.defaults <==> SelectBranch(sw, ctx).value == Defaults)
      && (!out.defaults ==> ChildTasks(sw, ctx, utils, parentTaskRun) == Success(utils.resolveTasks(sw.cases[out.value], parentTaskRun)))
      && (out.defaults ==> ChildTasks(sw, ctx, utils, parentTaskRun) == Success(utils.resolveTasks(sw.defaults, parentTaskRun)))
  {
  }

  /** A render failure is never read as "no case matched": it is the result
      of the outputs, and of the children, state and nexts whenever there is a
      case key to compare against. */
  lemma RenderFailurePropagates(sw: Switch, ctx: RunContext, utils: FlowableUtils, execution: Execution, parentTaskRun: TaskRun)
    requires ctx.render(sw.value).Failure?
    ensures var e := RuntimeException(ctx.render(sw.value).error);
      && Outputs(sw, ctx, execution, parentTaskRun) == Failure(e)
      && (|sw.cases| > 0 ==>
            && ChildTasks(sw, ctx, utils, parentTaskRun) == Failure(e)
            && ResolveState(sw, ctx, utils, execution, parentTaskRun) == Failure(e)
            && ResolveNexts(sw, ctx, utils, execution, parentTaskRun) == Failure(e))
  {
  }

  /** The worked example: cases {"1": [t1]}, defaults [t2], value "{{x}}".
      With x = 1 the case's tasks are the children and the flag is false;
      with x = 2 the defaults are the children and the flag is true. */
  lemma ExampleSwitch(utils: FlowableUtils, execution: Execution, parentTaskRun: TaskRun)
    ensures var sw := Switch("switch", [], "{{x}}", map["1" := [Task("t1")]], [Task("t2")]);
      var xIs1 := RunContext(t => if t == "{{x}}" then Success("1") else Failure(RenderError("undefined")));
      var xIs2 := RunContext(t => if t == "{{x}}" then Success("2") else Failure(RenderError("undefined")));
      && ChildTasks(sw, xIs1, utils, parentTaskRun) == Success(utils.resolveTasks([Task("t1")], parentTaskRun))
      && Outputs(sw, xIs1, execution, parentTaskRun) == Success(Output("1", false))
      && ChildTasks(sw, xIs2, utils, parentTaskRun) == Success(utils.resolveTasks([Task("t2")], parentTaskRun))
      && Outputs(sw, xIs2, execution, parentTaskRun) == Success(Output("2", true))
  {
  }
}
