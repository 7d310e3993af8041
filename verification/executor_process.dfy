/** The deduplicating executor stage of the stream runner. For each incoming
    executor it asks the executor core for the next task runs, and applies
    them only if none of them was already recorded for the execution key;
    the record of seen next runs is a keyed store threaded in and out. */
module ExecutorProcess {
  import opened Wrappers
  import opened Models

  /** The executor core the stage wraps; its implementation is not part of
      this model. */
  datatype AbstractExecutor = AbstractExecutor(
    process: Executor -> Executor,
    onNexts: (Flow, Execution, seq<TaskRun>) -> Execution
  )

  /** The keyed state store: per execution key, the identities of the next
      runs already accepted, in the order they were accepted. */
  type Store = map<string, seq<string>>

  /** The stage's result: the executor to forward and the store afterwards. */
  datatype Step = Step(output: Executor, store: Store)

  /** The name the stage records on the executors it changes. */
  const OnNextsStage := "onNexts"

  /** The list stored for `key`; an absent entry reads as an empty list, so
      an identity is in the loaded list exactly when the key has an entry
      that holds it. */
  function Load(store: Store, key: string): (stored: seq<string>)
    ensures forall id :: id in stored <==> key in store && id in store[key]
  {
    if key in store then store[key] else []
  }

  /** Java string concatenation of a possibly-null string. */
  function NullableToString(s: Option<string>): string {
    match s
    case None => "null"
    case Some(v) => v
  }

  /** The identity under which a next run is recorded: its parent run id,
      task id and value, joined by dashes. */
  function Identity(run: TaskRun): (id: string)
    ensures NullableToString(run.parentTaskRunId) + "-" <= id
    ensures run.parentTaskRunId.None? ==> "null-" <= id
    ensures |id| == |NullableToString(run.parentTaskRunId)| + |run.taskId| + |NullableToString(run.value)| + 2
  {
    NullableToString(run.parentTaskRunId) + "-" + run.taskId + "-" + NullableToString(run.value)
  }

  /** A recomputed next run, with a new run id or state, has the same
      identity; a top-level run (null parent) is recorded under "null". */
  lemma IdentityOfRecomputedRun(run: TaskRun, id: string, state: StateType)
    ensures Identity(run.(id := id, state := state)) == Identity(run)
    ensures run.parentTaskRunId.None? ==> Identity(run)[..5] == "null-"
    ensures run.value.None? ==> Identity(run)[|Identity(run)| - 5..] == "-null"
  {
  }

  /** The identities of `runs`, in order. */
  function Identities(runs: seq<TaskRun>): (ids: seq<string>)
    ensures |ids| == |runs|
    ensures forall i :: 0 <= i < |runs| ==> ids[i] == Identity(runs[i])
  {
    if |runs| == 0 then [] else [Identity(runs[0])] + Identities(runs[1..])
  }

  /** The two groups of identities the stage splits a batch into. */
  datatype Groups = Groups(duplicates: seq<string>, unseen: seq<string>)

  /** Splits `ids` into those already in `stored` and those not, each group
      keeping the order of `ids`. Membership is tested against `stored` only,
      so a batch that repeats an identity not yet stored keeps both copies. */
  function PartitionBy(ids: seq<string>, stored: seq<string>): (g: Groups)
    ensures multiset(g.duplicates) + multiset(g.unseen) == multiset(ids)
    ensures forall i :: 0 <= i < |g.duplicates| ==> g.duplicates[i] in stored
    ensures forall i :: 0 <= i < |g.unseen| ==> g.unseen[i] !in stored
    ensures |g.duplicates| == 0 ==> g.unseen == ids
  {
    if |ids| == 0 then Groups([], [])
    else
      var rest := PartitionBy(ids[1..], stored);
      assert ids == [ids[0]] + ids[1..];
      if ids[0] in stored then Groups([ids[0]] + rest.duplicates, rest.unseen)
      else Groups(rest.duplicates, [ids[0]] + rest.unseen)
  }

  /** True when some run of `nexts` was already recorded in `stored`. */
  predicate IsReplay(nexts: seq<TaskRun>, stored: seq<string>) {
    exists i :: 0 <= i < |nexts| && Identity(nexts[i]) in stored
  }

  /** A batch has a duplicate group exactly when one of its runs was already
      recorded. */
  lemma DuplicatesIffReplay(nexts: seq<TaskRun>, stored: seq<string>)
    ensures |PartitionBy(Identities(nexts), stored).duplicates| > 0 <==> IsReplay(nexts, stored)
  {
  }

  /** One step of the stage for the executor `value` arriving under `key`. */
  function Transform(executor: AbstractExecutor, key: string, value: Executor, store: Store): (r: Step)
    ensures var nexts := executor.process(value).nexts;
      |nexts| == 0 ==> r == Step(value, store)
    ensures var nexts := executor.process(value).nexts;
      IsReplay(nexts, Load(store, key)) ==> r == Step(value, store)
    ensures var nexts := executor.process(value).nexts;
      |nexts| > 0 && !IsReplay(nexts, Load(store, key)) ==>
        && r.store == store[key := Load(store, key) + Identities(nexts)]
        && r.output == value.WithExecution(executor.onNexts(value.flow, value.execution, nexts), OnNextsStage)
  {
    var processed := executor.process(value);
    if |processed.nexts| == 0 then Step(value, store)
    else
      var stored := Load(store, key);
      var groups := PartitionBy(Identities(processed.nexts), stored);
      DuplicatesIffReplay(processed.nexts, stored);
      if |groups.duplicates| > 0 then Step(value, store)
      else
        var newExecution := executor.onNexts(value.flow, value.execution, processed.nexts);
        Step(value.WithExecution(newExecution, OnNextsStage), store[key := stored + groups.unseen])
  }

  /** The stage writes the entry for `key` only. */
  lemma TransformFramesOtherKeys(executor: AbstractExecutor, key: string, value: Executor, store: Store)
    ensures var r := Transform(executor, key, value, store);
      forall k :: k != key ==> (k in r.store <==> k in store) && (k in store ==> r.store[k] == store[k])
  {
  }

  /** The list stored for `key` only grows: the old list is a prefix of the new one. */
  lemma TransformStoreGrows(executor: AbstractExecutor, key: string, value: Executor, store: Store)
    ensures Load(store, key) <= Load(Transform(executor, key, value, store).store, key)
  {
  }

  /** Replaying an input is a no-op: the second step forwards the input
      unchanged and leaves the store as the first step left it. */
  lemma TransformIdempotent(executor: AbstractExecutor, key: string, value: Executor, store: Store)
    ensures var first := Transform(executor, key, value, store);
      Transform(executor, key, value, first.store) == Step(value, first.store)
  {
  }

  /** The step taken by the `n`-th redelivery of `value` under `key`, the
      first delivery being the 0-th. */
  function Delivery(executor: AbstractExecutor, key: string, value: Executor, store: Store, n: nat): Step {
    if n == 0 then Transform(executor, key, value, store)
    else Transform(executor, key, value, Delivery(executor, key, value, store, n - 1).store)
  }

  /** However often an input is redelivered after its first processing, every
      redelivery forwards the input unchanged and the store stays as the first
      processing left it. */
  lemma {:induction false} RedeliveryIsNoOp(executor: AbstractExecutor, key: string, value: Executor, store: Store, n: nat)
    requires n > 0
    ensures Delivery(executor, key, value, store, n) == Step(value, Transform(executor, key, value, store).store)
  {
    if n > 1 {
      RedeliveryIsNoOp(executor, key, value, store, n - 1);
    }
    TransformIdempotent(executor, key, value, store);
  }

  /** An absent entry and an empty entry for `key` give the same forwarded
      executor and the same list for `key` afterwards. */
  lemma AbsentEntryActsAsEmpty(executor: AbstractExecutor, key: string, value: Executor, store: Store)
    requires key !in store
    ensures var absent := Transform(executor, key, value, store);
      var empty := Transform(executor, key, value, store[key := []]);
      && absent.output == empty.output
      && Load(absent.store, key) == Load(empty.store, key)
  {
  }
}
