/** The Pipeline controller: derives a Pipeline's state from the states of
    its executions and writes it to the Pipeline's status on every
    reconcile. */
module PipelineController {
  import opened Wrappers
  import opened Kube
  import opened CloudApi
  import opened Cluster

  /** The objects the pipeline controller reads and writes. */
  datatype World = World(pipelines: Store<Pipeline>, executions: Store<PipelineExecution>)

  /** An object handed to a field indexer: an execution, or an object of any
      other kind. */
  datatype IndexedObject = ExecutionObject(execution: PipelineExecution) | OtherObject

  /** `indexPipelineRefName`: the values under which an object is indexed as
      "spec.pipelineRef.name"; an object that is not an execution has none. */
  function IndexPipelineRefName(obj: IndexedObject): (names: seq<string>)
    ensures obj.OtherObject? ==> names == []
    ensures obj.ExecutionObject? ==> names == [obj.execution.spec.pipelineRef.name]
  {
    match obj
    case ExecutionObject(pe) => [pe.spec.pipelineRef.name]
    case OtherObject => []
  }

  /** The list request of `Reconcile`: in `namespace`, indexed under `name`. */
  predicate Matches(pe: PipelineExecution, namespace: string, name: string)
  {
    pe.meta.namespace == namespace && name in IndexPipelineRefName(ExecutionObject(pe))
  }

  /** The executions a list request returns, in the order `order` in which the
      API server enumerates the stored keys. */
  function Listed(executions: Store<PipelineExecution>, namespace: string, name: string, order: seq<ObjectKey>)
    : seq<PipelineExecution>
  {
    if order == [] then []
    else
      var rest := Listed(executions, namespace, name, order[1..]);
      var k := order[0];
      if k in executions.objects && Matches(executions.objects[k], namespace, name)
      then [executions.objects[k]] + rest
      else rest
  }

  /** A list request returns stored executions of the pipeline's namespace
      that reference the pipeline, and every such execution it enumerates. */
  lemma {:induction false} ListedAreExactlyMatching(
    executions: Store<PipelineExecution>, namespace: string, name: string, order: seq<ObjectKey>)
    ensures forall pe :: pe in Listed(executions, namespace, name, order) ==>
      pe.meta.namespace == namespace && pe.spec.pipelineRef.name == name
      && exists k :: k in order && k in executions.objects && executions.objects[k] == pe
    ensures forall k :: k in order && k in executions.objects
                        && executions.objects[k].meta.namespace == namespace
                        && executions.objects[k].spec.pipelineRef.name == name
                        ==> executions.objects[k] in Listed(executions, namespace, name, order)
  {
    if order != [] {
      ListedAreExactlyMatching(executions, namespace, name, order[1..]);
      forall pe | pe in Listed(executions, namespace, name, order)
        ensures exists k :: k in order && k in executions.objects && executions.objects[k] == pe
      {
        if pe !in Listed(executions, namespace, name, order[1..]) {
          assert order[0] in order;
        } else {
          var k :| k in order[1..] && k in executions.objects && executions.objects[k] == pe;
          assert k in order;
        }
      }
      forall k | k in order && k in executions.objects
                 && executions.objects[k].meta.namespace == namespace
                 && executions.objects[k].spec.pipelineRef.name == name
        ensures executions.objects[k] in Listed(executions, namespace, name, order)
      {
        if k != order[0] {
          assert k in order[1..];
        }
      }
    }
  }

  /** An execution decides the pipeline's state when it has no state yet or
      is ACTIVE or FAILED; PENDING, SUCCEEDED and any other text, such as the
      empty state of a Job without counters, leave it as it was. */
  predicate Decisive(pe: PipelineExecution)
  {
    pe.status.state.None?
    || pe.status.state == Some(PipelineExecutionStateActive)
    || pe.status.state == Some(PipelineExecutionStateFailed)
  }

  /** The pipeline state a decisive execution sets: ERROR for a failed one,
      RUNNING otherwise. */
  function Verdict(pe: PipelineExecution): string
  {
    if pe.status.state == Some(PipelineExecutionStateFailed) then PipelineStateError else PipelineStateRunning
  }

  /** One turn of the loop of `Reconcile`: a decisive execution sets its
      verdict, any other leaves the state as it was. */
  function ExecutionStep(state: string, pe: PipelineExecution): (s: string)
    ensures Decisive(pe) ==> s == Verdict(pe)
    ensures !Decisive(pe) ==> s == state
  {
    match pe.status.state
    case None => PipelineStateRunning
    case Some(st) =>
      if st == PipelineExecutionStatePending then state
      else if st == PipelineExecutionStateActive then PipelineStateRunning
      else if st == PipelineExecutionStateFailed then PipelineStateError
      else state
  }

  /** The state the loop of `Reconcile` computes: READY, stepped over the
      executions in list order. */
  function PipelineStateOf(executions: seq<PipelineExecution>): string
  {
    if executions == [] then PipelineStateReady
    else ExecutionStep(PipelineStateOf(executions[..|executions| - 1]), executions[|executions| - 1])
  }

  /** Without a decisive execution the pipeline is READY. */
  lemma {:induction false} NoDecisiveIsReady(executions: seq<PipelineExecution>)
    requires forall j :: 0 <= j < |executions| ==> !Decisive(executions[j])
    ensures PipelineStateOf(executions) == PipelineStateReady
  {
    if executions != [] {
      var init := executions[..|executions| - 1];
      assert forall j :: 0 <= j < |init| ==> init[j] == executions[j];
      NoDecisiveIsReady(init);
    }
  }

  /** Otherwise the last decisive execution decides, whatever came before. */
  lemma {:induction false} LastDecisiveWins(executions: seq<PipelineExecution>, i: nat)
    requires i < |executions| && Decisive(executions[i])
    requires forall j :: i < j < |executions| ==> !Decisive(executions[j])
    ensures PipelineStateOf(executions) == Verdict(executions[i])
  {
    var n := |executions|;
    if i < n - 1 {
      var init := executions[..n - 1];
      assert forall j :: 0 <= j < |init| ==> init[j] == executions[j];
      LastDecisiveWins(init, i);
    }
  }

  /** The state is one of READY, RUNNING and ERROR. */
  lemma {:induction false} StateIsReadyRunningOrError(executions: seq<PipelineExecution>)
    ensures PipelineStateOf(executions) in {PipelineStateReady, PipelineStateRunning, PipelineStateError}
  {
    if executions != [] {
      StateIsReadyRunningOrError(executions[..|executions| - 1]);
    }
  }

  /** The state depends on the order: a failed execution listed before an
      active one gives RUNNING, listed after it gives ERROR. */
  lemma OrderDecides(failed: PipelineExecution, active: PipelineExecution)
    requires failed.status.state == Some(PipelineExecutionStateFailed)
    requires active.status.state == Some(PipelineExecutionStateActive)
    ensures PipelineStateOf([failed, active]) == PipelineStateRunning
    ensures PipelineStateOf([active, failed]) == PipelineStateError
  {
    assert [failed, active][..1] == [failed];
    assert [active, failed][..1] == [active];
  }

  /** `Reconcile`: a missing pipeline ends the reconcile; otherwise the state
      derived from the executions listed in `order` is written to its
      status. */
  function ReconcileSpec(w: World, key: ObjectKey, order: seq<ObjectKey>): (Outcome, World)
  {
    match w.pipelines.Get(key)
    case Err(e) => (IgnoreNotFound(Fail(e)), w)
    case Ok(pipeline) =>
      var listed := Listed(w.executions, key.namespace, pipeline.meta.name, order);
      var state := PipelineStateOf(listed);
      var (o, pipelines) := w.pipelines.Update(
        KeyOf(pipeline.meta), pipeline.(status := PipelineStatus(Some(state))), w.pipelines.Version(key));
      (o, w.(pipelines := pipelines))
  }

  /** A reconcile of a missing pipeline succeeds and changes nothing. */
  lemma MissingPipelineIsIgnored(w: World, key: ObjectKey, order: seq<ObjectKey>)
    requires key !in w.pipelines.objects
    ensures ReconcileSpec(w, key, order) == (Pass, w)
  {
  }

  /** Every reconcile of a stored pipeline writes its status, with the state
      of its executions, and changes nothing else. */
  lemma StatusIsWrittenEveryReconcile(w: World, key: ObjectKey, pipeline: Pipeline, order: seq<ObjectKey>)
    requires key in w.pipelines.objects && w.pipelines.objects[key] == pipeline && KeyOf(pipeline.meta) == key
    ensures var (r, after) := ReconcileSpec(w, key, order);
      r == Pass && after.executions == w.executions
      && after.pipelines.Version(key) == w.pipelines.Version(key) + 1
      && after.pipelines.Get(key) == Ok(pipeline.(status := PipelineStatus(Some(
           PipelineStateOf(Listed(w.executions, key.namespace, pipeline.meta.name, order))))))
  {
  }

  /** The pipeline controller, over the cluster's pipelines and executions. */
  class PipelineReconciler {
    const pipelines: Collection<Pipeline>
    const executions: Collection<PipelineExecution>

    constructor(pipelines: Collection<Pipeline>, executions: Collection<PipelineExecution>)
      ensures this.pipelines == pipelines && this.executions == executions
    {
      this.pipelines := pipelines;
      this.executions := executions;
    }

    function Snapshot(): World
      reads pipelines, executions
    {
      World(pipelines.store, executions.store)
    }

    method Reconcile(key: ObjectKey, order: seq<ObjectKey>) returns (r: Outcome)
      modifies pipelines
      ensures (r, Snapshot()) == ReconcileSpec(old(Snapshot()), key, order)
    {
      var got := pipelines.store.Get(key);
      if got.Err? {
        return IgnoreNotFound(Fail(got.error));
      }
      var pipeline := got.value;
      var version := pipelines.store.Version(key);
      var listed := Listed(executions.store, key.namespace, pipeline.meta.name, order);
      var state := OverallState(listed);
      r := pipelines.Update(KeyOf(pipeline.meta), pipeline.(status := PipelineStatus(Some(state))), version);
    }
  }

  /** The loop of `Reconcile` over the listed executions. */
  method OverallState(executions: seq<PipelineExecution>) returns (state: string)
    ensures state == PipelineStateOf(executions)
  {
    state := PipelineStateReady;
    var i := 0;
    while i < |executions|
      invariant 0 <= i <= |executions|
      invariant state == PipelineStateOf(executions[..i])
    {
      var pe := executions[i];
      if pe.status.state.None? {
        state := PipelineStateRunning;
      } else {
        var st := pe.status.state.value;
        if st == PipelineExecutionStatePending {
        } else if st == PipelineExecutionStateActive {
          state := PipelineStateRunning;
        } else if st == PipelineExecutionStateFailed {
          state := PipelineStateError;
        }
      }
      assert executions[..i + 1][..i] == executions[..i];
      i := i + 1;
    }
    assert executions[..i] == executions;
  }
}
