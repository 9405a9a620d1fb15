/** The ClusterUrlMonitor reconcile driver: a fixed sequence of steps, each handing back a
    signal, run until the first one that does not continue.  The steps' own bodies are not
    part of this model; what each of them hands back in one invocation is an input. */
module ClusterUrlMonitor {
  import opened Kube

  /** The current finalizer key, and the one it replaces until every object has migrated. */
  const FinalizerKey: string := "clusterurlmonitor.routemonitoroperator.monitoring.openshift.io/finalizer"
  const PrevFinalizerKey: string := "clusterurlmonitor.monitoring.openshift.io/clusterurlmonitorcontroller"

  /** The two keys differ, so setting the current one and dropping the previous one never
      undo each other. */
  lemma FinalizerKeysDistinct()
    ensures |PrevFinalizerKey| != |FinalizerKey|
    ensures FinalizerKey != PrevFinalizerKey
  {
    assert |FinalizerKey| == 72 && |PrevFinalizerKey| == 69;
  }

  datatype Step =
    | GetMonitor
    | DependenciesAbsent
    | FinalizerSet
    | ExporterExists
    | ServiceMonitorExists
    | PrometheusRuleExists

  /** The order Reconcile runs its steps in. */
  const Pipeline: seq<Step> :=
    [GetMonitor, DependenciesAbsent, FinalizerSet, ExporterExists, ServiceMonitorExists, PrometheusRuleExists]

  /** What each step hands back in one invocation.  The exporter step returns an error only. */
  datatype Outcomes = Outcomes(
    getMonitor: Signal,
    dependenciesAbsent: Signal,
    finalizerSet: Signal,
    exporterErr: Option<Error>,
    serviceMonitor: Signal,
    prometheusRule: Signal)

  /** The controller framework's result; Reconcile only ever returns the empty one. */
  datatype CtrlResult = CtrlResult(requeue: bool, requeueAfterSeconds: nat)

  const EmptyResult := CtrlResult(false, 0)

  /** The signal a step hands back.  The exporter step can end the reconcile only by an error. */
  function SignalOf(o: Outcomes, s: Step): (r: Signal)
    ensures s == ExporterExists ==> r != Stop && (r == Continue <==> o.exporterErr.None?)
  {
    match s
    case GetMonitor => o.getMonitor
    case DependenciesAbsent => o.dependenciesAbsent
    case FinalizerSet => o.finalizerSet
    case ExporterExists => if o.exporterErr.Some? then Requeue(o.exporterErr.value) else Continue
    case ServiceMonitorExists => o.serviceMonitor
    case PrometheusRuleExists => o.prometheusRule
  }

  /** The position of the first step that does not continue, or the length when all do. */
  function FirstHalt(o: Outcomes, steps: seq<Step>): (i: nat)
    ensures i <= |steps|
    ensures forall j :: 0 <= j < i ==> SignalOf(o, steps[j]) == Continue
    ensures i < |steps| ==> SignalOf(o, steps[i]) != Continue
  {
    if steps == [] then 0
    else if SignalOf(o, steps[0]) != Continue then 0
    else 1 + FirstHalt(o, steps[1..])
  }

  /** The first step that does not continue is the only position with that property. */
  lemma FirstHaltUnique(o: Outcomes, steps: seq<Step>, i: nat)
    requires i <= |steps|
    requires forall j :: 0 <= j < i ==> SignalOf(o, steps[j]) == Continue
    requires i < |steps| ==> SignalOf(o, steps[i]) != Continue
    ensures FirstHalt(o, steps) == i
  {
  }

  /** The steps one invocation runs: every step up to and including the first that does not
      continue. */
  function Ran(o: Outcomes): seq<Step> {
    var i := FirstHalt(o, Pipeline);
    if i < |Pipeline| then Pipeline[..i + 1] else Pipeline
  }

  /** The error one invocation returns: that of the step that requeued, if one did. */
  function Verdict(o: Outcomes): Option<Error> {
    var i := FirstHalt(o, Pipeline);
    if i < |Pipeline| && SignalOf(o, Pipeline[i]).Requeue? then Some(SignalOf(o, Pipeline[i]).err) else None
  }

  /** Runs the steps in order and ends at the first error or stop.  The result is always empty;
      a retry is asked for by the error alone. */
  method Reconcile(o: Outcomes) returns (result: CtrlResult, err: Option<Error>, ran: seq<Step>)
    ensures result == EmptyResult
    ensures ran == Ran(o) && err == Verdict(o)
    ensures 0 < |ran| <= |Pipeline| && ran == Pipeline[..|ran|]
    ensures forall j :: 0 <= j < |ran| - 1 ==> SignalOf(o, ran[j]) == Continue
    ensures |ran| < |Pipeline| ==> SignalOf(o, ran[|ran| - 1]) != Continue
    ensures err.Some? <==> SignalOf(o, ran[|ran| - 1]).Requeue?
    ensures err.Some? ==> SignalOf(o, ran[|ran| - 1]) == Requeue(err.value)
  {
    ran := [];
    var i := 0;
    while i < |Pipeline|
      invariant 0 <= i <= |Pipeline|
      invariant ran == Pipeline[..i]
      invariant forall j :: 0 <= j < i ==> SignalOf(o, Pipeline[j]) == Continue
    {
      var step := Pipeline[i];
      var signal := SignalOf(o, step);
      ran := ran + [step];
      if signal.Requeue? {
        FirstHaltUnique(o, Pipeline, i);
        return EmptyResult, Some(signal.err), ran;
      }
      if signal == Stop {
        FirstHaltUnique(o, Pipeline, i);
        return EmptyResult, None, ran;
      }
      i := i + 1;
    }
    FirstHaltUnique(o, Pipeline, i);
    assert ran == Pipeline;
    return EmptyResult, None, ran;
  }

  // ---------------------------------------------------------------------------------------
  // Properties of one invocation

  /** A step that requeues ends the invocation with its error: no later step runs. */
  lemma {:induction false} ErrorEndsReconcile(o: Outcomes, i: nat, e: Error)
    requires i < |Pipeline|
    requires forall j :: 0 <= j < i ==> SignalOf(o, Pipeline[j]) == Continue
    requires SignalOf(o, Pipeline[i]) == Requeue(e)
    ensures Ran(o) == Pipeline[..i + 1]
    ensures Verdict(o) == Some(e)
  {
    FirstHaltUnique(o, Pipeline, i);
  }

  /** A step that stops ends the invocation without an error: no later step runs. */
  lemma {:induction false} StopEndsReconcile(o: Outcomes, i: nat)
    requires i < |Pipeline|
    requires forall j :: 0 <= j < i ==> SignalOf(o, Pipeline[j]) == Continue
    requires SignalOf(o, Pipeline[i]) == Stop
    ensures Ran(o) == Pipeline[..i + 1]
    ensures Verdict(o) == None
  {
    FirstHaltUnique(o, Pipeline, i);
  }

  /** When every step continues, all six run in order and nothing is returned but the empty
      result. */
  lemma {:induction false} AllContinueCompletes(o: Outcomes)
    requires forall s :: SignalOf(o, s) == Continue
    ensures Ran(o) == Pipeline
    ensures Verdict(o) == None
  {
    FirstHaltUnique(o, Pipeline, |Pipeline|);
  }

  /** An invocation in which the deletion cascade stopped never reaches the finalizer step. */
  lemma {:induction false} DeletionStopSkipsFinalizer(o: Outcomes)
    requires o.getMonitor == Continue && o.dependenciesAbsent == Stop
    ensures Ran(o) == [GetMonitor, DependenciesAbsent]
    ensures FinalizerSet !in Ran(o)
    ensures Verdict(o) == None
  {
    StopEndsReconcile(o, 1);
  }

  /** Where a step sits in the fixed order. */
  function Position(s: Step): (k: nat)
    ensures k < |Pipeline| && Pipeline[k] == s
    ensures forall j :: 0 <= j < |Pipeline| && Pipeline[j] == s ==> j == k
  {
    match s
    case GetMonitor => 0
    case DependenciesAbsent => 1
    case FinalizerSet => 2
    case ExporterExists => 3
    case ServiceMonitorExists => 4
    case PrometheusRuleExists => 5
  }

  /** A step runs only after every step before it in the fixed order ran and continued. */
  lemma {:induction false} RanInOrder(o: Outcomes, s: Step)
    requires s in Ran(o)
    ensures forall j :: 0 <= j < Position(s) ==> Pipeline[j] in Ran(o) && SignalOf(o, Pipeline[j]) == Continue
  {
    var i := FirstHalt(o, Pipeline);
    var run := Ran(o);
    var k :| 0 <= k < |run| && run[k] == s;
    assert Pipeline[k] == s;
    assert k == Position(s);
    assert k <= i;
    forall j | 0 <= j < Position(s)
      ensures Pipeline[j] in run && SignalOf(o, Pipeline[j]) == Continue
    {
      assert run[j] == Pipeline[j];
    }
  }
}
