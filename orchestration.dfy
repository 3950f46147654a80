/**
 * controllerutil's finalizer helpers, as the reconcilers use them: a
 * finalizer is a string in the object's ordered finalizer list.
 */
module Finalizers {

  /** `controllerutil.AddFinalizer`: appended when missing, otherwise nothing changes. */
  function Add(fs: seq<string>, f: string): (r: seq<string>)
    ensures f in r
    ensures forall y :: y in r <==> y in fs || y == f
    ensures |fs| <= |r| <= |fs| + 1 && r[..|fs|] == fs
  {
    if f in fs then fs else fs + [f]
  }

  /** `controllerutil.RemoveFinalizer`: every copy of `f` is dropped, the rest keep their order. */
  function Remove(fs: seq<string>, f: string): (r: seq<string>)
    ensures forall y :: y in r <==> y in fs && y != f
    ensures |r| <= |fs|
    decreases |fs|
  {
    if |fs| == 0 then []
    else if fs[0] == f then Remove(fs[1..], f)
    else [fs[0]] + Remove(fs[1..], f)
  }

  /** Removing a finalizer that is not there changes nothing. */
  lemma {:induction false} RemoveAbsent(fs: seq<string>, f: string)
    requires f !in fs
    ensures Remove(fs, f) == fs
    decreases |fs|
  {
    if |fs| > 0 {
      RemoveAbsent(fs[1..], f);
      assert [fs[0]] + fs[1..] == fs;
    }
  }

  /** Removal distributes over concatenation. */
  lemma {:induction false} RemoveConcat(a: seq<string>, b: seq<string>, f: string)
    ensures Remove(a + b, f) == Remove(a, f) + Remove(b, f)
    decreases |a|
  {
    if |a| == 0 {
      assert a + b == b;
    } else {
      assert (a + b)[1..] == a[1..] + b;
      RemoveConcat(a[1..], b, f);
    }
  }

  /** Adding a finalizer the object lacked and then removing it restores the list. */
  lemma AddThenRemove(fs: seq<string>, f: string)
    requires f !in fs
    ensures Remove(Add(fs, f), f) == fs
  {
    RemoveConcat(fs, [f], f);
    RemoveAbsent(fs, f);
    assert Remove([f], f) == [];
  }
}

/**
 * The reconciliation passes of pkg/reconciler/logging/logging_reconciler.go
 * and internal/controller/capicluster_controller.go (whose create and delete
 * paths are the same code, modelled once), and of the older
 * internal/controller ClusterReconciler (cluster_controller.go, create.go,
 * delete.go).
 *
 * The sub-reconcilers are code outside this model: each is represented by
 * what its `ReconcileCreate` and `ReconcileDelete` return in this pass. The
 * API server's side is represented by the log of calls the pass makes, in
 * order, with faults the client reports given as constants.
 */
module Orchestration {
  import opened Kube
  import Key
  import Common
  import ClusterHelpers
  import Semver
  import LoggedCluster
  import ControllerUtil
  import Finalizers

  /** What one sub-reconciler call returns. */
  datatype Outcome = Outcome(result: CtrlResult, err: Option<Error>)

  const Done := Outcome(ZeroResult, None)

  /** A sub-reconciler, as the results of its two calls in this pass. */
  datatype SubReconciler = SubReconciler(onCreate: Outcome, onDelete: Outcome)

  datatype Phase = Create | Delete

  /** The calls a pass makes, in the order it makes them. */
  datatype Event =
    | Patch(finalizers: seq<string>)   // patch of the object's finalizer list
    | Update(finalizers: seq<string>)  // full update of the object with this finalizer list
    | Toggle                           // `ToggleAgents`: reads the observability bundle version
    | Run(phase: Phase, index: nat)    // sub-reconciler `index` called for `phase`

  /** The object a pass works on: its labels and its finalizers, held in memory. */
  class ClusterObject {
    var labels: Labels
    var finalizers: seq<string>

    constructor (labels: Labels, finalizers: seq<string>)
      ensures this.labels == labels && this.finalizers == finalizers
    {
      this.labels := labels;
      this.finalizers := finalizers;
    }
  }

  function Outcomes(rs: seq<SubReconciler>, phase: Phase): (outs: seq<Outcome>)
    ensures |outs| == |rs|
    ensures forall i :: 0 <= i < |rs| ==> outs[i] == (if phase == Create then rs[i].onCreate else rs[i].onDelete)
  {
    seq(|rs|, i requires 0 <= i < |rs| => if phase == Create then rs[i].onCreate else rs[i].onDelete)
  }

  /**
   * Whether the loop over the sub-reconcilers stops at this outcome: on an
   * error, and also on a non-zero result when `resultsMatter`.
   */
  predicate Stops(o: Outcome, resultsMatter: bool)
  {
    o.err.Some? || (resultsMatter && !o.result.IsZero())
  }

  /** The index of the first stopping outcome from `i` on, or `|outs|` when none stops. */
  function FirstStop(outs: seq<Outcome>, i: nat, resultsMatter: bool): (k: nat)
    requires i <= |outs|
    ensures i <= k <= |outs|
    decreases |outs| - i
  {
    if i == |outs| then i
    else if Stops(outs[i], resultsMatter) then i
    else FirstStop(outs, i + 1, resultsMatter)
  }

  /** `FirstStop` is the first: nothing before it stops, and it stops unless it is the end. */
  lemma {:induction false} FirstStopIsFirst(outs: seq<Outcome>, i: nat, resultsMatter: bool)
    requires i <= |outs|
    ensures forall j :: i <= j < FirstStop(outs, i, resultsMatter) ==> !Stops(outs[j], resultsMatter)
    ensures FirstStop(outs, i, resultsMatter) < |outs| ==> Stops(outs[FirstStop(outs, i, resultsMatter)], resultsMatter)
    decreases |outs| - i
  {
    if i < |outs| && !Stops(outs[i], resultsMatter) {
      FirstStopIsFirst(outs, i + 1, resultsMatter);
    }
  }

  /** How many sub-reconcilers the loop calls: up to and including the first that stops it. */
  function Called(outs: seq<Outcome>, resultsMatter: bool): nat
  {
    var k := FirstStop(outs, 0, resultsMatter);
    if k < |outs| then k + 1 else k
  }

  /** What the loop returns: the outcome that stopped it, or success. */
  function Chained(outs: seq<Outcome>, resultsMatter: bool): Outcome
  {
    var k := FirstStop(outs, 0, resultsMatter);
    if k < |outs| then outs[k] else Done
  }

  function Runs(phase: Phase, n: nat): (r: seq<Event>)
    ensures |r| == n && forall j :: 0 <= j < n ==> r[j] == Run(phase, j)
  {
    seq(n, j requires 0 <= j < n => Run(phase, j))
  }

  /**
   * The loop succeeds exactly when no sub-reconciler stops it, and then every
   * one of them is called; otherwise the first that stops it is the last one
   * called, and what it returned is returned.
   */
  lemma ChainedSucceedsIff(outs: seq<Outcome>, resultsMatter: bool)
    ensures !Stops(Chained(outs, resultsMatter), resultsMatter) <==> forall j :: 0 <= j < |outs| ==> !Stops(outs[j], resultsMatter)
    ensures !Stops(Chained(outs, resultsMatter), resultsMatter) ==> Called(outs, resultsMatter) == |outs|
    ensures Stops(Chained(outs, resultsMatter), resultsMatter) ==>
      && 0 < Called(outs, resultsMatter) <= |outs|
      && Chained(outs, resultsMatter) == outs[Called(outs, resultsMatter) - 1]
      && forall j :: 0 <= j < Called(outs, resultsMatter) - 1 ==> !Stops(outs[j], resultsMatter)
  {
    FirstStopIsFirst(outs, 0, resultsMatter);
  }

  /** The error `ToggleAgents` returns for a bundle version lookup. */
  function LookupError(bundle: Result<Semver.SemVer>): Option<Error>
  {
    if bundle.Err? then Some(bundle.error) else None
  }

  /**
   * The calls `reconcileCreate` makes and what it returns, given whether the
   * object carried the finalizer, the client's faults, the bundle lookup's
   * error and the sub-reconcilers' outcomes.
   */
  function CreateTrace(fs: seq<string>, helperErr: Option<Error>, patchErr: Option<Error>,
                       lookupErr: Option<Error>, outs: seq<Outcome>): (seq<Event>, Outcome)
  {
    var patch := if Key.Finalizer in fs then [] else [Patch(Finalizers.Add(fs, Key.Finalizer))];
    if Key.Finalizer !in fs && helperErr.Some? then ([], Outcome(ZeroResult, helperErr))
    else if Key.Finalizer !in fs && patchErr.Some? then (patch, Outcome(ZeroResult, patchErr))
    else if lookupErr == Some(NotFound) then (patch + [Toggle], Outcome(RequeueFiveMinutes, None))
    else if lookupErr.Some? then (patch + [Toggle], Outcome(ZeroResult, lookupErr))
    else (patch + [Toggle] + Runs(Create, Called(outs, true)), Chained(outs, true))
  }

  /** The calls `reconcileDelete` makes and what it returns. */
  function DeleteTrace(fs: seq<string>, helperErr: Option<Error>, patchErr: Option<Error>,
                       lookupErr: Option<Error>, outs: seq<Outcome>): (seq<Event>, Outcome)
  {
    if Key.Finalizer !in fs then ([], Done)
    else if lookupErr.Some? && lookupErr != Some(NotFound) then ([Toggle], Outcome(ZeroResult, lookupErr))
    else if Stops(Chained(outs, true), true) then ([Toggle] + Runs(Delete, Called(outs, true)), Chained(outs, true))
    else if helperErr.Some? then ([Toggle] + Runs(Delete, |outs|), Outcome(ZeroResult, helperErr))
    else ([Toggle] + Runs(Delete, |outs|) + [Patch(Finalizers.Remove(fs, Key.Finalizer))], Outcome(ZeroResult, patchErr))
  }

  /** Whether delete gets as far as patching the finalizer off. */
  predicate DeleteReachesPatch(fs: seq<string>, helperErr: Option<Error>, lookupErr: Option<Error>, outs: seq<Outcome>)
  {
    && Key.Finalizer in fs
    && (lookupErr.None? || lookupErr == Some(NotFound))
    && !Stops(Chained(outs, true), true)
    && helperErr.None?
  }

  /** Whether `e` is the patch that puts the finalizer on the object. */
  predicate AddsFinalizer(e: Event)
  {
    e.Patch? && Key.Finalizer in e.finalizers
  }

  /**
   * On create, nothing runs before the finalizer is stored: when the object
   * lacked it, the bundle lookup and every sub-reconciler come after a
   * successful patch that adds it. An object already carrying it is not
   * patched at all.
   */
  lemma CreatePatchesFinalizerFirst(fs: seq<string>, helperErr: Option<Error>, patchErr: Option<Error>,
                                    lookupErr: Option<Error>, outs: seq<Outcome>)
    ensures var (events, _) := CreateTrace(fs, helperErr, patchErr, lookupErr, outs);
      && (Key.Finalizer in fs ==> forall j :: 0 <= j < |events| ==> !events[j].Patch?)
      && (Key.Finalizer !in fs ==>
            forall j :: 0 <= j < |events| && !events[j].Patch? ==>
              0 < j && AddsFinalizer(events[0]) && helperErr.None? && patchErr.None?)
  {
  }

  /** A missing observability bundle app requeues after five minutes, with no error and no sub-reconciler run. */
  lemma CreateRequeuesWithoutBundle(fs: seq<string>, helperErr: Option<Error>, patchErr: Option<Error>, outs: seq<Outcome>)
    requires Key.Finalizer in fs || (helperErr.None? && patchErr.None?)
    ensures var (events, out) := CreateTrace(fs, helperErr, patchErr, Some(NotFound), outs);
      && out == Outcome(RequeueFiveMinutes, None)
      && forall j :: 0 <= j < |events| ==> !events[j].Run?
  {
  }

  /**
   * With the finalizer in place and the bundle found, create succeeds exactly
   * when every sub-reconciler returns a zero result and no error, and then
   * all of them have run, in order.
   */
  lemma CreateSucceedsIff(fs: seq<string>, lookupErr: Option<Error>, outs: seq<Outcome>)
    requires Key.Finalizer in fs && lookupErr.None?
    ensures var (events, out) := CreateTrace(fs, None, None, lookupErr, outs);
      && (out == Done <==> forall j :: 0 <= j < |outs| ==> !Stops(outs[j], true))
      && (out == Done ==> events == [Toggle] + Runs(Create, |outs|))
  {
    ChainedSucceedsIff(outs, true);
  }

  /** An object without the finalizer is left alone by delete. */
  lemma DeleteWithoutFinalizerDoesNothing(fs: seq<string>, helperErr: Option<Error>, patchErr: Option<Error>,
                                          lookupErr: Option<Error>, outs: seq<Outcome>)
    requires Key.Finalizer !in fs
    ensures DeleteTrace(fs, helperErr, patchErr, lookupErr, outs) == ([], Done)
  {
  }

  /** On delete a missing bundle app is no obstacle: the pass goes on as if it had been found. */
  lemma DeleteToleratesMissingBundle(fs: seq<string>, helperErr: Option<Error>, patchErr: Option<Error>, outs: seq<Outcome>)
    ensures DeleteTrace(fs, helperErr, patchErr, Some(NotFound), outs) == DeleteTrace(fs, helperErr, patchErr, None, outs)
  {
  }

  /**
   * The finalizer is removed last: a removal patch is issued only as the final
   * call of the pass, after every sub-reconciler returned a zero result and
   * no error, and it removes exactly the operator's finalizer.
   */
  lemma DeleteRemovesFinalizerLast(fs: seq<string>, helperErr: Option<Error>, patchErr: Option<Error>,
                                   lookupErr: Option<Error>, outs: seq<Outcome>)
    ensures var (events, out) := DeleteTrace(fs, helperErr, patchErr, lookupErr, outs);
      forall j :: 0 <= j < |events| && events[j].Patch? ==>
        && j == |events| - 1
        && events[..j] == [Toggle] + Runs(Delete, |outs|)
        && (forall i :: 0 <= i < |outs| ==> !Stops(outs[i], true))
        && Key.Finalizer in fs && Key.Finalizer !in events[j].finalizers
        && (forall y :: y in events[j].finalizers <==> y in fs && y != Key.Finalizer)
  {
    var (events, out) := DeleteTrace(fs, helperErr, patchErr, lookupErr, outs);
    ChainedSucceedsIff(outs, true);
    if DeleteReachesPatch(fs, helperErr, lookupErr, outs) {
      assert events[..|events| - 1] == [Toggle] + Runs(Delete, |outs|);
    }
  }

  /**
   * The reconciler of logged clusters, and the CAPI cluster controller: the
   * ordered sub-reconcilers and the client's faults in this pass, and the log
   * of calls made.
   */
  class LoggingReconciler {
    const reconcilers: seq<SubReconciler>
    /** The error `patch.NewHelper` reports, if any. */
    const helperErr: Option<Error>
    /** The error `Patch` reports, if any. */
    const patchErr: Option<Error>
    var log: seq<Event>

    constructor (reconcilers: seq<SubReconciler>, helperErr: Option<Error>, patchErr: Option<Error>)
      ensures this.reconcilers == reconcilers && this.helperErr == helperErr && this.patchErr == patchErr
      ensures log == []
    {
      this.reconcilers := reconcilers;
      this.helperErr := helperErr;
      this.patchErr := patchErr;
      log := [];
    }

    /** The loop over the sub-reconcilers: the first error or non-zero result is returned. */
    method RunAll(phase: Phase) returns (out: Outcome)
      modifies this
      ensures log == old(log) + Runs(phase, Called(Outcomes(reconcilers, phase), true))
      ensures out == Chained(Outcomes(reconcilers, phase), true)
    {
      ghost var outs := Outcomes(reconcilers, phase);
      var i := 0;
      while i < |reconcilers|
        invariant 0 <= i <= |reconcilers|
        invariant FirstStop(outs, i, true) == FirstStop(outs, 0, true)
        invariant log == old(log) + Runs(phase, i)
      {
        var o := if phase == Create then reconcilers[i].onCreate else reconcilers[i].onDelete;
        log := log + [Run(phase, i)];
        if o.err.Some? || !o.result.IsZero() {
          assert Runs(phase, i) + [Run(phase, i)] == Runs(phase, i + 1);
          return o;
        }
        assert Runs(phase, i) + [Run(phase, i)] == Runs(phase, i + 1);
        i := i + 1;
      }
      return Done;
    }

    /** `patch.NewHelper` and `Patch` of the object's current finalizers. */
    method PatchFinalizers(lc: ClusterObject) returns (err: Option<Error>)
      modifies this
      ensures helperErr.Some? ==> err == helperErr && log == old(log)
      ensures helperErr.None? ==> err == patchErr && log == old(log) + [Patch(lc.finalizers)]
    {
      if helperErr.Some? {
        return helperErr;
      }
      log := log + [Patch(lc.finalizers)];
      return patchErr;
    }

    /** `reconcileCreate`: finalizer first, then the agents toggle, then every sub-reconciler. */
    method ReconcileCreate(lc: ClusterObject, agent: LoggedCluster.LoggingAgent, bundle: Result<Semver.SemVer>)
      returns (out: Outcome)
      modifies this, lc, agent
      ensures var (events, o) := CreateTrace(old(lc.finalizers), helperErr, patchErr, LookupError(bundle),
                                            Outcomes(reconcilers, Create));
        log == old(log) + events && out == o
      ensures lc.labels == old(lc.labels)
      ensures lc.finalizers == if Key.Finalizer !in old(lc.finalizers) && helperErr.Some? then old(lc.finalizers)
                               else Finalizers.Add(old(lc.finalizers), Key.Finalizer)
      ensures agent.loggingAgent != old(agent.loggingAgent) || agent.kubeEventsLogger != old(agent.kubeEventsLogger) ==>
        && bundle.Ok?
        && agent.loggingAgent == ControllerUtil.LoggingAgentFor(old(agent.loggingAgent), bundle.value)
        && agent.kubeEventsLogger == ControllerUtil.EventsLoggerFor(old(agent.kubeEventsLogger), bundle.value)
    {
      if Key.Finalizer !in lc.finalizers {
        if helperErr.Some? {
          return Outcome(ZeroResult, helperErr);
        }
        lc.finalizers := Finalizers.Add(lc.finalizers, Key.Finalizer);
        var err := PatchFinalizers(lc);
        if err.Some? {
          return Outcome(ZeroResult, err);
        }
      }
      log := log + [Toggle];
      var err := ControllerUtil.ToggleAgents(agent, bundle);
      if err.Some? {
        if err == Some(NotFound) {
          return Outcome(RequeueFiveMinutes, None);
        }
        return Outcome(ZeroResult, err);
      }
      out := RunAll(Create);
    }

    /** `reconcileDelete`: only with the finalizer present; the finalizer is removed last. */
    method ReconcileDelete(lc: ClusterObject, agent: LoggedCluster.LoggingAgent, bundle: Result<Semver.SemVer>)
      returns (out: Outcome)
      modifies this, lc, agent
      ensures var (events, o) := DeleteTrace(old(lc.finalizers), helperErr, patchErr, LookupError(bundle),
                                            Outcomes(reconcilers, Delete));
        log == old(log) + events && out == o
      ensures lc.labels == old(lc.labels)
      ensures lc.finalizers == if DeleteReachesPatch(old(lc.finalizers), helperErr, LookupError(bundle), Outcomes(reconcilers, Delete))
                               then Finalizers.Remove(old(lc.finalizers), Key.Finalizer)
                               else old(lc.finalizers)
      ensures agent.loggingAgent != old(agent.loggingAgent) || agent.kubeEventsLogger != old(agent.kubeEventsLogger) ==>
        && bundle.Ok?
        && agent.loggingAgent == ControllerUtil.LoggingAgentFor(old(agent.loggingAgent), bundle.value)
        && agent.kubeEventsLogger == ControllerUtil.EventsLoggerFor(old(agent.kubeEventsLogger), bundle.value)
    {
      if Key.Finalizer in lc.finalizers {
        log := log + [Toggle];
        var err := ControllerUtil.ToggleAgents(agent, bundle);
        if err.Some? && err != Some(NotFound) {
          return Outcome(ZeroResult, err);
        }
        out := RunAll(Delete);
        if out.err.Some? || !out.result.IsZero() {
          return out;
        }
        ChainedSucceedsIff(Outcomes(reconcilers, Delete), true);
        if helperErr.Some? {
          return Outcome(ZeroResult, helperErr);
        }
        lc.finalizers := Finalizers.Remove(lc.finalizers, Key.Finalizer);
        err := PatchFinalizers(lc);
        return Outcome(ZeroResult, err);
      }
      return Done;
    }

    /** `Reconcile`: create while logging is enabled, delete otherwise. */
    method Reconcile(lc: ClusterObject, agent: LoggedCluster.LoggingAgent, bundle: Result<Semver.SemVer>)
      returns (out: Outcome)
      modifies this, lc, agent
      ensures var trace := if Common.IsLoggingEnabled(old(lc.labels)) then CreateTrace else DeleteTrace;
        var (events, o) := trace(old(lc.finalizers), helperErr, patchErr, LookupError(bundle),
                                 Outcomes(reconcilers, if Common.IsLoggingEnabled(old(lc.labels)) then Create else Delete));
        log == old(log) + events && out == o
      ensures lc.labels == old(lc.labels)
    {
      if Common.IsLoggingEnabled(lc.labels) {
        out := ReconcileCreate(lc, agent, bundle);
      } else {
        out := ReconcileDelete(lc, agent, bundle);
      }
    }

    /**
     * `CapiClusterReconciler.Reconcile`: a cluster that is not found is done
     * with; any other lookup error is returned; otherwise as `Reconcile`.
     */
    method ReconcileRequest(fetched: Option<Error>, lc: ClusterObject, agent: LoggedCluster.LoggingAgent,
                            bundle: Result<Semver.SemVer>) returns (out: Outcome)
      modifies this, lc, agent
      ensures fetched == Some(NotFound) ==> out == Done && log == old(log)
      ensures fetched.Some? && fetched != Some(NotFound) ==> out == Outcome(ZeroResult, fetched) && log == old(log)
      ensures fetched.Some? ==> lc.finalizers == old(lc.finalizers)
      ensures fetched.None? ==>
        var trace := if Common.IsLoggingEnabled(old(lc.labels)) then CreateTrace else DeleteTrace;
        var (events, o) := trace(old(lc.finalizers), helperErr, patchErr, LookupError(bundle),
                                 Outcomes(reconcilers, if Common.IsLoggingEnabled(old(lc.labels)) then Create else Delete));
        log == old(log) + events && out == o
    {
      if fetched.Some? {
        if fetched == Some(NotFound) {
          return Done;
        }
        return Outcome(ZeroResult, fetched);
      }
      out := Reconcile(lc, agent, bundle);
    }
  }

  /** Whether the older cluster controller tears logging down: label off, or the cluster being deleted. */
  predicate Disabled(cluster: ClusterHelpers.Cluster)
  {
    !ClusterHelpers.IsLoggingEnabled(cluster) || cluster.deleting
  }

  /**
   * The calls the older cluster controller's `Reconcile` makes and the error
   * it returns: the finalizer is updated onto (or off) the object when needed,
   * and on create the sub-reconcilers run until the first error.
   */
  function ClusterTrace(cluster: ClusterHelpers.Cluster, fs: seq<string>, updateErr: Option<Error>,
                        outs: seq<Outcome>): (seq<Event>, Option<Error>)
  {
    if Disabled(cluster) then
      if Key.Finalizer in fs then ([Update(Finalizers.Remove(fs, Key.Finalizer))], updateErr) else ([], None)
    else if Key.Finalizer !in fs && updateErr.Some? then ([Update(Finalizers.Add(fs, Key.Finalizer))], updateErr)
    else
      var update := if Key.Finalizer in fs then [] else [Update(Finalizers.Add(fs, Key.Finalizer))];
      (update + Runs(Create, Called(outs, false)), Chained(outs, false).err)
  }

  /**
   * The older controller ignores what the sub-reconcilers return apart from
   * errors: changing only their results changes neither its calls nor its error.
   */
  lemma ClusterIgnoresResults(cluster: ClusterHelpers.Cluster, fs: seq<string>, updateErr: Option<Error>,
                              outs: seq<Outcome>, others: seq<Outcome>)
    requires |others| == |outs| && forall i :: 0 <= i < |outs| ==> others[i].err == outs[i].err
    ensures ClusterTrace(cluster, fs, updateErr, others) == ClusterTrace(cluster, fs, updateErr, outs)
  {
    FirstStopSameErrors(outs, others, 0);
  }

  lemma {:induction false} FirstStopSameErrors(outs: seq<Outcome>, others: seq<Outcome>, i: nat)
    requires |others| == |outs| && i <= |outs|
    requires forall j :: 0 <= j < |outs| ==> others[j].err == outs[j].err
    ensures FirstStop(others, i, false) == FirstStop(outs, i, false)
    ensures FirstStop(outs, i, false) < |outs| ==> others[FirstStop(outs, i, false)].err == outs[FirstStop(outs, i, false)].err
    decreases |outs| - i
  {
    if i < |outs| && !Stops(outs[i], false) {
      FirstStopSameErrors(outs, others, i + 1);
    }
  }

  /**
   * Tearing down never calls a sub-reconciler; it only updates the finalizer
   * off an object that carries it, leaving its other finalizers.
   */
  lemma ClusterDeleteOnlyDropsFinalizer(cluster: ClusterHelpers.Cluster, fs: seq<string>, updateErr: Option<Error>,
                                        outs: seq<Outcome>)
    requires Disabled(cluster)
    ensures var (events, err) := ClusterTrace(cluster, fs, updateErr, outs);
      && (Key.Finalizer in fs <==> |events| == 1)
      && (Key.Finalizer !in fs ==> events == [] && err.None?)
      && forall j :: 0 <= j < |events| ==>
           events[j].Update? && forall y :: y in events[j].finalizers <==> y in fs && y != Key.Finalizer
  {
  }

  /**
   * Setting logging up: the finalizer update, when one is needed, precedes
   * every sub-reconciler and its failure stops the pass; success means every
   * sub-reconciler ran without error.
   */
  lemma ClusterCreateFinalizerFirst(cluster: ClusterHelpers.Cluster, fs: seq<string>, updateErr: Option<Error>,
                                    outs: seq<Outcome>)
    requires !Disabled(cluster)
    ensures var (events, err) := ClusterTrace(cluster, fs, updateErr, outs);
      && (forall j :: 0 <= j < |events| && events[j].Run? ==>
            (Key.Finalizer in fs || (0 < j && events[0] == Update(Finalizers.Add(fs, Key.Finalizer)) && updateErr.None?)))
      && (err.None? <==> (Key.Finalizer in fs || updateErr.None?) && forall j :: 0 <= j < |outs| ==> outs[j].err.None?)
  {
    ChainedSucceedsIff(outs, false);
  }

  /**
   * The older cluster controller: its sub-reconcilers, the error `Update`
   * reports, and the log of calls made.
   */
  class ClusterReconciler {
    const reconcilers: seq<SubReconciler>
    const updateErr: Option<Error>
    var log: seq<Event>

    constructor (reconcilers: seq<SubReconciler>, updateErr: Option<Error>)
      ensures this.reconcilers == reconcilers && this.updateErr == updateErr && log == []
    {
      this.reconcilers := reconcilers;
      this.updateErr := updateErr;
      log := [];
    }

    /** create.go's loop: results are ignored, the first error stops it. */
    method RunCreates() returns (err: Option<Error>)
      modifies this
      ensures log == old(log) + Runs(Create, Called(Outcomes(reconcilers, Create), false))
      ensures err == Chained(Outcomes(reconcilers, Create), false).err
    {
      ghost var outs := Outcomes(reconcilers, Create);
      var i := 0;
      while i < |reconcilers|
        invariant 0 <= i <= |reconcilers|
        invariant FirstStop(outs, i, false) == FirstStop(outs, 0, false)
        invariant log == old(log) + Runs(Create, i)
      {
        var o := reconcilers[i].onCreate;
        log := log + [Run(Create, i)];
        assert Runs(Create, i) + [Run(Create, i)] == Runs(Create, i + 1);
        if o.err.Some? {
          return o.err;
        }
        i := i + 1;
      }
      return None;
    }

    /** `reconcileCreate` of create.go. */
    method ReconcileCreate(cluster: ClusterHelpers.Cluster, fs: seq<string>) returns (out: Outcome)
      modifies this
      requires !Disabled(cluster)
      ensures var (events, err) := ClusterTrace(cluster, fs, updateErr, Outcomes(reconcilers, Create));
        log == old(log) + events && out == Outcome(ZeroResult, err)
    {
      if Key.Finalizer !in fs {
        log := log + [Update(Finalizers.Add(fs, Key.Finalizer))];
        if updateErr.Some? {
          return Outcome(ZeroResult, updateErr);
        }
      }
      var err := RunCreates();
      return Outcome(ZeroResult, err);
    }

    /** `reconcileDelete` of delete.go. */
    method ReconcileDelete(cluster: ClusterHelpers.Cluster, fs: seq<string>) returns (out: Outcome)
      modifies this
      requires Disabled(cluster)
      ensures var (events, err) := ClusterTrace(cluster, fs, updateErr, Outcomes(reconcilers, Delete));
        log == old(log) + events && out == Outcome(ZeroResult, err)
    {
      if Key.Finalizer in fs {
        log := log + [Update(Finalizers.Remove(fs, Key.Finalizer))];
        return Outcome(ZeroResult, updateErr);
      }
      return Done;
    }

    /**
     * `Reconcile` of cluster_controller.go: every lookup error is returned,
     * not-found included; the sub-path's result is discarded.
     */
    method Reconcile(fetched: Option<Error>, cluster: ClusterHelpers.Cluster, fs: seq<string>) returns (out: Outcome)
      modifies this
      ensures fetched.Some? ==> out == Outcome(ZeroResult, fetched) && log == old(log)
      ensures fetched.None? ==>
        var (events, err) := ClusterTrace(cluster, fs, updateErr, Outcomes(reconcilers, Create));
        log == old(log) + events && out == Outcome(ZeroResult, err)
    {
      if fetched.Some? {
        return Outcome(ZeroResult, fetched);
      }
      if Disabled(cluster) {
        out := ReconcileDelete(cluster, fs);
      } else {
        out := ReconcileCreate(cluster, fs);
      }
      return Outcome(ZeroResult, out.err);
    }
  }
}

/** main.go's `StringSliceVar`: a comma-separated command-line flag. */
module Flags {
  import opened Kube
  import Strings

  class StringSliceVar {
    var values: seq<string>

    constructor ()
      ensures values == []
    {
      values := [];
    }

    /** `String`: the values joined with commas; splitting it gives them back when none holds a comma. */
    function String(): (r: string)
      reads this
      ensures |values| >= 1 && (forall i :: 0 <= i < |values| ==> ',' !in values[i]) ==> Strings.Split(r, ',') == values
    {
      var joined := Strings.Join(values, ',');
      assert |values| >= 1 && (forall i :: 0 <= i < |values| ==> ',' !in values[i]) ==> Strings.Split(joined, ',') == values by {
        if |values| >= 1 && (forall i :: 0 <= i < |values| ==> ',' !in values[i]) {
          Strings.SplitJoin(values, ',');
        }
      }
      joined
    }

    /**
     * `Set`: the whole list is replaced by the comma-separated parts of
     * `value` (one part more than there are commas, so "" gives [""]), and
     * `String` then gives `value` back. It never fails.
     */
    method Set(value: string) returns (err: Option<Error>)
      modifies this
      ensures values == Strings.Split(value, ',')
      ensures |values| == Strings.CountChar(value, ',') + 1
      ensures forall i :: 0 <= i < |values| ==> ',' !in values[i]
      ensures String() == value
      ensures err.None?
    {
      values := Strings.Split(value, ',');
      Strings.SplitShape(value, ',');
      Strings.JoinSplit(value, ',');
      return None;
    }
  }
}
