/** What the RouteMonitor steps guarantee, stated on their specification functions. */
module RouteMonitorProperties {
  import opened Kube
  import opened ServiceMonitors
  import opened RouteMonitorSteps

  /** Every reference the monitor holds names an object the store holds. */
  ghost predicate RefsBacked(c: Cluster, m: RouteMonitor) {
    && (m.status.serviceMonitorRef != Absent ==> Key(ServiceMonitorKind, m.status.serviceMonitorRef) in c.objects)
    && (m.status.prometheusRuleRef != Absent ==> Key(PrometheusRuleKind, m.status.prometheusRuleRef) in c.objects)
  }

  /** The monitor the store holds once `x` was sent to be persisted and the persisting call
      returned `persisted`: `x`, unless the call reported a failure. */
  function Held(persisted: Signal, m: RouteMonitor, x: RouteMonitor): RouteMonitor {
    if persisted.Requeue? then m else x
  }

  /** No ServiceMonitor or PrometheusRule was created or updated. */
  ghost predicate NothingWritten(ws: seq<Write>) {
    forall w :: w in ws ==> !w.Created? && !w.Updated?
  }

  // ---------------------------------------------------------------------------------------
  // Converging a derived object and referencing it

  /** A failed write requeues before the reference is touched.  After a successful one the
      object holds the desired spec, the monitor the store holds references it, and the status
      was persisted only when the reference changed. */
  lemma ReferenceServiceMonitorOutcome(c: Cluster, env: Collaborators, m: RouteMonitor, desired: Object)
    requires desired.Id() == Key(ServiceMonitorKind, m.Id())
    ensures var w := CreateOrUpdate(c, desired);
            var r := ReferenceServiceMonitor(c, env, m, desired);
            && (w.err.Some? ==> r == StepOutcome(Requeue(w.err.value), w.cluster))
            && (w.err.None? ==>
                  && desired.Id() in r.cluster.objects
                  && r.cluster.objects[desired.Id()].spec == desired.spec
                  && MonitorAfter(c, r.cluster, m, env.persisted) == Held(env.persisted, m, WithServiceMonitorRef(m, m.Id()))
                  && (m.status.serviceMonitorRef == m.Id() ==> r == StepOutcome(Continue, w.cluster))
                  && (m.status.serviceMonitorRef != m.Id() ==>
                        r == UpdateMonitorResourceStatus(w.cluster, env, WithServiceMonitorRef(m, m.Id()))))
  {
    var w := CreateOrUpdate(c, desired);
    if w.err.None? {
      if m.status.serviceMonitorRef == m.Id() {
        NothingPersisted(c, w.cluster, m, env.persisted);
        assert WithServiceMonitorRef(m, m.Id()) == m;
      } else {
        PersistedLast(c, w.cluster, m, WithServiceMonitorRef(m, m.Id()), env.persisted);
      }
    }
  }

  /** On a fault-free store, converging again on the monitor the step persisted issues no write
      and continues; a retry from the monitor as it was, after the persist failed, writes no
      object and sends the same status again. */
  lemma {:induction false} ReferenceServiceMonitorIdempotent(c: Cluster, env: Collaborators, m: RouteMonitor, desired: Object)
    requires c.faults == map[]
    ensures var r := ReferenceServiceMonitor(c, env, m, desired);
            var m' := WithServiceMonitorRef(m, m.Id());
            && MonitorAfter(c, r.cluster, m, env.persisted) == Held(env.persisted, m, m')
            && ReferenceServiceMonitor(r.cluster, env, m', desired) == StepOutcome(Continue, r.cluster)
            && ReferenceServiceMonitor(r.cluster, env, m, desired)
               == if m.status.serviceMonitorRef == m.Id() then StepOutcome(Continue, r.cluster)
                  else UpdateMonitorResourceStatus(r.cluster, env, m')
  {
    var w := CreateOrUpdate(c, desired);
    var r := ReferenceServiceMonitor(c, env, m, desired);
    var m' := WithServiceMonitorRef(m, m.Id());
    CreateOrUpdateSucceedsWithoutFaults(c, desired);
    CreateOrUpdateIdempotent(c, desired);
    if m.status.serviceMonitorRef != m.Id() {
      assert r.cluster == Log(w.cluster, MonitorStatusUpdated(m'));
      CreateOrUpdateIgnoresLog(w.cluster, MonitorStatusUpdated(m'), desired);
      PersistedLast(c, w.cluster, m, m', env.persisted);
    } else {
      assert r.cluster == w.cluster;
      NothingPersisted(c, w.cluster, m, env.persisted);
      assert m' == m;
    }
  }

  /** Converging keeps every reference backed: objects are only added or overwritten, and the
      new reference names the object just written. */
  lemma ReferenceServiceMonitorKeepsRefsBacked(c: Cluster, env: Collaborators, m: RouteMonitor, desired: Object)
    requires RefsBacked(c, m)
    requires desired.Id() == Key(ServiceMonitorKind, m.Id())
    ensures var r := ReferenceServiceMonitor(c, env, m, desired);
            RefsBacked(r.cluster, MonitorAfter(c, r.cluster, m, env.persisted))
  {
    var w := CreateOrUpdate(c, desired);
    if w.err.Some? {
      NothingPersisted(c, w.cluster, m, env.persisted);
    } else {
      ReferenceServiceMonitorOutcome(c, env, m, desired);
      KeysKept(c, w.cluster, desired.Id());
      assert ReferenceServiceMonitor(c, env, m, desired).cluster.objects == w.cluster.objects;
    }
  }

  /** The PrometheusRule counterpart of ReferenceServiceMonitorOutcome. */
  lemma ReferencePrometheusRuleOutcome(c: Cluster, env: Collaborators, m: RouteMonitor, template: Object)
    requires template.Id() == Key(PrometheusRuleKind, m.Id())
    ensures var w := CreateOrUpdate(c, template);
            var r := ReferencePrometheusRule(c, env, m, template);
            && (w.err.Some? ==> r == StepOutcome(Requeue(w.err.value), w.cluster))
            && (w.err.None? ==>
                  && template.Id() in r.cluster.objects
                  && r.cluster.objects[template.Id()].spec == template.spec
                  && MonitorAfter(c, r.cluster, m, env.persisted) == Held(env.persisted, m, WithPrometheusRuleRef(m, m.Id()))
                  && (m.status.prometheusRuleRef == m.Id() ==> r == StepOutcome(Continue, w.cluster))
                  && (m.status.prometheusRuleRef != m.Id() ==>
                        r == UpdateMonitorResourceStatus(w.cluster, env, WithPrometheusRuleRef(m, m.Id()))))
  {
    var w := CreateOrUpdate(c, template);
    if w.err.None? {
      if m.status.prometheusRuleRef == m.Id() {
        NothingPersisted(c, w.cluster, m, env.persisted);
        assert WithPrometheusRuleRef(m, m.Id()) == m;
      } else {
        PersistedLast(c, w.cluster, m, WithPrometheusRuleRef(m, m.Id()), env.persisted);
      }
    }
  }

  /** The PrometheusRule counterpart of ReferenceServiceMonitorIdempotent. */
  lemma {:induction false} ReferencePrometheusRuleIdempotent(c: Cluster, env: Collaborators, m: RouteMonitor, template: Object)
    requires c.faults == map[]
    ensures var r := ReferencePrometheusRule(c, env, m, template);
            var m' := WithPrometheusRuleRef(m, m.Id());
            && MonitorAfter(c, r.cluster, m, env.persisted) == Held(env.persisted, m, m')
            && ReferencePrometheusRule(r.cluster, env, m', template) == StepOutcome(Continue, r.cluster)
            && ReferencePrometheusRule(r.cluster, env, m, template)
               == if m.status.prometheusRuleRef == m.Id() then StepOutcome(Continue, r.cluster)
                  else UpdateMonitorResourceStatus(r.cluster, env, m')
  {
    var w := CreateOrUpdate(c, template);
    var r := ReferencePrometheusRule(c, env, m, template);
    var m' := WithPrometheusRuleRef(m, m.Id());
    CreateOrUpdateSucceedsWithoutFaults(c, template);
    CreateOrUpdateIdempotent(c, template);
    if m.status.prometheusRuleRef != m.Id() {
      assert r.cluster == Log(w.cluster, MonitorStatusUpdated(m'));
      CreateOrUpdateIgnoresLog(w.cluster, MonitorStatusUpdated(m'), template);
      PersistedLast(c, w.cluster, m, m', env.persisted);
    } else {
      assert r.cluster == w.cluster;
      NothingPersisted(c, w.cluster, m, env.persisted);
      assert m' == m;
    }
  }

  /** The PrometheusRule counterpart of ReferenceServiceMonitorKeepsRefsBacked. */
  lemma ReferencePrometheusRuleKeepsRefsBacked(c: Cluster, env: Collaborators, m: RouteMonitor, template: Object)
    requires RefsBacked(c, m)
    requires template.Id() == Key(PrometheusRuleKind, m.Id())
    ensures var r := ReferencePrometheusRule(c, env, m, template);
            RefsBacked(r.cluster, MonitorAfter(c, r.cluster, m, env.persisted))
  {
    var w := CreateOrUpdate(c, template);
    if w.err.Some? {
      NothingPersisted(c, w.cluster, m, env.persisted);
    } else {
      ReferencePrometheusRuleOutcome(c, env, m, template);
      KeysKept(c, w.cluster, template.Id());
      assert ReferencePrometheusRule(c, env, m, template).cluster.objects == w.cluster.objects;
    }
  }

  // ---------------------------------------------------------------------------------------
  // PrometheusRule gating

  /** The clean-up path shared by the skip flag and the empty SLO: a failed delete requeues
      and leaves the reference alone; otherwise the reference is cleared, and the status is
      persisted only when that changed it. */
  lemma ClearPrometheusRuleOutcome(c: Cluster, env: Collaborators, m: RouteMonitor, otherwise: Signal)
    ensures var d := EnsureAbsent(c, PrometheusRuleKind, m.status.prometheusRuleRef);
            var r := ClearPrometheusRule(c, env, m, otherwise);
            && NothingWritten(NewWrites(c, r.cluster))
            && (d.err.Some? ==> r == StepOutcome(Requeue(d.err.value), d.cluster))
            && (d.err.None? && m.status.prometheusRuleRef == Absent ==> r == StepOutcome(otherwise, c))
            && (d.err.None? && m.status.prometheusRuleRef != Absent ==>
                  r == UpdateMonitorResourceStatus(d.cluster, env, WithPrometheusRuleRef(m, Absent)))
  {
    var d := EnsureAbsent(c, PrometheusRuleKind, m.status.prometheusRuleRef);
    var r := ClearPrometheusRule(c, env, m, otherwise);
    if d.err.Some? {
      assert r.cluster == d.cluster;
    } else if m.status.prometheusRuleRef == Absent {
      EnsureAbsentUnsetRef(c, PrometheusRuleKind, Absent);
      assert r == StepOutcome(otherwise, c);
    } else {
      var x := WithPrometheusRuleRef(m, Absent);
      assert r.cluster == Log(d.cluster, MonitorStatusUpdated(x));
      ExtendsTransitive(c, d.cluster, r.cluster);
      assert NewWrites(d.cluster, r.cluster) == [MonitorStatusUpdated(x)];
    }
  }

  /** With the skip flag set the rule is cleaned up and the step continues. */
  lemma PrometheusRuleSkipped(c: Cluster, env: Collaborators, m: RouteMonitor)
    requires m.spec.skipPrometheusRule
    ensures PrometheusRuleStep(c, env, m) == ClearPrometheusRule(c, env, m, Continue)
    ensures NothingWritten(NewWrites(c, PrometheusRuleStep(c, env, m).cluster))
  {
    ClearPrometheusRuleOutcome(c, env, m, Continue);
  }

  /** A changed error status is persisted before any rule is deleted or written. */
  lemma PrometheusRuleErrorStatusFirst(c: Cluster, env: Collaborators, m: RouteMonitor)
    requires !m.spec.skipPrometheusRule
    requires var parsed := env.parseSlo(m.status.routeURL, m.spec.slo);
             SetErrorStatus(m.status.errorStatus, parsed.err).1
    ensures var parsed := env.parseSlo(m.status.routeURL, m.spec.slo);
            var text := SetErrorStatus(m.status.errorStatus, parsed.err).0;
            var r := PrometheusRuleStep(c, env, m);
            && r.signal == env.persisted
            && NewWrites(c, r.cluster) == [MonitorStatusUpdated(m.(status := m.status.(errorStatus := text)))]
  {
  }

  /** An SLO that parses to nothing takes the clean-up path, but stops instead of continuing. */
  lemma PrometheusRuleEmptySlo(c: Cluster, env: Collaborators, m: RouteMonitor)
    requires !m.spec.skipPrometheusRule
    requires var parsed := env.parseSlo(m.status.routeURL, m.spec.slo);
             !SetErrorStatus(m.status.errorStatus, parsed.err).1 && parsed.expr == ""
    ensures PrometheusRuleStep(c, env, m) == ClearPrometheusRule(c, env, m, Stop)
    ensures m.status.prometheusRuleRef == Absent ==> PrometheusRuleStep(c, env, m) == StepOutcome(Stop, c)
  {
    var parsed := env.parseSlo(m.status.routeURL, m.spec.slo);
    assert m.(status := m.status.(errorStatus := SetErrorStatus(m.status.errorStatus, parsed.err).0)) == m;
  }

  /** A rendered SLO is written first; a failed write requeues before the reference is touched,
      a successful one leaves the rule in the store and the reference pointing at the monitor's
      own name, persisted only when it changed. */
  lemma PrometheusRuleRendered(c: Cluster, env: Collaborators, m: RouteMonitor)
    requires !m.spec.skipPrometheusRule
    requires var parsed := env.parseSlo(m.status.routeURL, m.spec.slo);
             !SetErrorStatus(m.status.errorStatus, parsed.err).1 && parsed.expr != ""
    ensures var parsed := env.parseSlo(m.status.routeURL, m.spec.slo);
            var w := CreateOrUpdate(c, PrometheusRuleTemplate(m.status.routeURL, parsed.expr, m.Id()));
            var r := PrometheusRuleStep(c, env, m);
            && (w.err.Some? ==> r == StepOutcome(Requeue(w.err.value), w.cluster))
            && (w.err.None? ==>
                  && Key(PrometheusRuleKind, m.Id()) in r.cluster.objects
                  && r.cluster.objects[Key(PrometheusRuleKind, m.Id())].spec == PrometheusRuleSpec(m.status.routeURL, parsed.expr)
                  && MonitorAfter(c, r.cluster, m, env.persisted) == Held(env.persisted, m, WithPrometheusRuleRef(m, m.Id()))
                  && (m.status.prometheusRuleRef == m.Id() ==> r == StepOutcome(Continue, w.cluster))
                  && (m.status.prometheusRuleRef != m.Id() ==>
                        r == UpdateMonitorResourceStatus(w.cluster, env, WithPrometheusRuleRef(m, m.Id()))))
  {
    var parsed := env.parseSlo(m.status.routeURL, m.spec.slo);
    var t := PrometheusRuleTemplate(m.status.routeURL, parsed.expr, m.Id());
    assert m.(status := m.status.(errorStatus := SetErrorStatus(m.status.errorStatus, parsed.err).0)) == m;
    assert PrometheusRuleStep(c, env, m) == ReferencePrometheusRule(c, env, m, t);
    ReferencePrometheusRuleOutcome(c, env, m, t);
  }

  /** On a fault-free store the clean-up path converges: run again on the monitor it persisted,
      it issues no write and ends as it would with nothing to clear.  After a failed persist,
      the retry from the monitor as it was deletes nothing and sends the cleared reference
      again. */
  lemma {:induction false} ClearPrometheusRuleIdempotent(c: Cluster, env: Collaborators, m: RouteMonitor, otherwise: Signal)
    requires c.faults == map[]
    ensures var r := ClearPrometheusRule(c, env, m, otherwise);
            var m' := WithPrometheusRuleRef(m, Absent);
            && MonitorAfter(c, r.cluster, m, env.persisted) == Held(env.persisted, m, m')
            && ClearPrometheusRule(r.cluster, env, m', otherwise) == StepOutcome(otherwise, r.cluster)
            && ClearPrometheusRule(r.cluster, env, m, otherwise)
               == if m.status.prometheusRuleRef == Absent then StepOutcome(otherwise, r.cluster)
                  else UpdateMonitorResourceStatus(r.cluster, env, m')
  {
    var ref := m.status.prometheusRuleRef;
    var d := EnsureAbsent(c, PrometheusRuleKind, ref);
    var r := ClearPrometheusRule(c, env, m, otherwise);
    EnsureAbsentSucceedsWithoutFaults(c, PrometheusRuleKind, ref);
    if ref != Absent {
      var m' := WithPrometheusRuleRef(m, Absent);
      assert r.cluster == Log(d.cluster, MonitorStatusUpdated(m'));
      PersistedLast(c, d.cluster, m, m', env.persisted);
      EnsureAbsentUnsetRef(r.cluster, PrometheusRuleKind, Absent);
      EnsureAbsentSucceedsWithoutFaults(r.cluster, PrometheusRuleKind, ref);
      EnsureAbsentGone(r.cluster, PrometheusRuleKind, ref);
    } else {
      assert r.cluster == d.cluster == c;
      NothingPersisted(c, c, m, env.persisted);
      assert WithPrometheusRuleRef(m, Absent) == m;
    }
  }

  /** Making a key absent that the store no longer holds issues no write. */
  lemma EnsureAbsentGone(c: Cluster, kind: Kind, ref: NamespacedName)
    requires c.faults == map[]
    requires ref.name != "" && ref.namespace != "" ==> Key(kind, ref) !in c.objects
    ensures EnsureAbsent(c, kind, ref) == Effect(c, None)
  {
    if ref.name == "" || ref.namespace == "" {
      EnsureAbsentUnsetRef(c, kind, ref);
    } else {
      EnsureAbsentSetRef(c, kind, ref);
    }
  }

  /** On a fault-free store the rendered path converges: run again on the monitor the store
      holds, it issues no write and continues, unless the persist failed, in which case the retry
      writes no object and sends the same reference again. */
  lemma {:induction false} PrometheusRuleRenderedIdempotent(c: Cluster, env: Collaborators, m: RouteMonitor)
    requires c.faults == map[]
    requires !m.spec.skipPrometheusRule
    requires var parsed := env.parseSlo(m.status.routeURL, m.spec.slo);
             !SetErrorStatus(m.status.errorStatus, parsed.err).1 && parsed.expr != ""
    ensures var r := PrometheusRuleStep(c, env, m);
            PrometheusRuleStep(r.cluster, env, MonitorAfter(c, r.cluster, m, env.persisted))
            == if env.persisted.Requeue? && m.status.prometheusRuleRef != m.Id()
               then UpdateMonitorResourceStatus(r.cluster, env, WithPrometheusRuleRef(m, m.Id()))
               else StepOutcome(Continue, r.cluster)
  {
    var parsed := env.parseSlo(m.status.routeURL, m.spec.slo);
    var t := PrometheusRuleTemplate(m.status.routeURL, parsed.expr, m.Id());
    assert m.(status := m.status.(errorStatus := SetErrorStatus(m.status.errorStatus, parsed.err).0)) == m;
    var r := PrometheusRuleStep(c, env, m);
    assert r == ReferencePrometheusRule(c, env, m, t);
    ReferencePrometheusRuleIdempotent(c, env, m, t);
    var m' := WithPrometheusRuleRef(m, m.Id());
    assert m'.(status := m'.status.(errorStatus := SetErrorStatus(m'.status.errorStatus, parsed.err).0)) == m';
    assert PrometheusRuleStep(r.cluster, env, m') == ReferencePrometheusRule(r.cluster, env, m', t);
    assert PrometheusRuleStep(r.cluster, env, m) == ReferencePrometheusRule(r.cluster, env, m, t);
  }

  /** Once the error status has settled, re-running the step on a fault-free store from the
      monitor the store holds changes no derived object; when the persist succeeded it issues no
      write at all and does not requeue. */
  lemma {:induction false} PrometheusRuleIdempotent(c: Cluster, env: Collaborators, m: RouteMonitor)
    requires c.faults == map[]
    requires !SetErrorStatus(m.status.errorStatus, env.parseSlo(m.status.routeURL, m.spec.slo).err).1
    ensures var r := PrometheusRuleStep(c, env, m);
            var r2 := PrometheusRuleStep(r.cluster, env, MonitorAfter(c, r.cluster, m, env.persisted));
            && r2.cluster.objects == r.cluster.objects
            && (!env.persisted.Requeue? ==> r2.cluster == r.cluster && (r2.signal == Continue || r2.signal == Stop))
  {
    var r := PrometheusRuleStep(c, env, m);
    var parsed := env.parseSlo(m.status.routeURL, m.spec.slo);
    assert m.(status := m.status.(errorStatus := SetErrorStatus(m.status.errorStatus, parsed.err).0)) == m;
    if m.spec.skipPrometheusRule || parsed.expr == "" {
      var otherwise := if m.spec.skipPrometheusRule then Continue else Stop;
      assert r == ClearPrometheusRule(c, env, m, otherwise);
      ClearPrometheusRuleIdempotent(c, env, m, otherwise);
      var m' := MonitorAfter(c, r.cluster, m, env.persisted);
      assert m'.(status := m'.status.(errorStatus := SetErrorStatus(m'.status.errorStatus, parsed.err).0)) == m';
      assert PrometheusRuleStep(r.cluster, env, m') == ClearPrometheusRule(r.cluster, env, m', otherwise);
    } else {
      PrometheusRuleRenderedIdempotent(c, env, m);
    }
  }

  // ---------------------------------------------------------------------------------------
  // ServiceMonitor

  /** Without a route URL the step requeues with NoHost, and without a cluster ID with the
      error fetching it returned, before anything is written. */
  lemma ServiceMonitorNeedsHost(c: Cluster, env: Collaborators, m: RouteMonitor)
    ensures m.status.routeURL == "" ==> ServiceMonitorStep(c, env, m) == StepOutcome(Requeue(NoHost), c)
    ensures m.status.routeURL != "" && env.clusterID.Err? ==>
              ServiceMonitorStep(c, env, m) == StepOutcome(Requeue(env.clusterID.error), c)
  {
  }

  /** With a host and a cluster ID, a failed write requeues before the reference is touched;
      after a successful one the ServiceMonitor holds the desired spec and the reference names
      the monitor itself, persisted only when it changed. */
  lemma ServiceMonitorRefFollowsWrite(c: Cluster, env: Collaborators, m: RouteMonitor)
    requires m.status.routeURL != "" && env.clusterID.Ok?
    ensures var desired := DesiredServiceMonitor(m.status.routeURL, env.exporterNamespace, m.Id(), env.clusterID.value, false);
            var w := CreateOrUpdate(c, desired);
            var r := ServiceMonitorStep(c, env, m);
            && (w.err.Some? ==> r == StepOutcome(Requeue(w.err.value), w.cluster))
            && (w.err.None? ==>
                  && Key(ServiceMonitorKind, m.Id()) in r.cluster.objects
                  && r.cluster.objects[Key(ServiceMonitorKind, m.Id())].spec == desired.spec
                  && MonitorAfter(c, r.cluster, m, env.persisted) == Held(env.persisted, m, WithServiceMonitorRef(m, m.Id()))
                  && (m.status.serviceMonitorRef == m.Id() ==> r == StepOutcome(Continue, w.cluster))
                  && (m.status.serviceMonitorRef != m.Id() ==>
                        r == UpdateMonitorResourceStatus(w.cluster, env, WithServiceMonitorRef(m, m.Id()))))
  {
    var desired := DesiredServiceMonitor(m.status.routeURL, env.exporterNamespace, m.Id(), env.clusterID.value, false);
    ReferenceServiceMonitorOutcome(c, env, m, desired);
  }

  /** On a fault-free store, re-running the step from the monitor the store holds changes no
      derived object; when the persist succeeded it issues no write at all. */
  lemma {:induction false} ServiceMonitorIdempotent(c: Cluster, env: Collaborators, m: RouteMonitor)
    requires c.faults == map[]
    ensures var r := ServiceMonitorStep(c, env, m);
            var r2 := ServiceMonitorStep(r.cluster, env, MonitorAfter(c, r.cluster, m, env.persisted));
            && r2.cluster.objects == r.cluster.objects
            && (!env.persisted.Requeue? ==> r2.cluster == r.cluster)
            && (!env.persisted.Requeue? && m.status.routeURL != "" && env.clusterID.Ok? ==> r2.signal == Continue)
  {
    var r := ServiceMonitorStep(c, env, m);
    if m.status.routeURL != "" && env.clusterID.Ok? {
      var desired := DesiredServiceMonitor(m.status.routeURL, env.exporterNamespace, m.Id(), env.clusterID.value, false);
      ReferenceServiceMonitorIdempotent(c, env, m, desired);
      var m' := WithServiceMonitorRef(m, m.Id());
      assert ServiceMonitorStep(r.cluster, env, m') == ReferenceServiceMonitor(r.cluster, env, m', desired);
      assert ServiceMonitorStep(r.cluster, env, m) == ReferenceServiceMonitor(r.cluster, env, m, desired);
    } else {
      assert r.cluster == c;
      NothingPersisted(c, c, m, env.persisted);
    }
  }

  // ---------------------------------------------------------------------------------------
  // Deletion cascade

  /** The write a stage issues when it gets that far: one, or none. */
  function Maybe(issued: bool, w: Write): seq<Write> {
    if issued then [w] else []
  }

  /** Releasing the finalizer: with the current key there, the monitor is persisted without the
      current and the legacy key and nothing else, and the step returns what persisting it
      returned; without it nothing is written and the reconcile stops. */
  lemma ReleaseFinalizerOutcome(c: Cluster, env: Collaborators, keys: FinalizerKeys, m: RouteMonitor)
    ensures var r := ReleaseFinalizer(c, env, keys, m);
            var x := m.(finalizers := Without(Without(m.finalizers, keys.current), keys.legacy));
            && NewWrites(c, r.cluster) == Maybe(keys.current in m.finalizers, MonitorUpdated(x))
            && (keys.current in m.finalizers ==>
                  r.signal == env.persisted && MonitorAfter(c, r.cluster, m, env.persisted) == Held(env.persisted, m, x))
            && (keys.current !in m.finalizers ==> r == StepOutcome(Stop, c))
  {
    var x := m.(finalizers := Without(Without(m.finalizers, keys.current), keys.legacy));
    if keys.current in m.finalizers {
      PersistedLast(c, c, m, x, env.persisted);
      assert NewWrites(c, Log(c, MonitorUpdated(x))) == [MonitorUpdated(x)];
    }
  }

  /** Both delete stages of the cascade come through. */
  ghost predicate DeletesSucceed(c: Cluster, m: RouteMonitor) {
    var s := EnsureAbsent(c, ServiceMonitorKind, m.status.serviceMonitorRef);
    s.err.None? && EnsureAbsent(s.cluster, PrometheusRuleKind, m.status.prometheusRuleRef).err.None?
  }

  /** The exporter check, and the teardown when it is due, come through. */
  ghost predicate ExporterSucceeds(env: Collaborators) {
    env.shouldDeleteExporter.Ok? && (env.shouldDeleteExporter.value ==> env.exporterAbsentErr.None?)
  }

  /** The writes of the delete stages: the ServiceMonitor delete, the PrometheusRule delete and
      the finalizer release, in this order and each at most once.  Only an object the store held
      is deleted, and the release happens only once both referenced objects are gone. */
  lemma DeleteDependentsOrder(c: Cluster, env: Collaborators, keys: FinalizerKeys, m: RouteMonitor)
    returns (smDeleted: bool, prDeleted: bool, released: bool)
    ensures var r := DeleteDependents(c, env, keys, m);
            NewWrites(c, r.cluster)
            == Maybe(smDeleted, Deleted(Key(ServiceMonitorKind, m.status.serviceMonitorRef)))
               + Maybe(prDeleted, Deleted(Key(PrometheusRuleKind, m.status.prometheusRuleRef)))
               + Maybe(released, MonitorUpdated(m.(finalizers := Without(Without(m.finalizers, keys.current), keys.legacy))))
    ensures smDeleted ==> Key(ServiceMonitorKind, m.status.serviceMonitorRef) in c.objects
    ensures released <==> DeletesSucceed(c, m) && keys.current in m.finalizers
    ensures var r := DeleteDependents(c, env, keys, m);
            released ==>
              && (m.status.serviceMonitorRef.name != "" && m.status.serviceMonitorRef.namespace != ""
                  ==> Key(ServiceMonitorKind, m.status.serviceMonitorRef) !in r.cluster.objects)
              && (m.status.prometheusRuleRef.name != "" && m.status.prometheusRuleRef.namespace != ""
                  ==> Key(PrometheusRuleKind, m.status.prometheusRuleRef) !in r.cluster.objects)
              && keys.current in m.finalizers
              && r.signal == env.persisted
  {
    var r := DeleteDependents(c, env, keys, m);
    var k1 := Key(ServiceMonitorKind, m.status.serviceMonitorRef);
    var k2 := Key(PrometheusRuleKind, m.status.prometheusRuleRef);
    var s := EnsureAbsent(c, ServiceMonitorKind, m.status.serviceMonitorRef);
    smDeleted := NewWrites(c, s.cluster) != [];
    assert NewWrites(c, s.cluster) == Maybe(smDeleted, Deleted(k1));
    if s.err.Some? {
      assert r.cluster == s.cluster && !DeletesSucceed(c, m);
      prDeleted, released := false, false;
      return;
    }
    var p := EnsureAbsent(s.cluster, PrometheusRuleKind, m.status.prometheusRuleRef);
    ExtendsTransitive(c, s.cluster, p.cluster);
    prDeleted := NewWrites(s.cluster, p.cluster) != [];
    assert NewWrites(s.cluster, p.cluster) == Maybe(prDeleted, Deleted(k2));
    if p.err.Some? {
      assert r.cluster == p.cluster && !DeletesSucceed(c, m);
      released := false;
      return;
    }
    assert DeletesSucceed(c, m);
    released := keys.current in m.finalizers;
    assert r == ReleaseFinalizer(p.cluster, env, keys, m);
    ReleaseAfterDeletes(c, s.cluster, p.cluster, env, keys, m,
                        Maybe(smDeleted, Deleted(k1)), Maybe(prDeleted, Deleted(k2)));
    if released {
      DeleteDependentsReleased(c, env, keys, m);
    }
  }

  /** When both deletes came through and the current key is there, both referenced objects are
      gone and the step returns what persisting the released monitor returned. */
  lemma DeleteDependentsReleased(c: Cluster, env: Collaborators, keys: FinalizerKeys, m: RouteMonitor)
    requires DeletesSucceed(c, m) && keys.current in m.finalizers
    ensures var r := DeleteDependents(c, env, keys, m);
            && (m.status.serviceMonitorRef.name != "" && m.status.serviceMonitorRef.namespace != ""
                ==> Key(ServiceMonitorKind, m.status.serviceMonitorRef) !in r.cluster.objects)
            && (m.status.prometheusRuleRef.name != "" && m.status.prometheusRuleRef.namespace != ""
                ==> Key(PrometheusRuleKind, m.status.prometheusRuleRef) !in r.cluster.objects)
            && r.signal == env.persisted
  {
    var s := EnsureAbsent(c, ServiceMonitorKind, m.status.serviceMonitorRef);
    var p := EnsureAbsent(s.cluster, PrometheusRuleKind, m.status.prometheusRuleRef);
    var r := DeleteDependents(c, env, keys, m);
    assert r == ReleaseFinalizer(p.cluster, env, keys, m);
    assert r.cluster.objects == p.cluster.objects;
    assert p.cluster.objects == s.cluster.objects || p.cluster.objects == s.cluster.objects - {Key(PrometheusRuleKind, m.status.prometheusRuleRef)};
  }

  /** The release stage appends its write to those of the two delete stages before it. */
  lemma ReleaseAfterDeletes(c: Cluster, s: Cluster, p: Cluster, env: Collaborators, keys: FinalizerKeys,
                            m: RouteMonitor, smWrites: seq<Write>, prWrites: seq<Write>)
    requires Extends(c, s) && Extends(s, p)
    requires NewWrites(c, s) == smWrites && NewWrites(s, p) == prWrites
    ensures var r := ReleaseFinalizer(p, env, keys, m);
            && NewWrites(c, r.cluster)
               == smWrites + prWrites
                  + Maybe(keys.current in m.finalizers,
                          MonitorUpdated(m.(finalizers := Without(Without(m.finalizers, keys.current), keys.legacy))))
            && r.cluster.objects == p.objects
            && (keys.current in m.finalizers ==> r.signal == env.persisted)
  {
    var r := ReleaseFinalizer(p, env, keys, m);
    ReleaseFinalizerOutcome(p, env, keys, m);
    ExtendsTransitive(c, s, p);
    ExtendsTransitive(c, p, r.cluster);
  }

  /** The cascade's writes are, in this order and each at most once, the exporter teardown, the
      ServiceMonitor delete, the PrometheusRule delete and the finalizer release.  The release
      happens only once the exporter check and both deletes came through and the current key
      was there: both referenced objects are then gone, the persisted monitor lost the current
      and the legacy key and nothing else, and the step returns what persisting it returned. */
  lemma CascadeOrder(c: Cluster, env: Collaborators, keys: FinalizerKeys, m: RouteMonitor)
    returns (exporter: bool, smDeleted: bool, prDeleted: bool, released: bool)
    ensures var r := DependenciesAbsentStep(c, env, keys, m);
            NewWrites(c, r.cluster)
            == Maybe(exporter, ExporterRemoved)
               + Maybe(smDeleted, Deleted(Key(ServiceMonitorKind, m.status.serviceMonitorRef)))
               + Maybe(prDeleted, Deleted(Key(PrometheusRuleKind, m.status.prometheusRuleRef)))
               + Maybe(released, MonitorUpdated(m.(finalizers := Without(Without(m.finalizers, keys.current), keys.legacy))))
    ensures smDeleted ==> Key(ServiceMonitorKind, m.status.serviceMonitorRef) in c.objects
    ensures released <==> && ExporterSucceeds(env)
                          && DeletesSucceed(ExporterTeardown(c, env.shouldDeleteExporter.value), m)
                          && keys.current in m.finalizers
    ensures var r := DependenciesAbsentStep(c, env, keys, m);
            released ==>
              && env.shouldDeleteExporter.Ok?
              && (env.shouldDeleteExporter.value ==> env.exporterAbsentErr.None?)
              && (m.status.serviceMonitorRef.name != "" && m.status.serviceMonitorRef.namespace != ""
                  ==> Key(ServiceMonitorKind, m.status.serviceMonitorRef) !in r.cluster.objects)
              && (m.status.prometheusRuleRef.name != "" && m.status.prometheusRuleRef.namespace != ""
                  ==> Key(PrometheusRuleKind, m.status.prometheusRuleRef) !in r.cluster.objects)
              && keys.current in m.finalizers
              && r.signal == env.persisted
  {
    var r := DependenciesAbsentStep(c, env, keys, m);
    if env.shouldDeleteExporter.Err? {
      assert r.cluster == c;
      return false, false, false, false;
    }
    exporter := env.shouldDeleteExporter.value;
    var c1 := ExporterTeardown(c, exporter);
    assert NewWrites(c, c1) == Maybe(exporter, ExporterRemoved);
    if exporter && env.exporterAbsentErr.Some? {
      assert r.cluster == c1;
      return exporter, false, false, false;
    }
    assert r == DeleteDependents(c1, env, keys, m);
    smDeleted, prDeleted, released := DeleteDependentsOrder(c1, env, keys, m);
    PrependWrites(c, c1, r.cluster,
      Maybe(exporter, ExporterRemoved),
      Maybe(smDeleted, Deleted(Key(ServiceMonitorKind, m.status.serviceMonitorRef))),
      Maybe(prDeleted, Deleted(Key(PrometheusRuleKind, m.status.prometheusRuleRef))),
      Maybe(released, MonitorUpdated(m.(finalizers := Without(Without(m.finalizers, keys.current), keys.legacy)))));
  }

  /** The writes of two consecutive stages, as one log. */
  lemma PrependWrites(c: Cluster, c1: Cluster, w: Cluster, first: seq<Write>, a: seq<Write>, b: seq<Write>, d: seq<Write>)
    requires Extends(c, c1) && Extends(c1, w)
    requires NewWrites(c, c1) == first && NewWrites(c1, w) == a + b + d
    ensures Extends(c, w) && NewWrites(c, w) == first + a + b + d
  {
    ExtendsTransitive(c, c1, w);
    assert first + (a + b + d) == first + a + b + d;
  }

  /** With a fault-free store the delete stages come through: the finalizer is released exactly
      when the current key is there. */
  lemma DeleteDependentsWhenClean(c: Cluster, env: Collaborators, keys: FinalizerKeys, m: RouteMonitor)
    requires c.faults == map[]
    ensures var r := DeleteDependents(c, env, keys, m);
            && (keys.current in m.finalizers ==>
                  && r.signal == env.persisted
                  && MonitorAfter(c, r.cluster, m, env.persisted)
                     == Held(env.persisted, m, m.(finalizers := Without(Without(m.finalizers, keys.current), keys.legacy))))
            && (keys.current !in m.finalizers ==> r.signal == Stop && MonitorAfter(c, r.cluster, m, env.persisted) == m)
  {
    var r := DeleteDependents(c, env, keys, m);
    EnsureAbsentSucceedsWithoutFaults(c, ServiceMonitorKind, m.status.serviceMonitorRef);
    var s := EnsureAbsent(c, ServiceMonitorKind, m.status.serviceMonitorRef);
    EnsureAbsentSucceedsWithoutFaults(s.cluster, PrometheusRuleKind, m.status.prometheusRuleRef);
    var p := EnsureAbsent(s.cluster, PrometheusRuleKind, m.status.prometheusRuleRef);
    assert r == ReleaseFinalizer(p.cluster, env, keys, m);
    ReleaseFinalizerOutcome(p.cluster, env, keys, m);
    NothingPersisted(c, s.cluster, m, env.persisted);
    NothingPersisted(s.cluster, p.cluster, m, env.persisted);
    MonitorAfterPrefix(c, s.cluster, p.cluster, m, env.persisted);
    MonitorAfterPrefix(c, p.cluster, r.cluster, m, env.persisted);
  }

  /** When every collaborator and store call succeeds, the cascade persists the monitor without
      its finalizer keys if the current key was there, and otherwise stops with the monitor
      left as it was. */
  lemma CascadeWhenClean(c: Cluster, env: Collaborators, keys: FinalizerKeys, m: RouteMonitor)
    requires env.shouldDeleteExporter.Ok?
    requires env.shouldDeleteExporter.value ==> env.exporterAbsentErr.None?
    requires c.faults == map[]
    ensures var r := DependenciesAbsentStep(c, env, keys, m);
            && (keys.current in m.finalizers ==>
                  && r.signal == env.persisted
                  && MonitorAfter(c, r.cluster, m, env.persisted)
                     == Held(env.persisted, m, m.(finalizers := Without(Without(m.finalizers, keys.current), keys.legacy))))
            && (keys.current !in m.finalizers ==> r.signal == Stop && MonitorAfter(c, r.cluster, m, env.persisted) == m)
  {
    var r := DependenciesAbsentStep(c, env, keys, m);
    var c1 := ExporterTeardown(c, env.shouldDeleteExporter.value);
    assert r == DeleteDependents(c1, env, keys, m);
    DeleteDependentsWhenClean(c1, env, keys, m);
    NothingPersisted(c, c1, m, env.persisted);
    MonitorAfterPrefix(c, c1, r.cluster, m, env.persisted);
  }

  /** A cascade that deleted the ServiceMonitor and then failed further on is retried without
      deleting the ServiceMonitor again: it is no longer in the store. */
  lemma CascadeRetryDeletesOnlyWhatIsLeft(c: Cluster, env: Collaborators, keys: FinalizerKeys, m: RouteMonitor,
                                          retryFaults: map<Call, string>)
    requires m.status.serviceMonitorRef.name != "" && m.status.serviceMonitorRef.namespace != ""
    requires env.shouldDeleteExporter.Ok?
    requires env.shouldDeleteExporter.value ==> env.exporterAbsentErr.None?
    requires EnsureAbsent(ExporterTeardown(c, env.shouldDeleteExporter.value),
                          ServiceMonitorKind, m.status.serviceMonitorRef).err.None?
    ensures var first := DependenciesAbsentStep(c, env, keys, m).cluster;
            var retry := first.(faults := retryFaults);
            var second := DependenciesAbsentStep(retry, env, keys, m).cluster;
            Deleted(Key(ServiceMonitorKind, m.status.serviceMonitorRef)) !in NewWrites(retry, second)
  {
    var smKey := Key(ServiceMonitorKind, m.status.serviceMonitorRef);
    var c1 := ExporterTeardown(c, env.shouldDeleteExporter.value);
    var s := EnsureAbsent(c1, ServiceMonitorKind, m.status.serviceMonitorRef);
    var p := EnsureAbsent(s.cluster, PrometheusRuleKind, m.status.prometheusRuleRef);
    var first := DependenciesAbsentStep(c, env, keys, m);
    assert first == DeleteDependents(c1, env, keys, m);
    assert first.cluster.objects == p.cluster.objects;
    assert smKey !in first.cluster.objects;
    var retry := first.cluster.(faults := retryFaults);
    DeletesOnlyPresentServiceMonitor(retry, env, keys, m);
  }

  /** The cascade deletes a ServiceMonitor only when the store held it. */
  lemma DeletesOnlyPresentServiceMonitor(c: Cluster, env: Collaborators, keys: FinalizerKeys, m: RouteMonitor)
    ensures Deleted(Key(ServiceMonitorKind, m.status.serviceMonitorRef))
              in NewWrites(c, DependenciesAbsentStep(c, env, keys, m).cluster)
            ==> Key(ServiceMonitorKind, m.status.serviceMonitorRef) in c.objects
  {
    var exporter, smDeleted, prDeleted, released := CascadeOrder(c, env, keys, m);
    var persisted := m.(finalizers := Without(Without(m.finalizers, keys.current), keys.legacy));
    OnlyIssuedIn(Deleted(Key(ServiceMonitorKind, m.status.serviceMonitorRef)), ExporterRemoved,
                 Deleted(Key(PrometheusRuleKind, m.status.prometheusRuleRef)), MonitorUpdated(persisted),
                 exporter, smDeleted, prDeleted, released);
  }

  /** A write that differs from the other stages' writes is in the log only if its own stage
      issued it. */
  lemma OnlyIssuedIn(x: Write, a: Write, b: Write, d: Write, issuedA: bool, issuedX: bool, issuedB: bool, issuedD: bool)
    requires x != a && x != b && x != d
    ensures x in Maybe(issuedA, a) + Maybe(issuedX, x) + Maybe(issuedB, b) + Maybe(issuedD, d) ==> issuedX
  {
  }

  /** Every failure of the cascade requeues with that failure's error, before the finalizer is
      touched: the exporter check, the exporter teardown, the ServiceMonitor delete and the
      PrometheusRule delete, in this order.  Only when all of them came through is the
      finalizer released. */
  lemma CascadeErrors(c: Cluster, env: Collaborators, keys: FinalizerKeys, m: RouteMonitor)
    ensures var r := DependenciesAbsentStep(c, env, keys, m);
            && (env.shouldDeleteExporter.Err? ==> r == StepOutcome(Requeue(env.shouldDeleteExporter.error), c))
            && (env.shouldDeleteExporter == Ok(true) && env.exporterAbsentErr.Some? ==>
                  r == StepOutcome(Requeue(env.exporterAbsentErr.value), Log(c, ExporterRemoved)))
    ensures ExporterSucceeds(env) ==>
            var r := DependenciesAbsentStep(c, env, keys, m);
            var s := EnsureAbsent(ExporterTeardown(c, env.shouldDeleteExporter.value), ServiceMonitorKind, m.status.serviceMonitorRef);
            var p := EnsureAbsent(s.cluster, PrometheusRuleKind, m.status.prometheusRuleRef);
            && (s.err.Some? ==> r == StepOutcome(Requeue(s.err.value), s.cluster))
            && (s.err.None? && p.err.Some? ==> r == StepOutcome(Requeue(p.err.value), p.cluster))
            && (s.err.None? && p.err.None? ==> r == ReleaseFinalizer(p.cluster, env, keys, m))
  {
  }

  /** The cascade deletes nothing but the two objects the monitor references: an object written
      but never referenced (its reference was not persisted) outlives the monitor. */
  lemma CascadeDeletesOnlyReferenced(c: Cluster, env: Collaborators, keys: FinalizerKeys, m: RouteMonitor)
    ensures var r := DependenciesAbsentStep(c, env, keys, m);
            var referenced := {Key(ServiceMonitorKind, m.status.serviceMonitorRef), Key(PrometheusRuleKind, m.status.prometheusRuleRef)};
            r.cluster.objects - referenced == c.objects - referenced
  {
    if ExporterSucceeds(env) {
      var c1 := ExporterTeardown(c, env.shouldDeleteExporter.value);
      assert DependenciesAbsentStep(c, env, keys, m) == DeleteDependents(c1, env, keys, m);
      DeleteDependentsOnlyReferenced(c1, env, keys, m);
    }
  }

  lemma DeleteDependentsOnlyReferenced(c: Cluster, env: Collaborators, keys: FinalizerKeys, m: RouteMonitor)
    ensures var r := DeleteDependents(c, env, keys, m);
            var referenced := {Key(ServiceMonitorKind, m.status.serviceMonitorRef), Key(PrometheusRuleKind, m.status.prometheusRuleRef)};
            r.cluster.objects - referenced == c.objects - referenced
  {
    var referenced := {Key(ServiceMonitorKind, m.status.serviceMonitorRef), Key(PrometheusRuleKind, m.status.prometheusRuleRef)};
    var s := EnsureAbsent(c, ServiceMonitorKind, m.status.serviceMonitorRef);
    var p := EnsureAbsent(s.cluster, PrometheusRuleKind, m.status.prometheusRuleRef);
    EnsureAbsentScope(c, ServiceMonitorKind, m.status.serviceMonitorRef, referenced);
    EnsureAbsentScope(s.cluster, PrometheusRuleKind, m.status.prometheusRuleRef, referenced);
    var r := DeleteDependents(c, env, keys, m);
    assert r.cluster.objects == s.cluster.objects || r.cluster.objects == p.cluster.objects;
  }

  /** Making one key absent changes no object outside any set of keys that holds it. */
  lemma EnsureAbsentScope(c: Cluster, kind: Kind, ref: NamespacedName, keys: set<Key>)
    requires Key(kind, ref) in keys
    ensures EnsureAbsent(c, kind, ref).cluster.objects - keys == c.objects - keys
  {
    var d := EnsureAbsent(c, kind, ref);
    if d.cluster.objects != c.objects {
      assert d.cluster.objects == c.objects - {Key(kind, ref)};
      assert d.cluster.objects - keys == c.objects - keys;
    }
  }

  // ---------------------------------------------------------------------------------------
  // Finalizer

  /** The current key is added and persisted, with the legacy key removed, only when it was
      missing; when it is there the step continues without a write.  The legacy key is never
      in a persisted monitor. */
  lemma FinalizerSet(c: Cluster, env: Collaborators, keys: FinalizerKeys, m: RouteMonitor)
    ensures var r := FinalizerStep(c, env, keys, m);
            && (keys.current in m.finalizers ==> r == StepOutcome(Continue, c))
            && (keys.current !in m.finalizers ==>
                  && r.signal == env.persisted
                  && NewWrites(c, r.cluster) == [MonitorUpdated(m.(finalizers := Without(m.finalizers + [keys.current], keys.legacy)))])
            && (forall x :: MonitorUpdated(x) in NewWrites(c, r.cluster) ==> keys.legacy !in x.finalizers)
            && (keys.current !in m.finalizers ==>
                  MonitorAfter(c, r.cluster, m, env.persisted)
                  == Held(env.persisted, m, m.(finalizers := Without(m.finalizers + [keys.current], keys.legacy))))
            && (keys.current != keys.legacy && (keys.current in m.finalizers || !env.persisted.Requeue?) ==>
                  keys.current in MonitorAfter(c, r.cluster, m, env.persisted).finalizers)
  {
  }

  /** Once the step ran, it has nothing left to do. */
  lemma FinalizerIdempotent(c: Cluster, env: Collaborators, keys: FinalizerKeys, m: RouteMonitor)
    requires keys.current != keys.legacy
    ensures var r := FinalizerStep(c, env, keys, m);
            FinalizerStep(r.cluster, env, keys, MonitorAfter(c, r.cluster, m, env.persisted))
            == if env.persisted.Requeue? && keys.current !in m.finalizers
               then UpdateMonitorResource(r.cluster, env, m.(finalizers := Without(m.finalizers + [keys.current], keys.legacy)))
               else StepOutcome(Continue, r.cluster)
  {
    FinalizerSet(c, env, keys, m);
  }

  // ---------------------------------------------------------------------------------------
  // Route URL

  /** Without an ingress or a host the step requeues and writes nothing; a URL equal to the
      recorded one continues without a write; a different one replaces it and is persisted. */
  lemma RouteURLUpdate(c: Cluster, env: Collaborators, route: Route, m: RouteMonitor)
    ensures var r := RouteURLStep(c, env, route, m);
            var url := ExtractRouteURL(route);
            && (url.Err? ==> r == StepOutcome(Requeue(url.error), c))
            && (url.Ok? && url.value == m.status.routeURL ==> r == StepOutcome(Continue, c))
            && (url.Ok? && url.value != m.status.routeURL ==>
                  && r.signal == env.persisted
                  && NewWrites(c, r.cluster) == [MonitorStatusUpdated(m.(status := m.status.(routeURL := url.value)))])
  {
  }

  /** Once the URL was recorded, re-running the step with the same route writes nothing, and
      the recorded URL is not empty, so the ServiceMonitor step that follows has a host. */
  lemma RouteURLIdempotent(c: Cluster, env: Collaborators, route: Route, m: RouteMonitor)
    requires ExtractRouteURL(route).Ok?
    ensures var r := RouteURLStep(c, env, route, m);
            var url := ExtractRouteURL(route).value;
            var m' := MonitorAfter(c, r.cluster, m, env.persisted);
            && (!env.persisted.Requeue? ==> m'.status.routeURL == url && m'.status.routeURL != "")
            && RouteURLStep(r.cluster, env, route, m')
               == if env.persisted.Requeue? && url != m.status.routeURL
                  then UpdateMonitorResourceStatus(r.cluster, env, m.(status := m.status.(routeURL := url)))
                  else StepOutcome(Continue, r.cluster)
  {
    var url := ExtractRouteURL(route).value;
    var r := RouteURLStep(c, env, route, m);
    if url == m.status.routeURL {
      assert r.cluster == c;
      assert MonitorAfter(c, r.cluster, m, env.persisted) == m;
    } else {
      var m' := m.(status := m.status.(routeURL := url));
      assert r.cluster == Log(c, MonitorStatusUpdated(m'));
      assert NewWrites(c, r.cluster) == [MonitorStatusUpdated(m')];
      assert MonitorAfter(c, r.cluster, m, env.persisted) == Held(env.persisted, m, m');
    }
  }

  // ---------------------------------------------------------------------------------------
  // Reference tracking

  /** A monitor persisted last, whole or its status, is the monitor the store holds, unless
      persisting it failed. */
  lemma PersistedLast(c: Cluster, w: Cluster, m: RouteMonitor, x: RouteMonitor, persisted: Signal)
    requires Extends(c, w)
    ensures MonitorAfter(c, Log(w, MonitorStatusUpdated(x)), m, persisted) == Held(persisted, m, x)
    ensures MonitorAfter(c, Log(w, MonitorUpdated(x)), m, persisted) == Held(persisted, m, x)
  {
    ExtendsTransitive(c, w, Log(w, MonitorStatusUpdated(x)));
    assert NewWrites(w, Log(w, MonitorStatusUpdated(x))) == [MonitorStatusUpdated(x)];
    ExtendsTransitive(c, w, Log(w, MonitorUpdated(x)));
    assert NewWrites(w, Log(w, MonitorUpdated(x))) == [MonitorUpdated(x)];
  }

  /** Writes that left the monitor as it was do not change which monitor later writes leave. */
  lemma MonitorAfterPrefix(c: Cluster, c1: Cluster, w: Cluster, m: RouteMonitor, persisted: Signal)
    requires Extends(c, c1) && Extends(c1, w)
    requires MonitorAfter(c, c1, m, persisted) == m
    ensures MonitorAfter(c, w, m, persisted) == MonitorAfter(c1, w, m, persisted)
  {
    ExtendsTransitive(c, c1, w);
    var later := NewWrites(c1, w);
    if later != [] {
      assert NewWrites(c, w)[|NewWrites(c, w)| - 1] == later[|later| - 1];
    }
  }

  /** Writes to derived objects alone leave the monitor as it was. */
  lemma NothingPersisted(c: Cluster, w: Cluster, m: RouteMonitor, persisted: Signal)
    requires Extends(c, w)
    requires |NewWrites(c, w)| <= 1
    requires NewWrites(c, w) != [] ==> !NewWrites(c, w)[0].MonitorUpdated? && !NewWrites(c, w)[0].MonitorStatusUpdated?
    ensures MonitorAfter(c, w, m, persisted) == m
  {
  }

  /** A write to one key that leaves it stored keeps every object the store held. */
  lemma KeysKept(c: Cluster, w: Cluster, key: Key)
    requires w.objects - {key} == c.objects - {key}
    requires key in w.objects
    ensures forall k :: k in c.objects ==> k in w.objects
  {
    forall k | k in c.objects
      ensures k in w.objects
    {
      if k != key {
        assert k in c.objects - {key};
      }
    }
  }

  /** The ServiceMonitor step keeps every reference backed by an object, whether or not its
      persist succeeded: it only adds or overwrites objects. */
  lemma ServiceMonitorKeepsRefsBacked(c: Cluster, env: Collaborators, m: RouteMonitor)
    requires RefsBacked(c, m)
    ensures var r := ServiceMonitorStep(c, env, m);
            RefsBacked(r.cluster, MonitorAfter(c, r.cluster, m, env.persisted))
  {
    if m.status.routeURL == "" || env.clusterID.Err? {
      NothingPersisted(c, c, m, env.persisted);
    } else {
      var desired := DesiredServiceMonitor(m.status.routeURL, env.exporterNamespace, m.Id(), env.clusterID.value, false);
      ReferenceServiceMonitorKeepsRefsBacked(c, env, m, desired);
    }
  }

  /** The PrometheusRule step keeps every reference backed by an object once its persist
      succeeded (see ClearFailedPersistLeavesDanglingRef for the other case). */
  lemma PrometheusRuleKeepsRefsBacked(c: Cluster, env: Collaborators, m: RouteMonitor)
    requires RefsBacked(c, m)
    ensures var r := PrometheusRuleStep(c, env, m);
            !env.persisted.Requeue? ==> RefsBacked(r.cluster, MonitorAfter(c, r.cluster, m, env.persisted))
  {
    var r := PrometheusRuleStep(c, env, m);
    var parsed := env.parseSlo(m.status.routeURL, m.spec.slo);
    var status := SetErrorStatus(m.status.errorStatus, parsed.err);
    var m1 := m.(status := m.status.(errorStatus := status.0));
    if m.spec.skipPrometheusRule {
      ClearKeepsRefsBacked(c, env, m, Continue);
    } else if status.1 {
      assert r.cluster == Log(c, MonitorStatusUpdated(m1));
      PersistedLast(c, c, m, m1, env.persisted);
    } else if parsed.expr == "" {
      assert m1 == m;
      ClearKeepsRefsBacked(c, env, m, Stop);
    } else {
      assert m1 == m;
      ReferencePrometheusRuleKeepsRefsBacked(c, env, m, PrometheusRuleTemplate(m.status.routeURL, parsed.expr, m.Id()));
    }
  }

  /** The clean-up path keeps every reference backed once its persist succeeded: the rule it
      deletes is the one whose reference it clears. */
  lemma ClearKeepsRefsBacked(c: Cluster, env: Collaborators, m: RouteMonitor, otherwise: Signal)
    requires RefsBacked(c, m)
    ensures var r := ClearPrometheusRule(c, env, m, otherwise);
            !env.persisted.Requeue? ==> RefsBacked(r.cluster, MonitorAfter(c, r.cluster, m, env.persisted))
  {
    var r := ClearPrometheusRule(c, env, m, otherwise);
    var d := EnsureAbsent(c, PrometheusRuleKind, m.status.prometheusRuleRef);
    if d.err.Some? || m.status.prometheusRuleRef == Absent {
      assert r.cluster == d.cluster;
      NothingPersisted(c, d.cluster, m, env.persisted);
    } else {
      assert r.cluster == Log(d.cluster, MonitorStatusUpdated(WithPrometheusRuleRef(m, Absent)));
      PersistedLast(c, d.cluster, m, WithPrometheusRuleRef(m, Absent), env.persisted);
    }
  }

  /** When the rule was deleted but persisting the cleared reference failed, the store keeps a
      monitor whose reference names the rule just deleted.  The retry heals it: the delete finds
      nothing and the cleared reference is sent again (ClearPrometheusRuleIdempotent). */
  lemma ClearFailedPersistLeavesDanglingRef(c: Cluster, env: Collaborators, m: RouteMonitor, otherwise: Signal)
    requires env.persisted.Requeue?
    requires m.status.prometheusRuleRef.name != "" && m.status.prometheusRuleRef.namespace != ""
    requires EnsureAbsent(c, PrometheusRuleKind, m.status.prometheusRuleRef).err.None?
    ensures var r := ClearPrometheusRule(c, env, m, otherwise);
            && r.signal == env.persisted
            && MonitorAfter(c, r.cluster, m, env.persisted) == m
            && Key(PrometheusRuleKind, m.status.prometheusRuleRef) !in r.cluster.objects
            && !RefsBacked(r.cluster, MonitorAfter(c, r.cluster, m, env.persisted))
  {
    var d := EnsureAbsent(c, PrometheusRuleKind, m.status.prometheusRuleRef);
    assert m.status.prometheusRuleRef != Absent;
    assert ClearPrometheusRule(c, env, m, otherwise).cluster.objects == d.cluster.objects;
  }
}
