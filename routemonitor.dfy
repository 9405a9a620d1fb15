/** The RouteMonitor reconcile steps.  Each step receives a snapshot of the monitor (a value:
    the steps change their own copy), may issue store writes, and hands back a `Signal`.
    A step that changed the monitor persists it once and returns what the persisting
    collaborator returned, without going further in the same invocation. */
module RouteMonitorSteps {
  import opened Kube
  import opened ServiceMonitors

  /** What ParseMonitorSLOSpecs hands back: the rendered SLO expression ("" when the SLO is
      disabled) and the text of its error, if any. */
  datatype ParsedSlo = ParsedSlo(expr: string, err: Option<string>)

  /** The answers of the collaborators whose bodies are not modelled. */
  datatype Collaborators = Collaborators(
    parseSlo: (string, SloSpec) -> ParsedSlo,   // ParseMonitorSLOSpecs(routeURL, slo)
    clusterID: Result<string>,                  // GetOSDClusterID()
    shouldDeleteExporter: Result<bool>,         // ShouldDeleteBlackBoxExporterResources()
    exporterAbsentErr: Option<Error>,           // EnsureBlackBoxExporterResourcesAbsent()
    exporterNamespace: string,                  // GetBlackBoxExporterNamespace()
    persisted: Signal)                          // UpdateMonitorResource(Status)'s result, passed through

  /** The current finalizer key and the legacy one it replaces. */
  datatype FinalizerKeys = FinalizerKeys(current: string, legacy: string)

  datatype StepOutcome = StepOutcome(signal: Signal, cluster: Cluster)

  // ---------------------------------------------------------------------------------------
  // Compare-and-set helpers on the monitor

  /** SetResourceReference: the reference becomes `target`; the flag says whether it changed. */
  function SetResourceReference(ref: NamespacedName, target: NamespacedName): (r: (NamespacedName, bool))
    ensures r.0 == target
    ensures r.1 <==> ref != target
  {
    (target, ref != target)
  }

  /** SetErrorStatus: the error status becomes the error's text, or empty without an error. */
  function SetErrorStatus(errorStatus: string, err: Option<string>): (r: (string, bool))
    ensures err.Some? ==> r.0 == err.value
    ensures err.None? ==> r.0 == ""
    ensures r.1 <==> errorStatus != r.0
  {
    var text := if err.Some? then err.value else "";
    (text, errorStatus != text)
  }

  /** The finalizer list with every occurrence of `key` removed. */
  function Without(finalizers: seq<string>, key: string): (r: seq<string>)
    ensures forall x :: x in r <==> x in finalizers && x != key
    ensures key !in finalizers ==> r == finalizers
  {
    if finalizers == [] then []
    else if finalizers[0] == key then Without(finalizers[1..], key)
    else [finalizers[0]] + Without(finalizers[1..], key)
  }

  /** SetFinalizer: add `key` unless present; the flag says whether it was added. */
  function SetFinalizer(finalizers: seq<string>, key: string): (r: (seq<string>, bool))
    ensures r.1 <==> key !in finalizers
    ensures forall x :: x in r.0 <==> x in finalizers || x == key
    ensures !r.1 ==> r.0 == finalizers
  {
    if key in finalizers then (finalizers, false) else (finalizers + [key], true)
  }

  /** DeleteFinalizer: remove `key`; the flag says whether it was there. */
  function DeleteFinalizer(finalizers: seq<string>, key: string): (r: (seq<string>, bool))
    ensures r.1 <==> key in finalizers
    ensures forall x :: x in r.0 <==> x in finalizers && x != key
    ensures !r.1 ==> r.0 == finalizers
  {
    (Without(finalizers, key), key in finalizers)
  }

  function WithPrometheusRuleRef(m: RouteMonitor, ref: NamespacedName): RouteMonitor {
    m.(status := m.status.(prometheusRuleRef := ref))
  }

  function WithServiceMonitorRef(m: RouteMonitor, ref: NamespacedName): RouteMonitor {
    m.(status := m.status.(serviceMonitorRef := ref))
  }

  // ---------------------------------------------------------------------------------------
  // Collaborators that write

  /** UpdateMonitorResource: the whole monitor is sent to be persisted as one logged write, and
      the collaborator's signal is handed back. */
  function UpdateMonitorResource(c: Cluster, env: Collaborators, m: RouteMonitor): (r: StepOutcome)
    ensures Extends(c, r.cluster) && r.cluster.objects == c.objects
    ensures NewWrites(c, r.cluster) == [MonitorUpdated(m)]
    ensures r.signal == env.persisted
  {
    StepOutcome(env.persisted, Log(c, MonitorUpdated(m)))
  }

  /** UpdateMonitorResourceStatus: the same for the monitor's status. */
  function UpdateMonitorResourceStatus(c: Cluster, env: Collaborators, m: RouteMonitor): (r: StepOutcome)
    ensures Extends(c, r.cluster) && r.cluster.objects == c.objects
    ensures NewWrites(c, r.cluster) == [MonitorStatusUpdated(m)]
    ensures r.signal == env.persisted
  {
    StepOutcome(env.persisted, Log(c, MonitorStatusUpdated(m)))
  }

  /** The PrometheusRule the alerting collaborator renders for a monitor. */
  function PrometheusRuleTemplate(routeURL: string, slo: string, id: NamespacedName): (r: Object)
    ensures r.Id() == Key(PrometheusRuleKind, id)
  {
    Object(PrometheusRuleKind, ObjectMeta(id.name, id.namespace, 0), PrometheusRuleSpec(routeURL, slo))
  }

  /** The monitor as the store holds it after a step that was given `m`: the one the step
      persisted last, if any, unless the persisting call reported a failure (`persisted` is a
      requeue), in which case the store still holds the monitor as it was. */
  function MonitorAfter(before: Cluster, after: Cluster, m: RouteMonitor, persisted: Signal): RouteMonitor
    requires |before.writes| <= |after.writes|
  {
    var w := NewWrites(before, after);
    if w == [] || persisted.Requeue? then m
    else match w[|w| - 1]
      case MonitorUpdated(x) => x
      case MonitorStatusUpdated(x) => x
      case _ => m
  }

  // ---------------------------------------------------------------------------------------
  // The steps, as functions of the store state

  /** Delete the rule the monitor points at and clear the reference; persist the status when the
      reference changed, otherwise end with `otherwise`. */
  function ClearPrometheusRule(c: Cluster, env: Collaborators, m: RouteMonitor, otherwise: Signal): (r: StepOutcome)
    ensures Extends(c, r.cluster)
  {
    var d := EnsureAbsent(c, PrometheusRuleKind, m.status.prometheusRuleRef);
    if d.err.Some? then StepOutcome(Requeue(d.err.value), d.cluster)
    else
      var swap := SetResourceReference(m.status.prometheusRuleRef, Absent);
      if swap.1 then UpdateMonitorResourceStatus(d.cluster, env, WithPrometheusRuleRef(m, swap.0))
      else StepOutcome(otherwise, d.cluster)
  }

  function PrometheusRuleStep(c: Cluster, env: Collaborators, m: RouteMonitor): (r: StepOutcome)
    ensures Extends(c, r.cluster)
  {
    if m.spec.skipPrometheusRule then ClearPrometheusRule(c, env, m, Continue)
    else
      var parsed := env.parseSlo(m.status.routeURL, m.spec.slo);
      var status := SetErrorStatus(m.status.errorStatus, parsed.err);
      var m1 := m.(status := m.status.(errorStatus := status.0));
      if status.1 then UpdateMonitorResourceStatus(c, env, m1)
      else if parsed.expr == "" then ClearPrometheusRule(c, env, m1, Stop)
      else ReferencePrometheusRule(c, env, m1, PrometheusRuleTemplate(m1.status.routeURL, parsed.expr, m1.Id()))
  }

  /** Converge the rule to `template`, then point the monitor's reference at the monitor's own
      name; persist the status only when that changed it.  A failed write requeues first. */
  function ReferencePrometheusRule(c: Cluster, env: Collaborators, m: RouteMonitor, template: Object): (r: StepOutcome)
    ensures Extends(c, r.cluster)
  {
    var w := CreateOrUpdate(c, template);
    if w.err.Some? then StepOutcome(Requeue(w.err.value), w.cluster)
    else
      var swap := SetResourceReference(m.status.prometheusRuleRef, m.Id());
      if swap.1 then UpdateMonitorResourceStatus(w.cluster, env, WithPrometheusRuleRef(m, swap.0))
      else StepOutcome(Continue, w.cluster)
  }

  function ServiceMonitorStep(c: Cluster, env: Collaborators, m: RouteMonitor): (r: StepOutcome)
    ensures Extends(c, r.cluster)
  {
    if m.status.routeURL == "" then StepOutcome(Requeue(NoHost), c)
    else match env.clusterID
      case Err(e) => StepOutcome(Requeue(e), c)
      case Ok(id) => ReferenceServiceMonitor(c, env, m, DesiredServiceMonitor(m.status.routeURL, env.exporterNamespace, m.Id(), id, false))
  }

  /** Converge the ServiceMonitor to `desired`, then point the monitor's reference at the
      monitor's own name; persist the status only when that changed it.  A failed write
      requeues first. */
  function ReferenceServiceMonitor(c: Cluster, env: Collaborators, m: RouteMonitor, desired: Object): (r: StepOutcome)
    ensures Extends(c, r.cluster)
  {
    var w := CreateOrUpdate(c, desired);
    if w.err.Some? then StepOutcome(Requeue(w.err.value), w.cluster)
    else
      var swap := SetResourceReference(m.status.serviceMonitorRef, m.Id());
      if swap.1 then UpdateMonitorResourceStatus(w.cluster, env, WithServiceMonitorRef(m, swap.0))
      else StepOutcome(Continue, w.cluster)
  }

  /** The store once the exporter teardown was issued, when it was due. */
  function ExporterTeardown(c: Cluster, shouldDelete: bool): Cluster {
    if shouldDelete then Log(c, ExporterRemoved) else c
  }

  function DependenciesAbsentStep(c: Cluster, env: Collaborators, keys: FinalizerKeys, m: RouteMonitor): (r: StepOutcome)
    ensures Extends(c, r.cluster)
  {
    match env.shouldDeleteExporter
    case Err(e) => StepOutcome(Requeue(e), c)
    case Ok(shouldDelete) =>
      var c1 := ExporterTeardown(c, shouldDelete);
      if shouldDelete && env.exporterAbsentErr.Some? then StepOutcome(Requeue(env.exporterAbsentErr.value), c1)
      else DeleteDependents(c1, env, keys, m)
  }

  /** The ServiceMonitor, then the PrometheusRule the monitor references are made absent; the
      first failure requeues, and only once both are gone is the finalizer released. */
  function DeleteDependents(c: Cluster, env: Collaborators, keys: FinalizerKeys, m: RouteMonitor): (r: StepOutcome)
    ensures Extends(c, r.cluster)
  {
    var s := EnsureAbsent(c, ServiceMonitorKind, m.status.serviceMonitorRef);
    if s.err.Some? then StepOutcome(Requeue(s.err.value), s.cluster)
    else
      var p := EnsureAbsent(s.cluster, PrometheusRuleKind, m.status.prometheusRuleRef);
      if p.err.Some? then StepOutcome(Requeue(p.err.value), p.cluster)
      else ReleaseFinalizer(p.cluster, env, keys, m)
  }

  /** Remove the current finalizer key and, with it, the legacy one, persisting the monitor;
      without the current key there is nothing to release and the reconcile stops. */
  function ReleaseFinalizer(c: Cluster, env: Collaborators, keys: FinalizerKeys, m: RouteMonitor): (r: StepOutcome)
    ensures Extends(c, r.cluster)
  {
    var current := DeleteFinalizer(m.finalizers, keys.current);
    if current.1 then
      var legacy := DeleteFinalizer(current.0, keys.legacy);
      UpdateMonitorResource(c, env, m.(finalizers := legacy.0))
    else StepOutcome(Stop, c)
  }

  function FinalizerStep(c: Cluster, env: Collaborators, keys: FinalizerKeys, m: RouteMonitor): (r: StepOutcome)
    ensures Extends(c, r.cluster)
  {
    var current := SetFinalizer(m.finalizers, keys.current);
    if current.1 then
      var legacy := DeleteFinalizer(current.0, keys.legacy);
      UpdateMonitorResource(c, env, m.(finalizers := legacy.0))
    else StepOutcome(Continue, c)
  }

  /** The URL a route is probed at: its first ingress's host, with the https scheme on a TLS
      route.  A route without an ingress or without a host has none yet. */
  function ExtractRouteURL(route: Route): (r: Result<string>)
    ensures r.Ok? <==> |route.ingress| > 0 && route.ingress[0].host != ""
    ensures |route.ingress| == 0 ==> r == Err(NoIngress)
    ensures |route.ingress| > 0 && route.ingress[0].host == "" ==> r == Err(NoHost)
    ensures r.Ok? ==> r.value != ""
    ensures r.Ok? && route.tls ==> r.value == "https://" + route.ingress[0].host
    ensures r.Ok? && !route.tls ==> r.value == route.ingress[0].host
  {
    if |route.ingress| == 0 then Err(NoIngress)
    else
      var host := route.ingress[0].host;
      if host == "" then Err(NoHost)
      else if route.tls then Ok("https://" + host)
      else Ok(host)
  }

  function RouteURLStep(c: Cluster, env: Collaborators, route: Route, m: RouteMonitor): (r: StepOutcome)
    ensures Extends(c, r.cluster)
  {
    match ExtractRouteURL(route)
    case Err(e) => StepOutcome(Requeue(e), c)
    case Ok(url) =>
      if m.status.routeURL == url then StepOutcome(Continue, c)
      else UpdateMonitorResourceStatus(c, env, m.(status := m.status.(routeURL := url)))
  }

  // ---------------------------------------------------------------------------------------
  // The reconciler

  class RouteMonitorReconciler {
    const client: Client
    const serviceMonitor: ServiceMonitor
    const common: Collaborators
    const keys: FinalizerKeys

    predicate Valid() {
      serviceMonitor.client == client
    }

    constructor (client: Client, common: Collaborators, keys: FinalizerKeys)
      ensures Valid() && this.client == client && this.common == common && this.keys == keys
    {
      this.client := client;
      this.common := common;
      this.keys := keys;
      this.serviceMonitor := new ServiceMonitor(client);
    }

    method EnsurePrometheusRuleExists(routeMonitor: RouteMonitor) returns (sig: Signal)
      modifies client
      ensures StepOutcome(sig, client.State()) == PrometheusRuleStep(old(client.State()), common, routeMonitor)
    {
      var routeMonitor := routeMonitor;
      if routeMonitor.spec.skipPrometheusRule {
        var err := DeleteDeployment(client, PrometheusRuleKind, routeMonitor.status.prometheusRuleRef);
        if err.Some? {
          return Requeue(err.value);
        }
        var (ref, updated) := SetResourceReference(routeMonitor.status.prometheusRuleRef, Absent);
        routeMonitor := WithPrometheusRuleRef(routeMonitor, ref);
        if updated {
          sig := PersistStatus(routeMonitor);
          return;
        }
        return Continue;
      }

      var parsed := common.parseSlo(routeMonitor.status.routeURL, routeMonitor.spec.slo);
      var (errorStatus, changed) := SetErrorStatus(routeMonitor.status.errorStatus, parsed.err);
      routeMonitor := routeMonitor.(status := routeMonitor.status.(errorStatus := errorStatus));
      if changed {
        sig := PersistStatus(routeMonitor);
        return;
      }
      if parsed.expr == "" {
        var err := DeleteDeployment(client, PrometheusRuleKind, routeMonitor.status.prometheusRuleRef);
        if err.Some? {
          return Requeue(err.value);
        }
        var (ref, updated) := SetResourceReference(routeMonitor.status.prometheusRuleRef, Absent);
        routeMonitor := WithPrometheusRuleRef(routeMonitor, ref);
        if updated {
          sig := PersistStatus(routeMonitor);
          return;
        }
        return Stop;
      }

      var id := routeMonitor.Id();
      var template := PrometheusRuleTemplate(routeMonitor.status.routeURL, parsed.expr, id);
      var err := CreateOrUpdateDeployment(client, template);
      if err.Some? {
        return Requeue(err.value);
      }
      var (ref, updated) := SetResourceReference(routeMonitor.status.prometheusRuleRef, id);
      routeMonitor := WithPrometheusRuleRef(routeMonitor, ref);
      if updated {
        sig := PersistStatus(routeMonitor);
        return;
      }
      return Continue;
    }

    method EnsureServiceMonitorExists(routeMonitor: RouteMonitor) returns (sig: Signal)
      requires Valid()
      modifies client
      ensures StepOutcome(sig, client.State()) == ServiceMonitorStep(old(client.State()), common, routeMonitor)
    {
      var routeMonitor := routeMonitor;
      if routeMonitor.status.routeURL == "" {
        return Requeue(NoHost);
      }
      var id := routeMonitor.Id();
      var isHCP := false;
      if common.clusterID.Err? {
        return Requeue(common.clusterID.error);
      }
      var clusterID := common.clusterID.value;
      var err := serviceMonitor.TemplateAndUpdateServiceMonitorDeployment(
        routeMonitor.status.routeURL, common.exporterNamespace, id, clusterID, isHCP);
      if err.Some? {
        return Requeue(err.value);
      }
      var (ref, updated) := SetResourceReference(routeMonitor.status.serviceMonitorRef, id);
      routeMonitor := WithServiceMonitorRef(routeMonitor, ref);
      if updated {
        sig := PersistStatus(routeMonitor);
        return;
      }
      return Continue;
    }

    method EnsureMonitorAndDependenciesAbsent(routeMonitor: RouteMonitor) returns (sig: Signal)
      requires Valid()
      modifies client
      ensures StepOutcome(sig, client.State()) == DependenciesAbsentStep(old(client.State()), common, keys, routeMonitor)
    {
      var routeMonitor := routeMonitor;
      if common.shouldDeleteExporter.Err? {
        return Requeue(common.shouldDeleteExporter.error);
      }
      if common.shouldDeleteExporter.value {
        client.Record(ExporterRemoved);
        if common.exporterAbsentErr.Some? {
          return Requeue(common.exporterAbsentErr.value);
        }
      }

      var isHCP := false;
      var err := serviceMonitor.DeleteServiceMonitorDeployment(routeMonitor.status.serviceMonitorRef, isHCP);
      if err.Some? {
        return Requeue(err.value);
      }

      err := DeleteDeployment(client, PrometheusRuleKind, routeMonitor.status.prometheusRuleRef);
      if err.Some? {
        return Requeue(err.value);
      }

      var (finalizers, removed) := DeleteFinalizer(routeMonitor.finalizers, keys.current);
      if removed {
        // the legacy key goes too, whether or not it was there
        finalizers := DeleteFinalizer(finalizers, keys.legacy).0;
        routeMonitor := routeMonitor.(finalizers := finalizers);
        sig := PersistMonitor(routeMonitor);
        return;
      }
      return Stop;
    }

    method EnsureFinalizerSet(routeMonitor: RouteMonitor) returns (sig: Signal)
      modifies client
      ensures StepOutcome(sig, client.State()) == FinalizerStep(old(client.State()), common, keys, routeMonitor)
    {
      var routeMonitor := routeMonitor;
      var (finalizers, added) := SetFinalizer(routeMonitor.finalizers, keys.current);
      if added {
        finalizers := DeleteFinalizer(finalizers, keys.legacy).0;
        routeMonitor := routeMonitor.(finalizers := finalizers);
        sig := PersistMonitor(routeMonitor);
        return;
      }
      return Continue;
    }

    /** Fetches the monitor a request names.  A missing or empty monitor stops the
        reconcile; any other store error requeues it. */
    method GetRouteMonitor(req: NamespacedName) returns (routeMonitor: RouteMonitor, sig: Signal)
      ensures var g := StoreGetMonitor(client.State(), req);
              && (g.Err? && g.error != NotFound ==> routeMonitor == EmptyRouteMonitor && sig == Requeue(g.error))
              && (g == Err(NotFound) ==> routeMonitor == EmptyRouteMonitor && sig == Stop)
              && (g.Ok? && g.value == EmptyRouteMonitor ==> routeMonitor == EmptyRouteMonitor && sig == Stop)
              && (g.Ok? && g.value != EmptyRouteMonitor ==> routeMonitor == g.value && sig == Continue)
    {
      var got := client.GetMonitor(req);
      if got.Err? {
        if got.error != NotFound {
          return EmptyRouteMonitor, Requeue(got.error);
        }
        return EmptyRouteMonitor, Stop;
      }
      if got.value == EmptyRouteMonitor {
        return EmptyRouteMonitor, Stop;
      }
      return got.value, Continue;
    }

    /** Fetches the Route the monitor names; an incomplete reference is a malformed monitor. */
    method GetRoute(routeMonitor: RouteMonitor) returns (r: Result<Route>)
      ensures routeMonitor.spec.route.name == "" || routeMonitor.spec.route.namespace == "" ==> r == Err(InvalidCR)
      ensures routeMonitor.spec.route.name != "" && routeMonitor.spec.route.namespace != ""
              ==> r == StoreGetRoute(client.State(), routeMonitor.spec.route)
    {
      var nsName := NamespacedName(routeMonitor.spec.route.name, routeMonitor.spec.route.namespace);
      if nsName.name == "" || nsName.namespace == "" {
        return Err(InvalidCR);
      }
      r := client.GetRoute(nsName);
    }

    method EnsureRouteURLExists(route: Route, routeMonitor: RouteMonitor) returns (sig: Signal)
      modifies client
      ensures StepOutcome(sig, client.State()) == RouteURLStep(old(client.State()), common, route, routeMonitor)
    {
      var routeMonitor := routeMonitor;
      if |route.ingress| == 0 {
        return Requeue(NoIngress);
      }
      var extractedRouteURL := route.ingress[0].host;
      if extractedRouteURL == "" {
        return Requeue(NoHost);
      }
      var currentRouteURL := routeMonitor.status.routeURL;
      if route.tls {
        extractedRouteURL := "https://" + extractedRouteURL;
      }
      if currentRouteURL == extractedRouteURL {
        return Continue;
      }
      routeMonitor := routeMonitor.(status := routeMonitor.status.(routeURL := extractedRouteURL));
      sig := PersistStatus(routeMonitor);
    }

    /** UpdateMonitorResourceStatus: persist the status and pass its result through. */
    method PersistStatus(routeMonitor: RouteMonitor) returns (sig: Signal)
      modifies client
      ensures StepOutcome(sig, client.State()) == UpdateMonitorResourceStatus(old(client.State()), common, routeMonitor)
    {
      client.Record(MonitorStatusUpdated(routeMonitor));
      sig := common.persisted;
    }

    /** UpdateMonitorResource: persist the whole monitor and pass its result through. */
    method PersistMonitor(routeMonitor: RouteMonitor) returns (sig: Signal)
      modifies client
      ensures StepOutcome(sig, client.State()) == UpdateMonitorResource(old(client.State()), common, routeMonitor)
    {
      client.Record(MonitorUpdated(routeMonitor));
      sig := common.persisted;
    }
  }
}
