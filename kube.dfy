/** The values the reconcilers work on, and the object store behind the Kubernetes client.

    The store is a `Cluster` value: the derived objects it holds, the monitors and routes
    it can be asked for, the calls that fail with a transient error, and the log of every
    mutating call that was issued.  The class `Client` holds one such state and changes it
    in place; each of its methods is specified by a function on `Cluster`. */
module Kube {

  datatype Option<+T> = None | Some(value: T)

  /** An error returned by the store or by a collaborator.  Callers only ever tell
      `NotFound` apart from the rest. */
  datatype Error =
    | NotFound
    | AlreadyExists
    | Transient(reason: string)      // any other failure of a store call
    | Collaborator(reason: string)   // an error handed back by a collaborator not modelled here
    | NoHost                         // the route has no host yet
    | NoIngress                      // the route has no ingress yet
    | InvalidCR                      // the monitor's route reference is incomplete

  datatype Result<+T> = Ok(value: T) | Err(error: Error)

  /** A namespaced identity.  The reference whose two fields are empty is the absent sentinel. */
  datatype NamespacedName = NamespacedName(name: string, namespace: string)

  const Absent := NamespacedName("", "")

  /** What one reconcile step hands back to its driver: the step's result together with its
      error.  `Requeue(err)` is a non-nil error; `Stop` is a result whose ShouldStop() holds. */
  datatype Signal = Continue | Stop | Requeue(err: Error)

  // ---------------------------------------------------------------------------------------
  // Derived objects: ServiceMonitors of both API groups and PrometheusRules

  datatype Kind = ServiceMonitorKind | HyperShiftServiceMonitorKind | PrometheusRuleKind

  datatype Key = Key(kind: Kind, id: NamespacedName)

  /** Identity plus the metadata the store keeps beside it. */
  datatype ObjectMeta = ObjectMeta(name: string, namespace: string, resourceVersion: nat)

  datatype RelabelConfig = RelabelConfig(replacement: string, targetLabel: string)

  datatype Endpoint = Endpoint(
    interval: string,
    scrapeTimeout: string,
    path: string,
    scheme: string,
    params: map<string, seq<string>>,
    metricRelabelConfigs: seq<RelabelConfig>)

  /** The spec payload, the only part the comparer looks at.  A PrometheusRule's rule groups
      are rendered by a collaborator from the route URL and the parsed SLO; they are kept
      here as that pair. */
  datatype Spec =
    | ServiceMonitorSpec(endpoints: seq<Endpoint>, namespaceSelector: seq<string>)
    | PrometheusRuleSpec(routeURL: string, slo: string)

  datatype Object = Object(kind: Kind, meta: ObjectMeta, spec: Spec) {
    function Id(): Key {
      Key(kind, NamespacedName(meta.name, meta.namespace))
    }
  }

  /** What the store keeps under a key: the object without its identity, which is the key. */
  datatype Stored = Stored(resourceVersion: nat, spec: Spec)

  function Stamp(obj: Object): Stored {
    Stored(obj.meta.resourceVersion, obj.spec)
  }

  /** The object the store hands back for a key. */
  function Materialize(key: Key, s: Stored): Object {
    Object(key.kind, ObjectMeta(key.id.name, key.id.namespace, s.resourceVersion), s.spec)
  }

  // ---------------------------------------------------------------------------------------
  // The parent resource and the Route it points at

  datatype SloSpec = SloSpec(targetAvailabilityPercent: string)

  datatype RouteMonitorSpec = RouteMonitorSpec(route: NamespacedName, skipPrometheusRule: bool, slo: SloSpec)

  datatype RouteMonitorStatus = RouteMonitorStatus(
    routeURL: string,
    serviceMonitorRef: NamespacedName,
    prometheusRuleRef: NamespacedName,
    errorStatus: string)

  datatype RouteMonitor = RouteMonitor(
    name: string,
    namespace: string,
    finalizers: seq<string>,
    spec: RouteMonitorSpec,
    status: RouteMonitorStatus)
  {
    function Id(): NamespacedName {
      NamespacedName(name, namespace)
    }
  }

  const EmptyRouteMonitor := RouteMonitor("", "", [],
    RouteMonitorSpec(Absent, false, SloSpec("")),
    RouteMonitorStatus("", Absent, Absent, ""))

  datatype RouteIngress = RouteIngress(host: string)

  /** `tls` stands for a non-nil `spec.tls`. */
  datatype Route = Route(tls: bool, ingress: seq<RouteIngress>)

  const EmptyRoute := Route(false, [])

  // ---------------------------------------------------------------------------------------
  // The store

  /** Every mutating call issued, whether or not it succeeded. */
  datatype Write =
    | Created(obj: Object)
    | Updated(obj: Object)
    | Deleted(key: Key)
    | MonitorUpdated(monitor: RouteMonitor)        // the whole monitor, finalizers included
    | MonitorStatusUpdated(monitor: RouteMonitor)  // the status sub-resource
    | ExporterRemoved                              // the shared blackbox exporter torn down

  /** A store call, as named in the fault map. */
  datatype Call =
    | GetCall(key: Key)
    | CreateCall(key: Key)
    | UpdateCall(key: Key)
    | DeleteCall(key: Key)
    | GetMonitorCall(id: NamespacedName)
    | GetRouteCall(id: NamespacedName)

  datatype Cluster = Cluster(
    objects: map<Key, Stored>,
    monitors: map<NamespacedName, RouteMonitor>,
    routes: map<NamespacedName, Route>,
    faults: map<Call, string>,
    writes: seq<Write>)

  /** A cluster state after a store call, with the error the call returned. */
  datatype Effect = Effect(cluster: Cluster, err: Option<Error>)

  function StoreGet(c: Cluster, key: Key): Result<Object> {
    if GetCall(key) in c.faults then Err(Transient(c.faults[GetCall(key)]))
    else if key in c.objects then Ok(Materialize(key, c.objects[key]))
    else Err(NotFound)
  }

  function StoreCreate(c: Cluster, obj: Object): Effect {
    var key := obj.Id();
    var logged := c.(writes := c.writes + [Created(obj)]);
    if CreateCall(key) in c.faults then Effect(logged, Some(Transient(c.faults[CreateCall(key)])))
    else if key in c.objects then Effect(logged, Some(AlreadyExists))
    else Effect(logged.(objects := c.objects[key := Stamp(obj)]), None)
  }

  function StoreUpdate(c: Cluster, obj: Object): Effect {
    var key := obj.Id();
    var logged := c.(writes := c.writes + [Updated(obj)]);
    if UpdateCall(key) in c.faults then Effect(logged, Some(Transient(c.faults[UpdateCall(key)])))
    else if key !in c.objects then Effect(logged, Some(NotFound))
    else Effect(logged.(objects := c.objects[key := Stamp(obj)]), None)
  }

  function StoreDelete(c: Cluster, obj: Object): Effect {
    var key := obj.Id();
    var logged := c.(writes := c.writes + [Deleted(key)]);
    if DeleteCall(key) in c.faults then Effect(logged, Some(Transient(c.faults[DeleteCall(key)])))
    else if key !in c.objects then Effect(logged, Some(NotFound))
    else Effect(logged.(objects := c.objects - {key}), None)
  }

  function StoreGetMonitor(c: Cluster, id: NamespacedName): Result<RouteMonitor> {
    if GetMonitorCall(id) in c.faults then Err(Transient(c.faults[GetMonitorCall(id)]))
    else if id in c.monitors then Ok(c.monitors[id])
    else Err(NotFound)
  }

  function StoreGetRoute(c: Cluster, id: NamespacedName): Result<Route> {
    if GetRouteCall(id) in c.faults then Err(Transient(c.faults[GetRouteCall(id)]))
    else if id in c.routes then Ok(c.routes[id])
    else Err(NotFound)
  }

  /** Appends one write to the log and changes nothing else. */
  function Log(c: Cluster, w: Write): Cluster {
    c.(writes := c.writes + [w])
  }

  /** The writes issued between two states of the store. */
  function NewWrites(before: Cluster, after: Cluster): seq<Write>
    requires |before.writes| <= |after.writes|
  {
    after.writes[|before.writes|..]
  }

  /** `after` came from `before` by appending writes and changing derived objects only. */
  ghost predicate Extends(before: Cluster, after: Cluster) {
    && after.monitors == before.monitors
    && after.routes == before.routes
    && after.faults == before.faults
    && |before.writes| <= |after.writes|
    && after.writes[..|before.writes|] == before.writes
  }

  lemma ExtendsTransitive(a: Cluster, b: Cluster, c: Cluster)
    requires Extends(a, b) && Extends(b, c)
    ensures Extends(a, c)
    ensures NewWrites(a, c) == NewWrites(a, b) + NewWrites(b, c)
  {
    assert c.writes[..|a.writes|] == c.writes[..|b.writes|][..|a.writes|];
    assert c.writes == c.writes[..|b.writes|] + NewWrites(b, c);
  }

  /** The Kubernetes client: one store state, changed in place by the mutating calls. */
  class Client {
    var objects: map<Key, Stored>
    var writes: seq<Write>
    const monitors: map<NamespacedName, RouteMonitor>
    const routes: map<NamespacedName, Route>
    const faults: map<Call, string>

    function State(): Cluster
      reads this
    {
      Cluster(objects, monitors, routes, faults, writes)
    }

    constructor (c: Cluster)
      ensures State() == c
    {
      objects, writes := c.objects, c.writes;
      monitors, routes, faults := c.monitors, c.routes, c.faults;
    }

    method Get(key: Key) returns (r: Result<Object>)
      ensures r == StoreGet(State(), key)
    {
      r := StoreGet(State(), key);
    }

    /** Applies a mutating call's effect: the objects and the log are all it may change. */
    method Apply(e: Effect) returns (err: Option<Error>)
      requires e.cluster.monitors == monitors && e.cluster.routes == routes && e.cluster.faults == faults
      modifies this
      ensures State() == e.cluster && err == e.err
    {
      objects, writes := e.cluster.objects, e.cluster.writes;
      err := e.err;
    }

    method Create(obj: Object) returns (err: Option<Error>)
      modifies this
      ensures Effect(State(), err) == StoreCreate(old(State()), obj)
    {
      err := Apply(StoreCreate(State(), obj));
    }

    method Update(obj: Object) returns (err: Option<Error>)
      modifies this
      ensures Effect(State(), err) == StoreUpdate(old(State()), obj)
    {
      err := Apply(StoreUpdate(State(), obj));
    }

    method Delete(obj: Object) returns (err: Option<Error>)
      modifies this
      ensures Effect(State(), err) == StoreDelete(old(State()), obj)
    {
      err := Apply(StoreDelete(State(), obj));
    }

    method GetMonitor(id: NamespacedName) returns (r: Result<RouteMonitor>)
      ensures r == StoreGetMonitor(State(), id)
    {
      r := StoreGetMonitor(State(), id);
    }

    method GetRoute(id: NamespacedName) returns (r: Result<Route>)
      ensures r == StoreGetRoute(State(), id)
    {
      r := StoreGetRoute(State(), id);
    }

    /** Records a write issued by a collaborator that goes through this client. */
    method Record(w: Write)
      modifies this
      ensures State() == Log(old(State()), w)
    {
      writes := Log(State(), w).writes;
    }
  }
}
