/** The ServiceMonitor handler: the scrape-configuration templates and the two convergence
    primitives, create-or-update and ensure-absent, on top of the store. */
module ServiceMonitors {
  import opened Kube

  const ServiceMonitorPeriod := "30s"
  const UrlLabelName := "probe_url"
  const ClusterIdLabelName := "_id"

  /** The comparer: structural equality of spec payloads, identity and metadata left aside. */
  predicate SpecEqual(a: Spec, b: Spec) {
    a == b
  }

  // ---------------------------------------------------------------------------------------
  // Templates

  /** The probe parameters: the blackbox module (only `http_2xx` is supported) and the target. */
  function ProbeParams(routeURL: string): (r: map<string, seq<string>>)
    ensures r.Keys == {"module", "target"}
    ensures r["module"] == ["http_2xx"] && r["target"] == [routeURL]
  {
    map["module" := ["http_2xx"], "target" := [routeURL]]
  }

  /** The spec both ServiceMonitor flavours share: one endpoint probed every 30 s through the
      exporter in `exporterNamespace`, whose metrics are relabelled with the probed URL and the
      cluster id. */
  function TemplateSpec(routeURL: string, exporterNamespace: string, params: map<string, seq<string>>,
                        clusterID: string): (s: Spec)
    ensures forall p :: p in params ==> ProbeParam(s, p) == Some(params[p])
    ensures forall p :: ProbeParam(s, p).Some? ==> p in params
    ensures RelabelOf(s, UrlLabelName) == Some(routeURL)
    ensures RelabelOf(s, ClusterIdLabelName) == Some(clusterID)
  {
    var relabels := [RelabelConfig(routeURL, UrlLabelName), RelabelConfig(clusterID, ClusterIdLabelName)];
    assert relabels[1..] == [RelabelConfig(clusterID, ClusterIdLabelName)];
    assert UrlLabelName[0] != ClusterIdLabelName[0];
    assert Relabelled(relabels, ClusterIdLabelName) == Relabelled(relabels[1..], ClusterIdLabelName) == Some(clusterID);
    ServiceMonitorSpec([Endpoint(ServiceMonitorPeriod, "15s", "/probe", "http", params, relabels)], [exporterNamespace])
  }

  /** The replacement of the first relabel config that targets the label `target`. */
  function Relabelled(configs: seq<RelabelConfig>, target: string): Option<string> {
    if configs == [] then None
    else if configs[0].targetLabel == target then Some(configs[0].replacement)
    else Relabelled(configs[1..], target)
  }

  /** What a ServiceMonitor spec says about one probe: the value of a probe parameter and the
      value relabelled onto a metric label of its first endpoint. */
  function ProbeParam(spec: Spec, param: string): Option<seq<string>> {
    if spec.ServiceMonitorSpec? && |spec.endpoints| > 0 && param in spec.endpoints[0].params
    then Some(spec.endpoints[0].params[param])
    else None
  }

  function RelabelOf(spec: Spec, target: string): Option<string> {
    if spec.ServiceMonitorSpec? && |spec.endpoints| > 0
    then Relabelled(spec.endpoints[0].metricRelabelConfigs, target)
    else None
  }

  function TemplateForServiceMonitorResource(routeURL: string, exporterNamespace: string,
                                             params: map<string, seq<string>>, id: NamespacedName,
                                             clusterID: string): (t: Object)
    ensures t.Id() == Key(ServiceMonitorKind, id)
    ensures forall p :: p in params ==> ProbeParam(t.spec, p) == Some(params[p])
    ensures forall p :: ProbeParam(t.spec, p).Some? ==> p in params
    ensures RelabelOf(t.spec, UrlLabelName) == Some(routeURL)
    ensures RelabelOf(t.spec, ClusterIdLabelName) == Some(clusterID)
  {
    Object(ServiceMonitorKind, ObjectMeta(id.name, id.namespace, 0),
           TemplateSpec(routeURL, exporterNamespace, params, clusterID))
  }

  function HyperShiftTemplateForServiceMonitorResource(routeURL: string, exporterNamespace: string,
                                                       params: map<string, seq<string>>, id: NamespacedName,
                                                       clusterID: string): (t: Object)
    ensures t.Id() == Key(HyperShiftServiceMonitorKind, id)
    ensures forall p :: p in params ==> ProbeParam(t.spec, p) == Some(params[p])
    ensures forall p :: ProbeParam(t.spec, p).Some? ==> p in params
    ensures RelabelOf(t.spec, UrlLabelName) == Some(routeURL)
    ensures RelabelOf(t.spec, ClusterIdLabelName) == Some(clusterID)
  {
    Object(HyperShiftServiceMonitorKind, ObjectMeta(id.name, id.namespace, 0),
           TemplateSpec(routeURL, exporterNamespace, params, clusterID))
  }

  /** The ServiceMonitor kind a monitor of the given flavour owns. */
  function FlavourKind(isHCP: bool): Kind {
    if isHCP then HyperShiftServiceMonitorKind else ServiceMonitorKind
  }

  /** The object TemplateAndUpdateServiceMonitorDeployment converges the store to. */
  function DesiredServiceMonitor(routeURL: string, exporterNamespace: string, id: NamespacedName,
                                 clusterID: string, isHCPMonitor: bool): (t: Object)
    ensures t.Id() == Key(FlavourKind(isHCPMonitor), id)
    ensures ProbeParam(t.spec, "module") == Some(["http_2xx"])
    ensures ProbeParam(t.spec, "target") == Some([routeURL])
    ensures forall p :: ProbeParam(t.spec, p).Some? <==> p == "module" || p == "target"
    ensures RelabelOf(t.spec, UrlLabelName) == Some(routeURL)
    ensures RelabelOf(t.spec, ClusterIdLabelName) == Some(clusterID)
  {
    var params := ProbeParams(routeURL);
    if isHCPMonitor then HyperShiftTemplateForServiceMonitorResource(routeURL, exporterNamespace, params, id, clusterID)
    else TemplateForServiceMonitorResource(routeURL, exporterNamespace, params, id, clusterID)
  }

  /** The two flavours carry the same identity and spec; only the API group differs. */
  lemma FlavoursShareSpec(routeURL: string, exporterNamespace: string, id: NamespacedName, clusterID: string)
    ensures DesiredServiceMonitor(routeURL, exporterNamespace, id, clusterID, true)
         == DesiredServiceMonitor(routeURL, exporterNamespace, id, clusterID, false).(kind := HyperShiftServiceMonitorKind)
  {
  }

  /** The template spec pins down the URL, the exporter namespace and the cluster id, so a
      change in any of them is a spec difference and reaches the store through an update. */
  lemma TemplateDeterminesInputs(u1: string, n1: string, i1: NamespacedName, c1: string, h1: bool,
                                 u2: string, n2: string, i2: NamespacedName, c2: string, h2: bool)
    requires DesiredServiceMonitor(u1, n1, i1, c1, h1).spec == DesiredServiceMonitor(u2, n2, i2, c2, h2).spec
    ensures u1 == u2 && n1 == n2 && c1 == c2
  {
    var s1 := DesiredServiceMonitor(u1, n1, i1, c1, h1).spec;
    var s2 := DesiredServiceMonitor(u2, n2, i2, c2, h2).spec;
    assert s1.namespaceSelector[0] == n1 && s2.namespaceSelector[0] == n2;
  }

  // ---------------------------------------------------------------------------------------
  // Convergence primitives

  /** Create-or-update: fetch by the template's identity; not found, create the template;
      found with a different spec, overwrite only the spec and update; otherwise do nothing.
      Any other fetch error is returned as it is. */
  function CreateOrUpdate(c: Cluster, template: Object): (r: Effect)
    ensures Extends(c, r.cluster)
    ensures |NewWrites(c, r.cluster)| <= 1
    ensures r.cluster.objects - {template.Id()} == c.objects - {template.Id()}
    ensures r.err.Some? ==> r.cluster.objects == c.objects
    ensures r.err.None? ==> template.Id() in r.cluster.objects
                            && r.cluster.objects[template.Id()].spec == template.spec
  {
    match StoreGet(c, template.Id())
    case Err(e) => if e != NotFound then Effect(c, Some(e)) else StoreCreate(c, template)
    case Ok(deployed) =>
      if !SpecEqual(deployed.spec, template.spec) then StoreUpdate(c, deployed.(spec := template.spec))
      else Effect(c, None)
  }

  /** The error client.IgnoreNotFound leaves. */
  function IgnoreNotFound(e: Error): (r: Option<Error>)
    ensures r.None? <==> e == NotFound
    ensures r.Some? ==> r.value == e
  {
    if e == NotFound then None else Some(e)
  }

  /** Ensure-absent: an unset reference is already converged; otherwise fetch it, and delete
      it when it is there.  A missing object is not an error. */
  function EnsureAbsent(c: Cluster, kind: Kind, ref: NamespacedName): (r: Effect)
    ensures Extends(c, r.cluster)
    ensures NewWrites(c, r.cluster) == [] || NewWrites(c, r.cluster) == [Deleted(Key(kind, ref))]
    ensures r.cluster.objects == c.objects || r.cluster.objects == c.objects - {Key(kind, ref)}
    ensures r.err.Some? ==> r.cluster.objects == c.objects
    ensures r.err.None? && ref.name != "" && ref.namespace != "" ==> Key(kind, ref) !in r.cluster.objects
  {
    if ref.name == "" || ref.namespace == "" then Effect(c, None)
    else match StoreGet(c, Key(kind, ref))
      case Err(e) => Effect(c, IgnoreNotFound(e))
      case Ok(resource) => StoreDelete(c, resource)
  }

  // ---------------------------------------------------------------------------------------
  // Properties of the primitives

  lemma CreateOrUpdateSurfacesGetError(c: Cluster, template: Object)
    requires StoreGet(c, template.Id()).Err? && StoreGet(c, template.Id()).error != NotFound
    ensures CreateOrUpdate(c, template) == Effect(c, Some(StoreGet(c, template.Id()).error))
  {
  }

  lemma CreateOrUpdateCreatesWhenNotFound(c: Cluster, template: Object)
    requires StoreGet(c, template.Id()) == Err(NotFound)
    ensures NewWrites(c, CreateOrUpdate(c, template).cluster) == [Created(template)]
    ensures CreateOrUpdate(c, template).err == StoreCreate(c, template).err
  {
  }

  /** The diff gate: an update is issued exactly when the deployed spec differs, it carries the
      deployed identity and metadata with the template's spec, and equal specs mean no write. */
  lemma CreateOrUpdateDiffGate(c: Cluster, template: Object)
    requires StoreGet(c, template.Id()).Ok?
    ensures var deployed := StoreGet(c, template.Id()).value;
            var r := CreateOrUpdate(c, template);
            && (deployed.spec == template.spec ==> r == Effect(c, None))
            && (deployed.spec != template.spec ==>
                  && NewWrites(c, r.cluster) == [Updated(deployed.(spec := template.spec))]
                  && deployed.(spec := template.spec).Id() == template.Id()
                  && r.err == StoreUpdate(c, deployed.(spec := template.spec)).err)
  {
  }

  /** Re-running create-or-update after it succeeded issues no write. */
  lemma {:induction false} CreateOrUpdateIdempotent(c: Cluster, template: Object)
    requires CreateOrUpdate(c, template).err.None?
    requires GetCall(template.Id()) !in c.faults
    ensures var c1 := CreateOrUpdate(c, template).cluster;
            CreateOrUpdate(c1, template) == Effect(c1, None)
  {
    var c1 := CreateOrUpdate(c, template).cluster;
    assert StoreGet(c1, template.Id()).Ok?;
  }

  /** Without store faults create-or-update always converges. */
  lemma CreateOrUpdateSucceedsWithoutFaults(c: Cluster, template: Object)
    requires c.faults == map[]
    ensures CreateOrUpdate(c, template).err.None?
  {
  }

  /** A converged object stays converged when the store only records further writes. */
  lemma CreateOrUpdateIgnoresLog(c: Cluster, w: Write, template: Object)
    requires CreateOrUpdate(c, template) == Effect(c, None)
    ensures CreateOrUpdate(Log(c, w), template) == Effect(Log(c, w), None)
  {
    assert StoreGet(Log(c, w), template.Id()) == StoreGet(c, template.Id());
  }

  lemma EnsureAbsentUnsetRef(c: Cluster, kind: Kind, ref: NamespacedName)
    requires ref.name == "" || ref.namespace == ""
    ensures EnsureAbsent(c, kind, ref) == Effect(c, None)
  {
  }

  /** A set reference: a missing object is a no-op, any other fetch error is returned, and a
      present object is deleted once, with the delete's error returned. */
  lemma EnsureAbsentSetRef(c: Cluster, kind: Kind, ref: NamespacedName)
    requires ref.name != "" && ref.namespace != ""
    ensures var g := StoreGet(c, Key(kind, ref));
            var r := EnsureAbsent(c, kind, ref);
            && (g == Err(NotFound) ==> r == Effect(c, None))
            && (g.Err? && g.error != NotFound ==> r == Effect(c, Some(g.error)))
            && (g.Ok? ==> NewWrites(c, r.cluster) == [Deleted(Key(kind, ref))]
                          && r.err == StoreDelete(c, g.value).err)
  {
  }

  /** Re-running ensure-absent after it succeeded issues no write. */
  lemma {:induction false} EnsureAbsentIdempotent(c: Cluster, kind: Kind, ref: NamespacedName)
    requires EnsureAbsent(c, kind, ref).err.None?
    requires GetCall(Key(kind, ref)) !in c.faults
    ensures var c1 := EnsureAbsent(c, kind, ref).cluster;
            EnsureAbsent(c1, kind, ref) == Effect(c1, None)
  {
  }

  /** Without store faults ensure-absent always converges. */
  lemma EnsureAbsentSucceedsWithoutFaults(c: Cluster, kind: Kind, ref: NamespacedName)
    requires c.faults == map[]
    ensures EnsureAbsent(c, kind, ref).err.None?
  {
  }

  // ---------------------------------------------------------------------------------------
  // The handler

  class ServiceMonitor {
    const client: Client

    constructor (client: Client)
      ensures this.client == client
    {
      this.client := client;
    }

    method TemplateAndUpdateServiceMonitorDeployment(routeURL: string, exporterNamespace: string,
                                                     id: NamespacedName, clusterID: string,
                                                     isHCPMonitor: bool) returns (err: Option<Error>)
      modifies client
      ensures Effect(client.State(), err)
           == CreateOrUpdate(old(client.State()), DesiredServiceMonitor(routeURL, exporterNamespace, id, clusterID, isHCPMonitor))
    {
      var params := ProbeParams(routeURL);
      if isHCPMonitor {
        var s := HyperShiftTemplateForServiceMonitorResource(routeURL, exporterNamespace, params, id, clusterID);
        err := HypershiftUpdateServiceMonitorDeployment(s);
        return;
      }
      var s := TemplateForServiceMonitorResource(routeURL, exporterNamespace, params, id, clusterID);
      err := UpdateServiceMonitorDeployment(s);
    }

    method UpdateServiceMonitorDeployment(template: Object) returns (err: Option<Error>)
      requires template.kind == ServiceMonitorKind
      modifies client
      ensures Effect(client.State(), err) == CreateOrUpdate(old(client.State()), template)
    {
      err := CreateOrUpdateDeployment(client, template);
    }

    method HypershiftUpdateServiceMonitorDeployment(template: Object) returns (err: Option<Error>)
      requires template.kind == HyperShiftServiceMonitorKind
      modifies client
      ensures Effect(client.State(), err) == CreateOrUpdate(old(client.State()), template)
    {
      err := CreateOrUpdateDeployment(client, template);
    }

    method DeleteServiceMonitorDeployment(ref: NamespacedName, isHCP: bool) returns (err: Option<Error>)
      modifies client
      ensures Effect(client.State(), err) == EnsureAbsent(old(client.State()), FlavourKind(isHCP), ref)
    {
      err := DeleteDeployment(client, FlavourKind(isHCP), ref);
    }
  }

  /** Create-or-update on a client; both ServiceMonitor flavours and the PrometheusRule
      handler share it. */
  method CreateOrUpdateDeployment(client: Client, template: Object) returns (err: Option<Error>)
    modifies client
    ensures Effect(client.State(), err) == CreateOrUpdate(old(client.State()), template)
  {
    var deployed := client.Get(template.Id());
    if deployed.Err? {
      if deployed.error != NotFound {
        return Some(deployed.error);
      }
      err := client.Create(template);
      return;
    }
    if !SpecEqual(deployed.value.spec, template.spec) {
      var updated := deployed.value.(spec := template.spec);
      err := client.Update(updated);
      return;
    }
    err := None;
  }

  /** Ensure-absent on a client; the PrometheusRule handler shares it. */
  method DeleteDeployment(client: Client, kind: Kind, ref: NamespacedName) returns (err: Option<Error>)
    modifies client
    ensures Effect(client.State(), err) == EnsureAbsent(old(client.State()), kind, ref)
  {
    if ref.name == "" || ref.namespace == "" {
      return None;
    }
    var resource := client.Get(Key(kind, ref));
    if resource.Err? {
      return IgnoreNotFound(resource.error);
    }
    err := client.Delete(resource.value);
  }
}
