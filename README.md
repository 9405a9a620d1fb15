# route-monitor-operator reconcile core, in Dafny

The route-monitor operator watches two custom resources. A `RouteMonitor` points at an
OpenShift Route. A `ClusterUrlMonitor` points at a URL of the cluster itself. For each one,
the operator keeps two derived objects in the cluster: a Prometheus `ServiceMonitor` that
scrapes a blackbox exporter probing the URL, and a `PrometheusRule` that alerts on the
monitor's SLO. It also keeps a finalizer on the monitor, so the derived objects are deleted
before the monitor goes away.

This project models the reconcile core in three parts:

- **The ClusterUrlMonitor driver** (`clusterurlmonitor.dfy`, module `ClusterUrlMonitor`).
  - `Reconcile` runs six steps in a fixed order: fetch the monitor, deletion cascade, finalizer, exporter, ServiceMonitor, PrometheusRule.
  - It loops over them and stops at the first step whose signal is not `Continue`.
  - A step hands back `Continue`, `Stop`, or `Requeue(err)`. `Requeue(err)` is a non-nil error; `Stop` is a result whose `ShouldStop()` holds.
  - The steps' bodies are not part of this model, so what each step hands back in one invocation is an input (`Outcomes`).
  - The two finalizer-key constants are modelled as well.
- **The RouteMonitor steps** (`routemonitor.dfy`, module `RouteMonitorSteps`).
  - Each step is a method of the class `RouteMonitorReconciler`. It works on its own copy of the monitor and issues calls on a `Client`, which changes the store in place.
  - Each step method (`EnsurePrometheusRuleExists`, `EnsureServiceMonitorExists`, `EnsureMonitorAndDependenciesAbsent`, `EnsureFinalizerSet`, `EnsureRouteURLExists`) is proved equal to a step function on the store's state. `GetRouteMonitor` and `GetRoute` are specified case by case over the store's fetches. `PersistStatus` and `PersistMonitor` are tied to the persist stand-ins. The properties are proved about those functions in `routemonitor_properties.dfy` (module `RouteMonitorProperties`).
- **The ServiceMonitor handler** (`servicemonitor.dfy`, module `ServiceMonitors`).
  - The two ServiceMonitor templates, which are pure constructors.
  - The create-or-update and ensure-absent primitives, as methods on the client, each specified by a function.

The store is modelled in `kube.dfy` (module `Kube`) as the value `Cluster`. It holds:

- the derived objects by kind and name;
- the monitors and routes that can be fetched;
- a fault map, naming each store call that fails with a transient error;
- the log of every mutating call issued.

"The writes a step issued" is the part of the log the step appended. "The monitor the store
holds" after a step (`MonitorAfter`) is the monitor the step persisted, if it persisted one and
the persisting call did not report a failure. Otherwise it is the monitor the step was given:
a persist that returns an error leaves the stored monitor as it was.

Collaborators whose bodies are not part of this model appear as fields of the
`Collaborators` record. They are:

- `ParseMonitorSLOSpecs`;
- `GetOSDClusterID`;
- `ShouldDeleteBlackBoxExporterResources`;
- the error of `EnsureBlackBoxExporterResourcesAbsent`;
- `GetBlackBoxExporterNamespace`;
- the signal returned by `UpdateMonitorResource` / `UpdateMonitorResourceStatus`.

The two persist calls and the exporter teardown are logged as writes. Their returned signal is
passed through unchanged.

`SetResourceReference`, `SetErrorStatus`, `SetFinalizer` and `DeleteFinalizer` come from
`pkg/reconcile`, which is not part of this model. Each is modelled as a compare-and-set
function that also returns a changed flag.

The PrometheusRule handler (`pkg/alert`) is not part of this model either. It is given the
same create-or-update and ensure-absent contract as the ServiceMonitor handler. The rule it
renders is kept as the pair (route URL, parsed SLO).

Notes on the code's behaviour:

- The alerting step does not requeue when the route URL is empty. It hands the URL to the SLO parser as it is.
- There is no flag that skips the ServiceMonitor. Only the PrometheusRule can be skipped.
- The deletion cascade releases the finalizer only when the *current* key is present. A monitor that carries only the legacy key makes the cascade stop and keeps that key. `CascadeWhenClean` states this.

## Model

| member | source | states |
|---|---|---|
| ClusterUrlMonitor.FinalizerKeysDistinct | controllers/clusterurlmonitor/clusterurlmonitor.go:66-68 | the current finalizer key and the previous one it replaces are different strings |
| ClusterUrlMonitor.SignalOf | controllers/clusterurlmonitor/clusterurlmonitor.go:115-120 | the exporter step never stops the reconcile; it continues exactly when it returned no error, and otherwise requeues |
| ClusterUrlMonitor.FirstHalt | controllers/clusterurlmonitor/clusterurlmonitor.go:84-145 | the position it returns is preceded only by steps that continued, and the step there (if any) did not continue |
| ClusterUrlMonitor.FirstHaltUnique | controllers/clusterurlmonitor/clusterurlmonitor.go:84-145 | the first step that does not continue is the only position with that property |
| ClusterUrlMonitor.Reconcile | controllers/clusterurlmonitor/clusterurlmonitor.go:80-146 | the result is always empty; the steps that ran are a non-empty prefix of the fixed order; every step but the last one that ran continued; the run ended early only at a step that did not continue; an error is returned exactly when that last step requeued, and it is that step's error |
| ClusterUrlMonitor.ErrorEndsReconcile | controllers/clusterurlmonitor/clusterurlmonitor.go:86-89 | a step that requeues after all earlier steps continued ends the invocation with its own error, and no later step runs |
| ClusterUrlMonitor.StopEndsReconcile | controllers/clusterurlmonitor/clusterurlmonitor.go:90-92 | a step that stops after all earlier steps continued ends the invocation with a nil error, and no later step runs |
| ClusterUrlMonitor.AllContinueCompletes | controllers/clusterurlmonitor/clusterurlmonitor.go:144-145 | when every step continues, all six run in order and the outcome is the empty result with a nil error |
| ClusterUrlMonitor.DeletionStopSkipsFinalizer | controllers/clusterurlmonitor/clusterurlmonitor.go:94-113 | when the deletion step stops, only the fetch and the deletion ran; the finalizer step is never reached, and no error is returned |
| ClusterUrlMonitor.Position | controllers/clusterurlmonitor/clusterurlmonitor.go:84-145 | each step has exactly one place in the fixed order |
| ClusterUrlMonitor.RanInOrder | controllers/clusterurlmonitor/clusterurlmonitor.go:84-145 | a step runs only if every step before it in the fixed order ran and continued |
| Kube.Client.Get | pkg/servicemonitor/servicemonitor.go:53 | a fetch returns the stored object; a faulted call returns its transient error; an absent key returns NotFound |
| Kube.Client.Create | pkg/servicemonitor/servicemonitor.go:59 | a create is logged, fails on a faulted call or an existing key, and otherwise stores the object |
| Kube.Client.Update | pkg/servicemonitor/servicemonitor.go:64 | an update is logged, fails on a faulted call or a missing key, and otherwise overwrites the stored object |
| Kube.Client.Delete | pkg/servicemonitor/servicemonitor.go:111 | a delete is logged, fails on a faulted call or a missing key, and otherwise removes the object |
| Kube.Client.GetMonitor | controllers/routemonitor/routemonitor_supplement.go:152 | a monitor fetch returns the stored monitor, its transient error, or NotFound |
| Kube.Client.GetRoute | controllers/routemonitor/routemonitor_supplement.go:184 | a route fetch returns the stored route, its transient error, or NotFound |
| Kube.Client.Record | controllers/routemonitor/routemonitor_supplement.go:113 | a write issued by a collaborator is appended to the log, and nothing else changes |
| ServiceMonitors.ProbeParams | pkg/servicemonitor/servicemonitor.go:35-39 | the parameters are exactly `module` and `target`, with the module `http_2xx` and the route URL as the target |
| ServiceMonitors.TemplateSpec | pkg/servicemonitor/servicemonitor.go:121-151 | the shared spec carries exactly the probe parameters it was given, the route URL under `probe_url` and the cluster ID under `_id` |
| ServiceMonitors.TemplateForServiceMonitorResource | pkg/servicemonitor/servicemonitor.go:115-153 | the template is named after the given name and namespace, and carries exactly the given parameters and both relabellings |
| ServiceMonitors.HyperShiftTemplateForServiceMonitorResource | pkg/servicemonitor/servicemonitor.go:156-194 | the same as the standard template, but of the HyperShift kind |
| ServiceMonitors.DesiredServiceMonitor | pkg/servicemonitor/servicemonitor.go:34-47 | the HCP flag selects exactly one flavour; the probe parameters are `module=[http_2xx]` and `target=[routeURL]` and no others; the template carries the route URL and the cluster ID |
| ServiceMonitors.FlavoursShareSpec | pkg/servicemonitor/servicemonitor.go:115-194 | the two flavours have the same identity and spec; only the kind differs |
| ServiceMonitors.TemplateDeterminesInputs | pkg/servicemonitor/servicemonitor.go:121-151 | equal template specs mean equal route URL, exporter namespace and cluster ID, so a change in any of them reaches the store as an update |
| ServiceMonitors.CreateOrUpdate | pkg/servicemonitor/servicemonitor.go:50-67 | at most one write; no object but the template's is touched; a failure leaves the objects as they were; success leaves an object stored under the template's key |
| ServiceMonitors.EnsureAbsent | pkg/servicemonitor/servicemonitor.go:92-112 | at most one write, and it is the delete of the referenced key; a failure leaves the objects as they were; success with a set reference leaves the key absent |
| ServiceMonitors.IgnoreNotFound | pkg/servicemonitor/servicemonitor.go:100-102 | NotFound becomes no error, and every other error is handed back unchanged |
| ServiceMonitors.CreateOrUpdateSurfacesGetError | pkg/servicemonitor/servicemonitor.go:53-58 | a fetch error other than NotFound is returned unchanged, with no create and no update |
| ServiceMonitors.CreateOrUpdateCreatesWhenNotFound | pkg/servicemonitor/servicemonitor.go:59 | NotFound leads to exactly one create of the template, whose error is returned |
| ServiceMonitors.CreateOrUpdateDiffGate | pkg/servicemonitor/servicemonitor.go:61-66 | a found object whose spec equals the template's gives no write and a nil error; a different spec gives one update that keeps the deployed identity and metadata and carries the template's spec |
| ServiceMonitors.CreateOrUpdateIdempotent | pkg/servicemonitor/servicemonitor.go:50-67 | once create-or-update has succeeded, running it again issues no write |
| ServiceMonitors.CreateOrUpdateSucceedsWithoutFaults | pkg/servicemonitor/servicemonitor.go:50-67 | on a store with no faults, create-or-update returns no error |
| ServiceMonitors.EnsureAbsentUnsetRef | pkg/servicemonitor/servicemonitor.go:93-95 | an empty name or namespace returns nil with no store call |
| ServiceMonitors.EnsureAbsentSetRef | pkg/servicemonitor/servicemonitor.go:96-111 | for a set reference: NotFound returns nil with no delete; any other fetch error is returned; a found object gets exactly one delete, whose error is returned |
| ServiceMonitors.EnsureAbsentIdempotent | pkg/servicemonitor/servicemonitor.go:92-112 | once ensure-absent has succeeded, running it again issues no write |
| ServiceMonitors.EnsureAbsentSucceedsWithoutFaults | pkg/servicemonitor/servicemonitor.go:92-112 | on a store with no faults, ensure-absent returns no error |
| ServiceMonitors.ServiceMonitor.TemplateAndUpdateServiceMonitorDeployment | pkg/servicemonitor/servicemonitor.go:34-47 | the store is converged to the flavour's template, as create-or-update specifies |
| ServiceMonitors.ServiceMonitor.UpdateServiceMonitorDeployment | pkg/servicemonitor/servicemonitor.go:50-67 | the standard ServiceMonitor is created or updated as create-or-update specifies |
| ServiceMonitors.ServiceMonitor.HypershiftUpdateServiceMonitorDeployment | pkg/servicemonitor/servicemonitor.go:70-87 | the HyperShift ServiceMonitor follows exactly the same create-or-update contract |
| ServiceMonitors.ServiceMonitor.DeleteServiceMonitorDeployment | pkg/servicemonitor/servicemonitor.go:92-112 | the flavour's ServiceMonitor is made absent as ensure-absent specifies |
| ServiceMonitors.CreateOrUpdateDeployment | pkg/servicemonitor/servicemonitor.go:50-67 | the client's store changes exactly as create-or-update specifies, and the error is the one it returns |
| ServiceMonitors.DeleteDeployment | pkg/servicemonitor/servicemonitor.go:92-112 | the client's store changes exactly as ensure-absent specifies, and the error is the one it returns |
| RouteMonitorSteps.SetResourceReference | controllers/routemonitor/routemonitor_supplement.go:64-67 | the reference becomes the target, and the changed flag is set exactly when the old reference differed, so the status is persisted only on a change |
| RouteMonitorSteps.SetErrorStatus | controllers/routemonitor/routemonitor_supplement.go:38-41 | the error status becomes the error's text, or empty without an error, and the changed flag is set exactly when the stored text differed |
| RouteMonitorSteps.Without | controllers/routemonitor/routemonitor_supplement.go:132-134 | the list keeps every finalizer except the removed key; a missing key leaves the list as it was |
| RouteMonitorSteps.SetFinalizer | controllers/routemonitor/routemonitor_supplement.go:141 | the key is reported added exactly when it was missing; afterwards the list holds it and every old key; an unchanged report means an unchanged list |
| RouteMonitorSteps.DeleteFinalizer | controllers/routemonitor/routemonitor_supplement.go:132 | the key is reported removed exactly when it was present; afterwards the list holds every other key and not that one |
| RouteMonitorSteps.ExtractRouteURL | controllers/routemonitor/routemonitor_supplement.go:190-208 | no ingress gives NoIngress; an empty first host gives NoHost; otherwise the URL is the first ingress's host, with `https://` in front on a TLS route, and it is never empty |
| RouteMonitorSteps.UpdateMonitorResource | controllers/routemonitor/routemonitor_supplement.go:135 | the whole monitor is sent as one logged write, no object changes, and the collaborator's signal is handed back |
| RouteMonitorSteps.UpdateMonitorResourceStatus | controllers/routemonitor/routemonitor_supplement.go:66 | the monitor's status is sent as one logged write, no object changes, and the collaborator's signal is handed back |
| RouteMonitorSteps.PrometheusRuleTemplate | controllers/routemonitor/routemonitor_supplement.go:55-57 | the rendered rule is a PrometheusRule keyed by the monitor's own name and namespace |
| RouteMonitorSteps.ClearPrometheusRule | controllers/routemonitor/routemonitor_supplement.go:27-35 | only derived objects and the log change, and the log is only appended to; what the step does is proved in RouteMonitorProperties: ClearPrometheusRuleOutcome, ClearPrometheusRuleIdempotent, ClearKeepsRefsBacked, ClearFailedPersistLeavesDanglingRef |
| RouteMonitorSteps.PrometheusRuleStep | controllers/routemonitor/routemonitor_supplement.go:23-69 | only derived objects and the log change, and the log is only appended to; what the step does is proved in RouteMonitorProperties: PrometheusRuleSkipped, PrometheusRuleErrorStatusFirst, PrometheusRuleEmptySlo, PrometheusRuleRendered, PrometheusRuleIdempotent, PrometheusRuleKeepsRefsBacked |
| RouteMonitorSteps.ReferencePrometheusRule | controllers/routemonitor/routemonitor_supplement.go:55-68 | only derived objects and the log change, and the log is only appended to; what the step does is proved in RouteMonitorProperties: ReferencePrometheusRuleOutcome, ReferencePrometheusRuleIdempotent, ReferencePrometheusRuleKeepsRefsBacked |
| RouteMonitorSteps.ServiceMonitorStep | controllers/routemonitor/routemonitor_supplement.go:72-99 | only derived objects and the log change, and the log is only appended to; what the step does is proved in RouteMonitorProperties: ServiceMonitorNeedsHost, ServiceMonitorRefFollowsWrite, ServiceMonitorIdempotent, ServiceMonitorKeepsRefsBacked |
| RouteMonitorSteps.ReferenceServiceMonitor | controllers/routemonitor/routemonitor_supplement.go:86-98 | only derived objects and the log change, and the log is only appended to; what the step does is proved in RouteMonitorProperties: ReferenceServiceMonitorOutcome, ReferenceServiceMonitorIdempotent, ReferenceServiceMonitorKeepsRefsBacked |
| RouteMonitorSteps.DependenciesAbsentStep | controllers/routemonitor/routemonitor_supplement.go:102-138 | only derived objects and the log change, and the log is only appended to; what the step does is proved in RouteMonitorProperties: CascadeOrder, CascadeErrors, CascadeWhenClean, CascadeRetryDeletesOnlyWhatIsLeft, DeletesOnlyPresentServiceMonitor, CascadeDeletesOnlyReferenced |
| RouteMonitorSteps.DeleteDependents | controllers/routemonitor/routemonitor_supplement.go:119-137 | only derived objects and the log change, and the log is only appended to; what the step does is proved in RouteMonitorProperties: DeleteDependentsOrder, DeleteDependentsReleased, DeleteDependentsWhenClean, DeleteDependentsOnlyReferenced |
| RouteMonitorSteps.ReleaseFinalizer | controllers/routemonitor/routemonitor_supplement.go:131-137 | only derived objects and the log change, and the log is only appended to; what the step does is proved in RouteMonitorProperties: ReleaseFinalizerOutcome |
| RouteMonitorSteps.FinalizerStep | controllers/routemonitor/routemonitor_supplement.go:140-147 | only derived objects and the log change, and the log is only appended to; what the step does is proved in RouteMonitorProperties: FinalizerSet, FinalizerIdempotent |
| RouteMonitorSteps.RouteURLStep | controllers/routemonitor/routemonitor_supplement.go:189-221 | only derived objects and the log change, and the log is only appended to; what the step does is proved in RouteMonitorProperties: RouteURLUpdate, RouteURLIdempotent |
| RouteMonitorSteps.RouteMonitorReconciler.EnsurePrometheusRuleExists | controllers/routemonitor/routemonitor_supplement.go:23-69 | the signal and the new store are those of the PrometheusRule step function |
| RouteMonitorSteps.RouteMonitorReconciler.EnsureServiceMonitorExists | controllers/routemonitor/routemonitor_supplement.go:72-99 | the signal and the new store are those of the ServiceMonitor step function |
| RouteMonitorSteps.RouteMonitorReconciler.EnsureMonitorAndDependenciesAbsent | controllers/routemonitor/routemonitor_supplement.go:102-138 | the signal and the new store are those of the deletion cascade function |
| RouteMonitorSteps.RouteMonitorReconciler.EnsureFinalizerSet | controllers/routemonitor/routemonitor_supplement.go:140-147 | the signal and the new store are those of the finalizer step function |
| RouteMonitorSteps.RouteMonitorReconciler.GetRouteMonitor | controllers/routemonitor/routemonitor_supplement.go:150-170 | a fetch error other than NotFound requeues with that error; NotFound or an empty monitor stops with the empty monitor; otherwise the fetched monitor is returned and the reconcile continues |
| RouteMonitorSteps.RouteMonitorReconciler.GetRoute | controllers/routemonitor/routemonitor_supplement.go:173-186 | an empty route name or namespace is an invalid monitor, with no store call; otherwise the route fetch's result is returned |
| RouteMonitorSteps.RouteMonitorReconciler.EnsureRouteURLExists | controllers/routemonitor/routemonitor_supplement.go:189-221 | the signal and the new store are those of the route-URL step function |
| RouteMonitorSteps.RouteMonitorReconciler.PersistStatus | controllers/routemonitor/routemonitor_supplement.go:66 | the status is persisted, and the persisting call's signal is returned unchanged |
| RouteMonitorSteps.RouteMonitorReconciler.PersistMonitor | controllers/routemonitor/routemonitor_supplement.go:135 | the whole monitor is persisted, and the persisting call's signal is returned unchanged |
| RouteMonitorProperties.ReferenceServiceMonitorOutcome | controllers/routemonitor/routemonitor_supplement.go:87-98 | a failed write requeues before the reference is touched; after a successful one the ServiceMonitor holds the desired spec, the status is persisted only when the reference changed, and the monitor the store holds references the monitor's own name unless that persist failed, in which case it is the monitor as it was |
| RouteMonitorProperties.ReferenceServiceMonitorIdempotent | controllers/routemonitor/routemonitor_supplement.go:87-98 | on a fault-free store, converging again on the monitor with the new reference issues no write and continues; a retry from the monitor as it was, after a failed persist, writes no object and sends the same reference again |
| RouteMonitorProperties.ReferenceServiceMonitorKeepsRefsBacked | controllers/routemonitor/routemonitor_supplement.go:87-98 | if every reference named a stored object before, it still does after, whether or not the persist succeeded |
| RouteMonitorProperties.ReferencePrometheusRuleOutcome | controllers/routemonitor/routemonitor_supplement.go:56-68 | a failed rule write requeues before the reference is touched; after a successful one the rule holds the template's spec, the status is persisted only when the reference changed, and the monitor the store holds references the monitor's own name unless that persist failed |
| RouteMonitorProperties.ReferencePrometheusRuleIdempotent | controllers/routemonitor/routemonitor_supplement.go:56-68 | on a fault-free store, writing the rule again on the monitor with the new reference issues no write and continues; a retry after a failed persist writes no object and sends the same reference again |
| RouteMonitorProperties.ReferencePrometheusRuleKeepsRefsBacked | controllers/routemonitor/routemonitor_supplement.go:56-68 | if every reference named a stored object before, it still does after, whether or not the persist succeeded |
| RouteMonitorProperties.ClearPrometheusRuleOutcome | controllers/routemonitor/routemonitor_supplement.go:27-35 | no rule is created or updated; a failed delete requeues and leaves the reference alone; otherwise the reference is cleared, and the status is persisted only when that changed it, else the step ends with the branch's own signal |
| RouteMonitorProperties.PrometheusRuleSkipped | controllers/routemonitor/routemonitor_supplement.go:25-36 | with the skip flag set, the step is the clean-up path ending in Continue, and no rule is created or updated |
| RouteMonitorProperties.PrometheusRuleErrorStatusFirst | controllers/routemonitor/routemonitor_supplement.go:38-41 | a changed error status is persisted as the step's only write, before any rule delete or write |
| RouteMonitorProperties.PrometheusRuleEmptySlo | controllers/routemonitor/routemonitor_supplement.go:42-53 | an empty parsed SLO takes the clean-up path but ends in Stop; with the reference already empty, the step stops without a write |
| RouteMonitorProperties.PrometheusRuleRendered | controllers/routemonitor/routemonitor_supplement.go:55-68 | a rendered SLO writes the rule first; an error requeues before the reference is touched; success stores the rule and persists the status only if the reference changed, and the monitor the store holds then references the monitor's own name unless that persist failed |
| RouteMonitorProperties.ClearPrometheusRuleIdempotent | controllers/routemonitor/routemonitor_supplement.go:27-35 | on a fault-free store, the monitor the store holds has an empty reference unless the persist failed; running the clean-up again on it issues no write; a retry from the monitor as it was deletes nothing and sends the cleared reference again |
| RouteMonitorProperties.PrometheusRuleRenderedIdempotent | controllers/routemonitor/routemonitor_supplement.go:55-68 | on a fault-free store, re-running the rendered path on the monitor the store holds issues no write and continues, except after a failed persist, when it writes no object and sends the same reference again |
| RouteMonitorProperties.PrometheusRuleIdempotent | controllers/routemonitor/routemonitor_supplement.go:23-69 | on a fault-free store with a settled error status, re-running the step on the monitor the store holds changes no derived object; when the persist succeeded it issues no write and does not requeue |
| RouteMonitorProperties.ServiceMonitorNeedsHost | controllers/routemonitor/routemonitor_supplement.go:75-85 | an empty route URL requeues with NoHost, and a failed cluster-ID lookup requeues with its error, both before any store call |
| RouteMonitorProperties.ServiceMonitorRefFollowsWrite | controllers/routemonitor/routemonitor_supplement.go:87-98 | with a host and a cluster ID: a write error requeues before the reference is touched; after a successful write the ServiceMonitor holds the desired spec, the status is persisted only when the reference changed, and the monitor the store holds references the monitor's own name unless that persist failed |
| RouteMonitorProperties.ServiceMonitorIdempotent | controllers/routemonitor/routemonitor_supplement.go:72-99 | on a fault-free store, re-running the step on the monitor the store holds changes no derived object; when the persist succeeded it issues no write, and continues when there is a host and a cluster ID |
| RouteMonitorProperties.ReleaseFinalizerOutcome | controllers/routemonitor/routemonitor_supplement.go:132-137 | with the current key present, the monitor is sent to be persisted without the current and the legacy key and nothing else, the persist signal is returned, and the store holds that monitor unless the persist failed; otherwise nothing is written and the step stops |
| RouteMonitorProperties.DeleteDependentsOrder | controllers/routemonitor/routemonitor_supplement.go:119-137 | the writes are the ServiceMonitor delete, the PrometheusRule delete and the finalizer release, in this order and each at most once; only a stored ServiceMonitor is deleted; the release happens exactly when both deletes succeeded and the current key is there, and then both referenced objects are absent |
| RouteMonitorProperties.DeleteDependentsReleased | controllers/routemonitor/routemonitor_supplement.go:119-137 | when both deletes came through and the current key is there, both referenced objects are gone and the step returns the persist's signal |
| RouteMonitorProperties.CascadeOrder | controllers/routemonitor/routemonitor_supplement.go:102-138 | the writes are the exporter teardown, the ServiceMonitor delete, the PrometheusRule delete and the finalizer release, in this order and each at most once; the release happens exactly when the exporter check, the teardown and both deletes succeeded and the current key was there; both objects are then absent and the persist signal is returned |
| RouteMonitorProperties.PrependWrites | controllers/routemonitor/routemonitor_supplement.go:111-137 | the exporter teardown's writes followed by the delete stages' writes form the cascade's writes |
| RouteMonitorProperties.DeleteDependentsWhenClean | controllers/routemonitor/routemonitor_supplement.go:119-137 | on a fault-free store the deletes succeed, and the finalizer is released exactly when the current key is there; the store then holds the monitor without both keys unless the persist failed |
| RouteMonitorProperties.CascadeWhenClean | controllers/routemonitor/routemonitor_supplement.go:102-138 | when the exporter check and teardown succeed on a fault-free store, the monitor the store holds loses both keys if the current key was present, unless the persist failed; otherwise the step stops and the monitor is unchanged |
| RouteMonitorProperties.CascadeRetryDeletesOnlyWhatIsLeft | controllers/routemonitor/routemonitor_supplement.go:119-123 | a cascade that deleted the ServiceMonitor and then failed does not delete the ServiceMonitor again when it is retried |
| RouteMonitorProperties.DeletesOnlyPresentServiceMonitor | controllers/routemonitor/routemonitor_supplement.go:119-123 | the cascade issues a ServiceMonitor delete only when the store held that ServiceMonitor |
| RouteMonitorProperties.CascadeErrors | controllers/routemonitor/routemonitor_supplement.go:102-138 | a failed exporter check, exporter teardown, ServiceMonitor delete or PrometheusRule delete requeues with that error, before the finalizer is touched and before any later stage runs; when all succeed the step is the finalizer release |
| RouteMonitorProperties.CascadeDeletesOnlyReferenced | controllers/routemonitor/routemonitor_supplement.go:119-129 | the cascade changes no object except the two its references name, so an object written but never referenced outlives the monitor |
| RouteMonitorProperties.FinalizerSet | controllers/routemonitor/routemonitor_supplement.go:140-147 | a present current key gives Continue with no write; a missing one is added, the legacy key removed, and the monitor persisted; no persisted monitor carries the legacy key; the monitor the store holds has the current key unless the persist of the added key failed |
| RouteMonitorProperties.FinalizerIdempotent | controllers/routemonitor/routemonitor_supplement.go:140-147 | with distinct keys, re-running the step on the monitor the store holds continues with no write, except after a failed persist, when it sends the same monitor again |
| RouteMonitorProperties.RouteURLUpdate | controllers/routemonitor/routemonitor_supplement.go:189-221 | a route with no usable host requeues with no write; the same URL continues with no write; a different URL replaces the old one and is persisted as the only write |
| RouteMonitorProperties.RouteURLIdempotent | controllers/routemonitor/routemonitor_supplement.go:204-221 | after the step, the monitor the store holds has the route's non-empty URL unless the persist failed; re-running the step on it continues with no write, except after a failed persist, when it sends the same URL again |
| RouteMonitorProperties.PersistedLast | controllers/routemonitor/routemonitor_supplement.go:66 | the monitor persisted last, whole or its status, is the monitor the store holds, unless that persist reported a failure, in which case it is the monitor the step was given |
| RouteMonitorProperties.MonitorAfterPrefix | controllers/routemonitor/routemonitor_supplement.go:102-138 | writes that leave the monitor as it was do not change which monitor later writes leave in the store |
| RouteMonitorProperties.NothingPersisted | controllers/routemonitor/routemonitor_supplement.go:58-61 | a single write to a derived object leaves the monitor as it was |
| RouteMonitorProperties.ServiceMonitorKeepsRefsBacked | controllers/routemonitor/routemonitor_supplement.go:72-99 | the ServiceMonitor step keeps every reference of the monitor the store holds naming a stored object, whether or not its persist succeeded |
| RouteMonitorProperties.PrometheusRuleKeepsRefsBacked | controllers/routemonitor/routemonitor_supplement.go:23-69 | once its persist succeeded, the PrometheusRule step keeps every reference of the monitor the store holds naming a stored object |
| RouteMonitorProperties.ClearKeepsRefsBacked | controllers/routemonitor/routemonitor_supplement.go:27-35 | once its persist succeeded, the clean-up path keeps every reference naming a stored object: the deleted rule's reference is cleared in the same step |
| RouteMonitorProperties.ClearFailedPersistLeavesDanglingRef | controllers/routemonitor/routemonitor_supplement.go:27-32 | when the rule was deleted but persisting the cleared reference failed, the step returns the persist's error and the monitor the store holds still references the rule just deleted |

## Left out

- Logging, `NewReconciler`, `SetupWithManager`, the RBAC markers and the assignment of `r.Ctx`. These are framework plumbing.
- The controller framework's concurrency, requeue scheduling and backoff. The model covers one invocation. Repeated invocations appear only as re-running a step on the store and monitor it left behind.
- The bodies of `ParseMonitorSLOSpecs`, `GetOSDClusterID`, `GetHCP`, `ShouldDeleteBlackBoxExporterResources`, `EnsureBlackBoxExporterResourcesAbsent` and `GetBlackBoxExporterNamespace` are not part of this model. Their answers are inputs.
- The persisting calls `UpdateMonitorResource` and `UpdateMonitorResourceStatus` are logged writes whose returned signal is an input. Whether the persist itself succeeds is that signal's business.
- ClusterUrlMonitor.Reconcile: the ClusterUrlMonitor steps' own bodies are not part of this model, so what each step hands back is an input rather than a store effect. The monitor fetched by the first step is not threaded to the later ones.
- `SetResourceReference` can return an error in its signature. The compare-and-set model never produces one, so the requeue at routemonitor_supplement.go:91-93 is never taken.
- The deletion-timestamp check that decides whether the cascade runs lives in the caller, which is not part of this model. The cascade is modelled as it runs once called.
- The ServiceMonitor's port name and label selector come from the blackbox-exporter package, which is not part of this model. They are the same constant in every template, so they are left out of the spec.
- The Prometheus types are reduced to the fields the properties name: interval, timeout, path, scheme, params, relabel configs and namespace selector.
- The PrometheusRule's rule groups are rendered by `pkg/alert`, which is not part of this model. They are kept as the pair (route URL, parsed SLO).
- The comparer is structural equality of specs. `DeepEqual`'s treatment of nil versus empty collections is not modelled.
- The HyperShift flavour of deletion is modelled, but the RouteMonitor steps call only the standard flavour, as the source does.
- RouteMonitorProperties.PrometheusRuleIdempotent: proved only for a settled error status. When the parser's error text changes between runs, the first run persists the new status and stops, so a second run can differ.
- RouteMonitorProperties.ServiceMonitorKeepsRefsBacked, RouteMonitorProperties.PrometheusRuleKeepsRefsBacked: the invariant runs in one direction only. A reference names a stored object; a stored object need not be referenced. An object written before its reference failed to persist stays unreferenced until a later run of the same step references it. If the deletion cascade runs first, that object is never deleted, because the cascade deletes only what the references name (`CascadeDeletesOnlyReferenced`).
- RouteMonitorProperties.PrometheusRuleKeepsRefsBacked, RouteMonitorProperties.ClearKeepsRefsBacked: stated for a persist that succeeded. When the clean-up deletes the rule and the persist of the cleared reference fails, the stored monitor keeps a reference to the deleted rule until the retry clears it (`ClearFailedPersistLeavesDanglingRef`, `ClearPrometheusRuleIdempotent`).
- RouteMonitorProperties.PrometheusRuleIdempotent, RouteMonitorProperties.ServiceMonitorIdempotent: "no write at all" is stated for a persist that succeeded. After a failed persist, the retry sends the same persist again, and only the absence of object writes is promised.
- The PrometheusRule handler's create-or-update and ensure-absent are assumed to behave like the ServiceMonitor handler's (`CreateOrUpdate`, `EnsureAbsent`). Its body is in `pkg/alert`, which is not part of this model, so every PrometheusRule lemma rests on that assumption.
- RouteMonitorSteps.UpdateMonitorResource, RouteMonitorSteps.UpdateMonitorResourceStatus, RouteMonitorSteps.PrometheusRuleTemplate: stand-ins for `pkg/reconcile` and `pkg/alert`, which are not part of this model. Their contracts state only how the model represents those calls: a logged write with the collaborator's signal, and a rule keyed by the monitor.
- The persisting calls do not change the store's own monitor map. The monitor the store holds after a step is derived from the last persist write and its returned signal (`MonitorAfter`).
