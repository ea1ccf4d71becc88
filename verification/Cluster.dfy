/** The cluster objects the AIGateway pipeline reads and writes, and the pure decisions about them. */
module Cluster {
  import opened Wrappers
  import GridNamespace

  /** Unset is the empty string: the CRD default only applies inside a present block. */
  datatype ManagementState = Managed | Removed | Unset

  datatype Spec = Spec(
    batchGateway: ManagementState,
    modelsAsAService: ManagementState,
    aiGrid: ManagementState,
    generation: nat)

  datatype Kind =
    | Deployment
    | CustomResourceDefinition
    | Role
    | RoleBinding
    | Namespace
    | Secret
    | OtherKind(gvk: string)

  datatype Key = Key(kind: Kind, namespace: string, name: string)

  /** What the operator records on everything it deploys; compared by the default GC predicate. */
  datatype Stamp = Stamp(version: string, platform: string, generation: nat, instance: string)

  /** The metadata keys the operator gives a meaning to; every other key is opaque to it. */
  datatype MetaKey =
    | TeardownRequested // maas.opendatahub.io/teardown-requested
    | TeardownCompleted // maas.opendatahub.io/teardown-completed
    | Component         // app.kubernetes.io/component
    | PartOf            // app.kubernetes.io/part-of
    | ManagedBy         // app.kubernetes.io/managed-by
    | AIGatewayOwned    // app.opendatahub.io/aigateway
    | LegacyOwned       // app.opendatahub.io/modelsasservice
    | Generated         // opendatahub.io/generated-namespace
    | OtherKey(name: string)

  type Labels = map<MetaKey, string>

  datatype Object = Object(
    uid: nat,
    resourceVersion: nat,
    labels: Labels,
    annotations: Labels,
    selector: Option<Labels>,
    stamp: Option<Stamp>)

  type Store = map<Key, Object>

  /** A manifest after rendering, before it is applied. */
  datatype Rendered = Rendered(key: Key, labels: Labels, annotations: Labels, selector: Option<Labels>)

  /** The configuration of one operator process, with its vendored manifests rendered. */
  datatype Config = Config(
    applications: GridNamespace.Name,
    infrastructure: string,
    grid: string,
    version: string,
    platform: string,
    instance: string,
    batchGateway: seq<Rendered>,
    gridCrds: seq<Rendered>,
    /** maas-controller and ai-gateway-controller share one toggle. */
    bundle: seq<Rendered>,
    gridOperator: seq<Rendered>)

  const MAAS_CONTROLLER := "maas-controller"
  const SECRET_MIGRATE := "maas-controller-secret-migrate"
  const MAAS_COMPONENT := "models-as-a-service"
  const AIGATEWAY_CONTROLLER_COMPONENT := "ai-gateway-controller"
  const GRID_CRD_SUFFIX := ".grid.praxis.fast"

  /** Reading a Go map: a missing key yields the empty string. */
  function Lookup(m: Labels, k: MetaKey): string {
    if k in m then m[k] else ""
  }

  function Get<K(==), V>(m: map<K, V>, k: K): Option<V> {
    if k in m then Some(m[k]) else None
  }

  /** deriveInfrastructureNamespace */
  function InfraNamespace(app: GridNamespace.Name): string {
    if app == GridNamespace.RHOAI_APPLICATIONS then "redhat-ai-gateway-infra"
    else if app == GridNamespace.ODH_APPLICATIONS then "odh-ai-gateway-infra"
    else app
  }

  /** How every operator process names its two other namespaces. */
  predicate Named(cfg: Config) {
    && cfg.applications != ""
    && cfg.infrastructure == InfraNamespace(cfg.applications)
    && cfg.grid == GridNamespace.Derive(cfg.applications)
  }

  /** The grid never shares the infrastructure namespace, unless a long name spells out its own hash. */
  lemma NamespacesApart(cfg: Config)
    requires Named(cfg)
    ensures cfg.infrastructure != "" && cfg.grid != ""
    ensures cfg.applications == "redhat-ods-applications" ==> cfg.infrastructure == "redhat-ai-gateway-infra"
    ensures cfg.applications == "opendatahub" ==> cfg.infrastructure == "odh-ai-gateway-infra"
    ensures cfg.applications != "redhat-ods-applications" && cfg.applications != "opendatahub" ==>
              cfg.infrastructure == cfg.applications
    ensures cfg.grid == cfg.infrastructure <==>
            |cfg.applications| > GridNamespace.LONGEST_PLAIN &&
            cfg.applications == GridNamespace.Shortened(cfg.applications) + GridNamespace.SUFFIX
  {
  }

  /** The maas-controller Deployment, through which both sides of the teardown talk. */
  function ControllerKey(cfg: Config): Key {
    Key(Deployment, cfg.applications, MAAS_CONTROLLER)
  }

  function InfraNamespaceKey(cfg: Config): Key {
    Key(Namespace, "", cfg.infrastructure)
  }

  function GridNamespaceKey(cfg: Config): Key {
    Key(Namespace, "", cfg.grid)
  }

  function RoleKey(cfg: Config): Key {
    Key(Role, cfg.infrastructure, SECRET_MIGRATE)
  }

  function RoleBindingKey(cfg: Config): Key {
    Key(RoleBinding, cfg.infrastructure, SECRET_MIGRATE)
  }

  function DatabaseSecretKey(cfg: Config): Key {
    Key(Secret, cfg.infrastructure, "maas-db-config")
  }

  /** What the operator or its user puts in place outside the manifests. */
  function ReservedKeys(cfg: Config): set<Key> {
    {InfraNamespaceKey(cfg), GridNamespaceKey(cfg), RoleKey(cfg), RoleBindingKey(cfg), DatabaseSecretKey(cfg)}
  }

  function CurrentStamp(cfg: Config, instance: Spec): Stamp {
    Stamp(cfg.version, cfg.platform, instance.generation, cfg.instance)
  }

  // ----- the teardown signal -----

  predicate Marked(o: Object) {
    Lookup(o.annotations, TeardownCompleted) == "true"
  }

  /** maasTeardownCompleted: a missing Deployment counts as completed. */
  predicate Completed(seen: Option<Object>) {
    seen.None? || Marked(seen.value)
  }

  // ----- garbage collection -----

  predicate HasSuffix(s: string, suffix: string) {
    |suffix| <= |s| && s[|s| - |suffix|..] == suffix
  }

  predicate GridCrd(k: Key) {
    k.kind == CustomResourceDefinition && HasSuffix(k.name, GRID_CRD_SUFFIX)
  }

  /** gc.DefaultObjectPredicate: some recorded stamp differs from what this pass would record. */
  predicate Stale(o: Object, current: Stamp) {
    o.stamp.Some? && o.stamp.value != current
  }

  predicate BundleLabelled(labels: Labels) {
    var component := Lookup(labels, Component);
    component == MAAS_COMPONENT || component == AIGATEWAY_CONTROLLER_COMPONENT
  }

  datatype Reason = StaleStamp | TeardownDone

  /** maasAwareGCPredicate: why the object may be collected, if it may. */
  function Judge(k: Key, o: Object, current: Stamp, seen: Option<Object>): Option<Reason> {
    if GridCrd(k) then None
    else if Stale(o, current) then Some(StaleStamp)
    else if !BundleLabelled(o.labels) then None
    else if Completed(seen) then Some(TeardownDone)
    else None
  }

  /** A CRD of the AI Grid's API group. */
  ghost predicate NamedGridCrd(k: Key) {
    k.kind == CustomResourceDefinition && exists p :: k.name == p + ".grid.praxis.fast"
  }

  lemma HasSuffixIff(s: string, suffix: string)
    ensures HasSuffix(s, suffix) <==> exists p :: s == p + suffix
  {
    if HasSuffix(s, suffix) {
      assert s == s[..|s| - |suffix|] + suffix;
    }
    forall p | s == p + suffix
      ensures HasSuffix(s, suffix)
    {
      assert s[|s| - |suffix|..] == suffix;
    }
  }

  lemma GridCrdIffNamed(k: Key)
    ensures GridCrd(k) <==> NamedGridCrd(k)
  {
    HasSuffixIff(k.name, GRID_CRD_SUFFIX);
  }

  /** Whatever is recorded or reported, a grid CRD is never collected. */
  lemma GridCrdsAreNeverCollected(p: string, namespace: string, o: Object, current: Stamp, seen: Option<Object>)
    ensures Judge(Key(CustomResourceDefinition, namespace, p + ".grid.praxis.fast"), o, current, seen).None?
  {
    GridCrdIffNamed(Key(CustomResourceDefinition, namespace, p + ".grid.praxis.fast"));
  }

  /** The object says it belongs to the MaaS bundle. */
  predicate InBundleByLabel(labels: Labels) {
    Component in labels && (labels[Component] == "models-as-a-service" || labels[Component] == "ai-gateway-controller")
  }

  /** maas-controller is gone, or says that it is done. */
  predicate ReportedDone(seen: Option<Object>) {
    seen.None? ||
    (TeardownCompleted in seen.value.annotations && seen.value.annotations[TeardownCompleted] == "true")
  }

  /** Everything else is collected exactly for an old stamp, or as bundle of a finished teardown. */
  lemma JudgeMeans(k: Key, o: Object, current: Stamp, seen: Option<Object>)
    ensures NamedGridCrd(k) ==> Judge(k, o, current, seen).None?
    ensures !NamedGridCrd(k) ==>
              (Judge(k, o, current, seen) == Some(StaleStamp) <==> o.stamp.Some? && o.stamp.value != current)
    ensures !NamedGridCrd(k) && (o.stamp.None? || o.stamp.value == current) ==>
              (Judge(k, o, current, seen) == Some(TeardownDone) <==> InBundleByLabel(o.labels) && ReportedDone(seen))
  {
    GridCrdIffNamed(k);
    hide GridCrd;
    hide NamedGridCrd;
  }

  /**
   * What the sweep can delete: the applications namespace and cluster-scoped objects.  Namespaces
   * are out of its reach, because the operator's role grants no delete on them.
   */
  predicate InSweepScope(cfg: Config, k: Key) {
    k.namespace == cfg.applications || (k.namespace == "" && k.kind != Namespace)
  }

  // ----- selector migration -----

  predicate SelectorCurrent(selector: Option<Labels>) {
    && selector.Some?
    && Lookup(selector.value, PartOf) == "aigateway"
    && Lookup(selector.value, AIGatewayOwned) == "true"
    && LegacyOwned !in selector.value
  }

  /** Which selectors the migration leaves alone. */
  lemma SelectorCurrentMeans(selector: Option<Labels>)
    ensures selector.None? ==> !SelectorCurrent(selector)
    ensures selector.Some? && LegacyOwned in selector.value ==> !SelectorCurrent(selector)
    ensures selector.Some? && LegacyOwned !in selector.value ==>
              (SelectorCurrent(selector) <==>
                 && PartOf in selector.value && selector.value[PartOf] == "aigateway"
                 && AIGatewayOwned in selector.value && selector.value[AIGatewayOwned] == "true")
  {
  }

  // ----- apply -----

  /** A selector cannot be changed on a live object. */
  predicate Applicable(store: Store, r: Rendered) {
    r.key in store ==> store[r.key].selector == r.selector
  }

  /** Owned fields are set, the operator's own request annotation is dropped when no longer rendered,
      foreign annotations are kept. */
  function Applied(live: Option<Object>, r: Rendered, stamp: Stamp, id: nat): Object {
    match live
    case None => Object(id, id, r.labels, r.annotations, r.selector, Some(stamp))
    case Some(o) =>
      Object(o.uid, id, o.labels + r.labels, (o.annotations - {TeardownRequested}) + r.annotations,
             o.selector, Some(stamp))
  }

  /** What an apply sets, keeps and takes away on a live object. */
  lemma ApplyMerges(o: Object, r: Rendered, stamp: Stamp, id: nat)
    ensures var a := Applied(Some(o), r, stamp, id);
            && a.uid == o.uid && a.selector == o.selector && a.stamp == Some(stamp) && a.resourceVersion == id
            && (forall k :: k in r.labels ==> k in a.labels && a.labels[k] == r.labels[k])
            && (forall k :: k !in r.labels ==> Get(a.labels, k) == Get(o.labels, k))
            && (forall k :: k in r.annotations ==> k in a.annotations && a.annotations[k] == r.annotations[k])
            && (forall k :: k !in r.annotations && k != TeardownRequested ==>
                  Get(a.annotations, k) == Get(o.annotations, k))
            && (TeardownRequested in a.annotations <==> TeardownRequested in r.annotations)
  {
  }

  /** The labels ensureNamespace insists on. */
  const NAMESPACE_LABELS: Labels :=
    map[PartOf := "ai-gateway",
        ManagedBy := "ai-gateway-operator",
        Generated := "true"]

  const RBAC_LABELS: Labels :=
    map[PartOf := MAAS_COMPONENT, ManagedBy := "ai-gateway-operator"]

  function EnsuredNamespace(live: Option<Object>, id: nat): Object {
    match live
    case None => Object(id, id, NAMESPACE_LABELS, map[], None, None)
    case Some(o) =>
      if forall k :: k in NAMESPACE_LABELS ==> Lookup(o.labels, k) == NAMESPACE_LABELS[k] then o
      else o.(labels := o.labels + NAMESPACE_LABELS, resourceVersion := id)
  }

  function EnsuredRbac(live: Option<Object>, id: nat): Object {
    match live
    case None => Object(id, id, RBAC_LABELS, map[], None, None)
    case Some(o) => o.(labels := RBAC_LABELS, resourceVersion := id)
  }

  // ----- rendering -----

  /** annotateMaaSRequestedTeardown on one resource. */
  function Annotated(cfg: Config, r: Rendered): Rendered {
    if r.key == ControllerKey(cfg)
    then r.(annotations := r.annotations[TeardownRequested := "true"])
    else r
  }

  function AnnotatedAll(cfg: Config, rs: seq<Rendered>): (out: seq<Rendered>)
    ensures |out| == |rs|
    ensures forall i :: 0 <= i < |rs| ==> out[i] == Annotated(cfg, rs[i])
  {
    if rs == [] then [] else [Annotated(cfg, rs[0])] + AnnotatedAll(cfg, rs[1..])
  }

  /** What kustomize and renderAIGridOperator produce, in manifest order. */
  function RenderedSet(cfg: Config, instance: Spec, keep: bool): seq<Rendered> {
    (if instance.batchGateway == Managed then cfg.batchGateway else []) +
    (if instance.aiGrid == Managed then cfg.gridCrds else []) +
    (if keep then cfg.bundle else []) +
    (if instance.aiGrid == Managed then cfg.gridOperator else [])
  }

  /** Rendered exactly if it belongs to a Managed sub-module, or to the bundle while that is kept. */
  lemma RenderedIff(cfg: Config, instance: Spec, keep: bool, r: Rendered)
    ensures r in RenderedSet(cfg, instance, keep) <==>
            || (instance.batchGateway == Managed && r in cfg.batchGateway)
            || (keep && r in cfg.bundle)
            || (instance.aiGrid == Managed && (r in cfg.gridCrds || r in cfg.gridOperator))
  {
  }

  /** The grid's CRDs come before its operator. */
  lemma CrdsComeFirst(cfg: Config, instance: Spec, keep: bool) returns (before: seq<Rendered>, between: seq<Rendered>)
    requires instance.aiGrid == Managed
    ensures RenderedSet(cfg, instance, keep) == before + cfg.gridCrds + between + cfg.gridOperator
    ensures forall r :: r in before ==> instance.batchGateway == Managed && r in cfg.batchGateway
    ensures forall r :: r in between ==> keep && r in cfg.bundle
  {
    before := if instance.batchGateway == Managed then cfg.batchGateway else [];
    between := if keep then cfg.bundle else [];
  }

  /** When MaaS is kept: Managed, or Removed with a live Deployment that is not marked. */
  lemma KeepMeans(instance: Spec, seen: Option<Object>)
    ensures KeepInstalled(instance, seen) <==>
            || instance.modelsAsAService == Managed
            || (instance.modelsAsAService == Removed && !ReportedDone(seen))
  {
  }

  /** rr.Resources when the deploy action starts. */
  function Resources(cfg: Config, instance: Spec, keep: bool): seq<Rendered> {
    if instance.modelsAsAService == Removed
    then AnnotatedAll(cfg, RenderedSet(cfg, instance, keep))
    else RenderedSet(cfg, instance, keep)
  }

  /** shouldKeepMaaSInstalled as initialize uses it. */
  function KeepInstalled(instance: Spec, seen: Option<Object>): bool {
    || instance.modelsAsAService == Managed
    || (instance.modelsAsAService == Removed && !Completed(seen))
  }

  function BundleKeys(cfg: Config): set<Key> {
    set r | r in cfg.bundle :: r.key
  }

  /** What the vendored manifests guarantee. */
  ghost predicate ValidConfig(cfg: Config) {
    && ControllerKey(cfg) in BundleKeys(cfg)
    && (forall r :: r in cfg.bundle ==>
          && BundleLabelled(r.labels)
          && !GridCrd(r.key)
          && InSweepScope(cfg, r.key)
          && TeardownCompleted !in r.annotations
          && (r.key == ControllerKey(cfg) ==> SelectorCurrent(r.selector)))
    && (forall r :: r in cfg.batchGateway + cfg.gridCrds + cfg.gridOperator ==> r.key !in BundleKeys(cfg))
    && ReservedKeys(cfg) !! BundleKeys(cfg)
    && (forall r :: r in cfg.batchGateway + cfg.gridCrds + cfg.gridOperator ==> r.key !in ReservedKeys(cfg))
  }

  lemma ControllerIsBundled(cfg: Config)
    requires ValidConfig(cfg)
    ensures ControllerKey(cfg) in BundleKeys(cfg)
  {
  }

  /** The bundle is rendered exactly when it is kept; nothing else claims its keys. */
  lemma RenderedBundle(cfg: Config, instance: Spec, keep: bool, r: Rendered)
    requires ValidConfig(cfg)
    ensures r in RenderedSet(cfg, instance, keep) && r.key in BundleKeys(cfg) ==> keep && r in cfg.bundle
    ensures keep && r in cfg.bundle ==> r in RenderedSet(cfg, instance, keep)
  {
  }

  /** Rendered resources up to the teardown request. */
  lemma ResourcesAreRendered(cfg: Config, instance: Spec, keep: bool, r: Rendered)
    ensures r in Resources(cfg, instance, keep) ==>
              exists q :: q in RenderedSet(cfg, instance, keep) && (r == q || r == Annotated(cfg, q))
    ensures r in RenderedSet(cfg, instance, keep) ==>
              exists q :: q in Resources(cfg, instance, keep) && q.key == r.key && (q == r || q == Annotated(cfg, r))
  {
  }

  /** The planned resources that touch the bundle are the bundle's own. */
  lemma PlannedBundle(cfg: Config, instance: Spec, keep: bool, r: Rendered)
    requires ValidConfig(cfg) && r in Resources(cfg, instance, keep) && r.key in BundleKeys(cfg)
    ensures keep && BundleLabelled(r.labels) && TeardownCompleted !in r.annotations
    ensures r.key == ControllerKey(cfg) ==> SelectorCurrent(r.selector)
  {
    hide RenderedSet;
    hide Resources;
    hide SelectorCurrent;
    hide BundleLabelled;
    ResourcesAreRendered(cfg, instance, keep, r);
    var q :| q in RenderedSet(cfg, instance, keep) && (r == q || r == Annotated(cfg, q));
    RenderedBundle(cfg, instance, keep, q);
  }
}
