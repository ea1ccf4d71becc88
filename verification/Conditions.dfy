/**
 * The request a pass carries, and the actions that fill it in: which manifests are rendered, the
 * teardown request on the rendered Deployment, and the conditions reported on the AIGateway.
 */
module Conditions {
  import opened Wrappers
  import opened Cluster
  import opened Pipeline

  // ----- what the actions read -----

  /** A client read: the object, not there, or an error that ends the pass. */
  datatype Read<+T> = Found(value: T) | Missing | Broken

  function Seen<T>(r: Read<T>): Option<T> {
    if r.Found? then Some(r.value) else None
  }

  datatype NamespacedName = NamespacedName(namespace: string, name: string)

  datatype DeploymentView = DeploymentView(readyReplicas: nat, marked: bool, partOf: bool)

  /** A field of an unstructured object. */
  datatype Raw = Text(text: string) | NotText

  /** An entry of Config.status.conditions; it need not even be an object. */
  datatype Entry =
    | Malformed
    | Entry(conditionType: Raw, status: Raw, reason: Raw, message: Raw)

  /** What the API server answers during the status actions. */
  datatype View = View(
    deployments: map<NamespacedName, Read<DeploymentView>>,
    listing: Read<nat>,
    established: map<string, Read<bool>>,
    config: Read<seq<Entry>>)

  function ReadDeployment(v: View, k: NamespacedName): Read<DeploymentView> {
    if k in v.deployments then v.deployments[k] else Missing
  }

  function ReadCrd(v: View, name: string): Read<bool> {
    if name in v.established then v.established[name] else Missing
  }

  // ----- conditions -----

  datatype Status = True | False

  datatype Severity = Error | Info

  datatype ConditionType =
    | DeploymentsAvailable | ModelsAsAServiceReady | TenantsHealthy | BatchGatewayReady | AIGridReady

  datatype Condition = Condition(status: Status, severity: Severity, reason: string, message: string)

  type ConditionMap = map<ConditionType, Condition>

  function TextOf(r: Raw): string {
    if r.Text? then r.text else ""
  }

  predicate OfType(e: Entry, t: string) {
    e.Entry? && e.conditionType == Text(t)
  }

  /** The first well-formed entry of a type: the only one either reading looks at. */
  function FirstOfType(es: seq<Entry>, t: string): (first: Option<Entry>)
    ensures first.Some? ==> OfType(first.value, t) && first.value in es
  {
    if es == [] then None else if OfType(es[0], t) then Some(es[0]) else FirstOfType(es[1..], t)
  }

  ghost predicate FirstAt(es: seq<Entry>, t: string, i: nat) {
    && i < |es| && es[i].Entry? && es[i].conditionType == Text(t)
    && forall j :: 0 <= j < i ==> !(es[j].Entry? && es[j].conditionType == Text(t))
  }

  lemma {:induction false} FirstOfTypeIsFirst(es: seq<Entry>, t: string, i: nat)
    requires FirstAt(es, t, i)
    ensures FirstOfType(es, t) == Some(es[i])
    decreases i
  {
    if i > 0 {
      FirstOfTypeIsFirst(es[1..], t, i - 1);
    }
  }

  lemma {:induction false} FirstOfTypeIsSomewhere(es: seq<Entry>, t: string) returns (i: nat)
    requires FirstOfType(es, t).Some?
    ensures FirstAt(es, t, i)
  {
    if OfType(es[0], t) {
      i := 0;
    } else {
      var j := FirstOfTypeIsSomewhere(es[1..], t);
      i := j + 1;
    }
  }

  /** Entry `i` is the one that counts for its type, and its status is not True. */
  ghost predicate Fails(config: Read<seq<Entry>>, t: string, i: nat) {
    config.Found? && FirstAt(config.value, t, i) && config.value[i].status != Text("True")
  }

  const NOT_READY_MESSAGE := "MaaS operands are not ready; check Config/default status for details"
  const UNHEALTHY_MESSAGE := "tenant health check failed; check Config/default status for details"

  function OrElse(s: string, fallback: string): string {
    if s == "" then fallback else s
  }

  /** Whether Config/default blocks readiness, and the message if it does. */
  function ConfigVerdict(config: Read<seq<Entry>>): Read<(string, bool)> {
    match config
    case Broken => Broken
    case Missing => Found(("", true))
    case Found(es) =>
      var first := FirstOfType(es, "Ready");
      if first.None? || first.value.status == Text("True") then Found(("", true))
      else
        Found((OrElse(TextOf(first.value.message), NOT_READY_MESSAGE), false))
  }

  /** Reason, message and health mirrored from Config/default. */
  function TenantsVerdict(config: Read<seq<Entry>>): Read<(string, string, bool)> {
    match config
    case Broken => Broken
    case Missing => Found(("", "", true))
    case Found(es) =>
      var first := FirstOfType(es, "TenantsHealthy");
      if first.None? then Found(("", "", true))
      else
        var r, m := TextOf(first.value.reason), TextOf(first.value.message);
        if first.value.status == Text("True") then Found((r, m, true))
        else Found((r, OrElse(m, UNHEALTHY_MESSAGE), false))
  }

  /** What a verdict on readiness must say, by the first Ready entry. */
  ghost predicate ConfigMeaning(config: Read<seq<Entry>>, verdict: Read<(string, bool)>) {
    && !verdict.Missing? && (verdict.Broken? <==> config.Broken?)
    && (verdict.Found? ==> (verdict.value.1 <==> !exists i: nat :: Fails(config, "Ready", i)))
    && (verdict.Found? && verdict.value.1 ==> verdict.value.0 == "")
    && (forall i: nat :: Fails(config, "Ready", i) ==>
          verdict == Found((OrElse(TextOf(config.value[i].message), NOT_READY_MESSAGE), false)))
  }

  lemma ConfigVerdictMeans(config: Read<seq<Entry>>)
    ensures ConfigMeaning(config, ConfigVerdict(config))
  {
    forall i: nat | Fails(config, "Ready", i)
      ensures FirstOfType(config.value, "Ready") == Some(config.value[i])
    {
      FirstOfTypeIsFirst(config.value, "Ready", i);
    }
    if config.Found? && FirstOfType(config.value, "Ready").Some? {
      var i := FirstOfTypeIsSomewhere(config.value, "Ready");
      FirstOfTypeIsFirst(config.value, "Ready", i);
      assert config.value[i].status != Text("True") ==> Fails(config, "Ready", i);
    }
    hide FirstOfType;
  }

  /** What a verdict on the tenants must say, by the first TenantsHealthy entry. */
  ghost predicate TenantsMeaning(config: Read<seq<Entry>>, verdict: Read<(string, string, bool)>) {
    && !verdict.Missing? && (verdict.Broken? <==> config.Broken?)
    && (verdict.Found? ==> (verdict.value.2 <==> !exists i: nat :: Fails(config, "TenantsHealthy", i)))
    && (config.Found? ==> forall i: nat :: FirstAt(config.value, "TenantsHealthy", i) ==>
          verdict.value.0 == TextOf(config.value[i].reason) &&
          verdict.value.1 == if Fails(config, "TenantsHealthy", i)
                             then OrElse(TextOf(config.value[i].message), UNHEALTHY_MESSAGE)
                             else TextOf(config.value[i].message))
    && (verdict.Found? && !(config.Found? && exists i: nat :: FirstAt(config.value, "TenantsHealthy", i)) ==>
          verdict == Found(("", "", true)))
  }

  lemma TenantsVerdictMeans(config: Read<seq<Entry>>)
    ensures TenantsMeaning(config, TenantsVerdict(config))
  {
    if config.Found? {
      forall i: nat | FirstAt(config.value, "TenantsHealthy", i)
        ensures FirstOfType(config.value, "TenantsHealthy") == Some(config.value[i])
      {
        FirstOfTypeIsFirst(config.value, "TenantsHealthy", i);
      }
      if FirstOfType(config.value, "TenantsHealthy").Some? {
        var i := FirstOfTypeIsSomewhere(config.value, "TenantsHealthy");
        FirstOfTypeIsFirst(config.value, "TenantsHealthy", i);
        assert config.value[i].status != Text("True") ==> Fails(config, "TenantsHealthy", i);
      }
    }
    hide FirstOfType;
  }

  // ----- the four sub-module conditions; Broken when a read fails -----

  const READY := "Ready"
  const NOT_READY := "NotReady"

  function Available(v: View, k: NamespacedName): Read<bool> {
    match ReadDeployment(v, k)
    case Found(d) => Found(d.readyReplicas >= 1)
    case Missing => Found(false)
    case Broken => Broken
  }

  /** The messages of the four conditions. */
  datatype Saying =
    | MaasRemoved | MaasWaiting | MaasAvailable | TenantsNotApplicable
    | BatchRemoved | BatchWaiting | BatchAvailable
    | GridRemoved | GridCrdsWaiting | GridWaiting | GridAvailable

  function Say(s: Saying): string {
    match s
    case MaasRemoved => "modelsAsAService ManagementState is Removed"
    case MaasWaiting => "modelsAsAService is Managed but deployments are not yet available"
    case MaasAvailable => "modelsAsAService is Managed and deployments are available"
    case TenantsNotApplicable => "modelsAsAService ManagementState is Removed; tenant health not applicable"
    case BatchRemoved => "batchGateway ManagementState is Removed"
    case BatchWaiting => "batchGateway is Managed but deployments are not yet available"
    case BatchAvailable => "batchGateway is Managed and deployments are available"
    case GridRemoved => "aiGrid ManagementState is Removed; the grid operator is removed and CRDs are kept"
    case GridCrdsWaiting => "aiGrid is Managed but CRDs are not yet established"
    case GridWaiting => "aiGrid is Managed but the grid operator is not yet available"
    case GridAvailable => "aiGrid is Managed, CRDs are established and the grid operator is available"
  }

  function RemovedCondition(message: string): (c: Condition)
    ensures c.status == False
  {
    Condition(False, Info, "Removed", message)
  }

  function ReadyCondition(ready: bool, message: string): (c: Condition)
    ensures c.status == True <==> ready
  {
    if ready then Condition(True, Error, READY, message) else Condition(False, Error, NOT_READY, message)
  }

  function MaasController(cfg: Config): NamespacedName {
    NamespacedName(cfg.applications, MAAS_CONTROLLER)
  }

  function AIGatewayController(cfg: Config): NamespacedName {
    NamespacedName(cfg.applications, AIGATEWAY_CONTROLLER_COMPONENT)
  }

  function BatchOperator(cfg: Config): NamespacedName {
    NamespacedName(cfg.applications, "llm-d-batch-gateway-operator")
  }

  function GridOperator(cfg: Config): NamespacedName {
    NamespacedName(cfg.grid, "grid-operator")
  }

  function MaasCondition(cfg: Config, state: ManagementState, v: View): Read<Condition> {
    if state != Managed then Found(RemovedCondition(Say(MaasRemoved)))
    else
      var a, b := Available(v, MaasController(cfg)), Available(v, AIGatewayController(cfg));
      if a.Broken? || b.Broken? || a.Missing? || b.Missing? then Broken
      else if !(a.value && b.value)
      then Found(ReadyCondition(false, Say(MaasWaiting)))
      else
        match ConfigVerdict(v.config)
        case Found((message, ok)) =>
          Found(if ok then ReadyCondition(true, Say(MaasAvailable))
                else ReadyCondition(false, message))
        case _ => Broken
  }

  function TenantsCondition(state: ManagementState, v: View): Read<Condition> {
    if state != Managed
    then Found(RemovedCondition(Say(TenantsNotApplicable)))
    else
      match TenantsVerdict(v.config)
      case Found((reason, message, healthy)) =>
        Found(if healthy
              then Condition(True, Error, if reason != "" then reason else "AllTenantsHealthy", message)
              else Condition(False, Error, if reason != "" then reason else "TenantsDegraded", message))
      case _ => Broken
  }

  function BatchCondition(cfg: Config, state: ManagementState, v: View): Read<Condition> {
    if state != Managed then Found(RemovedCondition(Say(BatchRemoved)))
    else
      match Available(v, BatchOperator(cfg))
      case Found(true) => Found(ReadyCondition(true, Say(BatchAvailable)))
      case Found(false) =>
        Found(ReadyCondition(false, Say(BatchWaiting)))
      case _ => Broken
  }

  const GRID_CRDS: seq<string> :=
    ["agenttoolproviders.grid.praxis.fast", "gridnetworks.grid.praxis.fast", "gridsites.grid.praxis.fast",
     "inferenceproviders.grid.praxis.fast", "siteinvites.grid.praxis.fast"]

  /** The CRDs whose readiness is reported are among those the sweep never collects. */
  lemma ListedCrdsAreGridCrds(i: nat, namespace: string)
    requires i < |GRID_CRDS|
    ensures NamedGridCrd(Key(CustomResourceDefinition, namespace, GRID_CRDS[i]))
  {
    SomeListedNames();
    OtherListedNames();
  }

  lemma SomeListedNames()
    ensures GRID_CRDS[0] == "agenttoolproviders" + ".grid.praxis.fast"
    ensures GRID_CRDS[1] == "gridnetworks" + ".grid.praxis.fast"
    ensures GRID_CRDS[2] == "gridsites" + ".grid.praxis.fast"
  {
  }

  lemma OtherListedNames()
    ensures |GRID_CRDS| == 5
    ensures GRID_CRDS[3] == "inferenceproviders" + ".grid.praxis.fast"
    ensures GRID_CRDS[4] == "siteinvites" + ".grid.praxis.fast"
  {
  }

  ghost predicate FirstNotEstablished(v: View, names: seq<string>, i: nat) {
    && i < |names| && ReadCrd(v, names[i]) != Found(true)
    && forall j :: 0 <= j < i ==> ReadCrd(v, names[j]) == Found(true)
  }

  /** crdsEstablished: the first CRD that is missing, unestablished or unreadable decides. */
  function CrdsEstablished(v: View, names: seq<string>): Read<bool> {
    if names == [] then Found(true)
    else
      match ReadCrd(v, names[0])
      case Missing => Found(false)
      case Broken => Broken
      case Found(established) => if established then CrdsEstablished(v, names[1..]) else Found(false)
  }

  /** All are established, or the first that is not decides. */
  ghost predicate CrdsMeaning(v: View, names: seq<string>, ready: Read<bool>) {
    && (ready == Found(true) <==> forall i :: 0 <= i < |names| ==> ReadCrd(v, names[i]) == Found(true))
    && (forall i: nat :: FirstNotEstablished(v, names, i) ==>
          ready == if ReadCrd(v, names[i]).Broken? then Broken else Found(false))
  }

  lemma {:induction false} CrdsEstablishedMeans(v: View, names: seq<string>)
    ensures CrdsMeaning(v, names, CrdsEstablished(v, names))
  {
    hide ReadCrd;
    if names != [] && ReadCrd(v, names[0]) == Found(true) {
      CrdsEstablishedMeans(v, names[1..]);
      assert forall i :: 0 < i < |names| ==> names[i] == names[1..][i - 1];
      forall i: nat | FirstNotEstablished(v, names, i)
        ensures FirstNotEstablished(v, names[1..], i - 1)
      {
        assert forall j :: 0 <= j < i - 1 ==> names[1..][j] == names[j + 1];
      }
    }
  }

  function GridCondition(cfg: Config, state: ManagementState, v: View): Read<Condition> {
    if state != Managed
    then Found(RemovedCondition(Say(GridRemoved)))
    else
      var crds, operator := CrdsEstablished(v, GRID_CRDS), Available(v, GridOperator(cfg));
      if !crds.Found? || !operator.Found? then Broken
      else if !crds.value then Found(ReadyCondition(false, Say(GridCrdsWaiting)))
      else if operator.value
      then Found(ReadyCondition(true, Say(GridAvailable)))
      else Found(ReadyCondition(false, Say(GridWaiting)))
  }

  datatype Reading = Reading(conditionType: ConditionType, condition: Read<Condition>)

  /** The four conditions in the order in which they are set. */
  function Readings(cfg: Config, spec: Spec, v: View): (rs: seq<Reading>)
    ensures |rs| == 4
  {
    [Reading(ModelsAsAServiceReady, MaasCondition(cfg, spec.modelsAsAService, v)),
     Reading(TenantsHealthy, TenantsCondition(spec.modelsAsAService, v)),
     Reading(BatchGatewayReady, BatchCondition(cfg, spec.batchGateway, v)),
     Reading(AIGridReady, GridCondition(cfg, spec.aiGrid, v))]
  }

  predicate SameAt(before: ConditionMap, after: ConditionMap, t: ConditionType) {
    (t in after <==> t in before) && (t in before ==> after[t] == before[t])
  }

  /** Set if neither it nor a reading before it failed; otherwise left as it was. */
  predicate SetUntilBroken(before: ConditionMap, after: ConditionMap, rs: seq<Reading>, i: nat)
    requires i < |rs|
  {
    if forall j :: 0 <= j <= i ==> rs[j].condition.Found?
    then rs[i].conditionType in after && after[rs[i].conditionType] == rs[i].condition.value
    else SameAt(before, after, rs[i].conditionType)
  }

  /** All four, or nothing when some read fails. */
  function Reported(cfg: Config, spec: Spec, v: View, before: ConditionMap): Option<ConditionMap> {
    var m, t := MaasCondition(cfg, spec.modelsAsAService, v), TenantsCondition(spec.modelsAsAService, v);
    var b, g := BatchCondition(cfg, spec.batchGateway, v), GridCondition(cfg, spec.aiGrid, v);
    if m.Found? && t.Found? && b.Found? && g.Found?
    then Some(before[ModelsAsAServiceReady := m.value][TenantsHealthy := t.value]
                    [BatchGatewayReady := b.value][AIGridReady := g.value])
    else None
  }

  // ----- what the conditions mean -----

  predicate Serving(v: View, k: NamespacedName) {
    k in v.deployments && v.deployments[k].Found? && v.deployments[k].value.readyReplicas >= 1
  }

  predicate Unreadable(v: View, k: NamespacedName) {
    k in v.deployments && v.deployments[k].Broken?
  }

  predicate Established(v: View, name: string) {
    name in v.established && v.established[name] == Found(true)
  }

  /** The first CRD of the list that is not established cannot be read. */
  ghost predicate CrdUnreadable(v: View, names: seq<string>) {
    exists i: nat :: i < |names| && names[i] in v.established && v.established[names[i]].Broken? &&
                     forall j :: 0 <= j < i ==> Established(v, names[j])
  }

  predicate LooksRemoved(c: Condition) {
    c.status == False && c.severity == Info && c.reason == "Removed"
  }

  predicate LooksManaged(c: Condition) {
    c.severity == Error && c.reason == if c.status == True then "Ready" else "NotReady"
  }

  /** The message of a Config entry, or the default one. */
  predicate Tells(message: string, raw: Raw, fallback: string) {
    if raw.Text? && raw.text != "" then message == raw.text else message == fallback
  }

  /** The messages, by what holds a sub-module back. */
  lemma MaasMessages(cfg: Config, v: View)
    requires MaasCondition(cfg, Managed, v).Found?
    ensures forall state :: state != Managed ==>
              MaasCondition(cfg, state, v) ==
              Found(Condition(False, Info, "Removed", "modelsAsAService ManagementState is Removed"))
    ensures var c, maas := MaasCondition(cfg, Managed, v).value, NamespacedName(cfg.applications, "maas-controller");
            && (c.status == True ==> c.message == "modelsAsAService is Managed and deployments are available")
            && (!Serving(v, maas) ==>
                  c.message == "modelsAsAService is Managed but deployments are not yet available")
  {
  }

  lemma BatchMessages(cfg: Config, v: View)
    requires BatchCondition(cfg, Managed, v).Found?
    ensures forall state :: state != Managed ==>
              BatchCondition(cfg, state, v) ==
              Found(Condition(False, Info, "Removed", "batchGateway ManagementState is Removed"))
    ensures BatchCondition(cfg, Managed, v).value.message ==
            if BatchCondition(cfg, Managed, v).value.status == True
            then "batchGateway is Managed and deployments are available"
            else "batchGateway is Managed but deployments are not yet available"
  {
  }

  lemma GridMessages(cfg: Config, v: View)
    requires GridCondition(cfg, Managed, v).Found?
    ensures var m := GridCondition(cfg, Managed, v).value.message;
            && (GridCondition(cfg, Managed, v).value.status == True ==>
                  m == "aiGrid is Managed, CRDs are established and the grid operator is available")
            && (CrdsEstablished(v, GRID_CRDS) != Found(true) ==>
                  m == "aiGrid is Managed but CRDs are not yet established")
            && (GridCondition(cfg, Managed, v).value.status == False && CrdsEstablished(v, GRID_CRDS) == Found(true) ==>
                  m == "aiGrid is Managed but the grid operator is not yet available")
  {
    hide CrdsEstablished;
  }

  lemma GridRemovedMessage(cfg: Config, state: ManagementState, v: View)
    requires state != Managed && GridCondition(cfg, state, v).Found?
    ensures GridCondition(cfg, state, v).value.message ==
            "aiGrid ManagementState is Removed; the grid operator is removed and CRDs are kept"
  {
    hide CrdsEstablished;
    hide Available;
  }

  lemma TenantsRemovedMessage(state: ManagementState, v: View)
    requires state != Managed && TenantsCondition(state, v).Found?
    ensures TenantsCondition(state, v).value.message ==
            "modelsAsAService ManagementState is Removed; tenant health not applicable"
  {
    hide TenantsVerdict;
  }

  /** ModelsAsAServiceReady. */
  ghost predicate MaasMeaning(cfg: Config, state: ManagementState, v: View, r: Read<Condition>) {
    var maas := NamespacedName(cfg.applications, "maas-controller");
    var sibling := NamespacedName(cfg.applications, "ai-gateway-controller");
    && !r.Missing?
    && (r.Broken? <==>
          && state == Managed
          && (Unreadable(v, maas) || Unreadable(v, sibling) ||
              (Serving(v, maas) && Serving(v, sibling) && v.config.Broken?)))
    && (r.Found? && state != Managed ==> LooksRemoved(r.value))
    && (r.Found? && state == Managed ==>
          && LooksManaged(r.value)
          && (r.value.status == True <==>
                Serving(v, maas) && Serving(v, sibling) && !exists i: nat :: Fails(v.config, "Ready", i))
          && (Serving(v, maas) && Serving(v, sibling) ==>
                forall i: nat :: Fails(v.config, "Ready", i) ==>
                  Tells(r.value.message, v.config.value[i].message,
                        "MaaS operands are not ready; check Config/default status for details")))
  }

  lemma MaasMeans(cfg: Config, state: ManagementState, v: View)
    ensures MaasMeaning(cfg, state, v, MaasCondition(cfg, state, v))
  {
    hide Say;
    ConfigVerdictMeans(v.config);
    hide Fails;
  }

  /** TenantsHealthy. */
  ghost predicate TenantsHealthMeaning(state: ManagementState, v: View, r: Read<Condition>) {
    && !r.Missing?
    && (r.Broken? <==> state == Managed && v.config.Broken?)
    && (r.Found? && state != Managed ==> LooksRemoved(r.value))
    && (r.Found? && state == Managed ==>
          && r.value.severity == Error
          && (r.value.status == True <==> !exists i: nat :: Fails(v.config, "TenantsHealthy", i))
          && (v.config.Found? ==> forall i: nat :: FirstAt(v.config.value, "TenantsHealthy", i) ==>
                var e := v.config.value[i];
                && Tells(r.value.reason, e.reason,
                         if r.value.status == True then "AllTenantsHealthy" else "TenantsDegraded")
                && Tells(r.value.message, e.message,
                         if r.value.status == True then ""
                         else "tenant health check failed; check Config/default status for details"))
          && ((v.config.Found? ==> !exists i: nat :: FirstAt(v.config.value, "TenantsHealthy", i)) ==>
                r.value.reason == "AllTenantsHealthy" && r.value.message == ""))
  }

  lemma TenantsHealthMeans(state: ManagementState, v: View)
    ensures TenantsHealthMeaning(state, v, TenantsCondition(state, v))
  {
    hide Say;
    TenantsVerdictMeans(v.config);
    hide TenantsVerdict;
  }

  /** BatchGatewayReady. */
  ghost predicate BatchMeaning(cfg: Config, state: ManagementState, v: View, r: Read<Condition>) {
    var operator := NamespacedName(cfg.applications, "llm-d-batch-gateway-operator");
    && !r.Missing?
    && (r.Broken? <==> state == Managed && Unreadable(v, operator))
    && (r.Found? && state != Managed ==> LooksRemoved(r.value))
    && (r.Found? && state == Managed ==>
          LooksManaged(r.value) && (r.value.status == True <==> Serving(v, operator)))
  }

  lemma BatchMeans(cfg: Config, state: ManagementState, v: View)
    ensures BatchMeaning(cfg, state, v, BatchCondition(cfg, state, v))
  {
    hide Say;
  }

  /** AIGridReady. */
  ghost predicate GridMeaning(cfg: Config, state: ManagementState, v: View, r: Read<Condition>) {
    var operator := NamespacedName(cfg.grid, "grid-operator");
    && !r.Missing?
    && (r.Broken? <==> state == Managed && (CrdUnreadable(v, GRID_CRDS) || Unreadable(v, operator)))
    && (r.Found? && state != Managed ==> LooksRemoved(r.value))
    && (r.Found? && state == Managed ==>
          && LooksManaged(r.value)
          && (r.value.status == True <==>
                Serving(v, operator) && forall i :: 0 <= i < |GRID_CRDS| ==> Established(v, GRID_CRDS[i])))
  }

  lemma {:induction false} CrdsMean(v: View, names: seq<string>)
    ensures var ready := CrdsEstablished(v, names);
            && !ready.Missing? && (ready.Broken? <==> CrdUnreadable(v, names))
            && (ready == Found(true) <==> forall i :: 0 <= i < |names| ==> Established(v, names[i]))
  {
    if names != [] {
      CrdsMean(v, names[1..]);
      assert forall i :: 0 < i < |names| ==> names[i] == names[1..][i - 1];
      if Established(v, names[0]) {
        if i: nat :| i < |names| && names[i] in v.established && v.established[names[i]].Broken? &&
                     forall j :: 0 <= j < i ==> Established(v, names[j]) {
          assert names[1..][i - 1] == names[i] && forall j :: 0 <= j < i - 1 ==> Established(v, names[1..][j]);
        }
        if i: nat :| i < |names[1..]| && names[1..][i] in v.established && v.established[names[1..][i]].Broken? &&
                     forall j :: 0 <= j < i ==> Established(v, names[1..][j]) {
          assert names[i + 1] == names[1..][i] && forall j :: 0 <= j < i + 1 ==> Established(v, names[j]);
        }
      }
    }
  }

  lemma GridMeans(cfg: Config, state: ManagementState, v: View)
    ensures GridMeaning(cfg, state, v, GridCondition(cfg, state, v))
  {
    hide Say;
    CrdsMean(v, GRID_CRDS);
    hide CrdsEstablished;
    hide CrdUnreadable;
    hide Established;
  }

  lemma ReportedValues(cfg: Config, spec: Spec, v: View, before: ConditionMap)
    requires Reported(cfg, spec, v, before).Some?
    ensures var r := Reported(cfg, spec, v, before).value;
            && ModelsAsAServiceReady in r && TenantsHealthy in r && BatchGatewayReady in r && AIGridReady in r
            && MaasCondition(cfg, spec.modelsAsAService, v) == Found(r[ModelsAsAServiceReady])
            && TenantsCondition(spec.modelsAsAService, v) == Found(r[TenantsHealthy])
            && BatchCondition(cfg, spec.batchGateway, v) == Found(r[BatchGatewayReady])
            && GridCondition(cfg, spec.aiGrid, v) == Found(r[AIGridReady])
  {
    hide MaasCondition;
    hide TenantsCondition;
    hide BatchCondition;
    hide GridCondition;
  }

  ghost predicate ReportMeaning(cfg: Config, spec: Spec, v: View, r: ConditionMap) {
    && ModelsAsAServiceReady in r && TenantsHealthy in r && BatchGatewayReady in r && AIGridReady in r
    && MaasMeaning(cfg, spec.modelsAsAService, v, Found(r[ModelsAsAServiceReady]))
    && TenantsHealthMeaning(spec.modelsAsAService, v, Found(r[TenantsHealthy]))
    && BatchMeaning(cfg, spec.batchGateway, v, Found(r[BatchGatewayReady]))
    && GridMeaning(cfg, spec.aiGrid, v, Found(r[AIGridReady]))
  }

  /**
   * What an error-free pass reports: a sub-module that is not Managed looks removed, at Info; a Managed
   * one is True exactly when it works, at Error, with the reason and message of what holds it back.
   */
  lemma ConditionsMean(cfg: Config, spec: Spec, v: View, before: ConditionMap)
    requires Reported(cfg, spec, v, before).Some?
    ensures ReportMeaning(cfg, spec, v, Reported(cfg, spec, v, before).value)
  {
    hide MaasMeaning;
    hide TenantsHealthMeaning;
    hide BatchMeaning;
    hide GridMeaning;
    hide Reported;
    ReportedValues(cfg, spec, v, before);
    MaasMeans(cfg, spec.modelsAsAService, v);
    TenantsHealthMeans(spec.modelsAsAService, v);
    BatchMeans(cfg, spec.batchGateway, v);
    GridMeans(cfg, spec.aiGrid, v);
  }

  /** The pass reports all four exactly unless a Managed sub-module has a broken read of its own. */
  lemma ReportsIff(cfg: Config, spec: Spec, v: View, before: ConditionMap)
    ensures Reported(cfg, spec, v, before).None? <==>
            || (spec.modelsAsAService == Managed &&
                (v.config.Broken? ||
                 Unreadable(v, NamespacedName(cfg.applications, "maas-controller")) ||
                 Unreadable(v, NamespacedName(cfg.applications, "ai-gateway-controller"))))
            || (spec.batchGateway == Managed &&
                Unreadable(v, NamespacedName(cfg.applications, "llm-d-batch-gateway-operator")))
            || (spec.aiGrid == Managed &&
                (CrdUnreadable(v, GRID_CRDS) || Unreadable(v, NamespacedName(cfg.grid, "grid-operator"))))
  {
    MaasMeans(cfg, spec.modelsAsAService, v);
    TenantsHealthMeans(spec.modelsAsAService, v);
    BatchMeans(cfg, spec.batchGateway, v);
    GridMeans(cfg, spec.aiGrid, v);
    hide MaasCondition;
    hide TenantsCondition;
    hide BatchCondition;
    hide GridCondition;
    hide Fails;
    hide Tells;
    hide CrdUnreadable;
    hide Established;
  }

  // ----- independence -----

  /** Two clusters agree on the Config condition of a type. */
  predicate SameReading(a: Read<seq<Entry>>, b: Read<seq<Entry>>, t: string) {
    if a.Found? && b.Found? then FirstOfType(a.value, t) == FirstOfType(b.value, t) else a == b
  }

  lemma {:induction false} CrdsDependOnListed(v: View, w: View, names: seq<string>)
    requires forall n :: n in names ==> ReadCrd(v, n) == ReadCrd(w, n)
    ensures CrdsEstablished(v, names) == CrdsEstablished(w, names)
  {
    if names != [] {
      assert names[0] in names && forall n :: n in names[1..] ==> n in names;
      CrdsDependOnListed(v, w, names[1..]);
    }
  }

  predicate SameDeployment(v: View, w: View, k: NamespacedName) {
    ReadDeployment(v, k) == ReadDeployment(w, k)
  }

  predicate SameCrds(v: View, w: View) {
    forall n :: n in GRID_CRDS ==> ReadCrd(v, n) == ReadCrd(w, n)
  }

  lemma MaasIsIndependent(cfg: Config, state: ManagementState, v: View, w: View)
    requires SameDeployment(v, w, MaasController(cfg)) && SameDeployment(v, w, AIGatewayController(cfg))
    requires SameReading(v.config, w.config, "Ready")
    requires MaasCondition(cfg, state, v).Found? && MaasCondition(cfg, state, w).Found?
    ensures MaasCondition(cfg, state, v) == MaasCondition(cfg, state, w)
  {
    hide Say;
  }

  lemma TenantsAreIndependent(state: ManagementState, v: View, w: View)
    requires SameReading(v.config, w.config, "TenantsHealthy")
    ensures TenantsCondition(state, v) == TenantsCondition(state, w)
  {
    hide Say;
  }

  lemma BatchIsIndependent(cfg: Config, state: ManagementState, v: View, w: View)
    requires SameDeployment(v, w, BatchOperator(cfg))
    ensures BatchCondition(cfg, state, v) == BatchCondition(cfg, state, w)
  {
    hide Say;
  }

  lemma GridIsIndependent(cfg: Config, state: ManagementState, v: View, w: View)
    requires SameDeployment(v, w, GridOperator(cfg)) && SameCrds(v, w)
    ensures GridCondition(cfg, state, v) == GridCondition(cfg, state, w)
  {
    hide Say;
    CrdsDependOnListed(v, w, GRID_CRDS);
  }

  /** Two error-free passes give one sub-module the same condition. */
  ghost predicate SameCondition(a: Option<ConditionMap>, b: Option<ConditionMap>, t: ConditionType) {
    a.Some? && b.Some? && t in a.value && t in b.value && a.value[t] == b.value[t]
  }

  /**
   * One sub-module never affects another's condition: two error-free passes that agree on a
   * sub-module's own state, Deployments, CRDs and first Config entry give it the same condition,
   * whatever else differs, including what was reported before.
   */
  lemma SubModulesAreIndependent(cfg: Config, spec: Spec, v: View, c: ConditionMap,
                                 spec': Spec, w: View, c': ConditionMap)
    requires Reported(cfg, spec, v, c).Some? && Reported(cfg, spec', w, c').Some?
    ensures spec.modelsAsAService == spec'.modelsAsAService && SameDeployment(v, w, MaasController(cfg)) &&
            SameDeployment(v, w, AIGatewayController(cfg)) && SameReading(v.config, w.config, "Ready") ==>
              SameCondition(Reported(cfg, spec, v, c), Reported(cfg, spec', w, c'), ModelsAsAServiceReady)
    ensures spec.modelsAsAService == spec'.modelsAsAService && SameReading(v.config, w.config, "TenantsHealthy") ==>
              SameCondition(Reported(cfg, spec, v, c), Reported(cfg, spec', w, c'), TenantsHealthy)
    ensures spec.batchGateway == spec'.batchGateway && SameDeployment(v, w, BatchOperator(cfg)) ==>
              SameCondition(Reported(cfg, spec, v, c), Reported(cfg, spec', w, c'), BatchGatewayReady)
    ensures spec.aiGrid == spec'.aiGrid && SameDeployment(v, w, GridOperator(cfg)) && SameCrds(v, w) ==>
              SameCondition(Reported(cfg, spec, v, c), Reported(cfg, spec', w, c'), AIGridReady)
  {
    hide *;
    ReportedValues(cfg, spec, v, c);
    ReportedValues(cfg, spec', w, c');
    SameConditions(Reported(cfg, spec, v, c), Reported(cfg, spec', w, c'));
    if spec.modelsAsAService == spec'.modelsAsAService {
      if SameReading(v.config, w.config, "TenantsHealthy") {
        TenantsAreIndependent(spec.modelsAsAService, v, w);
      }
      if SameDeployment(v, w, MaasController(cfg)) && SameDeployment(v, w, AIGatewayController(cfg)) &&
         SameReading(v.config, w.config, "Ready") {
        MaasIsIndependent(cfg, spec.modelsAsAService, v, w);
      }
    }
    if spec.batchGateway == spec'.batchGateway && SameDeployment(v, w, BatchOperator(cfg)) {
      BatchIsIndependent(cfg, spec.batchGateway, v, w);
    }
    if spec.aiGrid == spec'.aiGrid && SameDeployment(v, w, GridOperator(cfg)) && SameCrds(v, w) {
      GridIsIndependent(cfg, spec.aiGrid, v, w);
    }
  }

  lemma SameConditions(a: Option<ConditionMap>, b: Option<ConditionMap>)
    ensures forall t :: a.Some? && b.Some? && t in a.value && t in b.value && a.value[t] == b.value[t] ==>
              SameCondition(a, b, t)
  {
  }

  // ----- removal in progress -----

  /** maasRemovalPending over its two reads of the Deployment. */
  function RemovalPending(first: Option<Object>, second: Option<Object>): bool {
    !Completed(first) || second.Some?
  }

  /**
   * The two reads act as one: with any steps between them, the answer is whether the Deployment
   * existed at some single instant of the call.
   */
  lemma RemovalPendingIsAtomic(cfg: Config, t: Trace, i: nat, j: nat) returns (m: nat)
    requires Run(cfg, t) && i <= j < |t.states|
    ensures i <= m <= j
    ensures RemovalPending(Get(t.states[i].store, ControllerKey(cfg)), Get(t.states[j].store, ControllerKey(cfg)))
            <==> ControllerKey(cfg) in t.states[m].store
  {
    m := if Completed(Get(t.states[i].store, ControllerKey(cfg))) then j else i;
  }

  // ----- the request -----

  datatype Manifest = BatchGatewayManifest | GridCrdsManifest | MaasManifest | AIGatewayControllerManifest

  /** rr.Manifests after initialize, in order. */
  function ManifestsFor(spec: Spec, keep: bool): seq<Manifest> {
    (if spec.batchGateway == Managed then [BatchGatewayManifest] else []) +
    (if spec.aiGrid == Managed then [GridCrdsManifest] else []) +
    (if keep then [MaasManifest, AIGatewayControllerManifest] else [])
  }

  /** Which manifests are used, each once, the CRDs of the grid before the bundle. */
  lemma ManifestsMean(spec: Spec, keep: bool)
    ensures var ms := ManifestsFor(spec, keep);
            && (BatchGatewayManifest in ms <==> spec.batchGateway == Managed)
            && (GridCrdsManifest in ms <==> spec.aiGrid == Managed)
            && (MaasManifest in ms <==> keep) && (AIGatewayControllerManifest in ms <==> keep)
            && (forall i, j :: 0 <= i < j < |ms| ==> ms[i] != ms[j])
            && (forall i, j :: 0 <= i <= j < |ms| && ms[i].MaasManifest? ==> !ms[j].GridCrdsManifest?)
  {
  }

  predicate AnyManaged(spec: Spec) {
    spec.batchGateway == Managed || spec.modelsAsAService == Managed || spec.aiGrid == Managed
  }

  predicate GridOnly(spec: Spec) {
    spec.aiGrid == Managed && spec.modelsAsAService != Managed && spec.batchGateway != Managed
  }

  function NothingManaged(pending: bool): Condition {
    if pending
    then Condition(False, Info, "MaaSRemovalInProgress",
                   "MaaS removal is in progress; waiting for remaining resources to be deleted")
    else Condition(False, Info, "NoSubModuleManaged", "No sub-module is Managed; nothing to deploy")
  }

  /** Nothing to deploy is never an error, and says whether MaaS is still being removed. */
  lemma NothingManagedMeans(pending: bool)
    ensures NothingManaged(pending).status == False && NothingManaged(pending).severity == Info
    ensures NothingManaged(pending).reason == if pending then "MaaSRemovalInProgress" else "NoSubModuleManaged"
  {
  }

  predicate ListingBusy(v: View) {
    v.listing.Found? && v.listing.value > 0
  }

  class Request {
    const cfg: Config
    const instance: Spec
    var manifests: seq<Manifest>
    var conditions: ConditionMap
    const resources: array<Rendered>

    constructor (cfg: Config, instance: Spec, generic: ConditionMap, rendered: array<Rendered>)
      ensures this.cfg == cfg && this.instance == instance && resources == rendered
      ensures manifests == [] && conditions == generic
    {
      this.cfg, this.instance, resources := cfg, instance, rendered;
      manifests, conditions := [], generic;
    }

    /**
     * initialize.  `client` tells whether there is a client; `controller` is its read of the
     * maas-controller Deployment; `writes` says whether params.env and namespace writes succeed.
     */
    method Initialize(client: bool, controller: Read<Object>, writes: bool) returns (ok: bool)
      modifies this`manifests
      ensures ok ==>
        manifests == old(manifests) + ManifestsFor(instance, client && KeepInstalled(instance, Seen(controller)))
      ensures writes && client && !controller.Broken? ==> ok
      ensures !client && (instance.aiGrid == Managed || instance.modelsAsAService == Managed) ==> !ok
    {
      if instance.batchGateway == Managed {
        manifests := manifests + [BatchGatewayManifest];
        if !writes {
          return false;
        }
      }
      if instance.aiGrid == Managed {
        if !client || !writes {
          return false;
        }
        manifests := manifests + [GridCrdsManifest];
      }
      var keep := instance.modelsAsAService == Managed;
      if !keep && instance.modelsAsAService == Removed {
        if client {
          if controller.Broken? {
            return false;
          }
          keep := controller.Found? && !Marked(controller.value);
        }
      }
      if keep {
        manifests := manifests + [MaasManifest];
        if !client || !writes {
          return false;
        }
        manifests := manifests + [AIGatewayControllerManifest];
      }
      return true;
    }

    /** annotateMaaSRequestedTeardown, in place. */
    method AnnotateResources()
      modifies resources
      ensures resources[..] ==
        if instance.modelsAsAService == Removed then AnnotatedAll(cfg, old(resources[..])) else old(resources[..])
    {
      if instance.modelsAsAService != Removed {
        return;
      }
      for i := 0 to resources.Length
        invariant forall j :: 0 <= j < i ==> resources[j] == Annotated(cfg, old(resources[j]))
        invariant forall j :: i <= j < resources.Length ==> resources[j] == old(resources[j])
      {
        var r := resources[i];
        if r.key.kind != Deployment {
          continue;
        }
        if r.key.name != MAAS_CONTROLLER || r.key.namespace != cfg.applications {
          continue;
        }
        resources[i] := r.(annotations := r.annotations[TeardownRequested := "true"]);
      }
    }

    /** The loop both Config readings share. */
    method FindEntry(es: seq<Entry>, t: string) returns (first: Option<Entry>)
      ensures first == FirstOfType(es, t)
    {
      for i := 0 to |es|
        invariant FirstOfType(es, t) == FirstOfType(es[i..], t)
      {
        if OfType(es[i], t) {
          return Some(es[i]);
        }
      }
      return None;
    }

    method CrdsReady(v: View, names: seq<string>) returns (ready: Read<bool>)
      ensures CrdsMeaning(v, names, ready)
      ensures ready == CrdsEstablished(v, names)
    {
      CrdsEstablishedMeans(v, names);
      hide CrdsMeaning;
      for i := 0 to |names|
        invariant CrdsEstablished(v, names) == CrdsEstablished(v, names[i..])
      {
        match ReadCrd(v, names[i]) {
          case Missing => return Found(false);
          case Broken => return Broken;
          case Found(established) =>
            if !established {
              return Found(false);
            }
        }
      }
      return Found(true);
    }

    method MaasConfigReady(config: Read<seq<Entry>>) returns (verdict: Read<(string, bool)>)
      ensures ConfigMeaning(config, verdict)
      ensures verdict == ConfigVerdict(config)
    {
      ConfigVerdictMeans(config);
      hide ConfigMeaning;
      if !config.Found? {
        return if config.Missing? then Found(("", true)) else Broken;
      }
      var first := FindEntry(config.value, "Ready");
      if first.None? || first.value.status == Text("True") {
        return Found(("", true));
      }
      var message := TextOf(first.value.message);
      if message == "" {
        message := NOT_READY_MESSAGE;
      }
      return Found((message, false));
    }

    method TenantsHealthFromConfig(config: Read<seq<Entry>>) returns (verdict: Read<(string, string, bool)>)
      ensures TenantsMeaning(config, verdict)
      ensures verdict == TenantsVerdict(config)
    {
      TenantsVerdictMeans(config);
      hide TenantsMeaning;
      if !config.Found? {
        return if config.Missing? then Found(("", "", true)) else Broken;
      }
      var first := FindEntry(config.value, "TenantsHealthy");
      if first.None? {
        return Found(("", "", true));
      }
      var reason, message := TextOf(first.value.reason), TextOf(first.value.message);
      if first.value.status == Text("True") {
        return Found((reason, message, true));
      }
      if message == "" {
        message := UNHEALTHY_MESSAGE;
      }
      return Found((reason, message, false));
    }

    method MaasReading(v: View) returns (c: Read<Condition>)
      ensures c == MaasCondition(cfg, instance.modelsAsAService, v)
    {
      hide Say;
      if instance.modelsAsAService != Managed {
        return Found(RemovedCondition(Say(MaasRemoved)));
      }
      var maas := Available(v, MaasController(cfg));
      if !maas.Found? {
        return Broken;
      }
      var controller := Available(v, AIGatewayController(cfg));
      if !controller.Found? {
        return Broken;
      }
      if !(maas.value && controller.value) {
        return Found(ReadyCondition(false, Say(MaasWaiting)));
      }
      var verdict := MaasConfigReady(v.config);
      if !verdict.Found? {
        return Broken;
      }
      if verdict.value.1 {
        return Found(ReadyCondition(true, Say(MaasAvailable)));
      }
      return Found(ReadyCondition(false, verdict.value.0));
    }

    method TenantsReading(v: View) returns (c: Read<Condition>)
      ensures c == TenantsCondition(instance.modelsAsAService, v)
    {
      hide Say;
      if instance.modelsAsAService != Managed {
        return Found(RemovedCondition(Say(TenantsNotApplicable)));
      }
      var verdict := TenantsHealthFromConfig(v.config);
      if !verdict.Found? {
        return Broken;
      }
      var (reason, message, healthy) := verdict.value;
      if healthy {
        return Found(Condition(True, Error, OrElse(reason, "AllTenantsHealthy"), message));
      }
      return Found(Condition(False, Error, OrElse(reason, "TenantsDegraded"), message));
    }

    method GridReading(v: View) returns (c: Read<Condition>)
      ensures c == GridCondition(cfg, instance.aiGrid, v)
    {
      hide Say;
      if instance.aiGrid != Managed {
        return Found(RemovedCondition(Say(GridRemoved)));
      }
      var crds := CrdsReady(v, GRID_CRDS);
      if !crds.Found? {
        return Broken;
      }
      var operator := Available(v, GridOperator(cfg));
      if !operator.Found? {
        return Broken;
      }
      if !crds.value {
        return Found(ReadyCondition(false, Say(GridCrdsWaiting)));
      }
      if operator.value {
        return Found(ReadyCondition(true, Say(GridAvailable)));
      }
      return Found(ReadyCondition(false, Say(GridWaiting)));
    }

    /**
     * reportSubModuleStatus: the conditions are set one by one, and the first failing read ends it,
     * with the conditions before it set and the others as they were.
     */
    method ReportSubModuleStatus(v: View) returns (ok: bool)
      modifies this`conditions
      ensures ok <==> forall r :: r in Readings(cfg, instance, v) ==> r.condition.Found?
      ensures forall i :: 0 <= i < 4 ==> SetUntilBroken(old(conditions), conditions, Readings(cfg, instance, v), i)
      ensures SameAt(old(conditions), conditions, DeploymentsAvailable)
      ensures ok ==> Reported(cfg, instance, v, old(conditions)) == Some(conditions)
      ensures ok ==> ReportMeaning(cfg, instance, v, conditions)
    {
      hide Say;
      ghost var rs := Readings(cfg, instance, v);
      hide MaasCondition;
      hide TenantsCondition;
      hide BatchCondition;
      hide GridCondition;
      hide ReportMeaning;
      var maas := MaasReading(v);
      assert rs[0] == Reading(ModelsAsAServiceReady, maas) && rs[0] in rs;
      if !maas.Found? {
        return false;
      }
      conditions := conditions[ModelsAsAServiceReady := maas.value];
      var tenants := TenantsReading(v);
      assert rs[1] == Reading(TenantsHealthy, tenants) && rs[1] in rs;
      if !tenants.Found? {
        return false;
      }
      conditions := conditions[TenantsHealthy := tenants.value];
      var batch := BatchCondition(cfg, instance.batchGateway, v);
      assert rs[2] == Reading(BatchGatewayReady, batch) && rs[2] in rs;
      if !batch.Found? {
        return false;
      }
      conditions := conditions[BatchGatewayReady := batch.value];
      var grid := GridReading(v);
      assert rs[3] == Reading(AIGridReady, grid) && rs[3] in rs;
      if !grid.Found? {
        return false;
      }
      conditions := conditions[AIGridReady := grid.value];
      ConditionsMean(cfg, instance, v, old(conditions));
      return true;
    }

    /** The two reads of maasRemovalPending; the second is only made when the first says completed. */
    method MaasRemovalPending(first: Read<Object>, second: Read<Object>) returns (pending: Read<bool>)
      ensures pending == if first.Broken? || (Completed(Seen(first)) && second.Broken?) then Broken
                         else Found(RemovalPending(Seen(first), Seen(second)))
    {
      if first.Broken? {
        return Broken;
      }
      if first.Found? && !Marked(first.value) {
        return Found(true);
      }
      return if second.Broken? then Broken else Found(second.Found?);
    }

    predicate GenericTrue()
      reads this
    {
      DeploymentsAvailable in conditions && conditions[DeploymentsAvailable].status == True
    }

    /**
     * overWriteCondition.  `first` and `second` are the two reads of the maas-controller Deployment.
     * The gate is exact: nothing Managed ends False at Info; only aiGrid Managed ends True exactly
     * when the grid operator is ready and no listed Deployment holds it back; otherwise the generic
     * result stands.
     */
    method OverWriteCondition(v: View, first: Read<Object>, second: Read<Object>) returns (ok: bool)
      modifies this`conditions
      ensures !ok ==> conditions == old(conditions)
      ensures forall c :: c != DeploymentsAvailable ==>
                (c in conditions <==> c in old(conditions)) && (c in conditions ==> conditions[c] == old(conditions)[c])
      ensures instance.batchGateway == Managed || instance.modelsAsAService == Managed ==>
                ok && conditions == old(conditions)
      ensures ok && Managed !in {instance.batchGateway, instance.modelsAsAService, instance.aiGrid} ==>
        && DeploymentsAvailable in conditions
        && conditions[DeploymentsAvailable].status == False && conditions[DeploymentsAvailable].severity == Info
        && conditions[DeploymentsAvailable] == NothingManaged(RemovalPending(Seen(first), Seen(second)))
      ensures ok && instance.aiGrid == Managed != instance.modelsAsAService && instance.batchGateway != Managed ==>
        (GenericTrue() <==>
           Serving(v, NamespacedName(cfg.grid, "grid-operator")) && (!ListingBusy(v) || old(GenericTrue())))
      ensures ok && instance.aiGrid == Managed && ListingBusy(v) && !old(GenericTrue()) ==>
                conditions == old(conditions)
    {
      hide Say;
      hide Marked;
      if GridOnly(instance) {
        if !v.listing.Found? {
          return false;
        }
        if v.listing.value > 0 && !GenericTrue() {
          return true;
        }
        var ready := Available(v, GridOperator(cfg));
        if !ready.Found? {
          return false;
        }
        conditions := conditions[DeploymentsAvailable :=
          if ready.value then Condition(True, Error, "", "")
          else Condition(False, Error, NOT_READY, Say(GridWaiting))];
        return true;
      }
      if AnyManaged(instance) {
        return true;
      }
      var pending := MaasRemovalPending(first, second);
      if !pending.Found? {
        return false;
      }
      conditions := conditions[DeploymentsAvailable := NothingManaged(pending.value)];
      return true;
    }
  }

  // ----- annotating -----

  /** Annotating touches only the controller Deployment's request, and twice is once. */
  lemma AnnotatingIsLocal(cfg: Config, rs: seq<Rendered>, i: nat)
    requires i < |rs|
    ensures var r, out := rs[i], AnnotatedAll(cfg, rs);
            && (r.key != ControllerKey(cfg) ==> out[i] == r)
            && (r.key == ControllerKey(cfg) ==>
                  && Lookup(out[i].annotations, TeardownRequested) == "true"
                  && out[i].annotations - {TeardownRequested} == r.annotations - {TeardownRequested}
                  && out[i].(annotations := r.annotations) == r)
            && AnnotatedAll(cfg, out) == out
  {
    hide AnnotatedAll;
    hide ControllerKey;
    var out := AnnotatedAll(cfg, rs);
    forall j | 0 <= j < |rs|
      ensures AnnotatedAll(cfg, out)[j] == out[j]
    {
      assert out[j] == Annotated(cfg, rs[j]);
      assert out[j].annotations[TeardownRequested := "true"] == out[j].annotations || out[j].key != ControllerKey(cfg);
    }
  }
}
