/**
 * Why teardown safety needs its hypotheses.  For each clause of the discipline there is a family of
 * runs that breach it in a single step, and in which the operator then deletes, or is about to
 * delete, although the latest maas-controller Deployment was never marked.
 */
module Hazards {
  import opened Wrappers
  import opened Cluster
  import opened Pipeline
  import opened Safety
  import opened SweepOrder
  import opened InfraRbac

  function Last(t: Trace): State
    requires t.states != []
  {
    t.states[|t.states| - 1]
  }

  /** A run from `s` that is disciplined except at the listed steps. */
  ghost predicate RunFrom(cfg: Config, s: State, t: Trace, breaches: set<nat>) {
    && Run(cfg, t) && t.states[0] == s
    && forall i :: 0 <= i < |t.labels| && i !in breaches ==> Disciplined(cfg, t.states[i], t.labels[i])
  }

  lemma Extend(cfg: Config, s: State, t: Trace, l: Label, breaches: set<nat>) returns (t': Trace)
    requires RunFrom(cfg, s, t, breaches) && Enabled(cfg, Last(t), l)
    requires |t.labels| !in breaches ==> Disciplined(cfg, Last(t), l)
    ensures RunFrom(cfg, s, t', breaches) && |t'.labels| == |t.labels| + 1
    ensures t'.labels == t.labels + [l] && t'.states == t.states + [Step(cfg, Last(t), l)]
    ensures Last(t') == Step(cfg, Last(t), l)
  {
    hide Step;
    hide Enabled;
    hide Disciplined;
    t' := Trace(t.states + [Step(cfg, Last(t), l)], t.labels + [l]);
  }

  // ----- what a pass leaves alone -----

  /** The maas-controller Deployment is live and was never marked. */
  predicate LiveUnmarked(cfg: Config, s: State) {
    ControllerKey(cfg) in s.store && s.store[ControllerKey(cfg)].uid !in s.everMarked
  }

  /** The same Deployment and history, and the same objects except at the touched keys. */
  ghost predicate Steady(cfg: Config, s: State, s': State, touched: set<Key>) {
    && s'.spec == s.spec && Consistent(cfg, s') && s.next <= s'.next
    && s'.lastController == s.lastController && s'.everMarked == s.everMarked
    && (ControllerKey(cfg) in s'.store <==> ControllerKey(cfg) in s.store)
    && (ControllerKey(cfg) in s.store ==>
          && s'.store[ControllerKey(cfg)].uid == s.store[ControllerKey(cfg)].uid
          && s'.store[ControllerKey(cfg)].selector == s.store[ControllerKey(cfg)].selector)
    && forall k :: k !in touched ==> Get(s'.store, k) == Get(s.store, k)
  }

  /** While no Deployment is missing, every call with a fresh read is disciplined. */
  lemma FreshOpIsAllowed(cfg: Config, s: State)
    requires !s.pc.Idle? && !s.pc.Render? && !s.pc.ReportStatus? && Accounted(cfg, s)
    ensures var l := Op(Get(s.store, ControllerKey(cfg)));
            Enabled(cfg, s, l) && Disciplined(cfg, s, l)
  {
  }

  lemma SteadyComposes(cfg: Config, a: State, b: State, c: State, p: set<Key>, q: set<Key>)
    requires Steady(cfg, a, b, p) && Steady(cfg, b, c, q)
    ensures Steady(cfg, a, c, p + q)
  {
    hide Consistent;
  }

  // ----- the stages of a pass -----

  /** Begin a pass and take it to its first read; with aiGrid Managed it writes the grid namespace. */
  lemma ToInitialize(cfg: Config, s: State, t: Trace, breaches: set<nat>) returns (t': Trace)
    requires RunFrom(cfg, s, t, breaches) && Last(t).pc.Idle? && Consistent(cfg, Last(t))
    requires |t.labels| in breaches || Last(t).spec.modelsAsAService != Unset
    ensures RunFrom(cfg, s, t', breaches) && |t'.labels| == |t.labels| + 2
    ensures t.labels <= t'.labels && t'.labels[|t.labels|] == Begin
    ensures Last(t').pc == Initialize && Last(t').instance == Last(t).spec
    ensures Steady(cfg, Last(t), Last(t'), {GridNamespaceKey(cfg)})
  {
    t' := Extend(cfg, s, t, Begin, breaches);
    hide RunFrom;
    hide Marked;
    hide EnsuredNamespace;
    t' := Extend(cfg, s, t', Op(Get(Last(t').store, ControllerKey(cfg))), breaches);
  }

  /** With MaaS Removed, two fresh reads commit a pass that finds no Deployment to deleting RBAC. */
  lemma ToDeleteRole(cfg: Config, s: State, t: Trace, breaches: set<nat>) returns (t': Trace)
    requires RunFrom(cfg, s, t, breaches) && Last(t).pc.Idle? && Consistent(cfg, Last(t))
    requires cfg.infrastructure != cfg.applications
    requires Last(t).spec.modelsAsAService == Removed && ControllerKey(cfg) !in Last(t).store
    ensures RunFrom(cfg, s, t', breaches) && t.labels <= t'.labels
    ensures Last(t').pc == DeleteRole && ControllerKey(cfg) !in Last(t').store
    ensures Last(t').lastController == Last(t).lastController && Last(t').everMarked == Last(t).everMarked
  {
    t' := ToInitialize(cfg, s, t, breaches);
    hide RunFrom;
    hide Consistent;
    t' := Extend(cfg, s, t', Op(None), breaches);
    t' := Extend(cfg, s, t', Op(None), breaches);
  }

  /** A pass that has read an unmarked Deployment keeps the bundle and the RBAC. */
  lemma ToRender(cfg: Config, s: State, t: Trace, breaches: set<nat>) returns (t': Trace)
    requires RunFrom(cfg, s, t, breaches) && LiveUnmarked(cfg, Last(t)) && Consistent(cfg, Last(t))
    requires Last(t).pc == Initialize && Last(t).instance.modelsAsAService != Managed
    ensures RunFrom(cfg, s, t', breaches) && |t'.labels| == |t.labels| + 2 && t.labels <= t'.labels
    ensures Last(t') == Last(t).(pc := Render, keep := Last(t).instance.modelsAsAService == Removed)
  {
    var seen := Get(Last(t).store, ControllerKey(cfg));
    hide RunFrom;
    t' := Extend(cfg, s, t, Op(seen), breaches);
    t' := Extend(cfg, s, t', Op(seen), breaches);
  }

  /** From a plan in any order through the migration's Get. */
  lemma ToMigrated(cfg: Config, s: State, t: Trace, plan: seq<Rendered>, breaches: set<nat>) returns (t': Trace)
    requires RunFrom(cfg, s, t, breaches) && LiveUnmarked(cfg, Last(t)) && Last(t).pc == Render
    requires multiset(plan) == multiset(Resources(cfg, Last(t).instance, Last(t).keep))
    ensures RunFrom(cfg, s, t', breaches) && |t'.labels| == |t.labels| + 2 && t.labels <= t'.labels
    ensures var d := Last(t).store[ControllerKey(cfg)];
            Last(t') == Last(t).(
              plan := plan,
              pc := if SelectorCurrent(d.selector) then Deploy(plan) else MigrateDelete(d.uid, d.resourceVersion))
  {
    hide SelectorCurrent;
    hide Resources;
    t' := Extend(cfg, s, t, Plan(plan), breaches);
    hide RunFrom;
    t' := Extend(cfg, s, t', Op(Get(Last(t').store, ControllerKey(cfg))), breaches);
  }

  // ----- deploying a whole plan -----

  function KeysOf(rs: seq<Rendered>): set<Key> {
    set r | r in rs :: r.key
  }

  /** No resource of the plan meets a selector it would have to change. */
  predicate Applies(store: Store, rs: seq<Rendered>) {
    && (forall r :: r in rs ==> Applicable(store, r))
    && (forall r, q :: r in rs && q in rs && r.key == q.key ==> r.selector == q.selector)
  }

  /** The plan leaves the Deployment unmarked. */
  predicate MarksNothing(cfg: Config, rs: seq<Rendered>) {
    forall r :: r in rs && r.key == ControllerKey(cfg) ==> TeardownCompleted !in r.annotations
  }

  lemma StillApplies(store: Store, rs: seq<Rendered>, o: Object)
    requires rs != [] && Applies(store, rs) && o.selector == rs[0].selector
    ensures Applies(store[rs[0].key := o], rs[1..])
  {
    assert rs[0] in rs;
    forall r | r in rs[1..]
      ensures Applicable(store[rs[0].key := o], r)
    {
      assert r in rs;
    }
  }

  lemma DeployOne(cfg: Config, s: State, l: Label)
    requires s.pc.Deploy? && s.pc.rest != [] && Applicable(s.store, s.pc.rest[0])
    requires s.pc.rest[0].key == ControllerKey(cfg) ==> TeardownCompleted !in s.pc.rest[0].annotations
    requires LiveUnmarked(cfg, s) && Consistent(cfg, s) && l.Op?
    ensures Steady(cfg, s, Step(cfg, s, l), {s.pc.rest[0].key})
    ensures LiveUnmarked(cfg, Step(cfg, s, l)) && Consistent(cfg, Step(cfg, s, l))
  {
  }

  lemma DeployNext(cfg: Config, s: State, l: Label)
    requires s.pc.Deploy? && s.pc.rest != [] && Applicable(s.store, s.pc.rest[0]) && l.Op?
    ensures var r, s' := s.pc.rest[0], Step(cfg, s, l);
            && s'.pc == Deploy(s.pc.rest[1..]) && s'.instance == s.instance
            && s'.keep == s.keep && s'.plan == s.plan
            && r.key in s'.store && s'.store[r.key].selector == r.selector
            && s'.store == s.store[r.key := s'.store[r.key]]
  {
  }

  lemma DeployEnds(cfg: Config, s: State, l: Label)
    requires s.pc == Deploy([]) && Consistent(cfg, s) && l.Op?
    ensures Step(cfg, s, l) == s.(pc := ReportStatus) && Steady(cfg, s, Step(cfg, s, l), {})
  {
  }

  /** A plan that applies takes the pass to its report, and leaves the Deployment live and unmarked. */
  lemma {:induction false} DeployThrough(cfg: Config, s: State, t: Trace, breaches: set<nat>) returns (t': Trace)
    requires RunFrom(cfg, s, t, breaches) && LiveUnmarked(cfg, Last(t)) && Consistent(cfg, Last(t))
    requires Last(t).pc.Deploy? && Applies(Last(t).store, Last(t).pc.rest) && MarksNothing(cfg, Last(t).pc.rest)
    ensures RunFrom(cfg, s, t', breaches) && t.labels <= t'.labels
    ensures |t'.labels| == |t.labels| + |Last(t).pc.rest| + 1
    ensures Last(t').pc == ReportStatus && Last(t').instance == Last(t).instance
    ensures Last(t').keep == Last(t).keep && Last(t').plan == Last(t).plan
    ensures Steady(cfg, Last(t), Last(t'), KeysOf(Last(t).pc.rest))
    decreases |Last(t).pc.rest|
  {
    hide Steady;
    hide Consistent;
    var last, l := Last(t), Op(Get(Last(t).store, ControllerKey(cfg)));
    var rest := last.pc.rest;
    hide RunFrom;
    hide Applicable;
    hide Step;
    hide Enabled;
    hide Disciplined;
    FreshOpIsAllowed(cfg, last);
    t' := Extend(cfg, s, t, l, breaches);
    if rest == [] {
      DeployEnds(cfg, last, l);
      assert KeysOf(rest) == {};
    } else {
      var next := Last(t');
      assert rest[0] in rest && forall q :: q in rest[1..] ==> q in rest;
      DeployOne(cfg, last, l);
      DeployNext(cfg, last, l);
      StillApplies(last.store, rest, next.store[rest[0].key]);
      t' := DeployThrough(cfg, s, t', breaches);
      SteadyComposes(cfg, last, next, Last(t'), {rest[0].key}, KeysOf(rest[1..]));
      assert KeysOf(rest) == {rest[0].key} + KeysOf(rest[1..]);
    }
  }

  // ----- a pass up to its first delete or apply -----

  /** Six steps: the pass reads an unmarked Deployment, and its migration has looked at the selector. */
  lemma ToMigration(cfg: Config, s: State, plan: seq<Rendered>, breaches: set<nat>) returns (t: Trace)
    requires s.pc.Idle? && Consistent(cfg, s) && LiveUnmarked(cfg, s) && s.spec.modelsAsAService != Managed
    requires 0 in breaches || s.spec.modelsAsAService == Removed
    requires multiset(plan) == multiset(Resources(cfg, s.spec, s.spec.modelsAsAService == Removed))
    ensures RunFrom(cfg, s, t, breaches) && |t.labels| == 6 && t.labels[0] == Begin
    ensures Steady(cfg, s, Last(t), {GridNamespaceKey(cfg)}) && LiveUnmarked(cfg, Last(t))
    ensures Last(t).instance == s.spec && Last(t).plan == plan
    ensures Last(t).keep == (s.spec.modelsAsAService == Removed)
    ensures var d := Last(t).store[ControllerKey(cfg)];
            Last(t).pc == if SelectorCurrent(d.selector) then Deploy(plan) else MigrateDelete(d.uid, d.resourceVersion)
  {
    hide Resources;
    hide SelectorCurrent;
    hide Step;
    hide Enabled;
    hide Disciplined;
    var t0 := Trace([s], []);
    t := ToInitialize(cfg, s, t0, breaches);
    t := ToRender(cfg, s, t, breaches);
    t := ToMigrated(cfg, s, t, plan, breaches);
  }

  lemma SteadyApplies(cfg: Config, instance: Spec, keep: bool, plan: seq<Rendered>, s: State, s': State)
    requires ValidConfig(cfg) && multiset(plan) == multiset(Resources(cfg, instance, keep))
    requires Steady(cfg, s, s', {GridNamespaceKey(cfg)}) && Applies(s.store, plan)
    ensures Applies(s'.store, plan) && MarksNothing(cfg, plan)
  {
    PlannedSparesInfra(cfg, instance, keep, plan);
    hide Resources;
    hide ValidConfig;
    hide Consistent;
    forall r | r in plan
      ensures Applicable(s'.store, r)
    {
      assert r.key != GridNamespaceKey(cfg);
      assert Get(s'.store, r.key) == Get(s.store, r.key);
    }
    forall r | r in plan && r.key == ControllerKey(cfg)
      ensures TeardownCompleted !in r.annotations
    {
      assert r in multiset(plan);
      ControllerIsBundled(cfg);
      PlannedBundle(cfg, instance, keep, r);
    }
  }

  /** What a pass from here plans if it finds the Deployment unmarked. */
  function PlanOf(cfg: Config, s: State): seq<Rendered> {
    Resources(cfg, s.spec, s.spec.modelsAsAService == Removed)
  }

  /** The whole pass up to its report, for a plan that applies and a Deployment it need not migrate. */
  lemma ToReport(cfg: Config, s: State, breaches: set<nat>) returns (t: Trace)
    requires ValidConfig(cfg) && s.pc.Idle? && Consistent(cfg, s) && LiveUnmarked(cfg, s)
    requires s.spec.modelsAsAService != Managed && (0 in breaches || s.spec.modelsAsAService == Removed)
    requires SelectorCurrent(s.store[ControllerKey(cfg)].selector) && Applies(s.store, PlanOf(cfg, s))
    ensures RunFrom(cfg, s, t, breaches) && |t.labels| == |PlanOf(cfg, s)| + 7 && t.labels[0] == Begin
    ensures Steady(cfg, s, Last(t), {GridNamespaceKey(cfg)} + KeysOf(PlanOf(cfg, s))) && LiveUnmarked(cfg, Last(t))
    ensures Last(t).pc == ReportStatus && Last(t).instance == s.spec
    ensures Last(t).keep == (s.spec.modelsAsAService == Removed)
  {
    var plan := PlanOf(cfg, s);
    hide Resources;
    t := ToMigration(cfg, s, plan, breaches);
    hide ValidConfig;
    hide RunFrom;
    hide Applies;
    hide MarksNothing;
    hide SelectorCurrent;
    SteadyApplies(cfg, s.spec, s.spec.modelsAsAService == Removed, plan, s, Last(t));
    var before := Last(t);
    t := DeployThrough(cfg, s, t, breaches);
    SteadyComposes(cfg, s, before, Last(t), {GridNamespaceKey(cfg)}, KeysOf(plan));
  }

  // ----- losing the Deployment, and what follows -----

  /** The operator is about to delete the infra Role, and the latest Deployment was never marked. */
  predicate Unsafe(s: State) {
    s.pc.DeleteRole? && !LastMarked(s)
  }

  /** Between passes, MaaS Removed, and an unmarked Deployment is gone. */
  ghost predicate Lost(cfg: Config, s: State) {
    && s.pc.Idle? && Consistent(cfg, s) && s.spec.modelsAsAService == Removed
    && ControllerKey(cfg) !in s.store && !LastMarked(s)
  }

  /** Once it is lost, the next pass goes ahead, with no further breach. */
  lemma LostIsUnsafe(cfg: Config, s: State, t: Trace, breaches: set<nat>) returns (t': Trace)
    requires RunFrom(cfg, s, t, breaches) && Lost(cfg, Last(t)) && cfg.infrastructure != cfg.applications
    ensures RunFrom(cfg, s, t', breaches) && t.labels <= t'.labels && Unsafe(Last(t'))
  {
    t' := ToDeleteRole(cfg, s, t, breaches);
  }

  /** The sweep of a reporting pass collects an unmarked Deployment for its old stamp. */
  lemma SweptAway(cfg: Config, s: State, t: Trace, breaches: set<nat>) returns (t': Trace)
    requires RunFrom(cfg, s, t, breaches) && LiveUnmarked(cfg, Last(t)) && Consistent(cfg, Last(t))
    requires Last(t).pc == ReportStatus
    requires Stale(Last(t).store[ControllerKey(cfg)], CurrentStamp(cfg, Last(t).instance))
    ensures RunFrom(cfg, s, t', breaches) && t.labels <= t'.labels
    ensures Last(t').pc.Idle? && ControllerKey(cfg) !in Last(t').store && !LastMarked(Last(t'))
    ensures Consistent(cfg, Last(t')) && Last(t').spec == Last(t).spec
  {
    hide Stale;
    var k := ControllerKey(cfg);
    t' := ToVerdict(cfg, s, t, k, breaches);
    hide RunFrom;
    t' := Extend(cfg, s, t', Op(Get(Last(t').store, k)), breaches);
    t' := Extend(cfg, s, t', Op(None), breaches);
  }

  /** Three steps bring the sweep to a verdict on a single stale candidate. */
  lemma ToVerdict(cfg: Config, s: State, t: Trace, k: Key, breaches: set<nat>) returns (t': Trace)
    requires RunFrom(cfg, s, t, breaches) && LiveUnmarked(cfg, Last(t)) && Last(t).pc == ReportStatus
    requires InSweepScope(cfg, k) && !GridCrd(k) && k in Last(t).store
    requires Stale(Last(t).store[k], CurrentStamp(cfg, Last(t).instance))
    ensures RunFrom(cfg, s, t', breaches) && t.labels <= t'.labels && |t'.labels| == |t.labels| + 2
    ensures Last(t') == Last(t).(pc := SweepDelete(k, StaleStamp, []))
  {
    hide Stale;
    hide InSweepScope;
    hide GridCrd;
    t' := Extend(cfg, s, t, StartSweep([k]), breaches);
    hide RunFrom;
    t' := Extend(cfg, s, t', Op(Get(Last(t').store, ControllerKey(cfg))), breaches);
    assert [k][1..] == [];
  }

  lemma UnplannedWhenUnset(cfg: Config, s: State)
    requires ValidConfig(cfg) && s.spec.modelsAsAService == Unset
    ensures ControllerKey(cfg) !in KeysOf(PlanOf(cfg, s))
  {
    ResourcesHaveController(cfg, s.spec, false);
    hide Resources;
    hide ValidConfig;
  }

  lemma ThenRemoved(cfg: Config, s: State, t: Trace, breaches: set<nat>) returns (t': Trace)
    requires RunFrom(cfg, s, t, breaches) && Last(t).pc.Idle? && Consistent(cfg, Last(t))
    requires ControllerKey(cfg) !in Last(t).store && !LastMarked(Last(t))
    ensures RunFrom(cfg, s, t', breaches) && t.labels <= t'.labels && Lost(cfg, Last(t'))
  {
    var spec := Last(t).spec;
    hide RunFrom;
    t' := Extend(cfg, s, t, UserEdit(spec.(modelsAsAService := Removed, generation := spec.generation + 1)), breaches);
  }

  lemma MigrateAway(cfg: Config, s: State, l: Label)
    requires LiveUnmarked(cfg, s) && Consistent(cfg, s) && l.Op?
    requires var d := s.store[ControllerKey(cfg)];
             s.pc == MigrateDelete(d.uid, d.resourceVersion)
    ensures var s' := Step(cfg, s, l);
            && s'.pc == Deploy(s.plan) && s'.plan == s.plan && s'.spec == s.spec && Consistent(cfg, s')
            && s'.store == s.store - {ControllerKey(cfg)} && !LastMarked(s')
  {
  }

  lemma CreateUnmarked(cfg: Config, s: State, o: Object)
    requires ControllerKey(cfg) !in s.store && !Marked(o) && s.next !in s.everMarked
    ensures var s' := Step(cfg, s, Create(ControllerKey(cfg), o));
            && LiveUnmarked(cfg, s') && Consistent(cfg, s') && s'.store[ControllerKey(cfg)].selector == o.selector
            && s'.pc == s.pc && s'.instance == s.instance && s'.keep == s.keep && s'.spec == s.spec
  {
  }

  lemma PassesRbac(cfg: Config, s: State)
    requires s.pc == InfraRbac && s.instance.modelsAsAService == Removed
    requires LiveUnmarked(cfg, s) && Consistent(cfg, s)
    ensures FreshOp(cfg, s) == s.(pc := Render)
  {
  }

  /** From the Create to the failure after the migration delete. */
  lemma MigratedBehindPass(cfg: Config, s: State, t: Trace, o: Object) returns (t': Trace)
    requires ValidConfig(cfg) && RunFrom(cfg, s, t, {3}) && |t.labels| == 3 && Consistent(cfg, Last(t))
    requires Last(t).pc == InfraRbac && !Last(t).keep && ControllerKey(cfg) !in Last(t).store
    requires Last(t).spec.modelsAsAService == Removed == Last(t).instance.modelsAsAService
    requires !SelectorCurrent(o.selector) && !Marked(o) && Last(t).next !in Last(t).everMarked
    ensures RunFrom(cfg, s, t', {3}) && |t'.labels| > 3 && t'.labels[3] == Create(ControllerKey(cfg), o)
    ensures Lost(cfg, Last(t'))
  {
    hide ValidConfig;
    hide HasController;
    hide Resources;
    hide SelectorCurrent;
    hide Marked;
    hide Step;
    hide Disciplined;
    var plan := Resources(cfg, Last(t).instance, false);
    ResourcesHaveController(cfg, Last(t).instance, false);
    CreateUnmarked(cfg, Last(t), o);
    t' := Extend(cfg, s, t, Create(ControllerKey(cfg), o), {3});
    hide RunFrom;
    hide Enabled;
    FreshOpIsAllowed(cfg, Last(t'));
    PassesRbac(cfg, Last(t'));
    t' := Extend(cfg, s, t', Op(Get(Last(t').store, ControllerKey(cfg))), {3});
    t' := ToMigrated(cfg, s, t', plan, {3});
    t' := GiveUp(cfg, s, t', {3});
  }

  /** The migration deletes a Deployment that the plan does not contain, and the pass fails. */
  lemma GiveUp(cfg: Config, s: State, t: Trace, breaches: set<nat>) returns (t': Trace)
    requires RunFrom(cfg, s, t, breaches) && LiveUnmarked(cfg, Last(t)) && Consistent(cfg, Last(t))
    requires Last(t).spec.modelsAsAService == Removed && !HasController(cfg, Last(t).plan)
    requires var d := Last(t).store[ControllerKey(cfg)];
             Last(t).pc == MigrateDelete(d.uid, d.resourceVersion)
    ensures RunFrom(cfg, s, t', breaches) && t.labels <= t'.labels && Lost(cfg, Last(t'))
  {
    var l := Op(Get(Last(t).store, ControllerKey(cfg)));
    hide HasController;
    FreshOpIsAllowed(cfg, Last(t));
    MigrateAway(cfg, Last(t), l);
    t' := Extend(cfg, s, t, l, breaches);
    hide RunFrom;
    hide Consistent;
    t' := Extend(cfg, s, t', Fail, breaches);
  }

  lemma Restamp(cfg: Config, s: State, t: Trace, n: nat) returns (t': Trace)
    requires RunFrom(cfg, s, t, {n}) && |t.labels| == n && LiveUnmarked(cfg, Last(t)) && Consistent(cfg, Last(t))
    ensures RunFrom(cfg, s, t', {n}) && |t'.labels| == n + 1
    ensures t'.labels[n].Update? && t'.labels[n].key == ControllerKey(cfg)
    ensures LiveUnmarked(cfg, Last(t')) && Consistent(cfg, Last(t'))
    ensures Stale(Last(t').store[ControllerKey(cfg)], CurrentStamp(cfg, Last(t').instance))
    ensures Last(t').pc == Last(t).pc && Last(t').spec == Last(t).spec
  {
    var live, current := Last(t).store[ControllerKey(cfg)], CurrentStamp(cfg, Last(t).instance);
    var other := current.(generation := current.generation + 1);
    t' := Extend(cfg, s, t, Update(ControllerKey(cfg), live.(stamp := Some(other))), {n});
  }

  lemma TouchAndDelete(cfg: Config, s: State, t: Trace, k: Key, n: nat) returns (t': Trace)
    requires RunFrom(cfg, s, t, {n}) && |t.labels| == n && LiveUnmarked(cfg, Last(t)) && k in Last(t).store
    requires k != ControllerKey(cfg) && Consistent(cfg, Last(t))
    requires Last(t).pc == SweepDelete(k, StaleStamp, [])
    ensures RunFrom(cfg, s, t', {n}) && |t'.labels| == n + 2 && t'.labels[n].Update? && t'.labels[n + 1].Op?
    ensures var last := t'.states[n + 1];
            && k in last.store && k !in t'.states[n + 2].store && !last.pc.MigrateDelete?
            && !Stale(last.store[k], CurrentStamp(cfg, last.instance)) && !LastMarked(last)
  {
    var o := Last(t).store[k].(stamp := Some(CurrentStamp(cfg, Last(t).instance)));
    Touch(cfg, Last(t), k, o);
    hide Step;
    hide Disciplined;
    hide LastMarked;
    var t1 := Extend(cfg, s, t, Update(k, o), {n});
    FreshOpIsAllowed(cfg, Last(t1));
    DeleteTouched(cfg, Last(t1), k);
    t' := Extend(cfg, s, t1, Op(Get(Last(t1).store, ControllerKey(cfg))), {n});
    assert t'.states[n + 1] == Last(t1) && t'.states[n + 2] == Last(t');
  }

  lemma Touch(cfg: Config, s: State, k: Key, o: Object)
    requires LiveUnmarked(cfg, s) && Consistent(cfg, s) && k in s.store && k != ControllerKey(cfg)
    requires s.pc == SweepDelete(k, StaleStamp, []) && o.stamp == Some(CurrentStamp(cfg, s.instance))
    requires o.uid == s.store[k].uid && o.selector == s.store[k].selector
    ensures Enabled(cfg, s, Update(k, o))
    ensures var s' := Step(cfg, s, Update(k, o));
            && s'.pc == s.pc && k in s'.store && !Stale(s'.store[k], CurrentStamp(cfg, s'.instance))
            && ControllerKey(cfg) in s'.store && !LastMarked(s')
  {
  }

  lemma DeleteTouched(cfg: Config, s: State, k: Key)
    requires s.pc == SweepDelete(k, StaleStamp, [])
    ensures k !in FreshOp(cfg, s).store
  {
  }

  // ----- one breach each -----

  /** Only the fourth step: a cache that does not show the live Deployment yet. */
  lemma StaleReadIsUnsafe(cfg: Config, s: State) returns (t: Trace)
    requires s.pc.Idle? && Consistent(cfg, s) && cfg.infrastructure != cfg.applications
    requires s.spec.modelsAsAService == Removed && LiveUnmarked(cfg, s)
    ensures RunFrom(cfg, s, t, {3}) && |t.labels| == 4
    ensures Unsafe(Last(t)) && ControllerKey(cfg) in Last(t).store
  {
    t := ToInitialize(cfg, s, Trace([s], []), {3});
    t := Extend(cfg, s, t, Op(Get(Last(t).store, ControllerKey(cfg))), {3});
    hide RunFrom;
    t := Extend(cfg, s, t, Op(None), {3});
  }

  /** Only the first step: somebody deletes the unmarked Deployment. */
  lemma OutsideDeleteIsUnsafe(cfg: Config, s: State) returns (t: Trace)
    requires s.pc.Idle? && Consistent(cfg, s) && cfg.infrastructure != cfg.applications
    requires s.spec.modelsAsAService == Removed && LiveUnmarked(cfg, s)
    ensures RunFrom(cfg, s, t, {0}) && t.labels != [] && t.labels[0] == Delete(ControllerKey(cfg))
    ensures Unsafe(Last(t))
  {
    t := Extend(cfg, s, Trace([s], []), Delete(ControllerKey(cfg)), {0});
    hide RunFrom;
    t := LostIsUnsafe(cfg, s, t, {0});
  }

  /** The pass breaks off between the migration delete and deploy, by a failure or a refused apply. */
  predicate BreaksOff(store: Store, plan: seq<Rendered>, l: Label) {
    l.Fail? || (l.Op? && plan != [] && !Applicable(store, plan[0]))
  }

  lemma BreakOff(cfg: Config, s: State, t: Trace, l: Label) returns (t': Trace)
    requires RunFrom(cfg, s, t, {7}) && |t.labels| == 6 && Last(t).spec.modelsAsAService == Removed
    requires LiveUnmarked(cfg, Last(t)) && Consistent(cfg, Last(t))
    requires BreaksOff(Last(t).store - {ControllerKey(cfg)}, Last(t).plan, l)
    requires var d := Last(t).store[ControllerKey(cfg)];
             Last(t).pc == MigrateDelete(d.uid, d.resourceVersion)
    ensures RunFrom(cfg, s, t', {7}) && |t'.labels| == 8 && t'.labels[7] == l && Lost(cfg, Last(t'))
  {
    var a := Op(Get(Last(t).store, ControllerKey(cfg)));
    hide Applicable;
    FreshOpIsAllowed(cfg, Last(t));
    MigrateAway(cfg, Last(t), a);
    hide Disciplined;
    t' := Extend(cfg, s, t, a, {7});
    hide RunFrom;
    hide Consistent;
    BreakOffStep(cfg, Last(t'), l);
    hide Step;
    t' := Extend(cfg, s, t', l, {7});
  }

  lemma BreakOffStep(cfg: Config, s: State, l: Label)
    requires s.pc == Deploy(s.plan) && BreaksOff(s.store, s.plan, l)
    ensures Enabled(cfg, s, l) && Step(cfg, s, l) == s.(pc := Idle)
  {
  }

  /** Only the eighth step: a failure right after the migration delete. */
  lemma BrokenOffPassIsUnsafe(cfg: Config, s: State) returns (t: Trace)
    requires s.pc.Idle? && Consistent(cfg, s) && cfg.infrastructure != cfg.applications
    requires s.spec.modelsAsAService == Removed && LiveUnmarked(cfg, s)
    requires !SelectorCurrent(s.store[ControllerKey(cfg)].selector)
    ensures RunFrom(cfg, s, t, {7}) && |t.labels| > 7 && t.labels[7] == Fail && Unsafe(Last(t))
  {
    hide Resources;
    hide SelectorCurrent;
    t := ToMigration(cfg, s, PlanOf(cfg, s), {7});
    hide RunFrom;
    hide Consistent;
    t := BreakOff(cfg, s, t, Fail);
    t := LostIsUnsafe(cfg, s, t, {7});
  }

  /** The plan with one resource moved to the front. */
  lemma FrontedPlan(cfg: Config, s: State, i: nat) returns (plan: seq<Rendered>)
    requires ValidConfig(cfg) && i < |PlanOf(cfg, s)|
    ensures multiset(plan) == multiset(PlanOf(cfg, s)) && plan != [] && plan[0] == PlanOf(cfg, s)[i]
    ensures plan[0].key != GridNamespaceKey(cfg)
  {
    hide Resources;
    hide ValidConfig;
    var rs := PlanOf(cfg, s);
    plan := [rs[i]] + rs[..i] + rs[i + 1..];
    assert rs == rs[..i] + [rs[i]] + rs[i + 1..];
    PlannedSparesInfra(cfg, s.spec, s.spec.modelsAsAService == Removed, plan);
    assert plan[0] in plan;
  }

  /** The same with no failing call: another rendered resource whose selector cannot be applied. */
  lemma RefusedApplyIsUnsafe(cfg: Config, s: State, i: nat) returns (t: Trace)
    requires ValidConfig(cfg) && s.pc.Idle? && Consistent(cfg, s) && cfg.infrastructure != cfg.applications
    requires s.spec.modelsAsAService == Removed && LiveUnmarked(cfg, s)
    requires !SelectorCurrent(s.store[ControllerKey(cfg)].selector)
    requires i < |PlanOf(cfg, s)| && PlanOf(cfg, s)[i].key != ControllerKey(cfg)
    requires !Applicable(s.store, PlanOf(cfg, s)[i])
    ensures RunFrom(cfg, s, t, {7}) && |t.labels| > 7 && t.labels[7].Op? && Unsafe(Last(t))
  {
    hide Resources;
    hide SelectorCurrent;
    hide ValidConfig;
    hide Step;
    hide Enabled;
    hide Disciplined;
    var plan := FrontedPlan(cfg, s, i);
    t := ToMigration(cfg, s, plan, {7});
    hide RunFrom;
    hide Consistent;
    assert Get(Last(t).store, plan[0].key) == Get(s.store, plan[0].key);
    t := BreakOff(cfg, s, t, Op(None));
    t := LostIsUnsafe(cfg, s, t, {7});
  }

  /**
   * Only the fourth step: somebody creates an unmarked Deployment with an old selector behind a pass
   * that has already left the bundle out.  The pass migrates it away and does not deploy it again.
   */
  lemma CreationBehindPassIsUnsafe(cfg: Config, s: State, o: Object) returns (t: Trace)
    requires ValidConfig(cfg) && s.pc.Idle? && Consistent(cfg, s) && cfg.infrastructure != cfg.applications
    requires s.spec.modelsAsAService == Removed && ControllerKey(cfg) !in s.store
    requires !SelectorCurrent(o.selector) && !Marked(o) && forall u :: u in s.everMarked ==> u < s.next
    ensures RunFrom(cfg, s, t, {3}) && |t.labels| > 3 && t.labels[3] == Create(ControllerKey(cfg), o)
    ensures Unsafe(Last(t))
  {
    hide Resources;
    hide SelectorCurrent;
    t := ToInitialize(cfg, s, Trace([s], []), {3});
    t := Extend(cfg, s, t, Op(None), {3});
    hide RunFrom;
    t := MigratedBehindPass(cfg, s, t, o);
    t := LostIsUnsafe(cfg, s, t, {3});
  }

  /** Only the first step: a pass with MaaS unset collects an unmarked Deployment for its old stamp. */
  lemma UnsetPassIsUnsafe(cfg: Config, s: State) returns (t: Trace)
    requires ValidConfig(cfg) && s.pc.Idle? && Consistent(cfg, s) && cfg.infrastructure != cfg.applications
    requires s.spec.modelsAsAService == Unset && LiveUnmarked(cfg, s) && Applies(s.store, PlanOf(cfg, s))
    requires SelectorCurrent(s.store[ControllerKey(cfg)].selector)
    requires Stale(s.store[ControllerKey(cfg)], CurrentStamp(cfg, s.spec))
    ensures RunFrom(cfg, s, t, {0}) && t.labels != [] && t.labels[0] == Begin && Unsafe(Last(t))
  {
    UnplannedWhenUnset(cfg, s);
    t := ToReport(cfg, s, {0});
    hide RunFrom;
    hide ValidConfig;
    hide Resources;
    hide SelectorCurrent;
    hide Stale;
    hide Applies;
    t := SweptAway(cfg, s, t, {0});
    t := ThenRemoved(cfg, s, t, {0});
    t := LostIsUnsafe(cfg, s, t, {0});
  }

  /** Only one step: somebody rewrites the stamp the pass has just put on the Deployment. */
  lemma RestampIsUnsafe(cfg: Config, s: State) returns (t: Trace, n: nat)
    requires ValidConfig(cfg) && s.pc.Idle? && Consistent(cfg, s) && cfg.infrastructure != cfg.applications
    requires s.spec.modelsAsAService == Removed && LiveUnmarked(cfg, s) && Applies(s.store, PlanOf(cfg, s))
    requires SelectorCurrent(s.store[ControllerKey(cfg)].selector)
    ensures RunFrom(cfg, s, t, {n}) && Unsafe(Last(t))
    ensures |t.labels| > n && t.labels[n].Update? && t.labels[n].key == ControllerKey(cfg)
  {
    n := |PlanOf(cfg, s)| + 7;
    t := ToReport(cfg, s, {n});
    hide ValidConfig;
    hide Resources;
    hide SelectorCurrent;
    hide Applies;
    t := Restamp(cfg, s, t, n);
    hide RunFrom;
    t := SweptAway(cfg, s, t, {n});
    t := LostIsUnsafe(cfg, s, t, {n});
  }

  /**
   * Only one step: somebody brings an object up to date between the sweep's verdict on it and its
   * deletion.  The last step then removes an object that is not stale while the live Deployment was
   * never marked, which TeardownSafety excludes.
   */
  lemma TouchAfterVerdictIsUnsafe(cfg: Config, s: State, k: Key) returns (t: Trace, n: nat)
    requires ValidConfig(cfg) && s.pc.Idle? && Consistent(cfg, s)
    requires s.spec.modelsAsAService == Removed && LiveUnmarked(cfg, s) && Applies(s.store, PlanOf(cfg, s))
    requires SelectorCurrent(s.store[ControllerKey(cfg)].selector)
    requires InSweepScope(cfg, k) && !GridCrd(k) && k !in KeysOf(PlanOf(cfg, s)) && k != GridNamespaceKey(cfg)
    requires k in s.store && Stale(s.store[k], CurrentStamp(cfg, s.spec))
    ensures RunFrom(cfg, s, t, {n}) && |t.labels| == n + 2 && t.labels[n].Update? && t.labels[n + 1].Op?
    ensures var last := t.states[n + 1];
            && k in last.store && k !in t.states[n + 2].store && !last.pc.MigrateDelete?
            && !Stale(last.store[k], CurrentStamp(cfg, last.instance)) && !LastMarked(last)
  {
    ResourcesHaveController(cfg, s.spec, true);
    n := |PlanOf(cfg, s)| + 9;
    hide Resources;
    hide SelectorCurrent;
    hide Applies;
    assert k != ControllerKey(cfg) by {
      var r :| r in PlanOf(cfg, s) && r.key == ControllerKey(cfg);
    }
    t := ToReport(cfg, s, {n});
    hide ValidConfig;
    hide InSweepScope;
    hide GridCrd;
    assert Get(Last(t).store, k) == Get(s.store, k);
    t := ToVerdict(cfg, s, t, k, {n});
    t := TouchAndDelete(cfg, s, t, k, n);
  }

  /** The sweep of a pass with MaaS unset can be order sensitive. */
  lemma UnsetPassMeetsSensitiveSweep(cfg: Config, s: State, k: Key) returns (t: Trace)
    requires ValidConfig(cfg) && s.pc.Idle? && Consistent(cfg, s)
    requires s.spec.modelsAsAService == Unset && LiveUnmarked(cfg, s) && Applies(s.store, PlanOf(cfg, s))
    requires SelectorCurrent(s.store[ControllerKey(cfg)].selector)
    requires Stale(s.store[ControllerKey(cfg)], CurrentStamp(cfg, s.spec))
    requires InSweepScope(cfg, k) && k !in KeysOf(PlanOf(cfg, s)) && k != GridNamespaceKey(cfg)
    requires WaitingKey(CurrentStamp(cfg, s.spec), s.store, k)
    ensures RunFrom(cfg, s, t, {0}) && t.labels != [] && t.labels[0] == Begin && Last(t).pc.Sweep?
    ensures OrderSensitive(cfg, CurrentStamp(cfg, Last(t).instance), Last(t).store, Last(t).pc.candidates)
  {
    UnplannedWhenUnset(cfg, s);
    t := ToReport(cfg, s, {0});
    hide ValidConfig;
    hide Resources;
    hide SelectorCurrent;
    hide Stale;
    hide Applies;
    hide GridCrd;
    hide BundleLabelled;
    var d := ControllerKey(cfg);
    assert Get(Last(t).store, k) == Get(s.store, k) && Get(Last(t).store, d) == Get(s.store, d);
    assert !Marked(s.store[d]);
    t := Extend(cfg, s, t, StartSweep([d, k]), {0});
    assert k in [d, k] && d in [d, k];
  }
}
