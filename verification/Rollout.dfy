/**
 * Every sub-module follows the spec: an error-free pass has everything of a Managed sub-module in
 * place when it reports, plans nothing of any other, and its sweep collects what that one left behind.
 */
module Rollout {
  import opened Wrappers
  import opened Cluster
  import opened Pipeline

  /** The spec asks for this manifest. */
  predicate Wanted(cfg: Config, instance: Spec, keep: bool, r: Rendered) {
    || (instance.batchGateway == Managed && r in cfg.batchGateway)
    || (keep && r in cfg.bundle)
    || (instance.aiGrid == Managed && (r in cfg.gridCrds || r in cfg.gridOperator))
  }

  predicate SameTarget(q: Rendered, r: Rendered) {
    q.key == r.key && q.selector == r.selector
  }

  /** The plan applies it. */
  predicate Planned(rs: seq<Rendered>, r: Rendered) {
    exists q :: q in rs && SameTarget(q, r)
  }

  /** Nothing else is in the plan. */
  ghost predicate OnlyWanted(cfg: Config, instance: Spec, keep: bool, rs: seq<Rendered>) {
    forall q :: q in rs ==> exists r :: Wanted(cfg, instance, keep, r) && SameTarget(q, r)
  }

  lemma WantedIsPlanned(cfg: Config, instance: Spec, keep: bool, plan: seq<Rendered>, r: Rendered)
    requires multiset(plan) == multiset(Resources(cfg, instance, keep)) && Wanted(cfg, instance, keep, r)
    ensures Planned(plan, r)
  {
    var rs := Resources(cfg, instance, keep);
    hide Resources;
    hide RenderedSet;
    hide ControllerKey;
    assert forall q :: q in plan <==> q in multiset(plan);
    assert forall q :: q in rs <==> q in multiset(rs);
    RenderedIff(cfg, instance, keep, r);
    ResourcesAreRendered(cfg, instance, keep, r);
  }

  lemma PlannedIsWanted(cfg: Config, instance: Spec, keep: bool, plan: seq<Rendered>)
    requires multiset(plan) == multiset(Resources(cfg, instance, keep))
    ensures OnlyWanted(cfg, instance, keep, plan)
  {
    var rs := Resources(cfg, instance, keep);
    hide Resources;
    hide RenderedSet;
    hide ControllerKey;
    assert forall q :: q in plan <==> q in multiset(plan);
    assert forall q :: q in rs <==> q in multiset(rs);
    forall q | q in plan
      ensures exists p :: Wanted(cfg, instance, keep, p) && SameTarget(q, p)
    {
      ResourcesAreRendered(cfg, instance, keep, q);
      var p :| p in RenderedSet(cfg, instance, keep) && (q == p || q == Annotated(cfg, p));
      RenderedIff(cfg, instance, keep, p);
      assert SameTarget(q, p);
    }
  }

  // ----- what is wanted is put in place -----

  /** In the cluster, with this pass's stamp and the rendered selector. */
  predicate RolledOut(cfg: Config, s: State, r: Rendered) {
    && r.key in s.store
    && s.store[r.key].stamp == Some(Stamp(cfg.version, cfg.platform, s.instance.generation, cfg.instance))
    && s.store[r.key].selector == r.selector
  }

  predicate Rolling(cfg: Config, s: State, r: Rendered) {
    Wanted(cfg, s.instance, s.keep, r) ==>
      && (s.pc.MigrateGet? || s.pc.MigrateDelete? ==> Planned(s.plan, r))
      && (s.pc.Deploy? ==> Planned(s.pc.rest, r) || RolledOut(cfg, s, r))
      && (s.pc.ReportStatus? ==> RolledOut(cfg, s, r))
  }

  /** Nobody else deletes the object or rewrites its stamp. */
  predicate LeavesStamp(s: State, l: Label, k: Key) {
    match l
    case Delete(k') => k' != k
    case Update(k', o) => k' == k && k in s.store ==> o.stamp == s.store[k].stamp
    case _ => true
  }

  lemma DeployRolls(cfg: Config, s: State, l: Label, r: Rendered)
    requires l.Op? && s.pc.Deploy? && Rolling(cfg, s, r)
    ensures Rolling(cfg, Step(cfg, s, l), r)
  {
    hide Wanted;
    hide Marked;
    var rest := s.pc.rest;
    if rest != [] {
      assert rest == [rest[0]] + rest[1..];
    }
  }

  lemma OtherStepsRoll(cfg: Config, s: State, l: Label, r: Rendered)
    requires Enabled(cfg, s, l) && LeavesStamp(s, l, r.key) && Rolling(cfg, s, r)
    requires l.Op? ==> !s.pc.Deploy?
    ensures Rolling(cfg, Step(cfg, s, l), r)
  {
    hide Wanted;
    hide Planned;
    hide Marked;
    hide SelectorCurrent;
    hide Judge;
    hide Resources;
    if l.Plan? && Wanted(cfg, s.instance, s.keep, r) {
      WantedIsPlanned(cfg, s.instance, s.keep, l.resources, r);
    }
  }

  lemma {:induction false} RunRolls(cfg: Config, t: Trace, i: nat, m: nat, r: Rendered)
    requires Run(cfg, t) && i <= m < |t.states| && t.states[i].pc.Idle?
    requires forall n :: i <= n < m ==> LeavesStamp(t.states[n], t.labels[n], r.key)
    ensures Rolling(cfg, t.states[m], r)
    decreases m
  {
    hide Step;
    hide Enabled;
    hide Wanted;
    hide Planned;
    hide RolledOut;
    hide LeavesStamp;
    if m > i {
      RunRolls(cfg, t, i, m - 1, r);
      if t.labels[m - 1].Op? && t.states[m - 1].pc.Deploy? {
        DeployRolls(cfg, t.states[m - 1], t.labels[m - 1], r);
      } else {
        OtherStepsRoll(cfg, t.states[m - 1], t.labels[m - 1], r);
      }
    }
  }

  /**
   * In every run, when a pass reports, each manifest of a Managed batch gateway or AI Grid, and of the
   * bundle while it is kept, is in the cluster with the stamp of this pass, whatever order the
   * resources were applied in, unless somebody else has deleted or restamped it meanwhile.
   */
  lemma ReportingPassHasRolledOut(cfg: Config, t: Trace, i: nat, m: nat, r: Rendered)
    requires Run(cfg, t) && i <= m < |t.states| && t.states[i].pc.Idle? && t.states[m].pc.ReportStatus?
    requires forall n :: i <= n < m ==> LeavesStamp(t.states[n], t.labels[n], r.key)
    ensures t.states[m].instance.batchGateway == Managed && r in cfg.batchGateway ==> RolledOut(cfg, t.states[m], r)
    ensures t.states[m].instance.aiGrid == Managed && (r in cfg.gridCrds || r in cfg.gridOperator) ==>
              RolledOut(cfg, t.states[m], r)
    ensures t.states[m].keep && r in cfg.bundle ==> RolledOut(cfg, t.states[m], r)
  {
    hide Step;
    hide Enabled;
    hide RolledOut;
    hide LeavesStamp;
    RunRolls(cfg, t, i, m, r);
  }

  // ----- nothing else is -----

  ghost predicate PlansOnlyWanted(cfg: Config, s: State) {
    && (s.pc.MigrateGet? || s.pc.MigrateDelete? ==> OnlyWanted(cfg, s.instance, s.keep, s.plan))
    && (s.pc.Deploy? ==> OnlyWanted(cfg, s.instance, s.keep, s.pc.rest))
  }

  lemma PlansOnlyWantedStep(cfg: Config, s: State, l: Label)
    requires Enabled(cfg, s, l) && PlansOnlyWanted(cfg, s)
    ensures PlansOnlyWanted(cfg, Step(cfg, s, l))
  {
    hide Wanted;
    hide Writes;
    hide Written;
    hide SelectorCurrent;
    hide Judge;
    hide Resources;
    hide SameTarget;
    if l.Plan? {
      PlannedIsWanted(cfg, s.instance, s.keep, l.resources);
    }
    if s.pc.Deploy? && s.pc.rest != [] {
      assert forall q :: q in s.pc.rest[1..] ==> q in s.pc.rest;
    }
  }

  lemma {:induction false} RunPlansOnlyWanted(cfg: Config, t: Trace, i: nat, m: nat)
    requires Run(cfg, t) && i <= m < |t.states| && t.states[i].pc.Idle?
    ensures PlansOnlyWanted(cfg, t.states[m])
    decreases m
  {
    hide Step;
    hide Enabled;
    hide OnlyWanted;
    if m > i {
      RunPlansOnlyWanted(cfg, t, i, m - 1);
      PlansOnlyWantedStep(cfg, t.states[m - 1], t.labels[m - 1]);
    }
  }

  /** No manifest that the spec asks for has this key. */
  ghost predicate Unwanted(cfg: Config, instance: Spec, keep: bool, k: Key) {
    forall r :: Wanted(cfg, instance, keep, r) ==> r.key != k
  }

  /** No deploy of any run touches an object of a sub-module that is not Managed. */
  lemma UnwantedIsNotDeployed(cfg: Config, t: Trace, i: nat, m: nat, k: Key)
    requires Run(cfg, t) && i <= m < |t.labels| && t.states[i].pc.Idle?
    requires t.labels[m].Op? && t.states[m].pc.Deploy?
    requires Unwanted(cfg, t.states[m].instance, t.states[m].keep, k)
    ensures Get(t.states[m + 1].store, k) == Get(t.states[m].store, k)
  {
    hide Wanted;
    hide Enabled;
    hide NextPc;
    RunPlansOnlyWanted(cfg, t, i, m);
    var s := t.states[m];
    if s.pc.rest != [] {
      assert s.pc.rest[0] in s.pc.rest;
      var r :| Wanted(cfg, s.instance, s.keep, r) && SameTarget(s.pc.rest[0], r);
    }
    assert t.states[m + 1] == Step(cfg, t.states[m], t.labels[m]);
  }

  // ----- what a sub-module left behind is collected -----

  /** The object has the stamp of another pass. */
  predicate LeftBehind(cfg: Config, s: State, k: Key) {
    k in s.store ==>
      s.store[k].stamp.Some? &&
      s.store[k].stamp.value != Stamp(cfg.version, cfg.platform, s.instance.generation, cfg.instance)
  }

  /** Nobody else writes the object, except to delete it. */
  predicate LeavesBehind(s: State, l: Label, k: Key) {
    match l
    case Update(k', o) => k' == k && k in s.store ==> o.stamp == s.store[k].stamp
    case Create(k', _) => k' != k
    case _ => true
  }

  /** What is still there is ahead of the sweep. */
  predicate Collecting(s: State, k: Key) {
    k in s.store ==>
      && !s.pc.Idle?
      && (s.pc.Sweep? ==> k in s.pc.candidates)
      && (s.pc.SweepDelete? ==> k in s.pc.candidates || k == s.pc.key)
  }

  /** The sweep runs and lists the object. */
  predicate Lists(l: Label, k: Key) {
    !l.SkipSweep? && (l.StartSweep? ==> k in l.candidates)
  }

  /** The operator puts the object in place only by deploying it. */
  ghost predicate Ordinary(cfg: Config, k: Key) {
    k !in ReservedKeys(cfg) && !NamedGridCrd(k)
  }

  lemma SweepCollects(cfg: Config, s: State, l: Label, k: Key)
    requires l.Op? && Sweeping(s) && !NamedGridCrd(k) && LeftBehind(cfg, s, k) && Collecting(s, k)
    ensures LeftBehind(cfg, Step(cfg, s, l), k) && Collecting(Step(cfg, s, l), k)
  {
    if k in s.store {
      JudgeMeans(k, s.store[k], CurrentStamp(cfg, s.instance), l.seen);
    }
    hide Judge;
    hide NamedGridCrd;
    if s.pc.Sweep? && s.pc.candidates != [] {
      assert s.pc.candidates == [s.pc.candidates[0]] + s.pc.candidates[1..];
    }
  }

  lemma DeployLeavesBehind(cfg: Config, s: State, l: Label, k: Key)
    requires l.Op? && s.pc.Deploy? && PlansOnlyWanted(cfg, s) && Unwanted(cfg, s.instance, s.keep, k)
    requires ErrorFree(s, l) && LeftBehind(cfg, s, k)
    ensures LeftBehind(cfg, Step(cfg, s, l), k) && Collecting(Step(cfg, s, l), k)
  {
    hide Wanted;
    hide Marked;
    hide Applied;
    if s.pc.rest != [] {
      assert s.pc.rest[0] in s.pc.rest;
      var r :| Wanted(cfg, s.instance, s.keep, r) && SameTarget(s.pc.rest[0], r);
    }
  }

  lemma OtherStepsLeaveBehind(cfg: Config, s: State, l: Label, k: Key)
    requires Enabled(cfg, s, l) && LeavesBehind(s, l, k) && Ordinary(cfg, k) && Lists(l, k) && ErrorFree(s, l)
    requires !s.pc.Idle? && (l.Op? ==> !Sweeping(s) && !s.pc.Deploy?)
    requires LeftBehind(cfg, s, k) && Collecting(s, k)
    ensures LeftBehind(cfg, Step(cfg, s, l), k) && Collecting(Step(cfg, s, l), k)
  {
    hide NamedGridCrd;
    hide SelectorCurrent;
    hide Judge;
    hide Marked;
    hide EnsuredNamespace;
    hide EnsuredRbac;
    hide Resources;
  }

  lemma {:induction false} PassCollects(cfg: Config, t: Trace, i: nat, j: nat, m: nat, k: Key)
    requires CompletePass(cfg, t, i, j) && i < m <= j && t.states[i].pc.Idle? && Ordinary(cfg, k)
    requires forall n :: i <= n < j ==> LeavesBehind(t.states[n], t.labels[n], k) && Lists(t.labels[n], k)
    requires forall n :: i < n < j && t.states[n].pc.Deploy? ==>
               Unwanted(cfg, t.states[n].instance, t.states[n].keep, k)
    requires LeftBehind(cfg, t.states[i + 1], k)
    ensures LeftBehind(cfg, t.states[m], k) && Collecting(t.states[m], k)
    decreases m
  {
    hide Enabled;
    hide Unwanted;
    hide Ordinary;
    hide LeavesBehind;
    hide Lists;
    hide ErrorFree;
    if m == i + 1 {
      assert t.states[m] == Step(cfg, t.states[i], Begin);
    } else {
      hide Step;
      hide LeftBehind;
      hide Collecting;
      var s, l := t.states[m - 1], t.labels[m - 1];
      assert LeavesBehind(s, l, k) && Lists(l, k) && ErrorFree(s, l) && !s.pc.Idle?;
      PassCollects(cfg, t, i, j, m - 1, k);
      RunPlansOnlyWanted(cfg, t, i, m - 1);
      if l.Op? && Sweeping(s) {
        OrdinaryIsJudged(cfg, k);
        SweepCollects(cfg, s, l, k);
      } else if l.Op? && s.pc.Deploy? {
        DeployLeavesBehind(cfg, s, l, k);
      } else {
        OtherStepsLeaveBehind(cfg, s, l, k);
      }
    }
  }

  lemma OrdinaryIsJudged(cfg: Config, k: Key)
    requires Ordinary(cfg, k)
    ensures !NamedGridCrd(k)
  {
    hide NamedGridCrd;
  }

  /**
   * One error-free pass whose sweep lists it removes what a sub-module that is no longer Managed has
   * left behind: an object with an older stamp that the spec no longer asks for, whatever the reads of
   * the pass returned and whatever order the sweep took.  Grid CRDs are the exception.
   */
  lemma UnwantedIsCollected(cfg: Config, t: Trace, i: nat, j: nat, k: Key)
    requires CompletePass(cfg, t, i, j) && t.states[i].pc.Idle? && Ordinary(cfg, k)
    requires forall n :: i <= n < j ==> LeavesBehind(t.states[n], t.labels[n], k) && Lists(t.labels[n], k)
    requires forall n :: i < n < j && t.states[n].pc.Deploy? ==>
               Unwanted(cfg, t.states[n].instance, t.states[n].keep, k)
    requires LeftBehind(cfg, t.states[i + 1], k)
    ensures k !in t.states[j].store
  {
    hide Step;
    hide Enabled;
    hide Unwanted;
    hide Ordinary;
    hide LeavesBehind;
    hide Lists;
    hide ErrorFree;
    hide LeftBehind;
    PassCollects(cfg, t, i, j, j, k);
  }
}
