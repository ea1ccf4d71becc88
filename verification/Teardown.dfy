/** Teardown makes progress, finishes, stays finished, and always tells maas-controller to start. */
module Teardown {
  import opened Wrappers
  import opened Cluster
  import opened Pipeline
  import opened Safety

  // ----- finishing -----

  /** The component label and the completed mark, once there, stay. */
  predicate KeepsSignals(before: Object, after: Object) {
    && (BundleLabelled(before.labels) ==> BundleLabelled(after.labels))
    && (Marked(before) ==> Marked(after))
  }

  /** MaaS stays Removed, and nobody else recreates, unmarks or unlabels what is being torn down. */
  predicate TearingDown(cfg: Config, s: State, l: Label) {
    && Fresh(cfg, s, l)
    && match l
       case UserEdit(spec) => spec.modelsAsAService == Removed
       case Create(k, _) => k !in BundleKeys(cfg)
       case Update(k, o) => k in BundleKeys(cfg) && k in s.store ==> KeepsSignals(s.store[k], o)
       case _ => true
  }

  ghost predicate TeardownRun(cfg: Config, t: Trace, i: nat, j: nat) {
    && Run(cfg, t) && i <= j <= |t.labels|
    && forall m :: i <= m < j ==> TearingDown(cfg, t.states[m], t.labels[m])
  }

  predicate NoBundle(cfg: Config, rs: seq<Rendered>) {
    forall r :: r in rs ==> r.key !in BundleKeys(cfg)
  }

  /** Teardown is done, and every pass leaves the bundle out. */
  predicate Leaving(cfg: Config, s: State) {
    && s.spec.modelsAsAService == Removed
    && Completed(Get(s.store, ControllerKey(cfg)))
    && (!s.pc.Idle? ==> s.instance.modelsAsAService == Removed)
    && (AfterInitialize(s.pc) ==> !s.keep)
    && (s.pc.MigrateGet? || s.pc.MigrateDelete? ==> NoBundle(cfg, s.plan))
    && (s.pc.Deploy? ==> NoBundle(cfg, s.pc.rest))
  }

  function Remaining(cfg: Config, s: State): set<Key> {
    BundleKeys(cfg) * s.store.Keys
  }

  /** What is left of the bundle was there before, and is still labelled and marked as it was. */
  predicate Shrinks(cfg: Config, s: State, s': State) {
    forall k :: k in BundleKeys(cfg) && k in s'.store ==> k in s.store && KeepsSignals(s.store[k], s'.store[k])
  }

  lemma LeftOutPlan(cfg: Config, instance: Spec, plan: seq<Rendered>)
    requires ValidConfig(cfg) && multiset(plan) == multiset(Resources(cfg, instance, false))
    ensures NoBundle(cfg, plan)
  {
    var rs := Resources(cfg, instance, false);
    hide Resources;
    assert forall r :: r in plan <==> r in multiset(plan);
    assert forall r :: r in rs <==> r in multiset(rs);
    forall r | r in plan && r.key in BundleKeys(cfg)
      ensures false
    {
      PlannedBundle(cfg, instance, false, r);
    }
  }

  lemma OpShrinks(cfg: Config, s: State, l: Label)
    requires ValidConfig(cfg) && l.Op? && Leaving(cfg, s)
    ensures Shrinks(cfg, s, Step(cfg, s, l))
  {
    hide BundleLabelled;
    hide SelectorCurrent;
    hide GridCrd;
    hide InSweepScope;
    hide BundleKeys;
    hide EnsuredNamespace;
    hide EnsuredRbac;
    hide Marked;
    hide NextPc;
    if s.pc.Deploy? && s.pc.rest != [] {
      assert s.pc.rest[0] in s.pc.rest;
    }
  }

  lemma WorldShrinks(cfg: Config, s: State, l: Label)
    requires Enabled(cfg, s, l) && TearingDown(cfg, s, l) && !l.Op?
    ensures Shrinks(cfg, s, Step(cfg, s, l))
  {
  }

  /** No step brings a bundle object back. */
  lemma StepShrinks(cfg: Config, s: State, l: Label)
    requires ValidConfig(cfg) && Enabled(cfg, s, l) && TearingDown(cfg, s, l) && Leaving(cfg, s)
    ensures Shrinks(cfg, s, Step(cfg, s, l))
  {
    if l.Op? {
      OpShrinks(cfg, s, l);
    } else {
      WorldShrinks(cfg, s, l);
    }
  }

  lemma LeavingOp(cfg: Config, s: State, l: Label)
    requires l.Op? && Fresh(cfg, s, l) && Leaving(cfg, s)
    requires Shrinks(cfg, s, Step(cfg, s, l)) && ControllerKey(cfg) in BundleKeys(cfg)
    ensures Leaving(cfg, Step(cfg, s, l))
  {
  }

  lemma LeavingStep(cfg: Config, s: State, l: Label)
    requires ValidConfig(cfg) && Enabled(cfg, s, l) && TearingDown(cfg, s, l) && Leaving(cfg, s)
    ensures Leaving(cfg, Step(cfg, s, l))
  {
    StepShrinks(cfg, s, l);
    assert ControllerKey(cfg) in BundleKeys(cfg);
    if l.Op? {
      LeavingOp(cfg, s, l);
    } else {
      if l.Plan? {
        LeftOutPlan(cfg, s.instance, l.resources);
      }
      hide ValidConfig;
      hide BundleKeys;
      hide Marked;
      hide Resources;
      hide Writes;
    }
  }

  lemma {:induction false} RunLeaves(cfg: Config, t: Trace, i: nat, m: nat)
    requires ValidConfig(cfg) && TeardownRun(cfg, t, i, m)
    requires t.states[i].pc.Idle? && Leaving(cfg, t.states[i])
    ensures Leaving(cfg, t.states[m])
    decreases m
  {
    hide Step;
    hide Enabled;
    hide TearingDown;
    hide ValidConfig;
    hide Leaving;
    if m > i {
      assert TearingDown(cfg, t.states[m - 1], t.labels[m - 1]);
      RunLeaves(cfg, t, i, m - 1);
      LeavingStep(cfg, t.states[m - 1], t.labels[m - 1]);
    }
  }

  /**
   * Teardown only moves forward.  Once MaaS is Removed and marked (or its Deployment is gone), no
   * step of any pass, failed or not, renders or recreates a bundle object, and each collection of
   * one strictly shrinks what is left.
   */
  lemma TeardownNeverReverts(cfg: Config, t: Trace, i: nat, m: nat)
    requires ValidConfig(cfg) && TeardownRun(cfg, t, i, m) && i < m
    requires t.states[i].pc.Idle? && Leaving(cfg, t.states[i])
    ensures Remaining(cfg, t.states[m]) <= Remaining(cfg, t.states[m - 1])
    ensures t.states[m - 1].pc.SweepDelete? && t.labels[m - 1].Op? &&
            t.states[m - 1].pc.key in Remaining(cfg, t.states[m - 1]) ==>
              |Remaining(cfg, t.states[m])| < |Remaining(cfg, t.states[m - 1])|
    ensures t.states[m].pc.Deploy? ==> NoBundle(cfg, t.states[m].pc.rest)
  {
    hide ValidConfig;
    hide BundleKeys;
    hide Marked;
    var s, l := t.states[m - 1], t.labels[m - 1];
    assert TearingDown(cfg, s, l);
    RunLeaves(cfg, t, i, m - 1);
    RunLeaves(cfg, t, i, m);
    StepShrinks(cfg, s, l);
    if s.pc.SweepDelete? && l.Op? && s.pc.key in Remaining(cfg, s) {
      assert s.pc.key !in t.states[m].store;
      SmallerSet(Remaining(cfg, t.states[m]), Remaining(cfg, s), s.pc.key);
    }
    hide Step;
    hide Enabled;
    hide TearingDown;
  }

  lemma SmallerSet(a: set<Key>, b: set<Key>, k: Key)
    requires k in b && k !in a
    ensures a <= b ==> |a| < |b|
  {
    if a <= b {
      assert a <= b - {k};
      SubsetSize(a, b - {k});
    }
  }

  lemma {:induction false} SubsetSize(a: set<Key>, b: set<Key>)
    requires a <= b
    ensures |a| <= |b|
  {
    if a != {} {
      var k :| k in a;
      SubsetSize(a - {k}, b - {k});
    }
  }

  /** The bundle objects in the store carry their component label. */
  predicate AllLabelled(cfg: Config, s: State) {
    forall k :: k in BundleKeys(cfg) && k in s.store ==> BundleLabelled(s.store[k].labels)
  }

  /** The sweep runs and lists the whole bundle. */
  predicate SweepsBundle(cfg: Config, l: Label) {
    !l.SkipSweep? && (l.StartSweep? ==> forall k :: k in BundleKeys(cfg) ==> k in l.candidates)
  }

  /** Whatever is left of the bundle is still ahead of the sweep. */
  predicate Clearing(cfg: Config, s: State) {
    && (s.pc.Sweep? ==> forall k :: k in BundleKeys(cfg) && k in s.store ==> k in s.pc.candidates)
    && (s.pc.SweepDelete? ==>
          forall k :: k in BundleKeys(cfg) && k in s.store ==> k in s.pc.candidates || k == s.pc.key)
    && (s.pc.Idle? ==> forall k :: k in BundleKeys(cfg) ==> k !in s.store)
  }

  lemma BundleIsJudgedDeletable(cfg: Config, k: Key, o: Object, current: Stamp, seen: Option<Object>)
    requires ValidConfig(cfg) && k in BundleKeys(cfg) && BundleLabelled(o.labels) && Completed(seen)
    ensures Judge(k, o, current, seen).Some?
  {
  }

  lemma SweepClears(cfg: Config, s: State, l: Label)
    requires ValidConfig(cfg) && Fresh(cfg, s, l) && Leaving(cfg, s) && l.Op? && s.pc.Sweep?
    requires AllLabelled(cfg, s) && Clearing(cfg, s)
    ensures Clearing(cfg, Step(cfg, s, l))
  {
    hide ValidConfig;
    hide BundleKeys;
    hide BundleLabelled;
    hide Judge;
    hide NoBundle;
    hide Completed;
    if s.pc.candidates != [] {
      var k, rest := s.pc.candidates[0], s.pc.candidates[1..];
      assert s.pc.candidates == [k] + rest;
      if k in BundleKeys(cfg) && k in s.store {
        BundleIsJudgedDeletable(cfg, k, s.store[k], CurrentStamp(cfg, s.instance), l.seen);
      }
    }
  }

  lemma SweepDeleteClears(cfg: Config, s: State, l: Label)
    requires l.Op? && s.pc.SweepDelete? && Clearing(cfg, s)
    ensures Clearing(cfg, Step(cfg, s, l))
  {
  }

  lemma ClearingStep(cfg: Config, s: State, l: Label)
    requires ValidConfig(cfg) && Enabled(cfg, s, l) && TearingDown(cfg, s, l) && Leaving(cfg, s)
    requires AllLabelled(cfg, s) && Clearing(cfg, s) && !s.pc.Idle?
    requires ErrorFree(s, l) && SweepsBundle(cfg, l)
    ensures Clearing(cfg, Step(cfg, s, l)) && AllLabelled(cfg, Step(cfg, s, l))
  {
    StepShrinks(cfg, s, l);
    if l.Op? && s.pc.Sweep? {
      SweepClears(cfg, s, l);
    } else if l.Op? && s.pc.SweepDelete? {
      SweepDeleteClears(cfg, s, l);
    }
    hide ValidConfig;
    hide BundleKeys;
    hide BundleLabelled;
    hide SelectorCurrent;
    hide Marked;
    hide Leaving;
    hide Writes;
    hide Judge;
    hide Resources;
  }

  lemma BeginClears(cfg: Config, s: State)
    requires s.pc.Idle? && AllLabelled(cfg, s)
    ensures Clearing(cfg, Step(cfg, s, Begin)) && AllLabelled(cfg, Step(cfg, s, Begin))
  {
    hide BundleLabelled;
    hide BundleKeys;
  }

  lemma {:induction false} PassClears(cfg: Config, t: Trace, i: nat, j: nat, m: nat)
    requires ValidConfig(cfg) && TeardownRun(cfg, t, i, j) && CompletePass(cfg, t, i, j) && i < m <= j
    requires t.states[i].pc.Idle? && Leaving(cfg, t.states[i]) && AllLabelled(cfg, t.states[i])
    requires forall n :: i <= n < j ==> SweepsBundle(cfg, t.labels[n])
    ensures Clearing(cfg, t.states[m]) && AllLabelled(cfg, t.states[m])
    decreases m
  {
    hide Step;
    hide Enabled;
    hide TearingDown;
    hide ErrorFree;
    hide SweepsBundle;
    hide ValidConfig;
    hide Leaving;
    hide Clearing;
    hide AllLabelled;
    if m == i + 1 {
      assert t.labels[i] == Begin;
      BeginClears(cfg, t.states[i]);
    } else {
      var s, l := t.states[m - 1], t.labels[m - 1];
      assert TearingDown(cfg, s, l) && ErrorFree(s, l) && SweepsBundle(cfg, l);
      PassClears(cfg, t, i, j, m - 1);
      RunLeaves(cfg, t, i, m - 1);
      ClearingStep(cfg, s, l);
    }
  }

  lemma {:induction false} NothingReturns(cfg: Config, t: Trace, i: nat, j: nat, n: nat)
    requires ValidConfig(cfg) && TeardownRun(cfg, t, i, n) && i <= j <= n
    requires t.states[i].pc.Idle? && Leaving(cfg, t.states[i])
    ensures Remaining(cfg, t.states[n]) <= Remaining(cfg, t.states[j])
    decreases n
  {
    hide Step;
    hide Enabled;
    hide TearingDown;
    hide ValidConfig;
    hide Leaving;
    hide Remaining;
    hide NoBundle;
    if n > j {
      NothingReturns(cfg, t, i, j, n - 1);
      TeardownNeverReverts(cfg, t, i, n);
    }
  }

  /**
   * Teardown finishes and stays finished: one error-free pass whose sweep lists the bundle, in any
   * order, leaves nothing of it, and nothing of it comes back in any later state of the run.
   */
  lemma TeardownFinishes(cfg: Config, t: Trace, i: nat, j: nat, n: nat)
    requires ValidConfig(cfg) && TeardownRun(cfg, t, i, n) && CompletePass(cfg, t, i, j) && j <= n
    requires t.states[i].pc.Idle? && Leaving(cfg, t.states[i]) && AllLabelled(cfg, t.states[i])
    requires forall m :: i <= m < j ==> SweepsBundle(cfg, t.labels[m])
    ensures Remaining(cfg, t.states[n]) == {}
  {
    hide Step;
    hide Enabled;
    hide TearingDown;
    hide ErrorFree;
    hide SweepsBundle;
    hide ValidConfig;
    hide Leaving;
    hide AllLabelled;
    hide BundleKeys;
    PassClears(cfg, t, i, j, j);
    NothingReturns(cfg, t, i, j, n);
  }

  // ----- the request reaches maas-controller -----

  predicate Requested(annotations: Labels) {
    Lookup(annotations, TeardownRequested) == "true"
  }

  predicate RequestsIn(cfg: Config, rs: seq<Rendered>) {
    forall r :: r in rs && r.key == ControllerKey(cfg) ==> Requested(r.annotations)
  }

  /** The live Deployment carries the request. */
  predicate Told(cfg: Config, s: State) {
    ControllerKey(cfg) in s.store && Requested(s.store[ControllerKey(cfg)].annotations)
  }

  predicate Asking(cfg: Config, s: State) {
    && (s.pc.MigrateGet? || s.pc.MigrateDelete? ==>
          RequestsIn(cfg, s.plan) && (s.keep ==> HasController(cfg, s.plan)))
    && (s.pc.Deploy? ==>
          RequestsIn(cfg, s.pc.rest) && (s.keep ==> HasController(cfg, s.pc.rest) || Told(cfg, s)))
    && (s.pc.ReportStatus? && s.keep ==> Told(cfg, s))
  }

  lemma PlanRequests(cfg: Config, instance: Spec, keep: bool, plan: seq<Rendered>)
    requires ValidConfig(cfg) && instance.modelsAsAService == Removed
    requires multiset(plan) == multiset(Resources(cfg, instance, keep))
    ensures RequestsIn(cfg, plan) && HasController(cfg, plan) == keep
  {
    hide ValidConfig;
    hide RenderedSet;
    ResourcesHaveController(cfg, instance, keep);
    PermutedPlan(cfg, plan, Resources(cfg, instance, keep));
    hide HasController;
    var rs := Resources(cfg, instance, keep);
    assert forall r :: r in plan <==> r in multiset(plan);
    assert forall r :: r in rs <==> r in multiset(rs);
    forall r | r in rs && r.key == ControllerKey(cfg)
      ensures Requested(r.annotations)
    {
      var i :| 0 <= i < |rs| && rs[i] == r;
      assert r == Annotated(cfg, RenderedSet(cfg, instance, keep)[i]);
    }
  }

  /** Nobody else deletes the Deployment or takes the request off it. */
  predicate LeavesController(cfg: Config, s: State, l: Label) {
    match l
    case Delete(k) => k != ControllerKey(cfg)
    case Update(k, o) => k == ControllerKey(cfg) && Told(cfg, s) ==> Requested(o.annotations)
    case _ => true
  }

  lemma DeployAsks(cfg: Config, s: State, l: Label)
    requires l.Op? && s.pc.Deploy? && Asking(cfg, s)
    ensures Asking(cfg, Step(cfg, s, l))
  {
  }

  lemma AskingStep(cfg: Config, s: State, l: Label)
    requires ValidConfig(cfg) && Enabled(cfg, s, l) && LeavesController(cfg, s, l)
    requires Asking(cfg, s) && (l.Plan? ==> s.instance.modelsAsAService == Removed)
    ensures Asking(cfg, Step(cfg, s, l))
  {
    hide ValidConfig;
    hide SelectorCurrent;
    hide Resources;
    hide RequestsIn;
    hide HasController;
    hide Judge;
    if l.Op? && s.pc.Deploy? {
      DeployAsks(cfg, s, l);
    } else if l.Plan? {
      PlanRequests(cfg, s.instance, s.keep, l.resources);
    }
  }

  lemma {:induction false} RunAsks(cfg: Config, t: Trace, i: nat, m: nat)
    requires ValidConfig(cfg) && Run(cfg, t) && i <= m <= |t.labels| && t.states[i].pc.Idle?
    requires forall n :: i <= n < m ==>
               LeavesController(cfg, t.states[n], t.labels[n]) &&
               (t.labels[n].Plan? ==> t.states[n].instance.modelsAsAService == Removed)
    ensures Asking(cfg, t.states[m])
    decreases m
  {
    hide Step;
    hide Enabled;
    hide ValidConfig;
    hide LeavesController;
    hide Told;
    hide RequestsIn;
    hide HasController;
    if m > i {
      RunAsks(cfg, t, i, m - 1);
      AskingStep(cfg, t.states[m - 1], t.labels[m - 1]);
    }
  }

  /**
   * No stuck teardown: whenever a pass with MaaS Removed has deployed, either it left the bundle
   * out, or the live Deployment carries the teardown request.
   */
  lemma NoStuckTeardown(cfg: Config, t: Trace, i: nat, m: nat)
    requires ValidConfig(cfg) && Run(cfg, t) && i <= m <= |t.labels| && t.states[i].pc.Idle?
    requires forall n :: i <= n < m ==>
               LeavesController(cfg, t.states[n], t.labels[n]) &&
               (t.labels[n].Plan? ==> t.states[n].instance.modelsAsAService == Removed)
    requires t.states[m].pc.ReportStatus?
    ensures !t.states[m].keep || Told(cfg, t.states[m])
  {
    hide Step;
    hide Enabled;
    hide ValidConfig;
    hide LeavesController;
    hide Told;
    RunAsks(cfg, t, i, m);
  }
}
