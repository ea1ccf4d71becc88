/**
 * Passes that keep the bundle: MaaS Managed, or Removed while maas-controller has not finished.
 * Re-enabling MaaS while its Deployment still carries the completed mark takes two of them: the
 * sweep does not look at the spec, so the first pass collects the bundle it has just applied; the
 * second installs it for good.
 */
module ReEnable {
  import opened Wrappers
  import opened Cluster
  import opened Pipeline
  import opened Safety

  predicate Unmarked(cfg: Config, s: State) {
    ControllerKey(cfg) in s.store ==> !Marked(s.store[ControllerKey(cfg)])
  }

  /** Every bundle object is there, and the Deployment is unmarked with a current selector. */
  predicate Installed(cfg: Config, s: State) {
    && (forall k :: k in BundleKeys(cfg) ==> k in s.store)
    && Unmarked(cfg, s)
    && ControllerKey(cfg) in s.store && SelectorCurrent(s.store[ControllerKey(cfg)].selector)
  }

  /** A pass that reads this keeps the bundle. */
  predicate KeepsBundle(cfg: Config, s: State, state: ManagementState) {
    || state == Managed
    || (state == Removed && ControllerKey(cfg) in s.store && !Marked(s.store[ControllerKey(cfg)]))
  }

  /** An object that the operator treats as before: a status or revision written by its controller. */
  predicate Similar(before: Object, after: Object) {
    && (BundleLabelled(before.labels) ==> BundleLabelled(after.labels))
    && after.stamp == before.stamp && after.selector == before.selector
    && (Marked(after) ==> Marked(before))
  }

  /**
   * Every pass begins when it will keep the bundle, reads are fresh, and nobody else creates,
   * deletes, marks, unlabels or restamps a bundle object.
   */
  predicate Keeping(cfg: Config, s: State, l: Label) {
    && Fresh(cfg, s, l)
    && match l
       case Begin => KeepsBundle(cfg, s, s.spec.modelsAsAService)
       case MaasMarks => false
       case Update(k, o) => k in BundleKeys(cfg) && k in s.store ==> Similar(s.store[k], o)
       case Delete(k) => k !in BundleKeys(cfg)
       case Create(k, _) => k !in BundleKeys(cfg)
       case _ => true
  }

  /** The sweep runs and its enumeration includes the Deployment. */
  predicate Sweeps(cfg: Config, l: Label) {
    !l.SkipSweep? && (l.StartSweep? ==> ControllerKey(cfg) in l.candidates)
  }

  ghost predicate KeepingRun(cfg: Config, t: Trace, i: nat, j: nat) {
    && Run(cfg, t) && i <= j <= |t.labels|
    && forall m :: i <= m < j ==> Keeping(cfg, t.states[m], t.labels[m])
  }

  // ----- what holds during every pass -----

  predicate KeyIn(rs: seq<Rendered>, k: Key) {
    exists r :: r in rs && r.key == k
  }

  /** A planned resource of the bundle that is safe to apply. */
  predicate BundleResource(cfg: Config, r: Rendered) {
    r.key in BundleKeys(cfg) ==>
      && BundleLabelled(r.labels) && TeardownCompleted !in r.annotations
      && (r.key == ControllerKey(cfg) ==> SelectorCurrent(r.selector))
  }

  predicate GoodPlan(cfg: Config, rs: seq<Rendered>) {
    && (forall r :: r in rs ==> BundleResource(cfg, r))
    && (forall k :: k in BundleKeys(cfg) ==> KeyIn(rs, k))
  }

  /** The bundle object is there, stamped by this pass. */
  predicate StampedByPass(cfg: Config, s: State, k: Key) {
    && k in s.store
    && s.store[k].stamp == Some(CurrentStamp(cfg, s.instance))
    && BundleLabelled(s.store[k].labels)
    && (k == ControllerKey(cfg) ==> SelectorCurrent(s.store[k].selector))
  }

  predicate AllApplied(cfg: Config, s: State) {
    forall k :: k in BundleKeys(cfg) ==> StampedByPass(cfg, s, k)
  }

  /** How far this pass has got with the bundle, until its sweep starts. */
  predicate Progress(cfg: Config, s: State) {
    && (s.pc.EnsureGridNamespace? || s.pc.Initialize? ==> KeepsBundle(cfg, s, s.instance.modelsAsAService))
    && (AfterInitialize(s.pc) ==> s.keep)
    && (s.pc.MigrateGet? || s.pc.MigrateDelete? ==> GoodPlan(cfg, s.plan))
    && (s.pc.Deploy? ==>
          && (forall r :: r in s.pc.rest ==> BundleResource(cfg, r))
          && (forall k :: k in BundleKeys(cfg) ==> KeyIn(s.pc.rest, k) || StampedByPass(cfg, s, k)))
    && (s.pc.ReportStatus? ==> AllApplied(cfg, s))
  }

  lemma PlanIsGood(cfg: Config, instance: Spec, plan: seq<Rendered>)
    requires ValidConfig(cfg) && multiset(plan) == multiset(Resources(cfg, instance, true))
    ensures GoodPlan(cfg, plan)
  {
    var rs := Resources(cfg, instance, true);
    hide Resources;
    hide BundleLabelled;
    hide SelectorCurrent;
    assert forall r :: r in plan <==> r in multiset(plan);
    assert forall r :: r in rs <==> r in multiset(rs);
    forall r | r in plan && r.key in BundleKeys(cfg)
      ensures BundleResource(cfg, r)
    {
      PlannedBundle(cfg, instance, true, r);
    }
    forall k | k in BundleKeys(cfg)
      ensures KeyIn(plan, k)
    {
      var b :| b in cfg.bundle && b.key == k;
      RenderedBundle(cfg, instance, true, b);
      ResourcesAreRendered(cfg, instance, true, b);
    }
  }

  /** The same bundle objects are there, each treated as before. */
  predicate BundleUntouched(cfg: Config, s: State, s': State) {
    forall k :: k in BundleKeys(cfg) ==>
      && (k in s'.store <==> k in s.store)
      && (k in s.store ==> Similar(s.store[k], s'.store[k]))
  }

  lemma OtherStepsLeaveBundle(cfg: Config, s: State, l: Label)
    requires ValidConfig(cfg) && Enabled(cfg, s, l) && Keeping(cfg, s, l)
    requires l.Op? ==> !s.pc.MigrateDelete? && !s.pc.Deploy? && !s.pc.SweepDelete?
    ensures BundleUntouched(cfg, s, Step(cfg, s, l))
  {
    hide BundleLabelled;
    hide SelectorCurrent;
    hide GridCrd;
    hide InSweepScope;
    hide BundleKeys;
    hide EnsuredNamespace;
    hide EnsuredRbac;
  }

  /** One apply: its own bundle key is dealt with, the others are as they were. */
  lemma ApplyOne(cfg: Config, s: State, l: Label, k: Key)
    requires l.Op? && s.pc.Deploy? && s.pc.rest != [] && Applicable(s.store, s.pc.rest[0])
    requires BundleResource(cfg, s.pc.rest[0]) && k in BundleKeys(cfg)
    ensures var r, s' := s.pc.rest[0], Step(cfg, s, l);
            && (r.key == k ==> StampedByPass(cfg, s', k))
            && (r.key != k ==> Get(s'.store, k) == Get(s.store, k))
            && (k in s'.store && Marked(s'.store[k]) ==> k in s.store && Marked(s.store[k]))
  {
  }

  /** Applying one planned resource. */
  lemma DeployProgress(cfg: Config, s: State, l: Label)
    requires ControllerKey(cfg) in BundleKeys(cfg)
    requires l.Op? && s.pc.Deploy? && Progress(cfg, s)
    ensures Progress(cfg, Step(cfg, s, l))
    ensures Unmarked(cfg, s) ==> Unmarked(cfg, Step(cfg, s, l))
  {
    hide BundleKeys;
    hide BundleLabelled;
    hide SelectorCurrent;
    hide BundleResource;
    hide Marked;
    hide Written;
    hide Writes;
    var rest, s' := s.pc.rest, Step(cfg, s, l);
    if rest != [] && Applicable(s.store, rest[0]) {
      assert rest[0] in rest && rest == [rest[0]] + rest[1..];
      forall k | k in BundleKeys(cfg)
        ensures KeyIn(rest[1..], k) || StampedByPass(cfg, s', k)
      {
        ApplyOne(cfg, s, l, k);
      }
      ApplyOne(cfg, s, l, ControllerKey(cfg));
    } else {
      NothingApplied(cfg, s, l);
    }
  }

  lemma NothingApplied(cfg: Config, s: State, l: Label)
    requires l.Op? && s.pc.Deploy? && (s.pc.rest == [] || !Applicable(s.store, s.pc.rest[0]))
    ensures Step(cfg, s, l) == s.(pc := if s.pc.rest == [] then ReportStatus else Idle)
  {
  }

  lemma BundleFrame(cfg: Config, s: State, s': State)
    requires BundleUntouched(cfg, s, s') && ControllerKey(cfg) in BundleKeys(cfg)
    ensures Unmarked(cfg, s) ==> Unmarked(cfg, s')
    ensures s'.instance == s.instance ==>
              forall k :: k in BundleKeys(cfg) && StampedByPass(cfg, s, k) ==> StampedByPass(cfg, s', k)
    ensures forall state :: KeepsBundle(cfg, s, state) ==> KeepsBundle(cfg, s', state)
  {
  }

  /** A delete never marks anything, and after it the bundle has to be applied or is being swept. */
  lemma DeleteProgress(cfg: Config, s: State, l: Label)
    requires l.Op? && Progress(cfg, s) && (s.pc.MigrateDelete? || s.pc.SweepDelete?)
    ensures Progress(cfg, Step(cfg, s, l))
    ensures Unmarked(cfg, s) ==> Unmarked(cfg, Step(cfg, s, l))
  {
  }

  /** Every other call of the pass. */
  lemma ReadProgress(cfg: Config, s: State, l: Label)
    requires ValidConfig(cfg) && Enabled(cfg, s, l) && Keeping(cfg, s, l) && Progress(cfg, s)
    requires l.Op? && !s.pc.Deploy? && !s.pc.MigrateDelete? && !s.pc.SweepDelete?
    ensures Progress(cfg, Step(cfg, s, l))
    ensures Unmarked(cfg, s) ==> Unmarked(cfg, Step(cfg, s, l))
  {
    hide ValidConfig;
    ControllerIsBundled(cfg);
    hide BundleKeys;
    hide BundleResource;
    hide BundleUntouched;
    hide StampedByPass;
    hide Unmarked;
    hide SelectorCurrent;
    hide Judge;
    hide Writes;
    hide Written;
    OtherStepsLeaveBundle(cfg, s, l);
    BundleFrame(cfg, s, Step(cfg, s, l));
  }

  /** Steps of the rest of the world. */
  lemma WorldProgress(cfg: Config, s: State, l: Label)
    requires ValidConfig(cfg) && Enabled(cfg, s, l) && Keeping(cfg, s, l) && Progress(cfg, s)
    requires l.UserEdit? || Writer(l)
    ensures Progress(cfg, Step(cfg, s, l))
    ensures Unmarked(cfg, s) ==> Unmarked(cfg, Step(cfg, s, l))
  {
    hide ValidConfig;
    ControllerIsBundled(cfg);
    hide BundleKeys;
    hide BundleResource;
    hide BundleUntouched;
    hide StampedByPass;
    hide Unmarked;
    hide Writes;
    hide Written;
    hide OpNext;
    OtherStepsLeaveBundle(cfg, s, l);
    BundleFrame(cfg, s, Step(cfg, s, l));
  }

  /** Steps of the pass that call nothing. */
  lemma LocalProgress(cfg: Config, s: State, l: Label)
    requires ValidConfig(cfg) && Enabled(cfg, s, l) && Keeping(cfg, s, l) && Progress(cfg, s)
    requires !l.Op? && !l.UserEdit? && !Writer(l)
    ensures Progress(cfg, Step(cfg, s, l))
    ensures Unmarked(cfg, s) ==> Unmarked(cfg, Step(cfg, s, l))
  {
    hide ValidConfig;
    hide BundleKeys;
    hide BundleResource;
    hide StampedByPass;
    hide Marked;
    hide Resources;
    hide OpNext;
    hide OpWrites;
    if l.Plan? {
      PlanIsGood(cfg, s.instance, l.resources);
    }
  }

  lemma StepProgress(cfg: Config, s: State, l: Label)
    requires ValidConfig(cfg) && Enabled(cfg, s, l) && Keeping(cfg, s, l) && Progress(cfg, s)
    ensures Progress(cfg, Step(cfg, s, l))
    ensures Unmarked(cfg, s) ==> Unmarked(cfg, Step(cfg, s, l))
  {
    hide *;
    ControllerIsBundled(cfg);
    if l.UserEdit? || Writer(l) {
      WorldProgress(cfg, s, l);
    } else if !l.Op? {
      LocalProgress(cfg, s, l);
    } else if s.pc.Deploy? {
      DeployProgress(cfg, s, l);
    } else if s.pc.MigrateDelete? || s.pc.SweepDelete? {
      DeleteProgress(cfg, s, l);
    } else {
      ReadProgress(cfg, s, l);
    }
  }

  lemma {:induction false} RunProgress(cfg: Config, t: Trace, i: nat, m: nat)
    requires ValidConfig(cfg) && KeepingRun(cfg, t, i, m) && t.states[i].pc.Idle?
    ensures Progress(cfg, t.states[m])
    ensures Unmarked(cfg, t.states[i]) ==> Unmarked(cfg, t.states[m])
    decreases m
  {
    if m == i {
      hide Unmarked;
    } else {
      assert Keeping(cfg, t.states[m - 1], t.labels[m - 1]);
      hide Step;
      hide Enabled;
      hide Keeping;
      hide ValidConfig;
      hide Progress;
      hide Unmarked;
      RunProgress(cfg, t, i, m - 1);
      StepProgress(cfg, t.states[m - 1], t.labels[m - 1]);
    }
  }

  // ----- the first pass unmarks -----

  /** A marked Deployment is still ahead of the sweep. */
  predicate SweepWillReach(cfg: Config, s: State) {
    ControllerKey(cfg) in s.store && Marked(s.store[ControllerKey(cfg)]) ==>
      && BundleLabelled(s.store[ControllerKey(cfg)].labels)
      && ((s.pc.Sweep? && ControllerKey(cfg) in s.pc.candidates) ||
          (s.pc.SweepDelete? && (ControllerKey(cfg) in s.pc.candidates || s.pc.key == ControllerKey(cfg))))
  }

  lemma SweepReaches(cfg: Config, s: State, l: Label)
    requires ValidConfig(cfg) && Enabled(cfg, s, l) && Keeping(cfg, s, l)
    requires l.Op? ==> Sweeping(s)
    requires Sweeping(s) && SweepWillReach(cfg, s) && !l.Fail?
    ensures var s' := Step(cfg, s, l);
            if Sweeping(s') then SweepWillReach(cfg, s') else s'.pc.Idle? && Unmarked(cfg, s')
  {
  }

  predicate Reaching(cfg: Config, s: State) {
    && (Sweeping(s) ==> SweepWillReach(cfg, s))
    && (s.pc.Idle? ==> Unmarked(cfg, s))
  }

  /** An error-free pass only becomes idle through its sweep. */
  lemma OnlyTheSweepEnds(cfg: Config, s: State, l: Label)
    requires Enabled(cfg, s, l) && Keeping(cfg, s, l) && ErrorFree(s, l) && Sweeps(cfg, l)
    requires Progress(cfg, s) && !s.pc.Idle? && !Sweeping(s) && ControllerKey(cfg) in BundleKeys(cfg)
    ensures Reaching(cfg, Step(cfg, s, l)) && !Step(cfg, s, l).pc.Idle?
  {
  }

  lemma PassStepReaches(cfg: Config, s: State, l: Label)
    requires ValidConfig(cfg) && Enabled(cfg, s, l) && Keeping(cfg, s, l) && ErrorFree(s, l) && Sweeps(cfg, l)
    requires Progress(cfg, s) && !s.pc.Idle? && Reaching(cfg, s)
    ensures Reaching(cfg, Step(cfg, s, l))
  {
    assert ControllerKey(cfg) in BundleKeys(cfg);
    hide Step;
    hide Enabled;
    hide Keeping;
    hide Progress;
    hide ValidConfig;
    hide BundleKeys;
    if Sweeping(s) {
      SweepReaches(cfg, s, l);
    } else {
      OnlyTheSweepEnds(cfg, s, l);
    }
  }

  lemma {:induction false} PassReaches(cfg: Config, t: Trace, i: nat, j: nat, m: nat)
    requires ValidConfig(cfg) && KeepingRun(cfg, t, i, j) && CompletePass(cfg, t, i, j)
    requires forall n :: i <= n < j ==> Sweeps(cfg, t.labels[n])
    requires t.states[i].pc.Idle? && i < m <= j
    ensures Reaching(cfg, t.states[m])
    decreases m
  {
    if m == i + 1 {
      assert t.states[i + 1].pc.EnsureGridNamespace?;
    } else {
      assert Keeping(cfg, t.states[m - 1], t.labels[m - 1]);
      assert ErrorFree(t.states[m - 1], t.labels[m - 1]) && Sweeps(cfg, t.labels[m - 1]);
      hide Step;
      hide Enabled;
      hide Keeping;
      hide ErrorFree;
      hide Sweeps;
      hide ValidConfig;
      hide Progress;
      hide Reaching;
      PassReaches(cfg, t, i, j, m - 1);
      RunProgress(cfg, t, i, m - 1);
      PassStepReaches(cfg, t.states[m - 1], t.labels[m - 1]);
    }
  }

  // ----- a pass without a mark installs, and what is installed stays -----

  predicate Intact(cfg: Config, s: State) {
    && Unmarked(cfg, s)
    && (Sweeping(s) ==> AllApplied(cfg, s))
    && (s.pc.SweepDelete? ==> s.pc.key !in BundleKeys(cfg))
  }

  /** Without a mark the sweep spares everything this pass has stamped. */
  lemma SweepSparesBundle(cfg: Config, s: State, l: Label)
    requires l.Op? && s.pc.Sweep? && Fresh(cfg, s, l) && Intact(cfg, s)
    requires ControllerKey(cfg) in BundleKeys(cfg)
    ensures Intact(cfg, Step(cfg, s, l))
  {
  }

  lemma SweepDeleteSparesBundle(cfg: Config, s: State, l: Label)
    requires l.Op? && s.pc.SweepDelete? && Intact(cfg, s) && ControllerKey(cfg) in BundleKeys(cfg)
    ensures Intact(cfg, Step(cfg, s, l)) && BundleUntouched(cfg, s, Step(cfg, s, l))
  {
    hide BundleKeys;
    hide BundleLabelled;
    hide SelectorCurrent;
    hide Judge;
    hide Marked;
  }

  lemma IntactStep(cfg: Config, s: State, l: Label)
    requires ValidConfig(cfg) && Enabled(cfg, s, l) && Keeping(cfg, s, l)
    requires Progress(cfg, s) && Intact(cfg, s)
    ensures Intact(cfg, Step(cfg, s, l))
  {
    hide ValidConfig;
    ControllerIsBundled(cfg);
    hide BundleKeys;
    hide StampedByPass;
    hide Unmarked;
    hide BundleUntouched;
    hide BundleResource;
    hide Writes;
    hide Written;
    hide SelectorCurrent;
    StepProgress(cfg, s, l);
    if l.Op? && s.pc.Sweep? {
      SweepSparesBundle(cfg, s, l);
    } else if l.Op? && s.pc.SweepDelete? {
      SweepDeleteSparesBundle(cfg, s, l);
    } else if !l.Op? {
      OtherStepsLeaveBundle(cfg, s, l);
      BundleFrame(cfg, s, Step(cfg, s, l));
    }
  }

  /** An error-free pass ends with everything installed. */
  lemma PassEndInstalls(cfg: Config, s: State, l: Label)
    requires Enabled(cfg, s, l) && Keeping(cfg, s, l) && ErrorFree(s, l)
    requires Progress(cfg, s) && Intact(cfg, s) && !s.pc.Idle? && Step(cfg, s, l).pc.Idle?
    requires ControllerKey(cfg) in BundleKeys(cfg)
    ensures Installed(cfg, Step(cfg, s, l))
  {
  }

  lemma DeployKeepsInstalled(cfg: Config, s: State, l: Label)
    requires l.Op? && s.pc.Deploy? && Installed(cfg, s) && Unmarked(cfg, Step(cfg, s, l))
    ensures Installed(cfg, Step(cfg, s, l)) && !Step(cfg, s, l).pc.MigrateDelete?
  {
  }

  /** From then on no step, not even of a failing pass, takes anything away. */
  lemma InstalledStays(cfg: Config, s: State, l: Label)
    requires ValidConfig(cfg) && Enabled(cfg, s, l) && Keeping(cfg, s, l)
    requires Progress(cfg, s) && Intact(cfg, s) && Installed(cfg, s) && !s.pc.MigrateDelete?
    ensures Installed(cfg, Step(cfg, s, l)) && !Step(cfg, s, l).pc.MigrateDelete?
  {
    assert ControllerKey(cfg) in BundleKeys(cfg);
    if l.Op? && s.pc.Deploy? {
      StepProgress(cfg, s, l);
      DeployKeepsInstalled(cfg, s, l);
    } else {
      if l.Op? && s.pc.SweepDelete? {
        SweepDeleteSparesBundle(cfg, s, l);
      } else {
        OtherStepsLeaveBundle(cfg, s, l);
      }
      UntouchedStaysInstalled(cfg, s, l);
    }
  }

  lemma UntouchedStaysInstalled(cfg: Config, s: State, l: Label)
    requires Installed(cfg, s) && BundleUntouched(cfg, s, Step(cfg, s, l)) && Fresh(cfg, s, l)
    requires ControllerKey(cfg) in BundleKeys(cfg) && !s.pc.MigrateDelete?
    ensures Installed(cfg, Step(cfg, s, l)) && !Step(cfg, s, l).pc.MigrateDelete?
  {
  }

  lemma IdleIsIntact(cfg: Config, s: State)
    requires s.pc.Idle? && Unmarked(cfg, s)
    ensures Intact(cfg, s)
  {
  }

  lemma {:induction false} RunStaysIntact(cfg: Config, t: Trace, j: nat, m: nat)
    requires ValidConfig(cfg) && KeepingRun(cfg, t, j, m)
    requires t.states[j].pc.Idle? && Unmarked(cfg, t.states[j])
    ensures Intact(cfg, t.states[m])
    decreases m
  {
    hide Step;
    hide Enabled;
    hide Keeping;
    hide ValidConfig;
    hide Progress;
    hide Intact;
    if m == j {
      IdleIsIntact(cfg, t.states[j]);
    } else {
      assert Keeping(cfg, t.states[m - 1], t.labels[m - 1]);
      RunProgress(cfg, t, j, m - 1);
      RunStaysIntact(cfg, t, j, m - 1);
      IntactStep(cfg, t.states[m - 1], t.labels[m - 1]);
    }
  }

  lemma {:induction false} RunStaysInstalled(cfg: Config, t: Trace, j: nat, l: nat, m: nat)
    requires ValidConfig(cfg) && KeepingRun(cfg, t, j, m) && j <= l <= m
    requires t.states[j].pc.Idle? && Unmarked(cfg, t.states[j])
    requires Installed(cfg, t.states[l]) && t.states[l].pc.Idle?
    ensures Installed(cfg, t.states[m]) && !t.states[m].pc.MigrateDelete?
    decreases m
  {
    hide Step;
    hide Enabled;
    hide Keeping;
    hide ValidConfig;
    hide Progress;
    hide Intact;
    hide Installed;
    hide Unmarked;
    if m > l {
      assert Keeping(cfg, t.states[m - 1], t.labels[m - 1]);
      RunProgress(cfg, t, j, m - 1);
      RunStaysIntact(cfg, t, j, m - 1);
      RunStaysInstalled(cfg, t, j, l, m - 1);
      InstalledStays(cfg, t.states[m - 1], t.labels[m - 1]);
    }
  }

  /** The last step of a complete pass. */
  lemma PassEnds(cfg: Config, t: Trace, j: nat, k: nat, l: nat)
    requires KeepingRun(cfg, t, j, l) && j <= k && CompletePass(cfg, t, k, l)
    ensures k + 1 < l < |t.states| == |t.labels| + 1 && KeepingRun(cfg, t, j, l - 1)
    ensures var s, a := t.states[l - 1], t.labels[l - 1];
            && !s.pc.Idle? && t.states[l].pc.Idle? && t.states[l] == Step(cfg, s, a)
            && Enabled(cfg, s, a) && Keeping(cfg, s, a) && ErrorFree(s, a)
  {
    assert t.states[k + 1].pc.EnsureGridNamespace?;
    hide Step;
    hide Enabled;
  }

  /** A complete error-free pass after the mark is gone ends with the bundle installed. */
  lemma UnmarkedPassInstalls(cfg: Config, t: Trace, j: nat, k: nat, l: nat)
    requires ValidConfig(cfg) && KeepingRun(cfg, t, j, l) && j <= k && CompletePass(cfg, t, k, l)
    requires t.states[j].pc.Idle? && Unmarked(cfg, t.states[j])
    ensures Installed(cfg, t.states[l])
  {
    hide *;
    ControllerIsBundled(cfg);
    PassEnds(cfg, t, j, k, l);
    RunProgress(cfg, t, j, l - 1);
    RunStaysIntact(cfg, t, j, l - 1);
    PassEndInstalls(cfg, t.states[l - 1], t.labels[l - 1]);
  }

  /**
   * Re-enabling converges.  After one error-free pass whose sweep lists the Deployment, and a later
   * error-free pass, the bundle is installed with the Deployment unmarked, and it stays so in every
   * later state, however many passes fail, as long as MaaS stays Managed and nobody else interferes.
   */
  lemma ReEnableConverges(cfg: Config, t: Trace, i: nat, j: nat, k: nat, l: nat, n: nat)
    requires ValidConfig(cfg) && KeepingRun(cfg, t, i, n) && t.states[i].pc.Idle?
    requires CompletePass(cfg, t, i, j) && CompletePass(cfg, t, k, l) && j <= k && l <= n
    requires forall m :: i <= m < j ==> Sweeps(cfg, t.labels[m])
    ensures Installed(cfg, t.states[n])
  {
    hide Step;
    hide Enabled;
    hide Keeping;
    hide ValidConfig;
    hide ErrorFree;
    hide Unmarked;
    hide Installed;
    PassReaches(cfg, t, i, j, j);
    UnmarkedPassInstalls(cfg, t, j, k, l);
    RunStaysInstalled(cfg, t, j, l, n);
  }
}
