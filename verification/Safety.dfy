/** Teardown safety over whole runs of the pipeline. */
module Safety {
  import opened Wrappers
  import opened Cluster
  import opened Pipeline

  /** The latest maas-controller Deployment, if there ever was one, was marked completed. */
  predicate LastMarked(s: State) {
    s.lastController.None? || s.lastController.value in s.everMarked
  }

  predicate MarkedOnce(cfg: Config, s: State) {
    ControllerKey(cfg) in s.store ==> s.store[ControllerKey(cfg)].uid in s.everMarked
  }

  /** No Deployment has disappeared unmarked. */
  predicate Accounted(cfg: Config, s: State) {
    ControllerKey(cfg) in s.store || LastMarked(s)
  }

  predicate HasController(cfg: Config, rs: seq<Rendered>) {
    exists r :: r in rs && r.key == ControllerKey(cfg)
  }

  /** The migration deleted an unmarked Deployment and deploy has not recreated it yet. */
  predicate MigrationGap(cfg: Config, s: State) {
    !Accounted(cfg, s) && s.pc.Deploy? && HasController(cfg, s.pc.rest)
  }

  /** The pass has read that teardown is done and will act on it. */
  predicate Committed(pc: Pc) {
    pc.DeleteRole? || pc.DeleteRoleBinding? || (pc.SweepDelete? && pc.reason == TeardownDone)
  }

  predicate Writer(l: Label) {
    l.Update? || l.Delete? || l.Create?
  }

  /**
   * What the rest of the world must not do.  Reads are fresh; no pass runs with MaaS unset; no
   * pass breaks off inside a migration gap; nobody else deletes an unmarked Deployment, creates
   * one behind a running pass, or rewrites the operator's stamp on it; and nobody touches an
   * object between the sweep's verdict on it and its deletion.
   */
  predicate Disciplined(cfg: Config, s: State, l: Label) {
    && Fresh(cfg, s, l)
    && (Writer(l) && s.pc.SweepDelete? ==> l.key != s.pc.key)
    && match l
       case Begin => s.spec.modelsAsAService != Unset
       case Fail => !MigrationGap(cfg, s)
       case Op(_) => MigrationGap(cfg, s) ==> s.pc.rest != [] && Applicable(s.store, s.pc.rest[0])
       case Delete(k) => k == ControllerKey(cfg) ==> MarkedOnce(cfg, s)
       case Create(k, _) => k == ControllerKey(cfg) ==> s.pc.Idle?
       case Update(k, o) => k == ControllerKey(cfg) && k in s.store ==> o.stamp == s.store[k].stamp
       case _ => true
  }

  // ----- the invariant -----

  predicate AfterInitialize(pc: Pc) {
    !pc.Idle? && !pc.EnsureGridNamespace? && !pc.Initialize?
  }

  /** Deploy has dealt with the Deployment. */
  predicate ControllerDeployed(cfg: Config, pc: Pc) {
    || (pc.Deploy? && !HasController(cfg, pc.rest))
    || pc.ReportStatus? || pc.Sweep? || pc.SweepDelete?
  }

  predicate PlanFits(cfg: Config, s: State) {
    && (s.pc.MigrateGet? || s.pc.MigrateDelete? ==> HasController(cfg, s.plan) == s.keep)
    && (s.pc.Deploy? && !s.keep ==> !HasController(cfg, s.pc.rest))
  }

  /** A pass that left the bundle out found the Deployment gone or marked. */
  predicate NotKept(cfg: Config, s: State) {
    AfterInitialize(s.pc) && !s.keep ==> MarkedOnce(cfg, s)
  }

  /** A pass that kept it has stamped the Deployment. */
  predicate Kept(cfg: Config, s: State) {
    s.keep && ControllerDeployed(cfg, s.pc) && ControllerKey(cfg) in s.store ==>
      s.store[ControllerKey(cfg)].stamp == Some(CurrentStamp(cfg, s.instance))
  }

  predicate Decided(cfg: Config, s: State) {
    && (Committed(s.pc) ==> LastMarked(s))
    && (s.pc.SweepDelete? && s.pc.reason == StaleStamp && s.pc.key in s.store ==>
          Stale(s.store[s.pc.key], CurrentStamp(cfg, s.instance)))
    && (s.pc.SweepDelete? && s.pc.key == ControllerKey(cfg) ==> MarkedOnce(cfg, s))
  }

  ghost predicate Safe(cfg: Config, s: State) {
    && Consistent(cfg, s)
    && (Accounted(cfg, s) || MigrationGap(cfg, s))
    && (!s.pc.Idle? ==> s.instance.modelsAsAService != Unset)
    && PlanFits(cfg, s) && NotKept(cfg, s) && Kept(cfg, s) && Decided(cfg, s)
  }

  // ----- one step -----

  lemma ResourcesHaveController(cfg: Config, instance: Spec, keep: bool)
    requires ValidConfig(cfg)
    ensures HasController(cfg, Resources(cfg, instance, keep)) == keep
  {
    var rs := Resources(cfg, instance, keep);
    if r :| r in rs && r.key == ControllerKey(cfg) {
      PlannedBundle(cfg, instance, keep, r);
    }
    if keep {
      var r :| r in cfg.bundle && r.key == ControllerKey(cfg);
      RenderedBundle(cfg, instance, keep, r);
      ResourcesAreRendered(cfg, instance, keep, r);
    }
  }

  lemma PermutedPlan(cfg: Config, plan: seq<Rendered>, resources: seq<Rendered>)
    requires multiset(plan) == multiset(resources)
    ensures HasController(cfg, plan) == HasController(cfg, resources)
  {
    assert forall r :: r in plan <==> r in multiset(plan);
    assert forall r :: r in resources <==> r in multiset(resources);
  }

  /** maas-controller and other writers. */
  lemma WriterStepIsSafe(cfg: Config, s: State, l: Label)
    requires Safe(cfg, s) && Enabled(cfg, s, l) && Disciplined(cfg, s, l)
    requires l.MaasMarks? || l.Update? || l.Delete? || l.Create?
    ensures Safe(cfg, Step(cfg, s, l))
  {
  }

  /** Steps that write nothing. */
  lemma LocalStepIsSafe(cfg: Config, s: State, l: Label)
    requires ValidConfig(cfg) && Safe(cfg, s) && Enabled(cfg, s, l) && Disciplined(cfg, s, l)
    requires !l.Op? && !l.MaasMarks? && !l.Update? && !l.Delete? && !l.Create?
    ensures Safe(cfg, Step(cfg, s, l))
  {
    hide ValidConfig;
    hide Resources;
    hide OpNext;
    hide OpWrites;
    StepKeepsConsistent(cfg, s, l);
    if l.Plan? {
      ResourcesHaveController(cfg, s.instance, s.keep);
      PermutedPlan(cfg, l.resources, Resources(cfg, s.instance, s.keep));
    }
  }

  lemma EarlyOpIsSafe(cfg: Config, s: State, l: Label)
    requires Safe(cfg, s) && Enabled(cfg, s, l) && Disciplined(cfg, s, l) && l.Op?
    requires !s.pc.Deploy? && !s.pc.Sweep? && !s.pc.SweepDelete? && !s.pc.MigrateDelete?
    ensures Safe(cfg, Step(cfg, s, l))
  {
  }

  lemma MigrateDeleteIsSafe(cfg: Config, s: State, l: Label)
    requires Safe(cfg, s) && Enabled(cfg, s, l) && Disciplined(cfg, s, l) && l.Op?
    requires s.pc.MigrateDelete?
    ensures Safe(cfg, Step(cfg, s, l))
  {
  }

  lemma DeployIsSafe(cfg: Config, s: State, l: Label)
    requires Safe(cfg, s) && Enabled(cfg, s, l) && Disciplined(cfg, s, l) && l.Op?
    requires s.pc.Deploy?
    ensures Safe(cfg, Step(cfg, s, l))
  {
  }

  lemma SweepIsSafe(cfg: Config, s: State, l: Label)
    requires Safe(cfg, s) && Enabled(cfg, s, l) && Disciplined(cfg, s, l) && l.Op?
    requires s.pc.Sweep? || s.pc.SweepDelete?
    ensures Safe(cfg, Step(cfg, s, l))
  {
    StepKeepsConsistent(cfg, s, l);
  }

  lemma StepIsSafe(cfg: Config, s: State, l: Label)
    requires ValidConfig(cfg) && Safe(cfg, s) && Enabled(cfg, s, l) && Disciplined(cfg, s, l)
    ensures Safe(cfg, Step(cfg, s, l))
  {
    hide *;
    if l.MaasMarks? || l.Update? || l.Delete? || l.Create? {
      WriterStepIsSafe(cfg, s, l);
    } else if !l.Op? {
      LocalStepIsSafe(cfg, s, l);
    } else if s.pc.MigrateDelete? {
      MigrateDeleteIsSafe(cfg, s, l);
    } else if s.pc.Deploy? {
      DeployIsSafe(cfg, s, l);
    } else if s.pc.Sweep? || s.pc.SweepDelete? {
      SweepIsSafe(cfg, s, l);
    } else {
      EarlyOpIsSafe(cfg, s, l);
    }
  }

  // ----- whole runs -----

  ghost predicate DisciplinedUpTo(cfg: Config, t: Trace, n: nat)
    requires Run(cfg, t) && n <= |t.labels|
  {
    forall i :: 0 <= i < n ==> Disciplined(cfg, t.states[i], t.labels[i])
  }

  /** Where a run may start: between passes, with no Deployment already lost unmarked. */
  ghost predicate Start(cfg: Config, s: State) {
    s.pc.Idle? && Consistent(cfg, s) && Accounted(cfg, s)
  }

  lemma StartIsSafe(cfg: Config, s: State)
    requires Start(cfg, s)
    ensures Safe(cfg, s)
  {
  }

  lemma {:induction false} RunIsSafe(cfg: Config, t: Trace, n: nat)
    requires ValidConfig(cfg) && Run(cfg, t) && n <= |t.labels| && Start(cfg, t.states[0])
    requires DisciplinedUpTo(cfg, t, n)
    ensures Safe(cfg, t.states[n])
    decreases n
  {
    hide Step;
    hide Enabled;
    hide Disciplined;
    hide Safe;
    hide ValidConfig;
    if n == 0 {
      StartIsSafe(cfg, t.states[0]);
    } else {
      assert Disciplined(cfg, t.states[n - 1], t.labels[n - 1]);
      RunIsSafe(cfg, t, n - 1);
      StepIsSafe(cfg, t.states[n - 1], t.labels[n - 1]);
    }
  }

  /** Outside the migration, only two kinds of call remove anything. */
  lemma RemovalsAreGuarded(cfg: Config, s: State, l: Label, k: Key)
    requires Safe(cfg, s) && l.Op? && !s.pc.MigrateDelete?
    requires k in s.store && k !in Step(cfg, s, l).store
    ensures LastMarked(s) || (s.pc.SweepDelete? && Stale(s.store[k], CurrentStamp(cfg, s.instance)))
  {
  }

  /**
   * Teardown safety.  In every disciplined run, whatever the operator removes outside the selector
   * migration - the infra Role and RoleBinding, or anything the sweep collects - is either a stale
   * object, or is removed when the latest maas-controller Deployment has been marked completed.
   */
  lemma TeardownSafety(cfg: Config, t: Trace, i: nat, k: Key)
    requires ValidConfig(cfg) && Run(cfg, t) && i < |t.labels| && Start(cfg, t.states[0])
    requires DisciplinedUpTo(cfg, t, i)
    requires t.labels[i].Op? && !t.states[i].pc.MigrateDelete?
    requires k in t.states[i].store && k !in t.states[i + 1].store
    ensures
      || LastMarked(t.states[i])
      || (t.states[i].pc.SweepDelete? &&
          Stale(t.states[i].store[k], CurrentStamp(cfg, t.states[i].instance)))
  {
    hide Step;
    hide Enabled;
    hide ValidConfig;
    hide Safe;
    RunIsSafe(cfg, t, i);
    RemovalsAreGuarded(cfg, t.states[i], t.labels[i], k);
  }

  /** The Deployment is live under this uid and carries the completed mark. */
  predicate MarkedUnder(cfg: Config, s: State, uid: nat) {
    ControllerKey(cfg) in s.store && s.store[ControllerKey(cfg)].uid == uid && Marked(s.store[ControllerKey(cfg)])
  }

  lemma StepRecordsMarks(cfg: Config, s: State, l: Label, uid: nat)
    requires uid in Step(cfg, s, l).everMarked && uid !in s.everMarked
    ensures MarkedUnder(cfg, Step(cfg, s, l), uid)
  {
  }

  /** The history is honest: a recorded mark was on the live Deployment at some earlier instant. */
  lemma {:induction false} MarkWasLive(cfg: Config, t: Trace, i: nat, uid: nat) returns (m: nat)
    requires Run(cfg, t) && i < |t.states|
    requires uid in t.states[i].everMarked && uid !in t.states[0].everMarked
    ensures m <= i && MarkedUnder(cfg, t.states[m], uid)
    decreases i
  {
    hide Step;
    hide Enabled;
    hide MarkedUnder;
    if uid in t.states[i - 1].everMarked {
      m := MarkWasLive(cfg, t, i - 1, uid);
    } else {
      StepRecordsMarks(cfg, t.states[i - 1], t.labels[i - 1], uid);
      m := i;
    }
  }

  /**
   * The same, in terms of the cluster: when a removal is not about a stale object, the latest
   * Deployment carried the completed mark, live, at an instant of the run no later than the removal.
   */
  lemma RemovalFollowsMark(cfg: Config, t: Trace, i: nat, k: Key) returns (m: nat)
    requires ValidConfig(cfg) && Run(cfg, t) && i < |t.labels| && Start(cfg, t.states[0])
    requires DisciplinedUpTo(cfg, t, i) && t.states[0].everMarked == {}
    requires t.labels[i].Op? && !t.states[i].pc.MigrateDelete?
    requires k in t.states[i].store && k !in t.states[i + 1].store
    requires !Stale(t.states[i].store[k], CurrentStamp(cfg, t.states[i].instance))
    requires t.states[i].lastController.Some?
    ensures m <= i && MarkedUnder(cfg, t.states[m], t.states[i].lastController.value)
  {
    hide Step;
    hide Enabled;
    hide ValidConfig;
    hide MarkedUnder;
    hide Stale;
    TeardownSafety(cfg, t, i, k);
    m := MarkWasLive(cfg, t, i, t.states[i].lastController.value);
  }

  /** The sweep never collects a Deployment that was not marked, however old its stamp. */
  lemma UnmarkedControllerIsSpared(cfg: Config, t: Trace, i: nat)
    requires ValidConfig(cfg) && Run(cfg, t) && i < |t.labels| && Start(cfg, t.states[0])
    requires DisciplinedUpTo(cfg, t, i)
    requires t.labels[i].Op? && !t.states[i].pc.MigrateDelete?
    requires ControllerKey(cfg) in t.states[i].store && ControllerKey(cfg) !in t.states[i + 1].store
    ensures MarkedOnce(cfg, t.states[i])
  {
    hide ValidConfig;
    hide Enabled;
    hide NextPc;
    RunIsSafe(cfg, t, i);
    assert t.states[i + 1] == Step(cfg, t.states[i], t.labels[i]);
  }

  // ----- without the discipline: when the decision goes wrong -----

  /** A fresh read that lets a guarded delete go ahead. */
  predicate Decides(cfg: Config, s: State, l: Label) {
    l.Op? && Committed(NextPc(cfg, s, l)) && !Committed(s.pc)
  }

  /** Somebody, the migration or the sweep deletes a Deployment that was never marked. */
  predicate Loses(cfg: Config, s: State, l: Label) {
    && ControllerKey(cfg) in s.store && s.store[ControllerKey(cfg)].uid !in s.everMarked
    && (|| l == Delete(ControllerKey(cfg))
        || (l.Op? && s.pc.MigrateDelete? && PreconditionsHold(cfg, s, s.pc.uid, s.pc.resourceVersion))
        || (l.Op? && s.pc.SweepDelete? && s.pc.key == ControllerKey(cfg)))
  }

  /** The steps that lose a Deployment unmarked, and what undoes it. */
  lemma LossIff(cfg: Config, s: State, l: Label)
    requires Consistent(cfg, s) && Enabled(cfg, s, l)
    ensures !Accounted(cfg, Step(cfg, s, l)) <==>
            || (Accounted(cfg, s) && Loses(cfg, s, l))
            || (!Accounted(cfg, s) && ControllerKey(cfg) !in Step(cfg, s, l).store)
  {
  }

  /** Step `m` lost the Deployment unmarked, and there has been none since. */
  ghost predicate LostAt(cfg: Config, t: Trace, m: nat, i: nat)
    requires Run(cfg, t) && i < |t.states|
  {
    && m < i && Loses(cfg, t.states[m], t.labels[m])
    && forall n :: m < n <= i ==> ControllerKey(cfg) !in t.states[n].store
  }

  lemma LossRemoves(cfg: Config, s: State, l: Label)
    requires Loses(cfg, s, l)
    ensures ControllerKey(cfg) in s.store && ControllerKey(cfg) !in Step(cfg, s, l).store
  {
  }

  lemma {:induction false} LostIsUnaccounted(cfg: Config, t: Trace, m: nat, i: nat)
    requires Run(cfg, t) && Consistent(cfg, t.states[0]) && i < |t.states| && LostAt(cfg, t, m, i)
    ensures !Accounted(cfg, t.states[i])
    decreases i
  {
    hide Step;
    hide Enabled;
    hide Consistent;
    hide Loses;
    RunKeepsConsistent(cfg, t, i - 1);
    LossIff(cfg, t.states[i - 1], t.labels[i - 1]);
    if m < i - 1 {
      LostIsUnaccounted(cfg, t, m, i - 1);
    } else {
      LossRemoves(cfg, t.states[m], t.labels[m]);
    }
  }

  lemma {:induction false} UnaccountedIffLost(cfg: Config, t: Trace, i: nat)
    requires Run(cfg, t) && i < |t.states|
    requires Consistent(cfg, t.states[0]) && Accounted(cfg, t.states[0])
    ensures !Accounted(cfg, t.states[i]) <==> exists m :: LostAt(cfg, t, m, i)
    decreases i
  {
    hide Step;
    hide Enabled;
    hide Consistent;
    hide Loses;
    if i > 0 {
      var s, l := t.states[i - 1], t.labels[i - 1];
      UnaccountedIffLost(cfg, t, i - 1);
      RunKeepsConsistent(cfg, t, i - 1);
      LossIff(cfg, s, l);
      if !Accounted(cfg, t.states[i]) {
        if Accounted(cfg, s) {
          assert LostAt(cfg, t, i - 1, i);
        } else {
          var m :| LostAt(cfg, t, m, i - 1);
          assert LostAt(cfg, t, m, i);
        }
      }
    }
    forall m: nat | LostAt(cfg, t, m, i)
      ensures !Accounted(cfg, t.states[i])
    {
      LostIsUnaccounted(cfg, t, m, i);
    }
  }

  /**
   * In every run, with no discipline at all, a decision taken on a fresh read is unsafe exactly when
   * some earlier step deleted an unmarked Deployment and none has existed since.
   */
  lemma DecisionUnsafeIffLost(cfg: Config, t: Trace, i: nat)
    requires Run(cfg, t) && i < |t.labels|
    requires Consistent(cfg, t.states[0]) && Accounted(cfg, t.states[0])
    requires Fresh(cfg, t.states[i], t.labels[i]) && Decides(cfg, t.states[i], t.labels[i])
    ensures !LastMarked(t.states[i]) <==> exists m :: LostAt(cfg, t, m, i)
  {
    UnaccountedIffLost(cfg, t, i);
    RunKeepsConsistent(cfg, t, i);
    hide Enabled;
    hide Step;
    hide LostAt;
  }
}
