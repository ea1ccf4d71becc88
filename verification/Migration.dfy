/** The selector migration: a delete guarded by identity preconditions, under any interference. */
module Migration {
  import opened Wrappers
  import opened Cluster
  import opened Pipeline
  import opened Safety

  /**
   * What a cached read may return: the Deployment as it was at some earlier instant of the run.
   * Nothing bounds how old that instant is.
   */
  ghost predicate CacheRead(cfg: Config, t: Trace, i: nat)
    requires Run(cfg, t) && i < |t.labels|
  {
    t.labels[i].Op? ==>
      exists m :: 0 <= m <= i && t.labels[i].seen == Get(t.states[m].store, ControllerKey(cfg))
  }

  ghost predicate CachedRun(cfg: Config, t: Trace) {
    Run(cfg, t) && Consistent(cfg, t.states[0]) && forall i :: 0 <= i < |t.labels| ==> CacheRead(cfg, t, i)
  }

  lemma StepRenewsVersion(cfg: Config, s: State, l: Label)
    requires Enabled(cfg, s, l)
    ensures var s', k := Step(cfg, s, l), ControllerKey(cfg);
            && s.next <= s'.next
            && (k in s'.store ==>
                  Get(s'.store, k) == Get(s.store, k) || s'.store[k].resourceVersion == s.next)
  {
  }

  /** After instant `m` the Deployment is what it was, or carries a newer resourceVersion. */
  lemma {:induction false} NewerOrSame(cfg: Config, t: Trace, m: nat, n: nat)
    requires Run(cfg, t) && Consistent(cfg, t.states[0]) && m <= n < |t.states|
    ensures t.states[m].next <= t.states[n].next
    ensures var k := ControllerKey(cfg);
            k in t.states[n].store ==>
              || Get(t.states[n].store, k) == Get(t.states[m].store, k)
              || t.states[n].store[k].resourceVersion >= t.states[m].next
    decreases n
  {
    hide Step;
    hide Enabled;
    if m < n {
      NewerOrSame(cfg, t, m, n - 1);
      StepRenewsVersion(cfg, t.states[n - 1], t.labels[n - 1]);
    }
  }

  /** A uid and resourceVersion name one version of the Deployment for the whole run. */
  lemma VersionIdentifies(cfg: Config, t: Trace, m: nat, n: nat)
    requires Run(cfg, t) && Consistent(cfg, t.states[0]) && m <= n < |t.states|
    requires var k := ControllerKey(cfg);
             && k in t.states[m].store && k in t.states[n].store
             && t.states[m].store[k].resourceVersion == t.states[n].store[k].resourceVersion
    ensures t.states[m].store[ControllerKey(cfg)] == t.states[n].store[ControllerKey(cfg)]
  {
    NewerOrSame(cfg, t, m, n);
    RunKeepsConsistent(cfg, t, m);
  }

  /** The pending delete names a version that had a stale selector when it was live. */
  ghost predicate StaleVersionSeen(cfg: Config, t: Trace, i: nat, m: nat)
    requires i < |t.states|
  {
    && m <= i && ControllerKey(cfg) in t.states[m].store
    && t.states[i].pc.MigrateDelete?
    && var c := t.states[m].store[ControllerKey(cfg)];
       c.uid == t.states[i].pc.uid && c.resourceVersion == t.states[i].pc.resourceVersion &&
       !SelectorCurrent(c.selector)
  }

  lemma {:induction false} PendingDeleteIsJustified(cfg: Config, t: Trace, i: nat) returns (m: nat)
    requires CachedRun(cfg, t) && i < |t.states|
    requires t.states[i].pc.MigrateDelete? && !t.states[0].pc.MigrateDelete?
    ensures StaleVersionSeen(cfg, t, i, m)
    decreases i
  {
    var s, l := t.states[i - 1], t.labels[i - 1];
    assert t.states[i] == Step(cfg, s, l);
    if l.Op? {
      assert s.pc.MigrateGet?;
      assert CacheRead(cfg, t, i - 1);
      m :| 0 <= m <= i - 1 && l.seen == Get(t.states[m].store, ControllerKey(cfg));
    } else {
      m := PendingDeleteIsJustified(cfg, t, i - 1);
    }
  }

  /**
   * Whatever happens between the Get and the Delete, and however old the cached read was, a
   * Deployment the migration removes has a stale selector at the moment it is removed; a current
   * one, a recreated one and every other object survive the step.
   */
  lemma RemovesOnlyStale(cfg: Config, t: Trace, i: nat)
    requires CachedRun(cfg, t) && !t.states[0].pc.MigrateDelete?
    requires i < |t.labels| && t.labels[i].Op? && t.states[i].pc.MigrateDelete?
    ensures var k := ControllerKey(cfg);
            && (k in t.states[i].store && k !in t.states[i + 1].store ==>
                  !SelectorCurrent(t.states[i].store[k].selector))
            && (k in t.states[i].store && SelectorCurrent(t.states[i].store[k].selector) ==>
                  t.states[i + 1].store == t.states[i].store)
            && (k in t.states[i].store && t.states[i].store[k].uid != t.states[i].pc.uid ==>
                  t.states[i + 1].store == t.states[i].store)
            && (forall k' :: k' in t.states[i].store && k' != k ==>
                  k' in t.states[i + 1].store && t.states[i + 1].store[k'] == t.states[i].store[k'])
  {
    var m := PendingDeleteIsJustified(cfg, t, i);
    if PreconditionsHold(cfg, t.states[i], t.states[i].pc.uid, t.states[i].pc.resourceVersion) {
      VersionIdentifies(cfg, t, m, i);
    }
    assert t.states[i + 1] == Step(cfg, t.states[i], t.labels[i]);
  }

  /**
   * What one undisturbed migration step achieves: the rendered Deployment can be applied after it,
   * exactly unless the live selector passes the check and still differs from the rendered one.
   */
  lemma UnblocksApplyIff(cfg: Config, s: State, r: Rendered)
    requires s.pc.MigrateGet? && r.key == ControllerKey(cfg)
    ensures var s1 := FreshOp(cfg, s);
            var s2 := if s1.pc.Deploy? then s1 else FreshOp(cfg, s1);
            && s2.pc == Deploy(s.plan)
            && (Applicable(s2.store, r) <==>
                  (r.key in s.store && SelectorCurrent(s.store[r.key].selector) ==>
                     s.store[r.key].selector == r.selector))
  {
  }

  /** The Deployment with the selector that the bundle renders. */
  lemma PlannedController(cfg: Config, instance: Spec, keep: bool, plan: seq<Rendered>, r: Rendered)
    requires ValidConfig(cfg) && multiset(plan) == multiset(Resources(cfg, instance, keep))
    requires r in plan && r.key == ControllerKey(cfg)
    ensures exists q :: q in cfg.bundle && q.key == r.key && q.selector == r.selector
    ensures SelectorCurrent(r.selector)
  {
    assert r in multiset(plan);
    hide RenderedSet;
    hide Resources;
    hide SelectorCurrent;
    hide BundleLabelled;
    PlannedBundle(cfg, instance, keep, r);
    ResourcesAreRendered(cfg, instance, keep, r);
    var q :| q in RenderedSet(cfg, instance, keep) && (r == q || r == Annotated(cfg, q));
    RenderedBundle(cfg, instance, keep, q);
  }

  // ----- a migrated Deployment is never migrated again -----

  /** Nothing to migrate: no Deployment, or one whose selector passes the check. */
  predicate NothingToMigrate(cfg: Config, s: State) {
    ControllerKey(cfg) in s.store ==> SelectorCurrent(s.store[ControllerKey(cfg)].selector)
  }

  predicate DeploysCurrent(cfg: Config, rs: seq<Rendered>) {
    forall r :: r in rs && r.key == ControllerKey(cfg) ==> SelectorCurrent(r.selector)
  }

  predicate PlansCurrent(cfg: Config, s: State) {
    && (s.pc.MigrateGet? || s.pc.MigrateDelete? ==> DeploysCurrent(cfg, s.plan))
    && (s.pc.Deploy? ==> DeploysCurrent(cfg, s.pc.rest))
  }

  /** Nobody else creates the Deployment with an old selector. */
  predicate CreatesCurrent(cfg: Config, l: Label) {
    match l
    case Create(k, o) => k == ControllerKey(cfg) ==> SelectorCurrent(o.selector)
    case _ => true
  }

  lemma PlansCurrentStep(cfg: Config, s: State, l: Label)
    requires ValidConfig(cfg) && Enabled(cfg, s, l) && PlansCurrent(cfg, s)
    ensures PlansCurrent(cfg, Step(cfg, s, l))
  {
    hide ValidConfig;
    hide Resources;
    hide SelectorCurrent;
    hide Judge;
    hide Writes;
    if l.Plan? {
      forall r | r in l.resources && r.key == ControllerKey(cfg)
        ensures SelectorCurrent(r.selector)
      {
        PlannedController(cfg, s.instance, s.keep, l.resources, r);
      }
    }
    if s.pc.Deploy? && s.pc.rest != [] {
      assert forall r :: r in s.pc.rest[1..] ==> r in s.pc.rest;
    }
  }

  lemma NothingToMigrateStep(cfg: Config, s: State, l: Label)
    requires Enabled(cfg, s, l) && PlansCurrent(cfg, s) && NothingToMigrate(cfg, s) && CreatesCurrent(cfg, l)
    ensures NothingToMigrate(cfg, Step(cfg, s, l))
  {
  }

  lemma NothingIsDeleted(cfg: Config, s: State, l: Label)
    requires l.Op? && s.pc.MigrateDelete? && ControllerKey(cfg) !in s.store
    ensures Step(cfg, s, l).store == s.store
  {
  }

  lemma {:induction false} RunPlansCurrent(cfg: Config, t: Trace, n: nat)
    requires ValidConfig(cfg) && Run(cfg, t) && n < |t.states| && t.states[0].pc.Idle?
    ensures PlansCurrent(cfg, t.states[n])
    decreases n
  {
    hide Step;
    hide Enabled;
    hide ValidConfig;
    hide DeploysCurrent;
    if n > 0 {
      RunPlansCurrent(cfg, t, n - 1);
      PlansCurrentStep(cfg, t.states[n - 1], t.labels[n - 1]);
    }
  }

  /**
   * The migration reaches its end.  Once the Deployment is gone or its selector is current, it stays
   * so, and no later migration step of any pass, whatever its spec and however old its reads, removes
   * anything.
   */
  lemma {:induction false} MigrationSettles(cfg: Config, t: Trace, j: nat, n: nat)
    requires ValidConfig(cfg) && CachedRun(cfg, t) && t.states[0].pc.Idle? && j <= n < |t.states|
    requires NothingToMigrate(cfg, t.states[j])
    requires forall q :: j <= q < n ==> CreatesCurrent(cfg, t.labels[q])
    ensures NothingToMigrate(cfg, t.states[n])
    ensures n < |t.labels| && t.labels[n].Op? && t.states[n].pc.MigrateDelete? ==>
              t.states[n + 1].store == t.states[n].store
    decreases n
  {
    hide SelectorCurrent;
    hide PlansCurrent;
    hide CreatesCurrent;
    hide ValidConfig;
    hide CacheRead;
    hide Step;
    hide Enabled;
    if n > j {
      MigrationSettles(cfg, t, j, n - 1);
      RunPlansCurrent(cfg, t, n - 1);
      NothingToMigrateStep(cfg, t.states[n - 1], t.labels[n - 1]);
    }
    if n < |t.labels| && t.labels[n].Op? && t.states[n].pc.MigrateDelete? {
      if ControllerKey(cfg) in t.states[n].store {
        RemovesOnlyStale(cfg, t, n);
      } else {
        NothingIsDeleted(cfg, t.states[n], t.labels[n]);
      }
    }
  }

  /** So a run migrates at most once, unless somebody creates an old Deployment again. */
  lemma MigratesAtMostOnce(cfg: Config, t: Trace, j: nat, n: nat)
    requires ValidConfig(cfg) && CachedRun(cfg, t) && t.states[0].pc.Idle? && j < n < |t.labels|
    requires t.labels[j].Op? && t.states[j].pc.MigrateDelete? && t.states[j + 1].store != t.states[j].store
    requires forall q :: j < q < n ==> CreatesCurrent(cfg, t.labels[q])
    requires t.labels[n].Op? && t.states[n].pc.MigrateDelete?
    ensures t.states[n + 1].store == t.states[n].store
  {
    assert t.states[j + 1] == Step(cfg, t.states[j], t.labels[j]);
    hide Step;
    hide Enabled;
    hide ValidConfig;
    MigrationSettles(cfg, t, j + 1, n);
  }

  // ----- a Deployment it cannot help -----

  predicate Rejects(selector: Option<Labels>, cfg: Config, rs: seq<Rendered>) {
    forall r :: r in rs && r.key == ControllerKey(cfg) ==> r.selector != selector
  }

  /** Live, with a selector that passes the check but is not the one the bundle renders. */
  predicate Stuck(cfg: Config, s: State) {
    && ControllerKey(cfg) in s.store && SelectorCurrent(s.store[ControllerKey(cfg)].selector)
    && Rejects(s.store[ControllerKey(cfg)].selector, cfg, cfg.bundle)
  }

  /** A pass that plans to deploy it has not got past it. */
  predicate Jammed(cfg: Config, s: State) {
    && ControllerKey(cfg) in s.store
    && var live := s.store[ControllerKey(cfg)].selector;
       && (s.pc.MigrateGet? || s.pc.MigrateDelete? ==> Rejects(live, cfg, s.plan))
       && (s.pc.Deploy? ==>
             Rejects(live, cfg, s.pc.rest) && (HasController(cfg, s.plan) ==> HasController(cfg, s.pc.rest)))
       && (s.pc.ReportStatus? || Sweeping(s) ==> !HasController(cfg, s.plan))
  }

  /** Neither somebody else nor the sweep deletes the Deployment. */
  predicate LeavesStuck(cfg: Config, s: State, l: Label) {
    && l != Delete(ControllerKey(cfg))
    && !(l.Op? && s.pc.SweepDelete? && s.pc.key == ControllerKey(cfg))
  }

  lemma PlanRejects(cfg: Config, s: State, plan: seq<Rendered>)
    requires ValidConfig(cfg) && Stuck(cfg, s) && multiset(plan) == multiset(Resources(cfg, s.instance, s.keep))
    ensures Rejects(s.store[ControllerKey(cfg)].selector, cfg, plan)
  {
    hide Resources;
    hide SelectorCurrent;
    hide ValidConfig;
    forall r | r in plan && r.key == ControllerKey(cfg)
      ensures r.selector != s.store[ControllerKey(cfg)].selector
    {
      PlannedController(cfg, s.instance, s.keep, plan, r);
    }
  }

  /** Only a delete gets rid of a stuck selector. */
  lemma StuckStep(cfg: Config, s: State, l: Label)
    requires Enabled(cfg, s, l) && LeavesStuck(cfg, s, l) && Stuck(cfg, s) && Jammed(cfg, s)
    requires l.Op? && s.pc.MigrateDelete? ==> Step(cfg, s, l).store == s.store
    ensures var k, s' := ControllerKey(cfg), Step(cfg, s, l);
            k in s'.store && s'.store[k].selector == s.store[k].selector
  {
    hide SelectorCurrent;
    hide NextPc;
    hide Marked;
    hide EnsuredNamespace;
    hide EnsuredRbac;
  }

  lemma JammedStep(cfg: Config, s: State, l: Label)
    requires ValidConfig(cfg) && Enabled(cfg, s, l) && Stuck(cfg, s) && Jammed(cfg, s)
    requires var k, s' := ControllerKey(cfg), Step(cfg, s, l);
             k in s'.store && s'.store[k].selector == s.store[k].selector
    ensures Jammed(cfg, Step(cfg, s, l))
  {
    hide ValidConfig;
    hide Resources;
    hide SelectorCurrent;
    hide Judge;
    hide Writes;
    hide Written;
    if l.Plan? {
      PlanRejects(cfg, s, l.resources);
    }
    if s.pc.Deploy? && s.pc.rest != [] {
      assert s.pc.rest == [s.pc.rest[0]] + s.pc.rest[1..];
    }
  }

  /**
   * A live Deployment whose selector passes the check but differs from the rendered one stays, until
   * it is deleted, in every state of every run: no migration step removes it, and no pass whose plan
   * contains the Deployment gets as far as reporting.
   */
  lemma {:induction false} StuckForever(cfg: Config, t: Trace, i: nat, m: nat)
    requires ValidConfig(cfg) && CachedRun(cfg, t) && !t.states[0].pc.MigrateDelete?
    requires i <= m < |t.states| && t.states[i].pc.Idle? && Stuck(cfg, t.states[i])
    requires forall n :: i <= n < m ==> LeavesStuck(cfg, t.states[n], t.labels[n])
    ensures Stuck(cfg, t.states[m]) && Jammed(cfg, t.states[m])
    ensures t.states[m].store[ControllerKey(cfg)].selector == t.states[i].store[ControllerKey(cfg)].selector
    ensures m < |t.labels| && t.labels[m].Op? && t.states[m].pc.MigrateDelete? ==>
              t.states[m + 1].store == t.states[m].store
    decreases m
  {
    hide Step;
    hide Enabled;
    hide ValidConfig;
    hide CacheRead;
    hide LeavesStuck;
    hide SelectorCurrent;
    hide Rejects;
    hide HasController;
    if m > i {
      StuckForever(cfg, t, i, m - 1);
      StuckStep(cfg, t.states[m - 1], t.labels[m - 1]);
      JammedStep(cfg, t.states[m - 1], t.labels[m - 1]);
    }
    if m < |t.labels| && t.labels[m].Op? && t.states[m].pc.MigrateDelete? {
      RemovesOnlyStale(cfg, t, m);
    }
  }

  // ----- selectorHasRequiredLabels -----

  /** The two loops over an unordered map of required labels and a list of forbidden keys. */
  method HasRequiredLabels(selector: Option<Labels>, required: Labels, forbidden: seq<MetaKey>) returns (ok: bool)
    ensures ok <==> && selector.Some?
                    && (forall k :: k in required ==> Lookup(selector.value, k) == required[k])
                    && (forall k :: k in forbidden ==> k !in selector.value)
  {
    if selector.None? {
      return false;
    }
    var rest := required.Keys;
    while rest != {}
      invariant rest <= required.Keys
      invariant forall k :: k in required && k !in rest ==> Lookup(selector.value, k) == required[k]
      decreases rest
    {
      var k :| k in rest;
      if Lookup(selector.value, k) != required[k] {
        return false;
      }
      rest := rest - {k};
    }
    for i := 0 to |forbidden|
      invariant forall j :: 0 <= j < i ==> forbidden[j] !in selector.value
    {
      if forbidden[i] in selector.value {
        return false;
      }
    }
    return true;
  }

  const REQUIRED: Labels := map[PartOf := "aigateway", AIGatewayOwned := "true"]

  /** With the operator's own tables the check is the one the migration step uses. */
  method CheckSelector(selector: Option<Labels>) returns (current: bool)
    ensures current == SelectorCurrent(selector)
    ensures current <==> && selector.Some? && LegacyOwned !in selector.value
                         && PartOf in selector.value && selector.value[PartOf] == "aigateway"
                         && AIGatewayOwned in selector.value && selector.value[AIGatewayOwned] == "true"
  {
    current := HasRequiredLabels(selector, REQUIRED, [LegacyOwned]);
    assert LegacyOwned in [LegacyOwned];
    assert PartOf in REQUIRED && AIGatewayOwned in REQUIRED;
  }
}
