/** The infra namespace and the secret-migration RBAC follow the spec. */
module InfraRbac {
  import opened Wrappers
  import opened Cluster
  import opened Pipeline
  import GridNamespace
  import opened Safety
  import opened Teardown

  predicate Has(labels: Labels, k: MetaKey, value: string) {
    k in labels && labels[k] == value
  }

  /** The labels the operator puts on a namespace, and on a Role or RoleBinding. */
  predicate HasLabels(k: Key, labels: Labels) {
    && Has(labels, ManagedBy, "ai-gateway-operator")
    && if k.kind == Namespace
       then Has(labels, PartOf, "ai-gateway") && Has(labels, Generated, "true")
       else Has(labels, PartOf, "models-as-a-service")
  }

  predicate Ready(s: State, k: Key) {
    k in s.store && HasLabels(k, s.store[k].labels)
  }

  /** The action is over and the sweep has not started. */
  predicate AfterRbac(pc: Pc) {
    pc.Render? || pc.MigrateGet? || pc.MigrateDelete? || pc.Deploy? || pc.ReportStatus?
  }

  predicate Ensured(cfg: Config, s: State) {
    && Ready(s, Key(Namespace, "", cfg.infrastructure))
    && Ready(s, Key(Role, cfg.infrastructure, "maas-controller-secret-migrate"))
    && Ready(s, Key(RoleBinding, cfg.infrastructure, "maas-controller-secret-migrate"))
  }

  predicate Gone(cfg: Config, s: State) {
    && Key(Role, cfg.infrastructure, "maas-controller-secret-migrate") !in s.store
    && Key(RoleBinding, cfg.infrastructure, "maas-controller-secret-migrate") !in s.store
  }

  function NamespaceKeys(cfg: Config): set<Key> {
    {InfraNamespaceKey(cfg), GridNamespaceKey(cfg)}
  }

  function RbacKeys(cfg: Config): set<Key> {
    {RoleKey(cfg), RoleBindingKey(cfg)}
  }

  /** Nobody else deletes the infra objects, or takes the operator's labels off one. */
  predicate LeavesInfra(cfg: Config, s: State, l: Label) {
    match l
    case Delete(k) => k !in NamespaceKeys(cfg) + RbacKeys(cfg)
    case Update(k, o) =>
      k in NamespaceKeys(cfg) + RbacKeys(cfg) && Ready(s, k) ==> HasLabels(k, o.labels)
    case _ => true
  }

  predicate SparesInfra(cfg: Config, rs: seq<Rendered>) {
    forall r :: r in rs ==> r.key !in ReservedKeys(cfg)
  }

  /** No planned resource is one of the reserved objects. */
  predicate PlanSpares(cfg: Config, s: State) {
    && (s.pc.MigrateGet? || s.pc.MigrateDelete? ==> SparesInfra(cfg, s.plan))
    && (s.pc.Deploy? ==> SparesInfra(cfg, s.pc.rest))
  }

  lemma PlannedSparesInfra(cfg: Config, instance: Spec, keep: bool, plan: seq<Rendered>)
    requires ValidConfig(cfg) && multiset(plan) == multiset(Resources(cfg, instance, keep))
    ensures SparesInfra(cfg, plan)
  {
    var rs := Resources(cfg, instance, keep);
    hide Resources;
    hide BundleLabelled;
    hide SelectorCurrent;
    hide GridCrd;
    hide InSweepScope;
    assert forall r :: r in plan <==> r in multiset(plan);
    assert forall r :: r in rs <==> r in multiset(rs);
    forall r | r in rs
      ensures r.key !in ReservedKeys(cfg)
    {
      ResourcesAreRendered(cfg, instance, keep, r);
      var q :| q in RenderedSet(cfg, instance, keep) && (r == q || r == Annotated(cfg, q));
      assert q.key == r.key;
      assert q in cfg.bundle ==> q.key in BundleKeys(cfg);
    }
  }

  lemma PlanSparesStep(cfg: Config, s: State, l: Label)
    requires ValidConfig(cfg) && Enabled(cfg, s, l) && PlanSpares(cfg, s)
    ensures PlanSpares(cfg, Step(cfg, s, l))
  {
    hide ValidConfig;
    hide Resources;
    hide ReservedKeys;
    hide SelectorCurrent;
    hide Judge;
    hide Writes;
    if l.Plan? {
      PlannedSparesInfra(cfg, s.instance, s.keep, l.resources);
    }
    if s.pc.Deploy? && s.pc.rest != [] {
      assert forall r :: r in s.pc.rest[1..] ==> r in s.pc.rest;
    }
  }

  /** Outside the action itself, and before the sweep, the infra objects stay and keep their labels. */
  lemma InfraStays(cfg: Config, s: State, l: Label, k: Key)
    requires Enabled(cfg, s, l) && LeavesInfra(cfg, s, l) && PlanSpares(cfg, s) && AfterRbac(s.pc)
    requires k in NamespaceKeys(cfg) + RbacKeys(cfg) && Ready(s, k)
    ensures Ready(Step(cfg, s, l), k)
  {
    hide HasLabels;
    hide SelectorCurrent;
    hide NextPc;
    hide EnsuredNamespace;
    hide EnsuredRbac;
    hide Applied;
    hide Marked;
    if s.pc.Deploy? && s.pc.rest != [] {
      assert s.pc.rest[0] in s.pc.rest;
    }
  }

  // ----- while Managed -----

  /** What the running action of a Managed pass has put in place. */
  predicate Ensuring(cfg: Config, s: State) {
    s.instance.modelsAsAService == Managed && cfg.infrastructure != cfg.applications ==>
      && (s.pc.EnsureRole? || s.pc.EnsureRoleBinding? ==> Ready(s, InfraNamespaceKey(cfg)))
      && (s.pc.EnsureRoleBinding? ==> Ready(s, RoleKey(cfg)))
      && (AfterRbac(s.pc) ==> Ensured(cfg, s))
      && !s.pc.DeleteRole? && !s.pc.DeleteRoleBinding?
  }

  lemma NamespaceIsLabelled(live: Option<Object>, id: nat, k: Key)
    requires k.kind == Namespace
    ensures HasLabels(k, EnsuredNamespace(live, id).labels)
  {
    assert PartOf in NAMESPACE_LABELS && ManagedBy in NAMESPACE_LABELS && Generated in NAMESPACE_LABELS;
  }

  lemma RbacIsLabelled(live: Option<Object>, id: nat, k: Key)
    requires k.kind != Namespace
    ensures HasLabels(k, EnsuredRbac(live, id).labels)
  {
  }

  lemma EnsureOps(cfg: Config, s: State, l: Label)
    requires l.Op? && Ensuring(cfg, s) && !AfterRbac(s.pc) && !s.pc.Sweep? && !s.pc.SweepDelete?
    ensures Ensuring(cfg, Step(cfg, s, l))
  {
    hide HasLabels;
    hide EnsuredNamespace;
    hide EnsuredRbac;
    hide Marked;
    NamespaceIsLabelled(Get(s.store, InfraNamespaceKey(cfg)), s.next, InfraNamespaceKey(cfg));
    RbacIsLabelled(Get(s.store, RoleKey(cfg)), s.next, RoleKey(cfg));
    RbacIsLabelled(Get(s.store, RoleBindingKey(cfg)), s.next, RoleBindingKey(cfg));
  }

  lemma EnsuringAfter(cfg: Config, s: State, l: Label)
    requires Enabled(cfg, s, l) && LeavesInfra(cfg, s, l) && PlanSpares(cfg, s) && Ensuring(cfg, s) && AfterRbac(s.pc)
    ensures Ensuring(cfg, Step(cfg, s, l))
  {
    hide HasLabels;
    hide Writes;
    hide Written;
    if Ensured(cfg, s) {
      InfraStays(cfg, s, l, InfraNamespaceKey(cfg));
      InfraStays(cfg, s, l, RoleKey(cfg));
      InfraStays(cfg, s, l, RoleBindingKey(cfg));
    }
    hide SelectorCurrent;
  }

  lemma EnsuringWorld(cfg: Config, s: State, l: Label)
    requires Enabled(cfg, s, l) && LeavesInfra(cfg, s, l) && Ensuring(cfg, s) && !AfterRbac(s.pc) && !l.Op?
    ensures Ensuring(cfg, Step(cfg, s, l))
  {
  }

  lemma EnsuringStep(cfg: Config, s: State, l: Label)
    requires Enabled(cfg, s, l) && LeavesInfra(cfg, s, l) && PlanSpares(cfg, s) && Ensuring(cfg, s)
    ensures Ensuring(cfg, Step(cfg, s, l))
  {
    if AfterRbac(s.pc) {
      EnsuringAfter(cfg, s, l);
    } else if !l.Op? {
      EnsuringWorld(cfg, s, l);
    } else if !s.pc.Sweep? && !s.pc.SweepDelete? {
      EnsureOps(cfg, s, l);
    } else {
      hide Writes;
      hide Judge;
      hide Ensured;
      hide Ready;
    }
  }

  lemma {:induction false} ManagedPassEnsuresRbac(cfg: Config, t: Trace, m: nat)
    requires ValidConfig(cfg) && Run(cfg, t) && m <= |t.labels| && t.states[0].pc.Idle?
    requires forall i :: 0 <= i < m ==> LeavesInfra(cfg, t.states[i], t.labels[i])
    ensures Ensuring(cfg, t.states[m]) && PlanSpares(cfg, t.states[m])
    ensures (t.states[m].pc.ReportStatus? && t.states[m].instance.modelsAsAService == Managed &&
             cfg.infrastructure != cfg.applications) ==> Ensured(cfg, t.states[m])
    decreases m
  {
    hide Step;
    hide Enabled;
    hide ValidConfig;
    hide LeavesInfra;
    hide Ensured;
    hide Ready;
    hide SparesInfra;
    if m > 0 {
      ManagedPassEnsuresRbac(cfg, t, m - 1);
      EnsuringStep(cfg, t.states[m - 1], t.labels[m - 1]);
      PlanSparesStep(cfg, t.states[m - 1], t.labels[m - 1]);
    }
  }

  // ----- the grid namespace -----

  /** A pass with aiGrid Managed has its namespace before it renders anything. */
  predicate GridEnsured(cfg: Config, s: State) {
    s.instance.aiGrid == Managed && !s.pc.Idle? && !s.pc.EnsureGridNamespace? && !Sweeping(s) ==> GridReady(cfg, s)
  }

  predicate GridReady(cfg: Config, s: State) {
    Ready(s, Key(Namespace, "", cfg.grid))
  }

  /** Outside the sweep a labelled grid namespace stays one. */
  lemma GridStays(cfg: Config, s: State, l: Label)
    requires Enabled(cfg, s, l) && LeavesInfra(cfg, s, l) && PlanSpares(cfg, s) && !Sweeping(s) && GridReady(cfg, s)
    ensures GridReady(cfg, Step(cfg, s, l))
  {
    hide NextPc;
    hide Applied;
    hide EnsuredRbac;
    if s.pc.Deploy? && s.pc.rest != [] {
      assert s.pc.rest[0] in s.pc.rest;
    }
  }

  lemma GridMade(cfg: Config, s: State, l: Label)
    requires l.Op? && s.pc.EnsureGridNamespace? && s.instance.aiGrid == Managed
    ensures GridReady(cfg, Step(cfg, s, l))
  {
    hide NextPc;
  }

  lemma GridStep(cfg: Config, s: State, l: Label)
    requires Enabled(cfg, s, l) && LeavesInfra(cfg, s, l) && PlanSpares(cfg, s) && GridEnsured(cfg, s)
    ensures GridEnsured(cfg, Step(cfg, s, l))
  {
    hide Judge;
    hide SelectorCurrent;
    hide Writes;
    hide Written;
    hide GridReady;
    hide PlanSpares;
    if s.instance.aiGrid == Managed {
      if l.Op? && s.pc.EnsureGridNamespace? {
        GridMade(cfg, s, l);
      } else if !s.pc.Idle? && !s.pc.EnsureGridNamespace? && !Sweeping(s) {
        GridStays(cfg, s, l);
      }
    }
  }

  lemma {:induction false} GridPassEnsuresNamespace(cfg: Config, t: Trace, m: nat)
    requires ValidConfig(cfg) && Run(cfg, t) && m <= |t.labels| && t.states[0].pc.Idle?
    requires forall i :: 0 <= i < m ==> LeavesInfra(cfg, t.states[i], t.labels[i])
    ensures GridEnsured(cfg, t.states[m])
    decreases m
  {
    hide Step;
    hide Enabled;
    hide ValidConfig;
    hide LeavesInfra;
    hide GridReady;
    hide PlanSpares;
    if m > 0 {
      GridPassEnsuresNamespace(cfg, t, m - 1);
      ManagedPassEnsuresRbac(cfg, t, m - 1);
      GridStep(cfg, t.states[m - 1], t.labels[m - 1]);
    }
  }

  // ----- while being torn down -----

  predicate Removing(cfg: Config, s: State) {
    cfg.infrastructure != cfg.applications ==>
      && (s.pc.DeleteRoleBinding? ==> RoleKey(cfg) !in s.store)
      && (AfterRbac(s.pc) ==> Gone(cfg, s))
      && !s.pc.EnsureInfraNamespace? && !s.pc.EnsureRole? && !s.pc.EnsureRoleBinding?
  }

  lemma RemovingOps(cfg: Config, s: State, l: Label)
    requires l.Op? && Fresh(cfg, s, l) && Leaving(cfg, s) && Removing(cfg, s) && !AfterRbac(s.pc)
    ensures Removing(cfg, Step(cfg, s, l))
  {
  }

  /** Nobody else recreates the Role or the RoleBinding. */
  predicate NoNewRbac(cfg: Config, l: Label) {
    l.Create? ==> l.key !in RbacKeys(cfg)
  }

  lemma RemovingOthers(cfg: Config, s: State, l: Label)
    requires Enabled(cfg, s, l) && NoNewRbac(cfg, l) && PlanSpares(cfg, s) && Removing(cfg, s)
    requires !l.Op? || AfterRbac(s.pc)
    ensures Removing(cfg, Step(cfg, s, l))
  {
  }

  /** A pass of a completed teardown removes the Role and RoleBinding. */
  lemma {:induction false} TeardownRemovesRbac(cfg: Config, t: Trace, m: nat)
    requires ValidConfig(cfg) && TeardownRun(cfg, t, 0, m) && t.states[0].pc.Idle? && Leaving(cfg, t.states[0])
    requires forall i :: 0 <= i < m ==> NoNewRbac(cfg, t.labels[i])
    ensures Removing(cfg, t.states[m]) && PlanSpares(cfg, t.states[m])
    ensures t.states[m].pc.ReportStatus? && cfg.infrastructure != cfg.applications ==> Gone(cfg, t.states[m])
    decreases m
  {
    hide Step;
    hide Enabled;
    hide ValidConfig;
    hide NoNewRbac;
    hide Leaving;
    hide SparesInfra;
    if m > 0 {
      assert TearingDown(cfg, t.states[m - 1], t.labels[m - 1]);
      TeardownRemovesRbac(cfg, t, m - 1);
      RunLeaves(cfg, t, 0, m - 1);
      PlanSparesStep(cfg, t.states[m - 1], t.labels[m - 1]);
      if t.labels[m - 1].Op? && !AfterRbac(t.states[m - 1].pc) {
        RemovingOps(cfg, t.states[m - 1], t.labels[m - 1]);
      } else {
        RemovingOthers(cfg, t.states[m - 1], t.labels[m - 1]);
      }
    }
  }

  // ----- when the action runs at all -----

  /** RBAC calls are made only for a separate infrastructure: ensured if Managed, deleted if Removed. */
  predicate ActsBySpec(cfg: Config, s: State) {
    && (s.pc.EnsureInfraNamespace? || s.pc.EnsureRole? || s.pc.EnsureRoleBinding? ==>
          s.instance.modelsAsAService == Managed && cfg.infrastructure != cfg.applications)
    && (s.pc.DeleteRole? || s.pc.DeleteRoleBinding? ==>
          s.instance.modelsAsAService == Removed && cfg.infrastructure != cfg.applications)
  }

  lemma ActsBySpecStep(cfg: Config, s: State, l: Label)
    requires Enabled(cfg, s, l) && ActsBySpec(cfg, s)
    ensures ActsBySpec(cfg, Step(cfg, s, l))
  {
    hide Writes;
    hide Judge;
    hide SelectorCurrent;
  }

  lemma {:induction false} RbacFollowsSpec(cfg: Config, t: Trace, m: nat)
    requires Run(cfg, t) && m < |t.states| && t.states[0].pc.Idle?
    ensures ActsBySpec(cfg, t.states[m])
    decreases m
  {
    hide Step;
    hide Enabled;
    if m > 0 {
      RbacFollowsSpec(cfg, t, m - 1);
      ActsBySpecStep(cfg, t.states[m - 1], t.labels[m - 1]);
    }
  }

  /** Without a Managed AI Grid no namespace is made for it. */
  lemma NoGridNoNamespace(cfg: Config, s: State, l: Label)
    requires l.Op? && s.pc.EnsureGridNamespace? && s.instance.aiGrid != Managed
    ensures Step(cfg, s, l).store == s.store
  {
  }

  /** Labels on an existing Role or RoleBinding are replaced, on an existing namespace added. */
  lemma EnsuredLabels(o: Object, id: nat)
    ensures EnsuredRbac(Some(o), id).labels ==
            map[PartOf := "models-as-a-service", ManagedBy := "ai-gateway-operator"]
    ensures var ns := EnsuredNamespace(Some(o), id);
            && ns.uid == o.uid && ns.annotations == o.annotations
            && (forall k :: k != PartOf && k != ManagedBy && k != Generated ==> Get(ns.labels, k) == Get(o.labels, k))
            && (HasLabels(Key(Namespace, "", ""), o.labels) ==> ns == o)
  {
  }

  // ----- what no pass removes -----

  /** The sweep holds only keys it can delete. */
  predicate InScope(cfg: Config, s: State) {
    && (s.pc.Sweep? ==> forall k :: k in s.pc.candidates ==> InSweepScope(cfg, k))
    && (s.pc.SweepDelete? ==>
          InSweepScope(cfg, s.pc.key) && forall k :: k in s.pc.candidates ==> InSweepScope(cfg, k))
  }

  /** Out of the sweep's reach, or carrying nothing by which it would collect an object. */
  predicate Unclaimed(cfg: Config, k: Key, o: Object) {
    !InSweepScope(cfg, k) || (o.stamp.None? && !BundleLabelled(o.labels))
  }

  /** Nobody else deletes the object, stamps it or puts a bundle label on it. */
  predicate LeavesUnclaimed(cfg: Config, k: Key, l: Label) {
    match l
    case Delete(k') => k' != k
    case Update(k', o) => k' == k ==> Unclaimed(cfg, k, o)
    case _ => true
  }

  predicate Spared(cfg: Config, s: State, k: Key) {
    k in s.store && Unclaimed(cfg, k, s.store[k]) && (s.pc.SweepDelete? ==> s.pc.key != k)
  }

  lemma ScopeStep(cfg: Config, s: State, l: Label)
    requires Enabled(cfg, s, l) && InScope(cfg, s)
    ensures InScope(cfg, Step(cfg, s, l))
  {
  }

  lemma StepSpares(cfg: Config, s: State, l: Label, k: Key)
    requires Enabled(cfg, s, l) && InScope(cfg, s) && PlanSpares(cfg, s)
    requires Spared(cfg, s, k) && LeavesUnclaimed(cfg, k, l)
    requires k == DatabaseSecretKey(cfg) || (k in NamespaceKeys(cfg) && cfg.applications != "")
    ensures Spared(cfg, Step(cfg, s, l), k)
  {
    hide SelectorCurrent;
    hide Marked;
    hide GridCrd;
    hide EnsuredRbac;
    hide Applied;
    hide InfraNamespace;
  }

  /**
   * The database secret and the two namespaces survive every run, also where MaaS shares the
   * applications namespace and the sweep can reach the secret: no pass, whatever its spec, reads or
   * failures, ever deletes them, so re-enabling MaaS finds its database connection.
   */
  lemma {:induction false} InfraSurvives(cfg: Config, t: Trace, m: nat, k: Key)
    requires ValidConfig(cfg) && Named(cfg) && Run(cfg, t) && m <= |t.labels| && t.states[0].pc.Idle?
    requires k in {Key(Secret, cfg.infrastructure, "maas-db-config"),
                   Key(Namespace, "", cfg.infrastructure), Key(Namespace, "", cfg.grid)}
    requires k in t.states[0].store && Unclaimed(cfg, k, t.states[0].store[k])
    requires forall i :: 0 <= i < m ==> LeavesUnclaimed(cfg, k, t.labels[i])
    ensures Spared(cfg, t.states[m], k) && InScope(cfg, t.states[m]) && PlanSpares(cfg, t.states[m])
    decreases m
  {
    hide Step;
    hide Enabled;
    hide ValidConfig;
    hide Unclaimed;
    hide LeavesUnclaimed;
    hide InfraNamespace;
    hide GridNamespace.Derive;
    if m > 0 {
      InfraSurvives(cfg, t, m - 1, k);
      ScopeStep(cfg, t.states[m - 1], t.labels[m - 1]);
      PlanSparesStep(cfg, t.states[m - 1], t.labels[m - 1]);
      StepSpares(cfg, t.states[m - 1], t.labels[m - 1], k);
    }
  }

  /** The namespaces are never within reach, nor is the secret of a separate infrastructure. */
  lemma OutOfReach(cfg: Config, k: Key)
    requires Named(cfg)
    requires k in NamespaceKeys(cfg) ||
             (k == DatabaseSecretKey(cfg) && cfg.infrastructure != cfg.applications)
    ensures !InSweepScope(cfg, k)
  {
  }

  // ----- ensureNamespace -----

  /** The label loop: required labels are put in, others stay, and an update is due iff one was off. */
  method EnsureLabels(labels: Labels, required: Labels) returns (out: Labels, needsUpdate: bool)
    requires forall k :: k in required ==> required[k] != ""
    ensures out == labels + required
    ensures needsUpdate <==> out != labels
  {
    out, needsUpdate := labels, false;
    var rest := required.Keys;
    while rest != {}
      invariant rest <= required.Keys
      invariant forall k :: k in out <==> k in labels || (k in required && k !in rest)
      invariant forall k :: k in out ==> out[k] == if k in required && k !in rest then required[k] else labels[k]
      invariant needsUpdate <==> out != labels
      decreases rest
    {
      var k :| k in rest;
      if Lookup(out, k) != required[k] {
        assert k !in labels || labels[k] != required[k];
        out := out[k := required[k]];
        needsUpdate := true;
      } else {
        assert k in labels && labels[k] == required[k];
      }
      rest := rest - {k};
    }
  }

  /** With the operator's own table the loop leaves what the ensure step writes. */
  method EnsureNamespaceLabels(o: Object, id: nat) returns (out: Object)
    ensures out == EnsuredNamespace(Some(o), id)
  {
    var labels, needsUpdate := EnsureLabels(o.labels, NAMESPACE_LABELS);
    if needsUpdate {
      out := o.(labels := labels, resourceVersion := id);
    } else {
      out := o;
    }
    assert forall k :: k in NAMESPACE_LABELS && Lookup(o.labels, k) != NAMESPACE_LABELS[k] ==>
                         labels[k] != Lookup(o.labels, k);
  }
}
