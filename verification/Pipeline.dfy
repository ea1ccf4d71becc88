/**
 * The reconcile pass as a step machine over a shared cluster.
 *
 * Every API call of the operator is one step, so the user, maas-controller and any other
 * writer may act between any two of them.  A label says who acts; an operator label also
 * carries what its read of the maas-controller Deployment returned, because those reads go
 * through a cache.
 */
module Pipeline {
  import opened Wrappers
  import opened Cluster

  datatype Pc =
    | Idle
    | EnsureGridNamespace
    | Initialize
    | InfraRbac
    | EnsureInfraNamespace
    | EnsureRole
    | EnsureRoleBinding
    | DeleteRole
    | DeleteRoleBinding
    | Render
    | MigrateGet
    | MigrateDelete(uid: nat, resourceVersion: nat)
    | Deploy(rest: seq<Rendered>)
    | ReportStatus
    | Sweep(candidates: seq<Key>)
    | SweepDelete(key: Key, reason: Reason, candidates: seq<Key>)

  datatype State = State(
    spec: Spec,
    store: Store,
    /** The next unused uid and resourceVersion. */
    next: nat,
    pc: Pc,
    /** The AIGateway as this pass read it. */
    instance: Spec,
    keep: bool,
    plan: seq<Rendered>,
    /** History: the latest uid the maas-controller Deployment had ... */
    lastController: Option<nat>,
    /** ... and every uid under which it was ever marked completed. */
    everMarked: set<nat>)

  datatype Label =
    | Begin
    | Op(seen: Option<Object>)
    | Plan(resources: seq<Rendered>)
    | StartSweep(candidates: seq<Key>)
    | SkipSweep
    | Fail
    | UserEdit(spec: Spec)
    | MaasMarks
    | Update(key: Key, object: Object)
    | Delete(key: Key)
    | Create(key: Key, object: Object)

  /** The state after a write, with the history brought up to date. */
  function Written(cfg: Config, s: State, store: Store): State {
    var c := Get(store, ControllerKey(cfg));
    s.(store := store,
       next := s.next + 1,
       lastController := if c.Some? then Some(c.value.uid) else s.lastController,
       everMarked := s.everMarked + (if c.Some? && Marked(c.value) then {c.value.uid} else {}))
  }

  predicate Enabled(cfg: Config, s: State, l: Label) {
    match l
    case Begin => s.pc.Idle?
    case Op(_) => !s.pc.Idle? && !s.pc.Render? && !s.pc.ReportStatus?
    case Plan(resources) =>
      s.pc.Render? && multiset(resources) == multiset(Resources(cfg, s.instance, s.keep))
    case StartSweep(candidates) =>
      s.pc.ReportStatus? && forall k :: k in candidates ==> InSweepScope(cfg, k)
    case SkipSweep => s.pc.ReportStatus?
    case Fail => !s.pc.Idle?
    case UserEdit(spec) => spec.generation == s.spec.generation + 1
    case MaasMarks => ControllerKey(cfg) in s.store
    case Update(k, o) => k in s.store && o.uid == s.store[k].uid && o.selector == s.store[k].selector
    case Delete(k) => k in s.store
    case Create(k, _) => k !in s.store
  }

  /** The store a step leaves, if it writes. */
  function Writes(cfg: Config, s: State, l: Label): Option<Store> {
    match l
    case Op(_) => OpWrites(cfg, s)
    case MaasMarks =>
      var k := ControllerKey(cfg);
      if k in s.store then Some(s.store[k := WithMark(s.store[k], s.next)]) else None
    case Update(k, o) => Some(s.store[k := o.(resourceVersion := s.next)])
    case Delete(k) => Some(s.store - {k})
    case Create(k, o) => Some(s.store[k := o.(uid := s.next, resourceVersion := s.next)])
    case _ => None
  }

  function WithMark(o: Object, id: nat): Object {
    o.(annotations := o.annotations[TeardownCompleted := "true"], resourceVersion := id)
  }

  function NextPc(cfg: Config, s: State, l: Label): Pc {
    match l
    case Begin => EnsureGridNamespace
    case Op(seen) => OpNext(cfg, s, seen)
    case Plan(_) => MigrateGet
    case StartSweep(candidates) => Sweep(candidates)
    case SkipSweep => Idle
    case Fail => Idle
    case _ => s.pc
  }

  function Step(cfg: Config, s: State, l: Label): State {
    var writes := Writes(cfg, s, l);
    var s' := if writes.Some? then Written(cfg, s, writes.value) else s;
    s'.(pc := NextPc(cfg, s, l),
        spec := if l.UserEdit? then l.spec else s.spec,
        instance := if l.Begin? then s.spec else s.instance,
        plan := if l.Plan? then l.resources else s.plan,
        keep := if l.Op? && s.pc.Initialize? then KeepInstalled(s.instance, l.seen) else s.keep)
  }

  /** The store after the next API call of the running pass, if that call writes. */
  function OpWrites(cfg: Config, s: State): Option<Store> {
    match s.pc
    case EnsureGridNamespace =>
      if s.instance.aiGrid == Managed
      then Some(PutNamespace(s, GridNamespaceKey(cfg))) else None
    case EnsureInfraNamespace => Some(PutNamespace(s, InfraNamespaceKey(cfg)))
    case EnsureRole => Some(PutRbac(s, RoleKey(cfg)))
    case EnsureRoleBinding => Some(PutRbac(s, RoleBindingKey(cfg)))
    case DeleteRole => Some(s.store - {RoleKey(cfg)})
    case DeleteRoleBinding => Some(s.store - {RoleBindingKey(cfg)})
    case MigrateDelete(uid, rv) =>
      if PreconditionsHold(cfg, s, uid, rv) then Some(s.store - {ControllerKey(cfg)}) else None
    case Deploy(rest) =>
      if rest != [] && Applicable(s.store, rest[0]) then Some(PutApplied(cfg, s, rest[0])) else None
    case SweepDelete(k, _, _) => Some(s.store - {k})
    case _ => None
  }

  function PutNamespace(s: State, k: Key): Store {
    s.store[k := EnsuredNamespace(Get(s.store, k), s.next)]
  }

  function PutRbac(s: State, k: Key): Store {
    s.store[k := EnsuredRbac(Get(s.store, k), s.next)]
  }

  function PutApplied(cfg: Config, s: State, r: Rendered): Store {
    s.store[r.key := Applied(Get(s.store, r.key), r, CurrentStamp(cfg, s.instance), s.next)]
  }

  /** The API server deletes only the object that was read, unchanged. */
  predicate PreconditionsHold(cfg: Config, s: State, uid: nat, resourceVersion: nat) {
    var c := Get(s.store, ControllerKey(cfg));
    c.Some? && c.value.uid == uid && c.value.resourceVersion == resourceVersion
  }

  /** Where the pass goes next, in the order the reconciler registers its actions. */
  function OpNext(cfg: Config, s: State, seen: Option<Object>): Pc {
    match s.pc
    case EnsureGridNamespace => Initialize
    case Initialize => InfraRbac
    case InfraRbac =>
      if cfg.infrastructure == cfg.applications then Render
      else if s.instance.modelsAsAService == Managed then EnsureInfraNamespace
      else if s.instance.modelsAsAService == Removed && Completed(seen) then DeleteRole
      else Render
    case EnsureInfraNamespace => EnsureRole
    case EnsureRole => EnsureRoleBinding
    case EnsureRoleBinding => Render
    case DeleteRole => DeleteRoleBinding
    case DeleteRoleBinding => Render
    case MigrateGet =>
      if seen.Some? && !SelectorCurrent(seen.value.selector)
      then MigrateDelete(seen.value.uid, seen.value.resourceVersion)
      else Deploy(s.plan)
    case MigrateDelete(_, _) => Deploy(s.plan)
    case Deploy(rest) =>
      if rest == [] then ReportStatus
      else if Applicable(s.store, rest[0]) then Deploy(rest[1..])
      else Idle
    case Sweep(candidates) =>
      if candidates == [] then Idle
      else
        var k, rest := candidates[0], candidates[1..];
        var verdict := if k in s.store
                       then Judge(k, s.store[k], CurrentStamp(cfg, s.instance), seen) else None;
        if verdict.Some? then SweepDelete(k, verdict.value, rest) else Sweep(rest)
    case SweepDelete(_, _, rest) => Sweep(rest)
    case Idle => Idle
    case Render => Render
    case ReportStatus => ReportStatus
  }

  // ----- runs -----

  datatype Trace = Trace(states: seq<State>, labels: seq<Label>)

  /** Any interleaving of the operator with the rest of the world. */
  ghost predicate Run(cfg: Config, t: Trace) {
    && |t.states| == |t.labels| + 1
    && forall i :: 0 <= i < |t.labels| ==>
         Enabled(cfg, t.states[i], t.labels[i]) && t.states[i + 1] == Step(cfg, t.states[i], t.labels[i])
  }

  /** The read returned the live Deployment. */
  predicate Fresh(cfg: Config, s: State, l: Label) {
    l.Op? ==> l.seen == Get(s.store, ControllerKey(cfg))
  }

  /** The next call of the pass, with a fresh read. */
  function FreshOp(cfg: Config, s: State): State {
    Step(cfg, s, Op(Get(s.store, ControllerKey(cfg))))
  }

  /** No client error, and no apply the API server refuses. */
  predicate ErrorFree(s: State, l: Label) {
    && !l.Fail?
    && (l.Op? && s.pc.Deploy? && s.pc.rest != [] ==> Applicable(s.store, s.pc.rest[0]))
  }

  /** One complete error-free pass, from its Begin at `i` until it is idle again at `j`. */
  ghost predicate CompletePass(cfg: Config, t: Trace, i: nat, j: nat) {
    && Run(cfg, t) && i < j <= |t.labels|
    && t.labels[i].Begin? && t.states[j].pc.Idle?
    && (forall m :: i < m < j ==> !t.states[m].pc.Idle?)
    && (forall m :: i <= m < j ==> ErrorFree(t.states[m], t.labels[m]))
  }

  predicate Sweeping(s: State) {
    s.pc.Sweep? || s.pc.SweepDelete?
  }

  /** History and counters fit the store. */
  ghost predicate Consistent(cfg: Config, s: State) {
    ControllerKey(cfg) in s.store ==>
      var c := s.store[ControllerKey(cfg)];
      && c.uid < s.next && c.resourceVersion < s.next
      && s.lastController == Some(c.uid)
      && (Marked(c) ==> c.uid in s.everMarked)
  }

  lemma StepKeepsConsistent(cfg: Config, s: State, l: Label)
    requires Consistent(cfg, s) && Enabled(cfg, s, l)
    ensures Consistent(cfg, Step(cfg, s, l))
  {
  }

  lemma {:induction false} RunKeepsConsistent(cfg: Config, t: Trace, i: nat)
    requires Run(cfg, t) && i < |t.states| && Consistent(cfg, t.states[0])
    ensures Consistent(cfg, t.states[i])
    decreases i
  {
    if i > 0 {
      RunKeepsConsistent(cfg, t, i - 1);
      StepKeepsConsistent(cfg, t.states[i - 1], t.labels[i - 1]);
    }
  }
}
