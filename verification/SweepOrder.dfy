/** The garbage-collection sweep: what an undisturbed sweep removes, and when its order matters. */
module SweepOrder {
  import opened Wrappers
  import opened Cluster
  import opened Pipeline
  import opened Safety

  /** Judge one candidate with a fresh read and delete it if the verdict says so. */
  function SweepOne(cfg: Config, current: Stamp, store: Store, k: Key): Store {
    if k in store && Judge(k, store[k], current, Get(store, ControllerKey(cfg))).Some?
    then store - {k} else store
  }

  function SweepAll(cfg: Config, current: Stamp, store: Store, ks: seq<Key>): Store {
    if ks == [] then store else SweepAll(cfg, current, SweepOne(cfg, current, store, ks[0]), ks[1..])
  }

  // ----- the pipeline's sweep steps compute it -----

  /** Run the sweep to its end with nobody else acting. */
  function UndisturbedSweep(cfg: Config, s: State): State
    requires s.pc.Sweep?
    decreases |s.pc.candidates|
  {
    var s1 := FreshOp(cfg, s);
    if s.pc.candidates == [] then s1
    else if s1.pc.SweepDelete? then UndisturbedSweep(cfg, FreshOp(cfg, s1))
    else UndisturbedSweep(cfg, s1)
  }

  lemma {:induction false} SweepStepsComputeSweepAll(cfg: Config, s: State)
    requires s.pc.Sweep?
    ensures UndisturbedSweep(cfg, s).pc.Idle?
    ensures UndisturbedSweep(cfg, s).store ==
            SweepAll(cfg, CurrentStamp(cfg, s.instance), s.store, s.pc.candidates)
    decreases |s.pc.candidates|
  {
    if s.pc.candidates != [] {
      var s1 := FreshOp(cfg, s);
      var s2 := if s1.pc.SweepDelete? then FreshOp(cfg, s1) else s1;
      assert s2.pc == Sweep(s.pc.candidates[1..]) && s2.instance == s.instance;
      assert s2.store == SweepOne(cfg, CurrentStamp(cfg, s.instance), s.store, s.pc.candidates[0]);
      SweepStepsComputeSweepAll(cfg, s2);
    }
  }

  // ----- what it removes -----

  /** Collectable whatever maas-controller says. */
  predicate StaleKey(current: Stamp, store: Store, k: Key) {
    k in store && !GridCrd(k) && Stale(store[k], current)
  }

  /** Collectable only once teardown is done. */
  predicate WaitingKey(current: Stamp, store: Store, k: Key) {
    k in store && !GridCrd(k) && !Stale(store[k], current) && BundleLabelled(store[k].labels)
  }

  predicate Doomed(cfg: Config, current: Stamp, store: Store, k: Key) {
    || StaleKey(current, store, k)
    || (WaitingKey(current, store, k) && Completed(Get(store, ControllerKey(cfg))))
  }

  /** What the verdicts taken before anything is deleted would collect. */
  function Condemned(cfg: Config, current: Stamp, store: Store, ks: seq<Key>): set<Key> {
    set k | k in ks && Doomed(cfg, current, store, k)
  }

  /** Deleting the Deployment on the way would flip the verdict on another candidate. */
  predicate OrderSensitive(cfg: Config, current: Stamp, store: Store, ks: seq<Key>) {
    && !Completed(Get(store, ControllerKey(cfg)))
    && ControllerKey(cfg) in ks && StaleKey(current, store, ControllerKey(cfg))
    && exists k :: k in ks && WaitingKey(current, store, k)
  }

  lemma SweepOneDecides(cfg: Config, current: Stamp, store: Store, k: Key)
    ensures SweepOne(cfg, current, store, k) == if Doomed(cfg, current, store, k) then store - {k} else store
  {
  }

  /** Deleting one candidate does not change the verdict on another, unless the list is sensitive. */
  lemma VerdictIsStable(cfg: Config, current: Stamp, store: Store, ks: seq<Key>, k: Key)
    requires ks != [] && k in ks && k != ks[0] && Doomed(cfg, current, store, ks[0])
    requires !OrderSensitive(cfg, current, store, ks)
    ensures Doomed(cfg, current, store - {ks[0]}, k) == Doomed(cfg, current, store, k)
  {
  }

  lemma SensitivityIsStable(cfg: Config, current: Stamp, store: Store, ks: seq<Key>)
    requires ks != [] && !OrderSensitive(cfg, current, store, ks)
    ensures !OrderSensitive(cfg, current, SweepOne(cfg, current, store, ks[0]), ks[1..])
  {
    hide Stale;
    hide GridCrd;
    hide BundleLabelled;
    hide Marked;
    assert forall k :: k in ks[1..] ==> k in ks;
  }

  lemma CondemnedStep(cfg: Config, current: Stamp, store: Store, ks: seq<Key>)
    requires ks != [] && !OrderSensitive(cfg, current, store, ks)
    ensures var next := SweepOne(cfg, current, store, ks[0]);
            store - Condemned(cfg, current, store, ks) == next - Condemned(cfg, current, next, ks[1..])
  {
    hide OrderSensitive;
    hide Doomed;
    hide SweepOne;
    var next := SweepOne(cfg, current, store, ks[0]);
    SweepOneDecides(cfg, current, store, ks[0]);
    assert forall k :: k in ks <==> k == ks[0] || k in ks[1..];
    forall k | k in ks[1..] && k != ks[0]
      ensures Doomed(cfg, current, next, k) == Doomed(cfg, current, store, k)
    {
      if Doomed(cfg, current, store, ks[0]) {
        VerdictIsStable(cfg, current, store, ks, k);
      }
    }
  }

  /**
   * Every undisturbed sweep that is not order sensitive removes exactly what was condemned at its
   * start, in whatever order the candidates are enumerated.
   */
  lemma {:induction false} SweepRemovesCondemned(cfg: Config, current: Stamp, store: Store, ks: seq<Key>)
    requires !OrderSensitive(cfg, current, store, ks)
    ensures SweepAll(cfg, current, store, ks) == store - Condemned(cfg, current, store, ks)
    decreases |ks|
  {
    hide OrderSensitive;
    if ks != [] {
      CondemnedStep(cfg, current, store, ks);
      SensitivityIsStable(cfg, current, store, ks);
      hide Condemned;
      hide SweepOne;
      SweepRemovesCondemned(cfg, current, SweepOne(cfg, current, store, ks[0]), ks[1..]);
    } else {
      assert Condemned(cfg, current, store, ks) == {};
    }
  }

  /**
   * Once teardown is done, every enumeration of the bundle - the Deployment first, last or in
   * between - collects every bundle object it lists, and no grid CRD.
   */
  lemma CompletedSweepIsTotal(cfg: Config, current: Stamp, store: Store, ks: seq<Key>)
    requires Completed(Get(store, ControllerKey(cfg)))
    ensures forall k :: k in ks && k in store && InBundleByLabel(store[k].labels) && !NamedGridCrd(k) ==>
              k !in SweepAll(cfg, current, store, ks)
    ensures forall k :: k in store && (NamedGridCrd(k) || k !in ks) ==>
              k in SweepAll(cfg, current, store, ks) && SweepAll(cfg, current, store, ks)[k] == store[k]
  {
    hide SweepAll;
    hide Stale;
    hide GridCrd;
    hide NamedGridCrd;
    SweepRemovesCondemned(cfg, current, store, ks);
    forall k: Key
      ensures GridCrd(k) <==> NamedGridCrd(k)
    {
      GridCrdIffNamed(k);
    }
  }

  // ----- what no sweep removes -----

  /** No sweep, whatever its stamp, order or signal, removes or changes a grid CRD. */
  lemma {:induction false} SweepSparesGridCrds(cfg: Config, current: Stamp, store: Store, ks: seq<Key>, k: Key)
    requires k in store && NamedGridCrd(k)
    ensures k in SweepAll(cfg, current, store, ks) && SweepAll(cfg, current, store, ks)[k] == store[k]
    decreases |ks|
  {
    if ks != [] {
      JudgeMeans(k, store[k], current, Get(store, ControllerKey(cfg)));
      hide Judge;
      hide NamedGridCrd;
      SweepSparesGridCrds(cfg, current, SweepOne(cfg, current, store, ks[0]), ks[1..], k);
    }
  }

  predicate NotCondemned(s: State, k: Key) {
    s.pc.SweepDelete? ==> s.pc.key != k
  }

  lemma StepSparesGridCrd(cfg: Config, s: State, l: Label, k: Key)
    requires Enabled(cfg, s, l) && l != Delete(k) && NamedGridCrd(k) && k in s.store && NotCondemned(s, k)
    ensures k in Step(cfg, s, l).store && NotCondemned(Step(cfg, s, l), k)
  {
    if s.pc.Sweep? && l.Op? {
      JudgeMeans(k, s.store[k], CurrentStamp(cfg, s.instance), l.seen);
    }
    hide Judge;
    hide SelectorCurrent;
    hide Applied;
    hide EnsuredNamespace;
    hide EnsuredRbac;
    hide Marked;
  }

  /**
   * No pass of any run, whatever its spec, reads or failures, deletes a grid CRD, and with it every
   * grid custom resource.
   */
  lemma {:induction false} GridCrdsSurvive(cfg: Config, t: Trace, m: nat, k: Key)
    requires Run(cfg, t) && m < |t.states| && t.states[0].pc.Idle? && k in t.states[0].store && NamedGridCrd(k)
    requires forall i :: 0 <= i < m ==> t.labels[i] != Delete(k)
    ensures k in t.states[m].store && NotCondemned(t.states[m], k)
    decreases m
  {
    hide Step;
    hide Enabled;
    hide NamedGridCrd;
    if m > 0 {
      GridCrdsSurvive(cfg, t, m - 1, k);
      StepSparesGridCrd(cfg, t.states[m - 1], t.labels[m - 1], k);
    }
  }

  // ----- when the order matters -----

  lemma {:induction false} UnlistedSurvive(cfg: Config, current: Stamp, store: Store, ks: seq<Key>, k: Key)
    requires k in store && k !in ks
    ensures k in SweepAll(cfg, current, store, ks)
    decreases |ks|
  {
    if ks != [] {
      hide Judge;
      UnlistedSurvive(cfg, current, SweepOne(cfg, current, store, ks[0]), ks[1..], k);
    }
  }

  predicate Distinct(ks: seq<Key>) {
    forall i, j :: 0 <= i < j < |ks| ==> ks[i] != ks[j]
  }

  /** The same candidates with the one at index `i` moved to the front. */
  function Front(ks: seq<Key>, i: nat): seq<Key>
    requires i < |ks|
  {
    [ks[i]] + ks[..i] + ks[i + 1..]
  }

  lemma FrontPermutes(ks: seq<Key>, i: nat)
    requires i < |ks|
    ensures Front(ks, i)[0] == ks[i] && multiset(Front(ks, i)) == multiset(ks)
    ensures forall k :: k in ks ==> k in Front(ks, i)
    ensures Distinct(ks) ==> ks[i] !in Front(ks, i)[1..]
  {
    assert ks == ks[..i] + [ks[i]] + ks[i + 1..];
    assert Front(ks, i)[1..] == ks[..i] + ks[i + 1..];
  }

  /** An object judged while the Deployment is still unmarked stays. */
  lemma WaitingFirst(cfg: Config, current: Stamp, store: Store, qs: seq<Key>)
    requires qs != [] && WaitingKey(current, store, qs[0]) && qs[0] !in qs[1..]
    requires !Completed(Get(store, ControllerKey(cfg)))
    ensures qs[0] in SweepAll(cfg, current, store, qs)
  {
    hide Stale;
    hide GridCrd;
    hide BundleLabelled;
    SweepOneDecides(cfg, current, store, qs[0]);
    hide SweepOne;
    UnlistedSurvive(cfg, current, store, qs[1..], qs[0]);
  }

  /** Two permutations of an order-sensitive candidate list leave different stores. */
  lemma OrderMatters(cfg: Config, current: Stamp, store: Store, ks: seq<Key>) returns (ps: seq<Key>, qs: seq<Key>)
    requires OrderSensitive(cfg, current, store, ks) && Distinct(ks)
    ensures multiset(ps) == multiset(ks) == multiset(qs)
    ensures SweepAll(cfg, current, store, ps) != SweepAll(cfg, current, store, qs)
  {
    hide StaleKey;
    hide WaitingKey;
    hide SweepAll;
    hide Completed;
    hide Front;
    var i :| 0 <= i < |ks| && ks[i] == ControllerKey(cfg);
    var j :| 0 <= j < |ks| && WaitingKey(current, store, ks[j]);
    ps, qs := Front(ks, i), Front(ks, j);
    FrontPermutes(ks, i);
    FrontPermutes(ks, j);
    ControllerFirst(cfg, current, store, ps, ks[j]);
    WaitingFirst(cfg, current, store, qs);
  }

  /** The Deployment goes first, so the object that waited for it goes too. */
  lemma ControllerFirst(cfg: Config, current: Stamp, store: Store, ps: seq<Key>, k: Key)
    requires ps != [] && ps[0] == ControllerKey(cfg) && StaleKey(current, store, ps[0])
    requires k in ps && WaitingKey(current, store, k)
    ensures k !in SweepAll(cfg, current, store, ps)
  {
    GridCrdIffNamed(k);
    hide Stale;
    hide GridCrd;
    hide NamedGridCrd;
    var next := SweepOne(cfg, current, store, ps[0]);
    assert next == store - {ps[0]} && k in ps[1..];
    CompletedSweepIsTotal(cfg, current, next, ps[1..]);
  }

  /** Exactly: all permutations of a candidate list agree unless the list is order sensitive. */
  lemma OrderIrrelevantIff(cfg: Config, current: Stamp, store: Store, ks: seq<Key>)
    requires Distinct(ks)
    ensures !OrderSensitive(cfg, current, store, ks) <==>
            forall ps, qs | multiset(ps) == multiset(ks) == multiset(qs) ::
              SweepAll(cfg, current, store, ps) == SweepAll(cfg, current, store, qs)
  {
    if OrderSensitive(cfg, current, store, ks) {
      var ps, qs := OrderMatters(cfg, current, store, ks);
    } else {
      forall ps, qs | multiset(ps) == multiset(ks) == multiset(qs)
        ensures SweepAll(cfg, current, store, ps) == SweepAll(cfg, current, store, qs)
      {
        PermutedSweep(cfg, current, store, ks, ps);
        PermutedSweep(cfg, current, store, ks, qs);
      }
    }
  }

  lemma PermutedSweep(cfg: Config, current: Stamp, store: Store, ks: seq<Key>, ps: seq<Key>)
    requires multiset(ps) == multiset(ks) && !OrderSensitive(cfg, current, store, ks)
    ensures SweepAll(cfg, current, store, ps) == store - Condemned(cfg, current, store, ks)
  {
    hide SweepAll;
    hide StaleKey;
    hide WaitingKey;
    assert forall k :: k in ps <==> k in multiset(ps);
    assert forall k :: k in ks <==> k in multiset(ks);
    assert Condemned(cfg, current, store, ps) == Condemned(cfg, current, store, ks);
    SweepRemovesCondemned(cfg, current, store, ps);
  }

  // ----- which passes can meet it -----

  lemma SafeSweepSensitivity(cfg: Config, s: State, ks: seq<Key>)
    requires Safe(cfg, s) && s.pc.Sweep? && OrderSensitive(cfg, CurrentStamp(cfg, s.instance), s.store, ks)
    ensures !s.keep && MarkedOnce(cfg, s)
  {
  }

  /**
   * In a disciplined run the order of a sweep matters only in a pass that left the bundle out, and
   * only if somebody has since taken the completed mark off again.
   */
  lemma SensitiveSweepsAreUnmarkings(cfg: Config, t: Trace, i: nat)
    requires ValidConfig(cfg) && Run(cfg, t) && i <= |t.labels| && Start(cfg, t.states[0])
    requires DisciplinedUpTo(cfg, t, i) && t.states[i].pc.Sweep?
    requires var s := t.states[i];
             OrderSensitive(cfg, CurrentStamp(cfg, s.instance), s.store, s.pc.candidates)
    ensures !t.states[i].keep && MarkedOnce(cfg, t.states[i])
    ensures !Marked(t.states[i].store[ControllerKey(cfg)])
  {
    hide ValidConfig;
    hide Safe;
    hide Step;
    hide Enabled;
    RunIsSafe(cfg, t, i);
    SafeSweepSensitivity(cfg, t.states[i], t.states[i].pc.candidates);
  }
}
