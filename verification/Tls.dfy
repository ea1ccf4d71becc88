/** Resolving the cluster TLS profile, and restarting when it changes. */
module Tls {
  import opened Wrappers

  datatype Version = Empty | Tls10 | Tls11 | Tls12 | Tls13 | UnknownVersion(name: string)

  datatype Profile = Profile(minVersion: Version, ciphers: seq<string>, groups: seq<string>)

  datatype Adherence = NoOpinion | LegacyAdheringComponentsOnly | StrictAllComponents | OtherPolicy(name: string)

  /** An API read.  Transient: unavailable, timed out, throttled or past its deadline. */
  datatype Read<+T> = Value(value: T) | NoMatch | NotFound | Transient | Internal | OtherError

  datatype Suite = Suite(id: nat, name: string)

  /** The libraries: Go's suites, the profile package's cipher names, and its Intermediate profile. */
  datatype Library = Library(
    secure: seq<Suite>,
    insecure: seq<Suite>,
    ids: map<string, nat>,
    intermediate: Profile)

  datatype Options = Options(minVersion: nat, cipherSuites: Option<seq<nat>>, groups: seq<string>)

  datatype Failure =
    | ProfileUnreadable | AdherenceUnreadable | BadVersion | NoCiphers | NoSupportedCiphers

  datatype Outcome<+T> = Done(result: T) | Failed(failure: Failure)

  datatype Result = Result(
    profile: Profile,
    profileFetched: bool,
    adherence: Adherence,
    adherenceFetched: bool,
    options: Options)

  const TLS13 := 0x0304

  /** tlsVersion */
  function VersionNumber(v: Version): Option<nat> {
    match v
    case Empty => Some(0x0303)
    case Tls12 => Some(0x0303)
    case Tls10 => Some(0x0301)
    case Tls11 => Some(0x0302)
    case Tls13 => Some(TLS13)
    case UnknownVersion(_) => None
  }

  // ----- cipher suites -----

  predicate Contains(s: string, part: string) {
    part <= s || (s != [] && Contains(s[1..], part))
  }

  ghost predicate Negotiable(lib: Library, id: nat) {
    || (exists s :: s in lib.secure && s.id == id)
    || (exists s :: s in lib.insecure && s.id == id && !Contains(s.name, "RC4"))
  }

  /** A suite that may be configured below TLS 1.3. */
  ghost predicate Usable(lib: Library, id: nat) {
    Negotiable(lib, id) && !(0x1300 <= id <= 0x13ff)
  }

  /** The suites a profile names, as the profile package looks them up. */
  function Configured(lib: Library, ciphers: seq<string>): seq<nat> {
    if ciphers == [] then []
    else (if ciphers[0] in lib.ids then [lib.ids[ciphers[0]]] else []) + Configured(lib, ciphers[1..])
  }

  ghost function Kept(lib: Library, suites: seq<nat>): seq<nat> {
    if suites == [] then []
    else (if Usable(lib, suites[0]) then [suites[0]] else []) + Kept(lib, suites[1..])
  }

  ghost function Dropped(lib: Library, suites: seq<nat>): seq<nat> {
    if suites == [] then []
    else (if Usable(lib, suites[0]) then [] else [suites[0]]) + Dropped(lib, suites[1..])
  }

  /** runtimeCipherSuites */
  method RuntimeCipherSuites(lib: Library) returns (ids: set<nat>)
    ensures forall id :: id in ids <==> Negotiable(lib, id)
  {
    ids := {};
    for i := 0 to |lib.secure|
      invariant forall id :: id in ids <==> exists s :: s in lib.secure[..i] && s.id == id
    {
      assert lib.secure[..i + 1] == lib.secure[..i] + [lib.secure[i]];
      ids := ids + {lib.secure[i].id};
      assert lib.secure[i] in lib.secure[..i + 1];
    }
    assert lib.secure[..|lib.secure|] == lib.secure;
    ghost var base := ids;
    for i := 0 to |lib.insecure|
      invariant forall id :: id in ids <==>
        id in base || exists s :: s in lib.insecure[..i] && s.id == id && !Contains(s.name, "RC4")
    {
      assert lib.insecure[..i + 1] == lib.insecure[..i] + [lib.insecure[i]];
      if !Contains(lib.insecure[i].name, "RC4") {
        ids := ids + {lib.insecure[i].id};
        assert lib.insecure[i] in lib.insecure[..i + 1];
      }
    }
    assert lib.insecure[..|lib.insecure|] == lib.insecure;
  }

  lemma {:induction false} FilterExtends(lib: Library, a: seq<nat>, x: nat)
    ensures Kept(lib, a + [x]) == Kept(lib, a) + (if Usable(lib, x) then [x] else [])
    ensures Dropped(lib, a + [x]) == Dropped(lib, a) + (if Usable(lib, x) then [] else [x])
  {
    hide Usable;
    if a == [] {
      assert a + [x] == [x] && [x][1..] == [];
    } else {
      assert (a + [x])[0] == a[0] && (a + [x])[1..] == a[1..] + [x];
      FilterExtends(lib, a[1..], x);
    }
  }

  /** Nothing is lost or invented: what is kept and what is dropped make up what was configured. */
  lemma {:induction false} FilterConserves(lib: Library, suites: seq<nat>)
    ensures multiset(Kept(lib, suites)) + multiset(Dropped(lib, suites)) == multiset(suites)
    ensures forall id :: id in Dropped(lib, suites) ==> !Usable(lib, id)
  {
    hide Usable;
    if suites != [] {
      FilterConserves(lib, suites[1..]);
      assert suites == [suites[0]] + suites[1..];
    }
  }

  /** The filter loop: kept in order, and nothing lost. */
  method FilterSuites(lib: Library, configured: seq<nat>) returns (suites: seq<nat>, dropped: seq<nat>)
    ensures suites == Kept(lib, configured) && dropped == Dropped(lib, configured)
    ensures multiset(suites) + multiset(dropped) == multiset(configured)
  {
    var runtime := RuntimeCipherSuites(lib);
    hide Negotiable;
    suites, dropped := [], [];
    for i := 0 to |configured|
      invariant suites == Kept(lib, configured[..i]) && dropped == Dropped(lib, configured[..i])
    {
      var suite := configured[i];
      assert configured[..i + 1] == configured[..i] + [suite];
      FilterExtends(lib, configured[..i], suite);
      if suite in runtime && (suite < 0x1300 || suite > 0x13ff) {
        suites := suites + [suite];
      } else {
        dropped := dropped + [suite];
      }
    }
    assert configured[..|configured|] == configured;
    FilterConserves(lib, configured);
  }

  predicate Sublist(a: seq<nat>, b: seq<nat>)
    decreases |b|
  {
    || a == []
    || (b != [] && a[0] == b[0] && Sublist(a[1..], b[1..]))
    || (b != [] && Sublist(a, b[1..]))
  }

  lemma {:induction false} KeptIsUsableSublist(lib: Library, suites: seq<nat>)
    ensures Sublist(Kept(lib, suites), suites)
    ensures forall id :: id in Kept(lib, suites) <==> id in suites && Usable(lib, id)
  {
    hide Usable;
    if suites != [] {
      KeptIsUsableSublist(lib, suites[1..]);
      assert suites == [suites[0]] + suites[1..];
      if Usable(lib, suites[0]) {
        assert Kept(lib, suites)[1..] == Kept(lib, suites[1..]);
      } else {
        assert Kept(lib, suites) == Kept(lib, suites[1..]);
      }
    }
  }

  /** In Go an id names one suite, and no RC4 suite is listed as secure. */
  ghost predicate ValidLibrary(lib: Library) {
    && (forall s :: s in lib.secure ==> !Contains(s.name, "RC4"))
    && (forall s, r :: s in lib.secure + lib.insecure && r in lib.secure + lib.insecure && s.id == r.id ==> s == r)
  }

  // ----- the options -----

  /** The cluster leaves its components alone. */
  predicate Lax(adherence: Adherence) {
    adherence == NoOpinion || adherence == LegacyAdheringComponentsOnly
  }

  function EffectiveProfile(lib: Library, profile: Profile, adherence: Adherence): Profile {
    if Lax(adherence) then lib.intermediate else profile
  }

  ghost function OptionsFor(lib: Library, profile: Profile, adherence: Adherence): Outcome<Options> {
    var p := EffectiveProfile(lib, profile, adherence);
    match VersionNumber(p.minVersion)
    case None => Failed(BadVersion)
    case Some(v) =>
      if v >= TLS13 then Done(Options(v, None, p.groups))
      else if p.ciphers == [] then Failed(NoCiphers)
      else
        var kept := Kept(lib, Configured(lib, p.ciphers));
        if kept == [] then Failed(NoSupportedCiphers) else Done(Options(v, Some(kept), p.groups))
  }

  /**
   * Below TLS 1.3, resolution succeeds exactly when the effective profile names a usable suite, and
   * then serves a nonempty, order-preserving sublist of the configured suites: all negotiable, none
   * in the TLS 1.3 range of section B.4 of RFC 8446, and none RC4, which RFC 7465 prohibits.
   */
  lemma FailsClosed(lib: Library, profile: Profile, adherence: Adherence)
    requires var v := VersionNumber(EffectiveProfile(lib, profile, adherence).minVersion);
             v.Some? && v.value < TLS13
    ensures var p := EffectiveProfile(lib, profile, adherence);
            var configured := Configured(lib, p.ciphers);
            var o := OptionsFor(lib, profile, adherence);
            && (o.Done? <==> exists id :: id in configured && Usable(lib, id))
            && (o.Done? ==>
                  && o.result.cipherSuites.Some? && o.result.cipherSuites.value != []
                  && Sublist(o.result.cipherSuites.value, configured)
                  && (forall id :: id in o.result.cipherSuites.value <==> id in configured && Usable(lib, id))
                  && (ValidLibrary(lib) ==> forall s :: s in lib.secure + lib.insecure && Contains(s.name, "RC4") ==>
                        s.id !in o.result.cipherSuites.value))
  {
    var p := EffectiveProfile(lib, profile, adherence);
    var configured := Configured(lib, p.ciphers);
    KeptIsUsableSublist(lib, configured);
    hide Contains;
    if Kept(lib, configured) != [] {
      assert Kept(lib, configured)[0] in Kept(lib, configured);
    }
  }

  /** Without an opinion, or with legacy adherence, the cluster profile does not matter; otherwise it does. */
  lemma LaxAdherenceIgnoresProfile(lib: Library, profile: Profile, adherence: Adherence)
    ensures OptionsFor(lib, profile, NoOpinion) == OptionsFor(lib, lib.intermediate, StrictAllComponents)
    ensures OptionsFor(lib, profile, LegacyAdheringComponentsOnly) ==
            OptionsFor(lib, lib.intermediate, StrictAllComponents)
    ensures adherence != NoOpinion && adherence != LegacyAdheringComponentsOnly ==>
              OptionsFor(lib, profile, adherence) == OptionsFor(lib, profile, StrictAllComponents)
  {
  }

  /** The number of each known version on the wire; no version at all means TLS 1.2. */
  predicate ServesVersion(v: Version, number: nat) {
    && (v.Tls10? ==> number == 0x0301)
    && (v.Tls11? ==> number == 0x0302)
    && (v.Tls12? || v.Empty? ==> number == 0x0303)
    && (v.Tls13? ==> number == 0x0304)
  }

  /** What the options must be for a profile in force. */
  ghost predicate OptionsMeaning(lib: Library, p: Profile, o: Outcome<Options>) {
    && (o == Failed(BadVersion) <==> p.minVersion.UnknownVersion?)
    && (o == Failed(NoCiphers) <==>
          !p.minVersion.UnknownVersion? && !p.minVersion.Tls13? && p.ciphers == [])
    && (o == Failed(NoSupportedCiphers) <==>
          && !p.minVersion.UnknownVersion? && !p.minVersion.Tls13? && p.ciphers != []
          && forall id :: Names(lib, p.ciphers, id) ==> !Usable(lib, id))
    && (o.Done? ==>
          && ServesVersion(p.minVersion, o.result.minVersion) && o.result.groups == p.groups
          && (o.result.cipherSuites.None? <==> o.result.minVersion == 0x0304)
          && (o.result.cipherSuites.Some? ==>
                forall id :: id in o.result.cipherSuites.value <==> Names(lib, p.ciphers, id) && Usable(lib, id)))
    && !(o.Failed? && (o.failure.ProfileUnreadable? || o.failure.AdherenceUnreadable?))
  }

  /** Some cipher of the list is known under this id. */
  ghost predicate Names(lib: Library, ciphers: seq<string>, id: nat) {
    exists c :: c in ciphers && c in lib.ids && lib.ids[c] == id
  }

  lemma {:induction false} ConfiguredNames(lib: Library, ciphers: seq<string>, id: nat)
    ensures id in Configured(lib, ciphers) <==> Names(lib, ciphers, id)
  {
    if ciphers != [] {
      ConfiguredNames(lib, ciphers[1..], id);
      assert ciphers == [ciphers[0]] + ciphers[1..];
      if Names(lib, ciphers[1..], id) {
        var c :| c in ciphers[1..] && c in lib.ids && lib.ids[c] == id;
        assert c in ciphers;
      }
      if Names(lib, ciphers, id) && !Names(lib, ciphers[1..], id) {
        var c :| c in ciphers && c in lib.ids && lib.ids[c] == id;
        assert c == ciphers[0];
      }
    }
  }

  /** A name contains a part exactly when the part stands somewhere in it. */
  lemma {:induction false} ContainsIff(s: string, part: string)
    ensures Contains(s, part) <==> exists x, y :: s == x + part + y
  {
    if part <= s {
      assert s == [] + part + s[|part|..];
    } else if s != [] {
      ContainsIff(s[1..], part);
      if x, y :| s[1..] == x + part + y {
        assert s == ([s[0]] + x) + part + y;
      }
    }
    forall x, y | s == x + part + y
      ensures Contains(s, part)
    {
      ContainsAfter(x, part, y);
    }
  }

  lemma {:induction false} ContainsAfter(x: string, part: string, y: string)
    ensures Contains(x + part + y, part)
  {
    if x == [] {
      assert x + part + y == part + y;
    } else {
      ContainsAfter(x[1..], part, y);
      assert (x + part + y)[1..] == x[1..] + part + y;
    }
  }

  /**
   * The options for every profile and adherence: the version number and groups of the profile in
   * force, suites exactly below TLS 1.3, and each failure exactly for its cause.
   */
  lemma OptionsMean(lib: Library, profile: Profile, adherence: Adherence)
    ensures OptionsMeaning(lib, if adherence == NoOpinion || adherence == LegacyAdheringComponentsOnly
                                then lib.intermediate else profile, OptionsFor(lib, profile, adherence))
  {
    hide Kept;
    hide Configured;
    hide Usable;
    hide Names;
    KeptNames(lib, EffectiveProfile(lib, profile, adherence).ciphers);
  }

  lemma KeptNames(lib: Library, ciphers: seq<string>)
    ensures var kept := Kept(lib, Configured(lib, ciphers));
            && (forall id :: id in kept <==> Names(lib, ciphers, id) && Usable(lib, id))
            && (kept == [] <==> forall id :: Names(lib, ciphers, id) ==> !Usable(lib, id))
  {
    hide Usable;
    hide Names;
    hide Configured;
    hide Kept;
    var configured := Configured(lib, ciphers);
    KeptIsUsableSublist(lib, configured);
    forall id: nat
      ensures id in configured <==> Names(lib, ciphers, id)
    {
      ConfiguredNames(lib, ciphers, id);
    }
    var kept := Kept(lib, configured);
    if kept != [] {
      assert kept[0] in kept;
    }
  }

  // ----- Resolve -----

  /** The profile to use and whether a watch will be registered; nothing on an unexpected error. */
  function ProfileChoice(lib: Library, read: Read<Profile>): Option<(Profile, bool)> {
    match read
    case Value(p) => Some((p, true))
    case Transient => Some((lib.intermediate, true))
    case NoMatch => Some((lib.intermediate, false))
    case NotFound => Some((lib.intermediate, false))
    case Internal => None
    case OtherError => None
  }

  /** Unlike for the profile, an internal error counts as transient here.  When the API is absent the
      value is whatever the library returned beside its error. */
  function AdherenceChoice(read: Read<Adherence>, beside: Adherence): Option<(Adherence, bool)> {
    match read
    case Value(a) => Some((a, true))
    case Transient => Some((NoOpinion, true))
    case Internal => Some((NoOpinion, true))
    case NoMatch => Some((beside, false))
    case NotFound => Some((beside, false))
    case OtherError => None
  }

  ghost function Resolved(lib: Library, p: (Profile, bool), a: (Adherence, bool)): Outcome<Result> {
    match OptionsFor(lib, p.0, a.0)
    case Done(o) => Done(Result(p.0, p.1, a.0, a.1, o))
    case Failed(f) => Failed(f)
  }

  /** What a result records of the two reads. */
  predicate Records(lib: Library, profileRead: Read<Profile>, adherenceRead: Read<Adherence>, beside: Adherence,
                    r: Result)
  {
    && (r.profileFetched <==> profileRead.Value? || profileRead.Transient?)
    && r.profile == (if profileRead.Value? then profileRead.value else lib.intermediate)
    && (r.adherenceFetched <==> adherenceRead.Value? || adherenceRead.Transient? || adherenceRead.Internal?)
    && r.adherence == (if adherenceRead.Value? then adherenceRead.value
                       else if adherenceRead.NoMatch? || adherenceRead.NotFound? then beside else NoOpinion)
  }

  /** The profile that the recorded adherence puts in force. */
  function InForce(lib: Library, r: Result): Profile {
    if r.adherence == NoOpinion || r.adherence == LegacyAdheringComponentsOnly then lib.intermediate else r.profile
  }

  lemma ResolvedMeans(lib: Library, profileRead: Read<Profile>, adherenceRead: Read<Adherence>, beside: Adherence)
    ensures ProfileChoice(lib, profileRead).None? <==> profileRead.Internal? || profileRead.OtherError?
    ensures AdherenceChoice(adherenceRead, beside).None? <==> adherenceRead.OtherError?
    ensures var p, a := ProfileChoice(lib, profileRead), AdherenceChoice(adherenceRead, beside);
            p.Some? && a.Some? ==>
              var r := Resolved(lib, p.value, a.value);
              && (r.Failed? ==> !r.failure.ProfileUnreadable? && !r.failure.AdherenceUnreadable?)
              && (r.Done? ==> Records(lib, profileRead, adherenceRead, beside, r.result) &&
                              OptionsMeaning(lib, InForce(lib, r.result), Done(r.result.options)))
  {
    var p, a := ProfileChoice(lib, profileRead), AdherenceChoice(adherenceRead, beside);
    if p.Some? && a.Some? {
      OptionsMean(lib, p.value.0, a.value.0);
    }
    hide OptionsFor;
    hide Usable;
    hide Names;
  }

  method Resolve(lib: Library, profileRead: Read<Profile>, adherenceRead: Read<Adherence>, beside: Adherence)
    returns (r: Outcome<Result>)
    ensures
      var p, a := ProfileChoice(lib, profileRead), AdherenceChoice(adherenceRead, beside);
      r == if p.None? then Failed(ProfileUnreadable)
           else if a.None? then Failed(AdherenceUnreadable)
           else Resolved(lib, p.value, a.value)
    ensures r == Failed(ProfileUnreadable) <==> profileRead.Internal? || profileRead.OtherError?
    ensures r == Failed(AdherenceUnreadable) <==>
            !(profileRead.Internal? || profileRead.OtherError?) && adherenceRead.OtherError?
    ensures r.Done? ==> Records(lib, profileRead, adherenceRead, beside, r.result)
    ensures r.Done? ==> OptionsMeaning(lib, InForce(lib, r.result), Done(r.result.options))
  {
    ResolvedMeans(lib, profileRead, adherenceRead, beside);
    hide OptionsMeaning;
    var p := ProfileChoice(lib, profileRead);
    if p.None? {
      return Failed(ProfileUnreadable);
    }
    var a := AdherenceChoice(adherenceRead, beside);
    if a.None? {
      return Failed(AdherenceUnreadable);
    }
    var profile := p.value.0;
    if Lax(a.value.0) {
      profile := lib.intermediate;
    }
    var minVersion := VersionNumber(profile.minVersion);
    if minVersion.None? {
      return Failed(BadVersion);
    }
    var suites := None;
    if minVersion.value < TLS13 {
      if profile.ciphers == [] {
        return Failed(NoCiphers);
      }
      var kept, dropped := FilterSuites(lib, Configured(lib, profile.ciphers));
      if kept == [] {
        return Failed(NoSupportedCiphers);
      }
      suites := Some(kept);
    }
    return Done(Result(p.value.0, p.value.1, a.value.0, a.value.1, Options(minVersion.value, suites, profile.groups)));
  }

  // ----- the restart watcher -----

  /** A process is down, between its two startup reads, or serving. */
  datatype Process = Down | HalfStarted(profile: Profile, fetched: bool) | Up(result: Result)

  datatype World = World(profile: Profile, adherence: Adherence, process: Process)

  datatype Event =
    | ClusterChanges(profile: Profile, adherence: Adherence)
    | ReadsProfile(read: Read<Profile>)
    | ReadsAdherence(adherenceRead: Read<Adherence>, beside: Adherence)
    | WatchFires

  /** A registered watch sees a value other than the one recorded at startup. */
  predicate WatchEnabled(w: World) {
    && w.process.Up? && w.process.result.profileFetched
    && (w.process.result.profile != w.profile ||
        (w.process.result.adherenceFetched && w.process.result.adherence != w.adherence))
  }

  /** A read that succeeds returns the current value. */
  predicate CanHappen(w: World, e: Event) {
    match e
    case ClusterChanges(_, _) => true
    case ReadsProfile(r) => w.process.Down? && (r.Value? ==> r.value == w.profile)
    case ReadsAdherence(r, _) => w.process.HalfStarted? && (r.Value? ==> r.value == w.adherence)
    case WatchFires => WatchEnabled(w)
  }

  ghost function Happen(lib: Library, w: World, e: Event): World {
    match e
    case ClusterChanges(p, a) => w.(profile := p, adherence := a)
    case ReadsProfile(r) =>
      var c := ProfileChoice(lib, r);
      w.(process := if c.Some? then HalfStarted(c.value.0, c.value.1) else Down)
    case ReadsAdherence(r, beside) =>
      if !w.process.HalfStarted? then w
      else
        var c := AdherenceChoice(r, beside);
        var started := if c.None? then Failed(AdherenceUnreadable)
                       else Resolved(lib, (w.process.profile, w.process.fetched), c.value);
        w.(process := if started.Done? then Up(started.result) else Down)
    case WatchFires => w.(process := Down)
  }

  /** Any sequence of cluster changes, startups and restarts. */
  ghost predicate History(lib: Library, ws: seq<World>, es: seq<Event>) {
    && |ws| == |es| + 1
    && forall i :: 0 <= i < |es| ==> CanHappen(ws[i], es[i]) && ws[i + 1] == Happen(lib, ws[i], es[i])
  }

  /** What is served always follows from what was recorded. */
  ghost predicate ServesRecorded(lib: Library, w: World) {
    w.process.Up? ==>
      OptionsFor(lib, w.process.result.profile, w.process.result.adherence) == Done(w.process.result.options)
  }

  lemma {:induction false} HistoryServesRecorded(lib: Library, ws: seq<World>, es: seq<Event>, i: nat)
    requires History(lib, ws, es) && i < |ws| && ServesRecorded(lib, ws[0])
    ensures ServesRecorded(lib, ws[i])
    decreases i
  {
    hide OptionsFor;
    if i > 0 {
      HistoryServesRecorded(lib, ws, es, i - 1);
      assert ws[i] == Happen(lib, ws[i - 1], es[i - 1]);
    }
  }

  /**
   * Whenever both watches are registered and neither wants to fire, the options being served are
   * those of the cluster's current profile and adherence - also when startup reads failed
   * transiently, or a change fell between the two reads.
   */
  lemma QuietMeansCurrent(lib: Library, ws: seq<World>, es: seq<Event>, i: nat)
    requires History(lib, ws, es) && i < |ws| && ws[0].process.Down?
    requires ws[i].process.Up? && !WatchEnabled(ws[i])
    requires ws[i].process.result.profileFetched && ws[i].process.result.adherenceFetched
    ensures OptionsFor(lib, ws[i].profile, ws[i].adherence) == Done(ws[i].process.result.options)
  {
    hide OptionsFor;
    HistoryServesRecorded(lib, ws, es, i);
  }

  /** No startup read finds the API missing; transient and fatal errors may happen. */
  predicate ApiPresent(e: Event) {
    && (e.ReadsProfile? ==> !e.read.NoMatch? && !e.read.NotFound?)
    && (e.ReadsAdherence? ==> !e.adherenceRead.NoMatch? && !e.adherenceRead.NotFound?)
  }

  predicate WatchesBoth(p: Process) {
    && (p.HalfStarted? ==> p.fetched)
    && (p.Up? ==> p.result.profileFetched && p.result.adherenceFetched)
  }

  /** On a cluster that has the API, every process registers both watches, whatever its reads met. */
  lemma {:induction false} BothWatchesRegistered(lib: Library, ws: seq<World>, es: seq<Event>, i: nat)
    requires History(lib, ws, es) && i < |ws| && ws[0].process.Down?
    requires forall e :: e in es ==> ApiPresent(e)
    ensures WatchesBoth(ws[i].process)
    decreases i
  {
    hide OptionsFor;
    if i > 0 {
      BothWatchesRegistered(lib, ws, es, i - 1);
      assert es[i - 1] in es && ws[i] == Happen(lib, ws[i - 1], es[i - 1]);
    }
  }

  predicate StableEvent(e: Event) {
    match e
    case ClusterChanges(_, _) => false
    case ReadsProfile(r) => r.Value?
    case ReadsAdherence(r, _) => r.Value?
    case WatchFires => true
  }

  /** Whatever startup has recorded so far is current. */
  predicate Settled(w: World) {
    match w.process
    case Down => true
    case HalfStarted(p, fetched) => p == w.profile && fetched
    case Up(r) => r.profile == w.profile && r.adherence == w.adherence
  }

  function Restarts(es: seq<Event>): nat {
    if es == [] then 0
    else Restarts(es[..|es| - 1]) + (if es[|es| - 1].WatchFires? then 1 else 0)
  }

  /**
   * Once the cluster is stable and reads succeed, at most one more restart occurs, from whatever
   * state the process was in; afterwards everything recorded is current.
   */
  lemma {:induction false} AtMostOneRestart(lib: Library, ws: seq<World>, es: seq<Event>)
    requires History(lib, ws, es) && forall e :: e in es ==> StableEvent(e)
    ensures Restarts(es) <= 1
    ensures Settled(ws[0]) ==> Restarts(es) == 0
    ensures Restarts(es) == 1 || Settled(ws[0]) ==> Settled(ws[|es|])
    decreases |es|
  {
    hide OptionsFor;
    if es != [] {
      var n := |es| - 1;
      assert es[n] in es;
      AtMostOneRestart(lib, ws[..n + 1], es[..n]);
      assert ws[n + 1] == Happen(lib, ws[n], es[n]) && CanHappen(ws[n], es[n]);
    }
  }

  // ----- when a change is missed -----

  /** What is served is not what the cluster asks for now. */
  ghost predicate Outdated(lib: Library, w: World) {
    w.process.Up? && OptionsFor(lib, w.profile, w.adherence) != Done(w.process.result.options)
  }

  /** The profile is told apart from Intermediate by what it makes the operator serve. */
  ghost predicate Matters(lib: Library, profile: Profile) {
    OptionsFor(lib, profile, StrictAllComponents) != OptionsFor(lib, lib.intermediate, StrictAllComponents)
  }

  predicate Absent<T>(read: Read<T>) {
    read.NoMatch? || read.NotFound?
  }

  /** The two reads of the startup that led to the serving process at `i`. */
  ghost predicate StartedBy(lib: Library, ws: seq<World>, es: seq<Event>, i: nat, p: nat, a: nat)
    requires History(lib, ws, es) && i < |ws|
  {
    && p < a < i && es[p].ReadsProfile? && es[a].ReadsAdherence? && ws[i].process.Up?
    && (forall k :: p < k < i && k != a ==> es[k].ClusterChanges?)
    && var r := ws[i].process.result;
       && ProfileChoice(lib, es[p].read) == Some((r.profile, r.profileFetched))
       && AdherenceChoice(es[a].adherenceRead, es[a].beside) == Some((r.adherence, r.adherenceFetched))
  }

  lemma {:induction false} LastProfileRead(lib: Library, ws: seq<World>, es: seq<Event>, i: nat) returns (p: nat)
    requires History(lib, ws, es) && i < |ws| && ws[0].process.Down? && ws[i].process.HalfStarted?
    ensures p < i && es[p].ReadsProfile? && forall k :: p < k < i ==> es[k].ClusterChanges?
    ensures ProfileChoice(lib, es[p].read) == Some((ws[i].process.profile, ws[i].process.fetched))
    decreases i
  {
    hide OptionsFor;
    assert ws[i] == Happen(lib, ws[i - 1], es[i - 1]) && CanHappen(ws[i - 1], es[i - 1]);
    if es[i - 1].ReadsProfile? {
      p := i - 1;
    } else {
      p := LastProfileRead(lib, ws, es, i - 1);
    }
  }

  lemma {:induction false} LastStartup(lib: Library, ws: seq<World>, es: seq<Event>, i: nat) returns (p: nat, a: nat)
    requires History(lib, ws, es) && i < |ws| && ws[0].process.Down? && ws[i].process.Up?
    ensures StartedBy(lib, ws, es, i, p, a)
    decreases i
  {
    hide OptionsFor;
    assert ws[i] == Happen(lib, ws[i - 1], es[i - 1]) && CanHappen(ws[i - 1], es[i - 1]);
    if es[i - 1].ReadsAdherence? {
      a := i - 1;
      p := LastProfileRead(lib, ws, es, i - 1);
    } else {
      p, a := LastStartup(lib, ws, es, i - 1);
    }
  }

  /** Adherence decides only whether the profile counts. */
  lemma OptionsByLaxness(lib: Library, profile: Profile, adherence: Adherence)
    ensures OptionsFor(lib, profile, adherence) ==
            OptionsFor(lib, if Lax(adherence) then lib.intermediate else profile, StrictAllComponents)
  {
  }

  /**
   * Exactly when a process with nothing left to fire serves outdated options: the cluster's profile
   * matters, and at the last startup either the profile's API was absent and the cluster is strict
   * now, or only the adherence's was and the cluster has since become, or stopped being, lax.
   */
  lemma QuietIsOutdatedIff(lib: Library, ws: seq<World>, es: seq<Event>, i: nat, p: nat, a: nat)
    requires History(lib, ws, es) && i < |ws| && ws[0].process.Down?
    requires StartedBy(lib, ws, es, i, p, a) && !WatchEnabled(ws[i])
    ensures Outdated(lib, ws[i]) <==>
            && Matters(lib, ws[i].profile)
            && (|| (Absent(es[p].read) && !Lax(ws[i].adherence))
                || (!Absent(es[p].read) && Absent(es[a].adherenceRead) &&
                    Lax(ws[i].adherence) != Lax(es[a].beside)))
  {
    HistoryServesRecorded(lib, ws, es, i);
    var r := ws[i].process.result;
    OptionsByLaxness(lib, ws[i].profile, ws[i].adherence);
    OptionsByLaxness(lib, r.profile, r.adherence);
    hide OptionsFor;
    hide History;
  }

  /** Which processes some change of the cluster can leave outdated without a restart. */
  lemma CanGoStaleIff(lib: Library, w: World)
    requires w.process.Up? && ServesRecorded(lib, w) && !WatchEnabled(w)
    ensures (exists q, b :: !WatchEnabled(w.(profile := q, adherence := b)) &&
                            Outdated(lib, w.(profile := q, adherence := b)))
            <==> !w.process.result.profileFetched ||
                 (!w.process.result.adherenceFetched && Matters(lib, w.process.result.profile))
  {
    var r := w.process.result;
    OptionsByLaxness(lib, r.profile, r.adherence);
    OptionsByLaxness(lib, r.profile, NoOpinion);
    if !r.profileFetched {
      var q := Profile(UnknownVersion(""), [], []);
      assert OptionsFor(lib, q, StrictAllComponents).Failed?;
      assert Outdated(lib, w.(profile := q, adherence := StrictAllComponents));
    } else if !r.adherenceFetched && Matters(lib, r.profile) {
      var b := if Lax(r.adherence) then StrictAllComponents else NoOpinion;
      assert Outdated(lib, w.(profile := r.profile, adherence := b));
    }
    hide OptionsFor;
    forall q, b | !WatchEnabled(w.(profile := q, adherence := b)) && Outdated(lib, w.(profile := q, adherence := b))
      ensures !r.profileFetched || (!r.adherenceFetched && Matters(lib, r.profile))
    {
      OptionsByLaxness(lib, q, b);
    }
  }

  /** It happens: the adherence is not found at startup, and the cluster turns strict afterwards. */
  lemma StaleHistory(lib: Library, profile: Profile) returns (ws: seq<World>, es: seq<Event>)
    requires OptionsFor(lib, lib.intermediate, StrictAllComponents).Done? && Matters(lib, profile)
    ensures History(lib, ws, es) && ws[0].process.Down?
    ensures es == [ReadsProfile(Value(profile)), ReadsAdherence(NotFound, NoOpinion),
                   ClusterChanges(profile, StrictAllComponents)]
    ensures !WatchEnabled(ws[3]) && Outdated(lib, ws[3])
  {
    OptionsByLaxness(lib, profile, NoOpinion);
    hide OptionsFor;
    es := [ReadsProfile(Value(profile)), ReadsAdherence(NotFound, NoOpinion),
           ClusterChanges(profile, StrictAllComponents)];
    var w0 := World(profile, NoOpinion, Down);
    var w1 := Happen(lib, w0, es[0]);
    var w2 := Happen(lib, w1, es[1]);
    ws := [w0, w1, w2, Happen(lib, w2, es[2])];
  }
}
