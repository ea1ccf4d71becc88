/** The platform upgrade handshake: status.releases and the version it echoes. */
module Releases {
  datatype Release = Release(name: string, version: string)

  const PLATFORM := "platform"

  predicate HasPlatform(rs: seq<Release>) {
    exists r :: r in rs && r.name == PLATFORM
  }

  /** getPlatformRelease(...).Version: the first entry named platform, or nothing. */
  function PlatformVersion(rs: seq<Release>): string {
    if rs == [] then "" else if rs[0].name == PLATFORM then rs[0].version else PlatformVersion(rs[1..])
  }

  function WithPlatform(rs: seq<Release>, version: string): seq<Release> {
    if rs == [] then [Release(PLATFORM, version)]
    else if rs[0].name == PLATFORM then [rs[0].(version := version)] + rs[1..]
    else [rs[0]] + WithPlatform(rs[1..], version)
  }

  function WithoutPlatform(rs: seq<Release>): seq<Release> {
    if rs == [] then []
    else if rs[0].name == PLATFORM then WithoutPlatform(rs[1..])
    else [rs[0]] + WithoutPlatform(rs[1..])
  }

  /** The version is that of the first entry named platform, or empty when there is none. */
  lemma {:induction false} PlatformVersionMeans(rs: seq<Release>, i: nat)
    requires i <= |rs| && forall j :: 0 <= j < i ==> rs[j].name != "platform"
    ensures i < |rs| && rs[i].name == "platform" ==> PlatformVersion(rs) == rs[i].version && HasPlatform(rs)
    ensures i == |rs| ==> PlatformVersion(rs) == "" && !HasPlatform(rs)
    decreases i
  {
    if i > 0 {
      PlatformVersionMeans(rs[1..], i - 1);
      assert rs == [rs[0]] + rs[1..];
    }
  }

  predicate UniqueNames(rs: seq<Release>) {
    forall i, j :: 0 <= i < j < |rs| ==> rs[i].name != rs[j].name
  }

  // ----- laws of the list -----

  lemma {:induction false} GetAfterSet(rs: seq<Release>, v: string)
    ensures PlatformVersion(WithPlatform(rs, v)) == v && HasPlatform(WithPlatform(rs, v))
  {
    if rs != [] {
      var out := WithPlatform(rs, v);
      if rs[0].name == PLATFORM {
        assert out[0] in out;
      } else {
        GetAfterSet(rs[1..], v);
        assert out[1..] == WithPlatform(rs[1..], v);
        assert forall r :: r in out[1..] ==> r in out;
      }
    } else {
      assert WithPlatform(rs, v)[0] in WithPlatform(rs, v);
    }
  }

  lemma {:induction false} LastSetWins(rs: seq<Release>, v: string, w: string)
    ensures WithPlatform(WithPlatform(rs, v), w) == WithPlatform(rs, w)
  {
    if rs != [] && rs[0].name != PLATFORM {
      LastSetWins(rs[1..], v, w);
      assert WithPlatform(rs, v)[1..] == WithPlatform(rs[1..], v);
    }
  }

  /** Setting and clearing leave the other entries alone, in order. */
  lemma {:induction false} OthersKept(rs: seq<Release>, v: string)
    ensures WithoutPlatform(WithPlatform(rs, v)) == WithoutPlatform(rs)
    ensures WithoutPlatform(WithoutPlatform(rs)) == WithoutPlatform(rs)
    ensures forall r :: r in WithoutPlatform(rs) <==> r in rs && r.name != PLATFORM
  {
    if rs != [] {
      OthersKept(rs[1..], v);
      assert rs == [rs[0]] + rs[1..];
      var set', cleared := WithPlatform(rs, v), WithoutPlatform(rs);
      if rs[0].name == PLATFORM {
        assert set'[1..] == rs[1..];
      } else {
        assert set'[1..] == WithPlatform(rs[1..], v);
        assert cleared[1..] == WithoutPlatform(rs[1..]);
      }
    } else {
      assert WithPlatform(rs, v)[1..] == [];
    }
  }

  lemma {:induction false} NoPlatformNoVersion(rs: seq<Release>)
    requires !HasPlatform(rs)
    ensures PlatformVersion(rs) == ""
  {
    if rs != [] {
      assert rs[0] in rs && forall r :: r in rs[1..] ==> r in rs;
      NoPlatformNoVersion(rs[1..]);
    }
  }

  lemma ClearRemoves(rs: seq<Release>)
    ensures !HasPlatform(WithoutPlatform(rs)) && PlatformVersion(WithoutPlatform(rs)) == ""
  {
  }

  lemma UniqueTail(rs: seq<Release>)
    requires rs != []
    ensures UniqueNames(rs) <==> UniqueNames(rs[1..]) && forall r :: r in rs[1..] ==> r.name != rs[0].name
  {
  }

  lemma {:induction false} SetKeepsUnique(rs: seq<Release>, v: string)
    requires UniqueNames(rs)
    ensures UniqueNames(WithPlatform(rs, v))
    ensures forall r :: r in WithPlatform(rs, v) ==> r.name == PLATFORM || r in rs
  {
    if rs != [] {
      UniqueTail(rs);
      UniqueTail(WithPlatform(rs, v));
      if rs[0].name == PLATFORM {
        assert WithPlatform(rs, v)[1..] == rs[1..];
      } else {
        SetKeepsUnique(rs[1..], v);
        assert WithPlatform(rs, v)[1..] == WithPlatform(rs[1..], v);
      }
    }
  }

  lemma {:induction false} ClearKeepsUnique(rs: seq<Release>)
    requires UniqueNames(rs)
    ensures UniqueNames(WithoutPlatform(rs))
  {
    if rs != [] {
      UniqueTail(rs);
      ClearKeepsUnique(rs[1..]);
      if rs[0].name != PLATFORM {
        OthersKept(rs[1..], "");
        assert WithoutPlatform(rs)[1..] == WithoutPlatform(rs[1..]);
        UniqueTail(WithoutPlatform(rs));
      }
    }
  }

  // ----- one pass -----

  /** The reconciler's actions, in order. */
  datatype Action =
    | Initialize | EnsureInfraRbac | UpgradeIfNeeded | ReleasesAction | Kustomize | RenderGrid
    | AnnotateResource | MigrateSelector | Deploy | Deployments | SubModuleStatus
    | OverwriteCondition | ReportStatus | GarbageCollect

  const ACTIONS: seq<Action> :=
    [Initialize, EnsureInfraRbac, UpgradeIfNeeded, ReleasesAction, Kustomize, RenderGrid,
     AnnotateResource, MigrateSelector, Deploy, Deployments, SubModuleStatus,
     OverwriteCondition, ReportStatus, GarbageCollect]
  const RELEASES_AT := 3
  const REPORT_AT := 12

  /** The wrapped releases action replaces the whole list, or ends before it does. */
  datatype Inner = Replaced(metadata: seq<Release>) | Untouched

  /**
   * What one pass meets: the action it fails at, if any; what the wrapped releases action did to the
   * list, whether it then succeeds or fails; the platform version the ConfigMap yields, or "" when it
   * is missing, unreadable or has no such key.
   */
  datatype Pass = Pass(succeeds: bool, failsAt: nat, inner: Inner, read: string)

  predicate Reaches(p: Pass, at: nat) {
    p.succeeds || p.failsAt >= at
  }

  /** Every action before reportStatus, and reportStatus itself, succeeded. */
  predicate Reports(p: Pass) {
    Reaches(p, REPORT_AT + 1)
  }

  function Left(rs: seq<Release>, inner: Inner): seq<Release> {
    if inner.Replaced? then inner.metadata else rs
  }

  /** withPreservedPlatformRelease */
  function Preserved(rs: seq<Release>, inner: Inner): seq<Release> {
    if PlatformVersion(rs) != "" then WithPlatform(Left(rs, inner), PlatformVersion(rs)) else Left(rs, inner)
  }

  /** The echo in reportStatus. */
  function Echoed(rs: seq<Release>, read: string): seq<Release> {
    if read != "" then WithPlatform(rs, read) else WithoutPlatform(rs)
  }

  function AfterPass(rs: seq<Release>, p: Pass): seq<Release> {
    if !Reaches(p, RELEASES_AT) then rs
    else if Reports(p) then Echoed(Preserved(rs, p.inner), p.read)
    else Preserved(rs, p.inner)
  }

  /** A pass that fails between the two actions keeps the version it found, exactly unless ... */
  lemma FailedPassKeepsVersionIff(rs: seq<Release>, p: Pass)
    requires Reaches(p, RELEASES_AT) && !Reports(p)
    ensures PlatformVersion(AfterPass(rs, p)) == PlatformVersion(rs) <==>
            p.inner.Untouched? || PlatformVersion(rs) != "" || PlatformVersion(p.inner.metadata) == ""
  {
    GetAfterSet(Left(rs, p.inner), PlatformVersion(rs));
  }

  // ----- whole runs -----

  function AfterPasses(rs: seq<Release>, passes: seq<Pass>): seq<Release> {
    if passes == [] then rs
    else AfterPass(AfterPasses(rs, passes[..|passes| - 1]), passes[|passes| - 1])
  }

  /** What the most recent reporting pass read; `initial` while there was none. */
  function LastReported(initial: string, passes: seq<Pass>): string {
    if passes == [] then initial
    else if Reports(passes[|passes| - 1]) then passes[|passes| - 1].read
    else LastReported(initial, passes[..|passes| - 1])
  }

  /** The status shows exactly this version; none means no entry at all. */
  predicate Shows(rs: seq<Release>, version: string) {
    PlatformVersion(rs) == version && (HasPlatform(rs) <==> version != "")
  }

  /** The component metadata does not claim the platform's entry. */
  predicate ClaimsNone(inner: Inner) {
    inner.Replaced? ==> !HasPlatform(inner.metadata)
  }

  lemma PassShows(rs: seq<Release>, p: Pass, version: string)
    requires Shows(rs, version) && ClaimsNone(p.inner)
    ensures Shows(AfterPass(rs, p), if Reports(p) then p.read else version)
  {
    var mid := Preserved(rs, p.inner);
    GetAfterSet(Left(rs, p.inner), PlatformVersion(rs));
    if p.inner.Replaced? {
      NoPlatformNoVersion(p.inner.metadata);
    }
    GetAfterSet(mid, p.read);
    ClearRemoves(mid);
  }

  /**
   * The handshake.  After any sequence of passes, failing at any action and before or after the
   * releases action has replaced the list, the platform version in the status is what the most recent
   * reporting pass read, and the entry is absent if it read none.
   */
  lemma {:induction false} HandshakeOverRuns(rs: seq<Release>, passes: seq<Pass>, initial: string)
    requires Shows(rs, initial)
    requires forall p :: p in passes ==> ClaimsNone(p.inner)
    ensures Shows(AfterPasses(rs, passes), LastReported(initial, passes))
  {
    if passes != [] {
      var front, last := passes[..|passes| - 1], passes[|passes| - 1];
      assert last in passes && forall p :: p in front ==> p in passes;
      HandshakeOverRuns(rs, front, initial);
      hide AfterPass;
      hide Shows;
      PassShows(AfterPasses(rs, front), last, LastReported(initial, front));
    }
  }

  // ----- the code -----

  class Instance {
    var releases: seq<Release>

    constructor (rs: seq<Release>)
      ensures releases == rs
    {
      releases := rs;
    }

    method GetPlatformRelease() returns (version: string)
      ensures version == PlatformVersion(releases)
    {
      for i := 0 to |releases|
        invariant PlatformVersion(releases) == PlatformVersion(releases[i..])
      {
        if releases[i].name == PLATFORM {
          return releases[i].version;
        }
      }
      return "";
    }

    method SetPlatformRelease(version: string)
      modifies this
      ensures releases == WithPlatform(old(releases), version)
    {
      for i := 0 to |releases|
        invariant releases == old(releases)
        invariant WithPlatform(old(releases), version) == releases[..i] + WithPlatform(releases[i..], version)
      {
        if releases[i].name == PLATFORM {
          releases := releases[i := releases[i].(version := version)];
          return;
        }
      }
      releases := releases + [Release(PLATFORM, version)];
    }

    method ClearPlatformRelease()
      modifies this
      ensures releases == WithoutPlatform(old(releases))
    {
      var result := [];
      for i := 0 to |releases|
        invariant releases == old(releases)
        invariant WithoutPlatform(old(releases)) == result + WithoutPlatform(releases[i..])
      {
        if releases[i].name != PLATFORM {
          result := result + [releases[i]];
        }
      }
      releases := result;
    }

    /** The reconciler runs the actions until one fails, and patches the status either way. */
    method Reconcile(p: Pass)
      requires p.succeeds || p.failsAt < |ACTIONS|
      modifies this
      ensures releases == AfterPass(old(releases), p)
    {
      var i := 0;
      while i < |ACTIONS|
        invariant 0 <= i <= |ACTIONS| && (!p.succeeds ==> i <= p.failsAt)
        invariant releases ==
          if i <= RELEASES_AT then old(releases)
          else if i <= REPORT_AT then Preserved(old(releases), p.inner)
          else Echoed(Preserved(old(releases), p.inner), p.read)
      {
        var fails := !p.succeeds && i == p.failsAt;
        match ACTIONS[i] {
          case ReleasesAction =>
            var prev := GetPlatformRelease();
            if p.inner.Replaced? {
              releases := p.inner.metadata;
            }
            if prev != "" {
              SetPlatformRelease(prev);
            }
          case ReportStatus =>
            if !fails {
              if p.read != "" {
                SetPlatformRelease(p.read);
              } else {
                ClearPlatformRelease();
              }
            }
          case _ =>
        }
        if fails {
          return;
        }
        i := i + 1;
      }
    }
  }
}
