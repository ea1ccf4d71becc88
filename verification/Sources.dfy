/** status.module.sources: what was loaded, in the one order that depends on nothing else. */
module Sources {
  datatype Source = Source(path: string, renderer: string)

  /** Go's string order: byte by byte, a proper prefix first. */
  predicate StringLess(a: string, b: string) {
    if b == [] then false
    else if a == [] then true
    else if a[0] == b[0] then StringLess(a[1..], b[1..])
    else a[0] < b[0]
  }

  /** Both strings are the same before `i`, and there `a` has the smaller byte. */
  predicate SmallerAt(a: string, b: string, i: nat) {
    i < |a| && i < |b| && a[..i] == b[..i] && a[i] < b[i]
  }

  /** Exactly: a proper prefix comes first, and otherwise the first differing byte decides. */
  lemma {:induction false} StringLessIff(a: string, b: string)
    ensures StringLess(a, b) <==> a < b || exists i: nat :: SmallerAt(a, b, i)
    decreases |a|
  {
    if a == [] {
      assert StringLess(a, b) == (a < b);
    } else if b != [] && a[0] == b[0] {
      StringLessIff(a[1..], b[1..]);
      assert a == [a[0]] + a[1..] && b == [b[0]] + b[1..];
      if i: nat :| SmallerAt(a[1..], b[1..], i) {
        assert a[..i + 1] == [a[0]] + a[1..][..i] && b[..i + 1] == [b[0]] + b[1..][..i];
        assert SmallerAt(a, b, i + 1);
      }
      if i: nat :| SmallerAt(a, b, i) {
        assert a[1..][..i - 1] == a[..i][1..] && b[1..][..i - 1] == b[..i][1..];
        assert SmallerAt(a[1..], b[1..], i - 1);
      }
    } else if b != [] {
      assert SmallerAt(a, b, 0) <==> a[0] < b[0];
      assert forall i: nat :: SmallerAt(a, b, i) && i > 0 ==> a[..i][0] == b[..i][0];
    }
  }

  /** The comparison handed to sort.Slice. */
  predicate Less(a: Source, b: Source) {
    if a.path == b.path then StringLess(a.renderer, b.renderer) else StringLess(a.path, b.path)
  }

  /** The path decides; the renderer only between equal paths. */
  lemma LessIff(a: Source, b: Source)
    ensures a.path != b.path ==>
              (Less(a, b) <==> a.path < b.path || exists i: nat :: SmallerAt(a.path, b.path, i))
    ensures a.path == b.path ==>
              (Less(a, b) <==> a.renderer < b.renderer || exists i: nat :: SmallerAt(a.renderer, b.renderer, i))
  {
    StringLessIff(a.path, b.path);
    StringLessIff(a.renderer, b.renderer);
  }

  /** What sort.Slice promises: no later element is less than an earlier one. */
  predicate Sorted(ss: seq<Source>) {
    forall i, j :: 0 <= i < j < |ss| ==> !Less(ss[j], ss[i])
  }

  // ----- the order is a strict total order -----

  lemma {:induction false} StringTrichotomy(a: string, b: string)
    ensures StringLess(a, b) || a == b || StringLess(b, a)
    ensures !(StringLess(a, b) && StringLess(b, a))
    ensures !StringLess(a, a)
  {
    if a != [] {
      if b != [] && a[0] == b[0] {
        StringTrichotomy(a[1..], b[1..]);
        assert a == [a[0]] + a[1..] && b == [b[0]] + b[1..];
      }
      StringTrichotomy(a[1..], a[1..]);
    }
  }

  lemma {:induction false} StringTransitive(a: string, b: string, c: string)
    requires StringLess(a, b) && StringLess(b, c)
    ensures StringLess(a, c)
  {
    if a != [] && a[0] == b[0] && b[0] == c[0] {
      StringTransitive(a[1..], b[1..], c[1..]);
    }
  }

  lemma Trichotomy(a: Source, b: Source)
    ensures Less(a, b) || a == b || Less(b, a)
    ensures !(Less(a, b) && Less(b, a)) && !Less(a, a)
  {
    StringTrichotomy(a.path, b.path);
    StringTrichotomy(a.renderer, b.renderer);
  }

  lemma Transitive(a: Source, b: Source, c: Source)
    requires Less(a, b) && Less(b, c)
    ensures Less(a, c)
  {
    StringTrichotomy(a.path, b.path);
    StringTrichotomy(b.path, c.path);
    if a.path != b.path && b.path != c.path {
      StringTransitive(a.path, b.path, c.path);
      StringTrichotomy(a.path, c.path);
    } else if a.path == b.path == c.path {
      StringTransitive(a.renderer, b.renderer, c.renderer);
    }
  }

  // ----- the arrangement is unique -----

  lemma HeadsAgree(a: seq<Source>, b: seq<Source>)
    requires a != [] && b != [] && Sorted(a) && Sorted(b) && multiset(a) == multiset(b)
    ensures a[0] == b[0]
  {
    assert a[0] in multiset(a) && b[0] in multiset(b);
    assert a[0] in b && b[0] in a;
    var i :| 0 <= i < |b| && b[i] == a[0];
    var j :| 0 <= j < |a| && a[j] == b[0];
    Trichotomy(a[0], b[0]);
  }

  lemma TailsAgree(a: seq<Source>, b: seq<Source>)
    requires a != [] && b != [] && a[0] == b[0] && multiset(a) == multiset(b)
    ensures multiset(a[1..]) == multiset(b[1..])
  {
    assert a == [a[0]] + a[1..] && b == [b[0]] + b[1..];
    assert multiset(a) == multiset{a[0]} + multiset(a[1..]);
    assert multiset(b) == multiset{b[0]} + multiset(b[1..]);
    assert multiset(a[1..]) == multiset(a) - multiset{a[0]};
    assert multiset(b[1..]) == multiset(b) - multiset{b[0]};
  }

  lemma SortedTail(a: seq<Source>)
    requires a != [] && Sorted(a)
    ensures Sorted(a[1..])
  {
  }

  lemma {:induction false} SortedIsUnique(a: seq<Source>, b: seq<Source>)
    requires Sorted(a) && Sorted(b) && multiset(a) == multiset(b)
    ensures a == b
    decreases |a|
  {
    hide Sorted;
    assert |a| == |multiset(a)| == |multiset(b)| == |b|;
    if a != [] {
      HeadsAgree(a, b);
      TailsAgree(a, b);
      SortedTail(a);
      SortedTail(b);
      SortedIsUnique(a[1..], b[1..]);
      assert a == [a[0]] + a[1..] && b == [b[0]] + b[1..];
    }
  }

  // ----- the code -----

  function Tagged(paths: seq<string>, renderer: string): (ss: seq<Source>)
    ensures |ss| == |paths|
    ensures forall i :: 0 <= i < |paths| ==> ss[i] == Source(paths[i], renderer)
  {
    seq(|paths|, i requires 0 <= i < |paths| => Source(paths[i], renderer))
  }

  /** Everything loaded in this pass, in loading order. */
  function Loaded(manifests: seq<string>, templates: seq<string>, charts: seq<string>): seq<Source> {
    Tagged(manifests, "kustomize") + Tagged(templates, "template") + Tagged(charts, "helm")
  }

  /** Put one source into a sorted list, behind everything that is not greater. */
  method Insert(sorted: seq<Source>, s: Source) returns (out: seq<Source>)
    requires Sorted(sorted)
    ensures Sorted(out) && multiset(out) == multiset(sorted) + multiset{s}
  {
    var n := |sorted|;
    while n > 0 && Less(s, sorted[n - 1])
      invariant 0 <= n <= |sorted|
      invariant forall i :: n <= i < |sorted| ==> Less(s, sorted[i])
    {
      n := n - 1;
    }
    out := sorted[..n] + [s] + sorted[n..];
    assert sorted == sorted[..n] + sorted[n..];
    forall i, j | 0 <= i < j < |out|
      ensures !Less(out[j], out[i])
    {
      InsertedInOrder(sorted, s, n, i, j);
    }
  }

  lemma InsertedInOrder(sorted: seq<Source>, s: Source, n: nat, i: nat, j: nat)
    requires Sorted(sorted) && n <= |sorted| && (n > 0 ==> !Less(s, sorted[n - 1]))
    requires forall k :: n <= k < |sorted| ==> Less(s, sorted[k])
    requires i < j <= |sorted|
    ensures var out := sorted[..n] + [s] + sorted[n..]; !Less(out[j], out[i])
  {
    if i == n {
      Trichotomy(s, sorted[j - 1]);
    } else if j == n {
      if Less(s, sorted[i]) {
        Trichotomy(sorted[i], sorted[n - 1]);
        if i < n - 1 && Less(sorted[i], sorted[n - 1]) {
          Transitive(s, sorted[i], sorted[n - 1]);
        }
      }
    }
  }

  /**
   * The reported sources are the sorted arrangement of what was loaded, and the only one: any two
   * passes that load the same sources, in whatever order, report the same list.
   */
  method ReportSources(manifests: seq<string>, templates: seq<string>, charts: seq<string>)
    returns (sources: seq<Source>)
    ensures Sorted(sources)
    ensures multiset(sources) == multiset(Loaded(manifests, templates, charts))
    ensures forall other :: Sorted(other) && multiset(other) == multiset(Loaded(manifests, templates, charts)) ==>
              other == sources
  {
    var loaded := [];
    for i := 0 to |manifests|
      invariant loaded == Tagged(manifests, "kustomize")[..i]
    {
      loaded := loaded + [Source(manifests[i], "kustomize")];
    }
    var fromManifests := loaded;
    for i := 0 to |templates|
      invariant loaded == fromManifests + Tagged(templates, "template")[..i]
    {
      loaded := loaded + [Source(templates[i], "template")];
    }
    var fromTemplates := loaded;
    for i := 0 to |charts|
      invariant loaded == fromTemplates + Tagged(charts, "helm")[..i]
    {
      loaded := loaded + [Source(charts[i], "helm")];
    }
    assert loaded == Loaded(manifests, templates, charts);
    sources := [];
    for i := 0 to |loaded|
      invariant Sorted(sources) && multiset(sources) == multiset(loaded[..i])
    {
      assert loaded[..i + 1] == loaded[..i] + [loaded[i]];
      sources := Insert(sources, loaded[i]);
    }
    assert loaded[..|loaded|] == loaded;
    forall other | Sorted(other) && multiset(other) == multiset(loaded)
      ensures other == sources
    {
      SortedIsUnique(other, sources);
    }
  }
}
