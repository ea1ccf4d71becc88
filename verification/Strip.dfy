/** Stripping withheld env blocks from the vendored manager manifest. */
module Strip {

  /** Length of the leading run of spaces: the RLENGTH awk computes. */
  function Indent(line: string): (n: nat)
    ensures n <= |line|
  {
    if line == [] || line[0] != ' ' then 0 else 1 + Indent(line[1..])
  }

  predicate Blank(line: string) {
    Indent(line) == |line|
  }

  /** A line that opens one of the three withheld items. */
  predicate Header(line: string) {
    var text := line[Indent(line)..];
    || text == "- name: MAAS_DISCOVERY_ENABLED"
    || text == "- name: MAAS_DISCOVERY_REPLICAS"
    || text == "- name: MAAS_DISCOVERY_LOG_LEVEL"
  }

  /** Belongs to an item whose dash stands at column `dash`. */
  predicate Inside(line: string, dash: nat) {
    Indent(line) > dash || Blank(line)
  }

  function Spaces(n: nat): string {
    seq(n, _ => ' ')
  }

  lemma {:induction false} IndentCounts(line: string)
    ensures line[..Indent(line)] == Spaces(Indent(line))
    ensures Indent(line) < |line| ==> line[Indent(line)] != ' '
  {
    if line != [] && line[0] == ' ' {
      IndentCounts(line[1..]);
      assert line == [line[0]] + line[1..];
    }
  }

  lemma {:induction false} IndentOfSpaces(n: nat, text: string)
    requires text == [] || text[0] != ' '
    ensures Indent(Spaces(n) + text) == n
  {
    var line := Spaces(n) + text;
    if n > 0 {
      assert line[0] == ' ' && line[1..] == Spaces(n - 1) + text;
      IndentOfSpaces(n - 1, text);
    } else {
      assert line == text;
    }
  }

  /** The line is this text after some spaces. */
  ghost predicate After(line: string, text: string) {
    exists n: nat :: line == Spaces(n) + text
  }

  lemma AfterIff(line: string, text: string)
    requires text != [] && text[0] != ' '
    ensures After(line, text) <==> line[Indent(line)..] == text
  {
    IndentCounts(line);
    if line[Indent(line)..] == text {
      assert line == line[..Indent(line)] + text;
    }
    forall n: nat | line == Spaces(n) + text
      ensures line[Indent(line)..] == text
    {
      IndentOfSpaces(n, text);
    }
  }

  /** A line opens a withheld item exactly if it is one of the three names after some spaces. */
  lemma HeaderIff(line: string)
    ensures Header(line) <==>
            || After(line, "- name: MAAS_DISCOVERY_ENABLED")
            || After(line, "- name: MAAS_DISCOVERY_REPLICAS")
            || After(line, "- name: MAAS_DISCOVERY_LOG_LEVEL")
  {
    AfterIff(line, "- name: MAAS_DISCOVERY_ENABLED");
    AfterIff(line, "- name: MAAS_DISCOVERY_REPLICAS");
    AfterIff(line, "- name: MAAS_DISCOVERY_LOG_LEVEL");
    hide After;
    hide Indent;
  }

  /** A skip goes on exactly over lines of spaces and lines with more than `dash` of them in front. */
  lemma InsideIff(line: string, dash: nat)
    ensures Inside(line, dash) <==> line == Spaces(|line|) || Spaces(dash + 1) <= line
  {
    var n := Indent(line);
    IndentCounts(line);
    if line == Spaces(|line|) {
      IndentOfSpaces(|line|, []);
      assert line + [] == line;
    }
    if Blank(line) {
      assert line == line[..n];
    }
    if Spaces(dash + 1) <= line {
      assert forall i :: 0 <= i <= dash ==> line[i] == Spaces(dash + 1)[i];
    }
    if n > dash {
      assert line[..dash + 1] == Spaces(n)[..dash + 1] == Spaces(dash + 1);
    }
  }

  // ----- the automaton -----

  function Awk(skip: bool, dash: nat, lines: seq<string>): seq<string>
    decreases |lines|
  {
    if lines == [] then []
    else if Header(lines[0]) then Awk(true, Indent(lines[0]), lines[1..])
    else if skip && Inside(lines[0], dash) then Awk(true, dash, lines[1..])
    else [lines[0]] + Awk(false, dash, lines[1..])
  }

  method StripKnobs(lines: seq<string>) returns (out: seq<string>)
    ensures out == Awk(false, 0, lines)
  {
    out := [];
    var skip, dash := false, 0;
    for i := 0 to |lines|
      invariant out + Awk(skip, dash, lines[i..]) == Awk(false, 0, lines)
    {
      assert lines[i..][0] == lines[i] && lines[i..][1..] == lines[i + 1..];
      if Header(lines[i]) {
        dash, skip := Indent(lines[i]), true;
        continue;
      }
      if skip {
        if Inside(lines[i], dash) {
          continue;
        }
        skip := false;
      }
      out := out + [lines[i]];
    }
  }

  // ----- its declarative meaning -----

  /** Line `h` opens a withheld item that still covers line `i`. */
  predicate Covers(lines: seq<string>, h: nat, i: nat)
    requires h <= i < |lines|
  {
    && Header(lines[h])
    && forall j :: h < j <= i ==> !Header(lines[j]) && Inside(lines[j], Indent(lines[h]))
  }

  predicate Dropped(lines: seq<string>, i: nat)
    requires i < |lines|
  {
    exists h :: 0 <= h <= i && Covers(lines, h, i)
  }

  function KeptFrom(lines: seq<string>, i: nat): seq<string>
    requires i <= |lines|
    decreases |lines| - i
  {
    if i == |lines| then []
    else (if Dropped(lines, i) then [] else [lines[i]]) + KeptFrom(lines, i + 1)
  }

  /** What `skip` and `dash` say about the lines before `i`. */
  ghost predicate StateFits(lines: seq<string>, i: nat, skip: bool, dash: nat)
    requires i <= |lines|
  {
    if i > 0 && skip then exists h :: 0 <= h < i && Covers(lines, h, i - 1) && Indent(lines[h]) == dash
    else !skip && (i > 0 ==> !Dropped(lines, i - 1))
  }

  lemma HeaderRestarts(lines: seq<string>, i: nat)
    requires i < |lines| && Header(lines[i])
    ensures Dropped(lines, i) && StateFits(lines, i + 1, true, Indent(lines[i]))
  {
    hide Header;
    hide Inside;
    assert Covers(lines, i, i);
  }

  lemma CoverExtends(lines: seq<string>, i: nat, skip: bool, dash: nat)
    requires i < |lines| && !Header(lines[i]) && StateFits(lines, i, skip, dash)
    ensures Dropped(lines, i) <==> skip && Inside(lines[i], dash)
    ensures Dropped(lines, i) ==> StateFits(lines, i + 1, true, dash)
  {
    hide Header;
    hide Inside;
    if skip && Inside(lines[i], dash) {
      var h :| 0 <= h < i && Covers(lines, h, i - 1) && Indent(lines[h]) == dash;
      assert Covers(lines, h, i);
    }
    if Dropped(lines, i) {
      var h :| 0 <= h <= i && Covers(lines, h, i);
      assert h < i && Covers(lines, h, i - 1);
      if skip {
        var g :| 0 <= g < i && Covers(lines, g, i - 1) && Indent(lines[g]) == dash;
        assert g == h;
      }
    }
  }

  lemma {:induction false} AwkKeeps(lines: seq<string>, i: nat, skip: bool, dash: nat)
    requires i <= |lines| && StateFits(lines, i, skip, dash)
    ensures Awk(skip, dash, lines[i..]) == KeptFrom(lines, i)
    decreases |lines| - i
  {
    hide Header;
    hide Inside;
    hide Dropped;
    if i < |lines| {
      assert lines[i..][0] == lines[i] && lines[i..][1..] == lines[i + 1..];
      if Header(lines[i]) {
        HeaderRestarts(lines, i);
        AwkKeeps(lines, i + 1, true, Indent(lines[i]));
      } else {
        CoverExtends(lines, i, skip, dash);
        if skip && Inside(lines[i], dash) {
          AwkKeeps(lines, i + 1, true, dash);
        } else {
          AwkKeeps(lines, i + 1, false, dash);
        }
      }
    }
  }

  /**
   * A line is printed exactly unless it is a withheld header, or every line from just after the
   * last withheld header through it is blank or indented deeper than that header.
   */
  lemma StripIsDeclarative(lines: seq<string>)
    ensures Awk(false, 0, lines) == KeptFrom(lines, 0)
  {
    assert lines[0..] == lines;
    AwkKeeps(lines, 0, false, 0);
  }

  // ----- consequences -----

  lemma {:induction false} NoHeaderSurvives(skip: bool, dash: nat, lines: seq<string>)
    ensures forall l :: l in Awk(skip, dash, lines) ==> !Header(l) && l in lines
    decreases |lines|
  {
    hide Header;
    hide Inside;
    if lines != [] {
      NoHeaderSurvives(true, Indent(lines[0]), lines[1..]);
      NoHeaderSurvives(true, dash, lines[1..]);
      NoHeaderSurvives(false, dash, lines[1..]);
      assert lines == [lines[0]] + lines[1..];
    }
  }

  /** No printed line is one of the three names after some spaces. */
  lemma NoKnobIsPrinted(lines: seq<string>, l: string)
    requires l in Awk(false, 0, lines)
    ensures !After(l, "- name: MAAS_DISCOVERY_ENABLED")
    ensures !After(l, "- name: MAAS_DISCOVERY_REPLICAS")
    ensures !After(l, "- name: MAAS_DISCOVERY_LOG_LEVEL")
  {
    hide Header;
    hide After;
    NoHeaderSurvives(false, 0, lines);
    HeaderIff(l);
  }

  /** A line of spaces only never ends a skip, nor is it printed while one is on. */
  lemma BlankGoesOn(n: nat, dash: nat, rest: seq<string>)
    ensures Awk(true, dash, [Spaces(n)] + rest) == Awk(true, dash, rest)
  {
    var all := [Spaces(n)] + rest;
    assert all[0] == Spaces(n) && all[1..] == rest;
    InsideIff(Spaces(n), dash);
    IndentOfSpaces(n, []);
    assert Spaces(n) + [] == Spaces(n);
    assert !Header(Spaces(n));
    hide Header;
    hide Inside;
  }

  /** Lines without withheld headers pass through untouched when nothing is being skipped. */
  lemma {:induction false} HeaderlessIsFixed(dash: nat, lines: seq<string>, rest: seq<string>)
    requires forall l :: l in lines ==> !Header(l)
    ensures Awk(false, dash, lines + rest) == lines + Awk(false, dash, rest)
    decreases |lines|
  {
    hide Header;
    hide Inside;
    if lines == [] {
      assert lines + rest == rest;
    } else {
      var all := lines + rest;
      assert all[0] == lines[0] && all[1..] == lines[1..] + rest && lines[0] in lines;
      HeaderlessIsFixed(dash, lines[1..], rest);
      assert lines == [lines[0]] + lines[1..];
    }
  }

  /** Stripping twice is stripping once. */
  lemma StripIsIdempotent(lines: seq<string>)
    ensures Awk(false, 0, Awk(false, 0, lines)) == Awk(false, 0, lines)
  {
    var out := Awk(false, 0, lines);
    NoHeaderSurvives(false, 0, lines);
    HeaderlessIsFixed(0, out, []);
    assert out + [] == out;
  }

  // ----- env lists -----

  /** One item of a YAML list: the line with the dash, and the lines below it. */
  datatype Item = Item(head: string, body: seq<string>)

  predicate WellFormed(item: Item, dash: nat) {
    && Indent(item.head) == dash && !Blank(item.head)
    && forall l :: l in item.body ==> Inside(l, dash) && !Header(l)
  }

  function Lines(items: seq<Item>): seq<string> {
    if items == [] then [] else [items[0].head] + items[0].body + Lines(items[1..])
  }

  function Allowed(items: seq<Item>): seq<Item> {
    if items == [] then []
    else if Header(items[0].head) then Allowed(items[1..])
    else [items[0]] + Allowed(items[1..])
  }

  lemma {:induction false} BodyIsSkipped(dash: nat, body: seq<string>, rest: seq<string>)
    requires forall l :: l in body ==> Inside(l, dash) && !Header(l)
    ensures Awk(true, dash, body + rest) == Awk(true, dash, rest)
    decreases |body|
  {
    hide Header;
    hide Inside;
    if body == [] {
      assert body + rest == rest;
    } else {
      var all := body + rest;
      assert all[0] == body[0] && all[1..] == body[1..] + rest && body[0] in body;
      BodyIsSkipped(dash, body[1..], rest);
    }
  }

  /** The list ends at a line that is neither blank nor deeper than its dashes. */
  predicate EndsList(rest: seq<string>, dash: nat) {
    && (rest != [] ==> !Inside(rest[0], dash))
    && forall l :: l in rest ==> !Header(l)
  }

  lemma ListEnd(dash: nat, skip: bool, d: nat, rest: seq<string>)
    requires EndsList(rest, dash) && (skip ==> d == dash)
    ensures Awk(skip, d, rest) == rest
  {
    hide Header;
    hide Inside;
    if rest != [] {
      assert rest[0] in rest && rest == [rest[0]] + rest[1..];
      HeaderlessIsFixed(d, rest[1..], []);
      assert rest[1..] + [] == rest[1..];
    }
  }

  lemma LinesCons(items: seq<Item>, rest: seq<string>)
    requires items != []
    ensures Lines(items) + rest == [items[0].head] + (items[0].body + (Lines(items[1..]) + rest))
  {
  }

  lemma AllowedCons(items: seq<Item>, rest: seq<string>)
    requires items != []
    ensures Lines(Allowed(items)) + rest ==
            if Header(items[0].head) then Lines(Allowed(items[1..])) + rest
            else [items[0].head] + items[0].body + (Lines(Allowed(items[1..])) + rest)
  {
  }

  lemma {:induction false} ListIsFiltered(items: seq<Item>, dash: nat, skip: bool, d: nat, rest: seq<string>)
    requires (forall item :: item in items ==> WellFormed(item, dash)) && EndsList(rest, dash)
    requires skip ==> d == dash
    ensures Awk(skip, d, Lines(items) + rest) == Lines(Allowed(items)) + rest
    decreases |items|
  {
    if items == [] {
      assert Lines(items) + rest == rest;
      ListEnd(dash, skip, d, rest);
    } else {
      hide *;
      var item := items[0];
      assert item in items && forall x :: x in items[1..] ==> x in items;
      LinesCons(items, rest);
      AllowedCons(items, rest);
      ItemStep(item, dash, skip, d, Lines(items[1..]) + rest);
      if Header(item.head) {
        ListIsFiltered(items[1..], dash, true, dash, rest);
      } else {
        ListIsFiltered(items[1..], dash, false, d, rest);
      }
    }
  }

  /** One well-formed item is either dropped whole or printed whole. */
  lemma ItemStep(item: Item, dash: nat, skip: bool, d: nat, tail: seq<string>)
    requires WellFormed(item, dash) && (skip ==> d == dash)
    ensures Awk(skip, d, [item.head] + (item.body + tail)) ==
            if Header(item.head) then Awk(true, dash, tail)
            else [item.head] + item.body + Awk(false, d, tail)
  {
    hide Header;
    hide Blank;
    var all := [item.head] + (item.body + tail);
    assert all[0] == item.head && all[1..] == item.body + tail;
    if Header(item.head) {
      BodyIsSkipped(dash, item.body, tail);
    } else {
      HeaderlessIsFixed(d, item.body, tail);
    }
  }

  /** On a well-formed env list, stripping prints exactly the list without the withheld items. */
  lemma StripFiltersEnvList(before: seq<string>, items: seq<Item>, dash: nat, after: seq<string>)
    requires forall l :: l in before ==> !Header(l)
    requires (forall item :: item in items ==> WellFormed(item, dash)) && EndsList(after, dash)
    ensures Awk(false, 0, before + (Lines(items) + after)) == before + (Lines(Allowed(items)) + after)
  {
    HeaderlessIsFixed(0, before, Lines(items) + after);
    ListIsFiltered(items, dash, false, 0, after);
  }
}
