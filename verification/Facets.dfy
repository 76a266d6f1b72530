/**
 Canonical facet keys (backend/app/utils/facets.py).

 The one normaliser that ingest and query share: strip, case-fold, replace every run
 of separator characters by a hyphen, strip hyphens. The Unicode tables it relies on
 (which characters are white space, and what each folds to) are a parameter, so the
 theorems hold for the full tables as well as for ASCII.
 */
module Facets {
  import opened Wrappers

  /** The two character tables of the language runtime. Case folding works character by character. */
  datatype CharTables = CharTables(isSpace: char -> bool, fold: char -> string)

  predicate KeyChar(c: char) {
    'a' <= c <= 'z' || '0' <= c <= '9'
  }

  predicate AllKeyChars(s: string) {
    forall i | 0 <= i < |s| :: KeyChar(s[i])
  }

  predicate NoKeyChars(s: string) {
    forall i | 0 <= i < |s| :: !KeyChar(s[i])
  }

  /**
   What the tables must satisfy: key characters and the hyphen fold to themselves, and white space
   folds to no key character.
   */
  ghost predicate ValidTables(t: CharTables) {
    && (forall c: char :: KeyChar(c) ==> t.fold(c) == [c] && !t.isSpace(c))
    && t.fold('-') == "-"
    && !t.isSpace('-')
    && (forall c: char :: t.isSpace(c) ==> NoKeyChars(t.fold(c)))
  }

  function AsciiLower(c: char): char {
    if 'A' <= c <= 'Z' then (c as int + 32) as char else c
  }

  predicate AsciiSpace(c: char) {
    c == ' ' || '\t' <= c <= '\r' || 28 as char <= c <= 31 as char
  }

  const ASCII: CharTables := CharTables(c => AsciiSpace(c), c => [AsciiLower(c)])

  function Lstrip(t: CharTables, s: string): (r: string)
    ensures |r| <= |s|
  {
    if s != "" && t.isSpace(s[0]) then Lstrip(t, s[1..]) else s
  }

  function Rstrip(t: CharTables, s: string): (r: string)
    ensures |r| <= |s|
  {
    if s != "" && t.isSpace(s[|s| - 1]) then Rstrip(t, s[..|s| - 1]) else s
  }

  function Strip(t: CharTables, s: string): string {
    Rstrip(t, Lstrip(t, s))
  }

  function Casefold(t: CharTables, s: string): string {
    if s == "" then "" else t.fold(s[0]) + Casefold(t, s[1..])
  }

  function DropSeparators(s: string): (r: string)
    ensures |r| <= |s|
    ensures s != "" && !KeyChar(s[0]) ==> |r| < |s|
    ensures r != "" ==> KeyChar(r[0])
  {
    if s != "" && !KeyChar(s[0]) then DropSeparators(s[1..]) else s
  }

  /** What is dropped is a prefix without key characters. */
  lemma {:induction false} Dropped(s: string) returns (gap: string)
    ensures s == gap + DropSeparators(s) && NoKeyChars(gap)
  {
    if s != "" && !KeyChar(s[0]) {
      var rest := Dropped(s[1..]);
      gap := [s[0]] + rest;
      assert s == [s[0]] + s[1..];
      Assoc([s[0]], rest, DropSeparators(s));
    } else {
      gap := "";
      assert s == "" + s;
    }
  }

  /** Replace every maximal run of separator characters by one hyphen. */
  function SubSeparators(s: string): string
    decreases |s|
  {
    if s == "" then ""
    else if KeyChar(s[0]) then [s[0]] + SubSeparators(s[1..])
    else "-" + SubSeparators(DropSeparators(s))
  }

  function LstripHyphens(s: string): string {
    if s != "" && s[0] == '-' then LstripHyphens(s[1..]) else s
  }

  function RstripHyphens(s: string): string {
    if s != "" && s[|s| - 1] == '-' then RstripHyphens(s[..|s| - 1]) else s
  }

  function NormalizeFacet(t: CharTables, value: Option<string>): Option<string> {
    match value
    case None => None
    case Some(v) =>
      var slug := RstripHyphens(LstripHyphens(SubSeparators(Casefold(t, Strip(t, v)))));
      if slug == "" then None else Some(slug)
  }

  // ----- The independent definition: maximal runs of key characters -----

  function RunLength(s: string): (n: nat)
    ensures n <= |s|
    ensures AllKeyChars(s[..n])
    ensures n < |s| ==> !KeyChar(s[n])
    ensures s != "" && KeyChar(s[0]) ==> n > 0
  {
    if s == "" || !KeyChar(s[0]) then 0
    else
      var n := 1 + RunLength(s[1..]);
      assert s[..n] == [s[0]] + s[1..][..n - 1];
      n
  }

  /** The maximal runs of key characters of s, left to right. */
  function Runs(s: string): (rs: seq<string>)
    ensures forall i | 0 <= i < |rs| :: rs[i] != "" && AllKeyChars(rs[i])
    decreases |s|
  {
    if s == "" then []
    else if !KeyChar(s[0]) then Runs(s[1..])
    else [s[..RunLength(s)]] + Runs(s[RunLength(s)..])
  }

  function JoinHyphen(rs: seq<string>): string {
    if |rs| == 0 then "" else if |rs| == 1 then rs[0] else rs[0] + "-" + JoinHyphen(rs[1..])
  }

  /** The runs of a raw submitted value. */
  function FacetRuns(t: CharTables, v: string): seq<string> {
    Runs(Casefold(t, v))
  }

  ghost predicate Words(rs: seq<string>) {
    forall i | 0 <= i < |rs| :: rs[i] != "" && AllKeyChars(rs[i])
  }

  // ----- Runs ignore separators -----

  lemma {:induction false} RunsSkipPrefix(a: string, s: string)
    requires NoKeyChars(a)
    ensures Runs(a + s) == Runs(s)
  {
    if a == "" {
      assert a + s == s;
    } else {
      assert (a + s)[1..] == a[1..] + s;
      RunsSkipPrefix(a[1..], s);
    }
  }

  lemma {:induction false} RunsNone(a: string)
    requires NoKeyChars(a)
    ensures Runs(a) == []
  {
    RunsSkipPrefix(a, "");
    assert a + "" == a;
  }

  lemma {:induction false} RunLengthAppend(s: string, a: string)
    requires a == "" || !KeyChar(a[0])
    ensures RunLength(s + a) == RunLength(s)
  {
    if s == "" {
      assert s + a == a;
    } else {
      assert (s + a)[1..] == s[1..] + a;
      RunLengthAppend(s[1..], a);
    }
  }

  lemma {:induction false} RunsSkipSuffix(s: string, a: string)
    requires NoKeyChars(a)
    ensures Runs(s + a) == Runs(s)
    decreases |s|
  {
    if s == "" {
      assert s + a == a;
      RunsNone(a);
    } else if !KeyChar(s[0]) {
      assert (s + a)[1..] == s[1..] + a;
      RunsSkipSuffix(s[1..], a);
    } else {
      RunLengthAppend(s, a);
      var n := RunLength(s);
      assert (s + a)[..n] == s[..n];
      assert (s + a)[n..] == s[n..] + a;
      RunsSkipSuffix(s[n..], a);
    }
  }

  // ----- Stripping white space never changes the runs -----

  lemma {:induction false} CasefoldConcat(t: CharTables, a: string, b: string)
    ensures Casefold(t, a + b) == Casefold(t, a) + Casefold(t, b)
  {
    if a == "" {
      assert a + b == b;
    } else {
      assert (a + b)[1..] == a[1..] + b;
      CasefoldConcat(t, a[1..], b);
    }
  }

  lemma {:induction false} LstripRuns(t: CharTables, s: string)
    requires ValidTables(t)
    ensures FacetRuns(t, Lstrip(t, s)) == FacetRuns(t, s)
  {
    if s != "" && t.isSpace(s[0]) {
      RunsSkipPrefix(t.fold(s[0]), Casefold(t, s[1..]));
      LstripRuns(t, s[1..]);
    }
  }

  lemma {:induction false} RstripRuns(t: CharTables, s: string)
    requires ValidTables(t)
    ensures FacetRuns(t, Rstrip(t, s)) == FacetRuns(t, s)
  {
    if s != "" && t.isSpace(s[|s| - 1]) {
      var init, last := s[..|s| - 1], s[|s| - 1..];
      assert s == init + last;
      CasefoldConcat(t, init, last);
      assert Casefold(t, last) == t.fold(s[|s| - 1]) + Casefold(t, last[1..]) == t.fold(s[|s| - 1]);
      RunsSkipSuffix(Casefold(t, init), t.fold(s[|s| - 1]));
      RstripRuns(t, init);
    }
  }

  // ----- Substitution then hyphen stripping is joining the runs -----

  /** The hyphen the substitution leaves in front of, or behind, the joined runs. */
  function Edge(present: bool): string {
    if present then "-" else ""
  }

  predicate LeadingSeparator(s: string) {
    s != "" && !KeyChar(s[0])
  }

  predicate TrailingSeparator(s: string) {
    Runs(s) != [] && !KeyChar(s[|s| - 1])
  }

  lemma {:induction false} SubOfRun(w: string, rest: string)
    requires AllKeyChars(w)
    ensures SubSeparators(w + rest) == w + SubSeparators(rest)
  {
    if w == "" {
      assert w + rest == rest;
      assert w + SubSeparators(rest) == SubSeparators(rest);
    } else {
      assert (w + rest)[1..] == w[1..] + rest;
      SubOfRun(w[1..], rest);
      Assoc([w[0]], w[1..], SubSeparators(rest));
      assert [w[0]] + w[1..] == w;
    }
  }

  /** What the substitution produces, described by the runs. */
  function EdgedJoin(leading: bool, rs: seq<string>, trailing: bool): string {
    Edge(leading) + (JoinHyphen(rs) + Edge(trailing))
  }

  /** The substitution, exactly: the joined runs, with a hyphen at each end where s has separators there. */
  lemma {:induction false} SubIsJoin(s: string)
    ensures SubSeparators(s) == EdgedJoin(LeadingSeparator(s), Runs(s), TrailingSeparator(s))
    decreases |s|, 1
  {
    if s == "" {
    } else if KeyChar(s[0]) {
      SubIsJoinAtRun(s);
    } else {
      SubIsJoinAtSeparator(s);
    }
  }

  lemma {:induction false} SubIsJoinAtRun(s: string)
    requires s != "" && KeyChar(s[0])
    ensures SubSeparators(s) == EdgedJoin(false, Runs(s), TrailingSeparator(s))
    decreases |s|, 0
  {
    var n := RunLength(s);
    var w, rest := s[..n], s[n..];
    assert s == w + rest;
    SubOfRun(w, rest);
    assert Runs(s) == [w] + Runs(rest);
    if rest == "" {
      EdgesEnd(w);
    } else {
      var trailing := TrailingSeparator(s);
      assert s[|s| - 1] == rest[|rest| - 1];
      if KeyChar(rest[|rest| - 1]) { RunsSeeLast(rest); }
      assert TrailingSeparator(rest) == (Runs(rest) != [] && trailing);
      SubIsJoin(rest);
      EdgesCompose(w, Runs(rest), trailing);
    }
  }

  lemma EdgeInFront(rs: seq<string>, trailing: bool)
    ensures "-" + EdgedJoin(false, rs, trailing) == EdgedJoin(true, rs, trailing)
  {
    assert "" + (JoinHyphen(rs) + Edge(trailing)) == JoinHyphen(rs) + Edge(trailing);
  }

  lemma SameRunsBehind(gap: string, rest: string)
    requires NoKeyChars(gap)
    ensures Runs(gap + rest) == Runs(rest) && TrailingSeparator(gap + rest) == TrailingSeparator(rest)
  {
    RunsSkipPrefix(gap, rest);
    if Runs(rest) != [] { assert (gap + rest)[|gap + rest| - 1] == rest[|rest| - 1]; }
  }

  lemma {:induction false} SubIsJoinAtSeparator(s: string)
    requires s != "" && !KeyChar(s[0])
    ensures SubSeparators(s) == EdgedJoin(true, Runs(s), TrailingSeparator(s))
    decreases |s|, 0
  {
    var rest := DropSeparators(s);
    var gap := Dropped(s);
    SameRunsBehind(gap, rest);
    SubIsJoin(rest);
    EdgeInFront(Runs(rest), TrailingSeparator(rest));
  }

  lemma EdgesEnd(w: string)
    requires w != "" && AllKeyChars(w)
    ensures w + SubSeparators("") == EdgedJoin(false, [w], false)
  {
  }

  lemma JoinCons(w: string, rs: seq<string>)
    ensures JoinHyphen([w] + rs) == if rs == [] then w else w + "-" + JoinHyphen(rs)
  {
    assert ([w] + rs)[1..] == rs;
  }

  /** Gluing a run in front of text that starts with a separator. */
  lemma EdgesCompose(w: string, rs: seq<string>, trailing: bool)
    requires rs == [] ==> trailing
    ensures w + EdgedJoin(true, rs, rs != [] && trailing) == EdgedJoin(false, [w] + rs, trailing)
  {
    JoinCons(w, rs);
    if rs == [] {
      assert EdgedJoin(true, rs, false) == "-";
    } else {
      Assoc(w, "-", JoinHyphen(rs) + Edge(trailing));
      Assoc(w + "-", JoinHyphen(rs), Edge(trailing));
    }
  }

  lemma {:induction false} RunsSeeLast(s: string)
    requires s != "" && KeyChar(s[|s| - 1])
    ensures Runs(s) != []
    decreases |s|
  {
    if !KeyChar(s[0]) {
      RunsSeeLast(s[1..]);
    }
  }

  lemma {:induction false} JoinEnds(rs: seq<string>)
    requires Words(rs) && rs != []
    ensures var j := JoinHyphen(rs); j != "" && KeyChar(j[0]) && KeyChar(j[|j| - 1])
  {
    if |rs| > 1 {
      JoinEnds(rs[1..]);
    }
  }

  /**
   The normaliser, exactly: the hyphen-join of the case-folded alphanumeric runs; no key precisely when
   there are no runs.
   */
  lemma {:induction false} NormalizeIsJoinOfRuns(t: CharTables, v: string)
    requires ValidTables(t)
    ensures NormalizeFacet(t, Some(v)) ==
            if FacetRuns(t, v) == [] then None else Some(JoinHyphen(FacetRuns(t, v)))
  {
    LstripRuns(t, v);
    RstripRuns(t, Lstrip(t, v));
    var folded := Casefold(t, Strip(t, v));
    var rs := Runs(folded);
    assert rs == FacetRuns(t, v);
    SubIsJoin(folded);
    StripEdges(LeadingSeparator(folded), rs, TrailingSeparator(folded));
    if rs != [] { JoinEnds(rs); }
  }

  lemma StripEdges(leading: bool, rs: seq<string>, trailing: bool)
    requires Words(rs)
    requires rs == [] ==> !trailing
    ensures RstripHyphens(LstripHyphens(EdgedJoin(leading, rs, trailing))) == JoinHyphen(rs)
  {
    var j := JoinHyphen(rs);
    var core := j + Edge(trailing);
    if rs != [] { JoinEnds(rs); }
    StripLeft(leading, core);
    StripRight(j, trailing);
  }

  lemma StripLeft(leading: bool, core: string)
    requires core != "" ==> core[0] != '-'
    ensures LstripHyphens(Edge(leading) + core) == core
  {
    var e := Edge(leading) + core;
    if leading { assert e[1..] == core; } else { assert e == core; }
  }

  lemma StripRight(j: string, trailing: bool)
    requires j != "" ==> j[|j| - 1] != '-'
    ensures RstripHyphens(j + Edge(trailing)) == j
  {
    var e := j + Edge(trailing);
    if trailing { assert e[..|e| - 1] == j; } else { assert e == j; }
  }

  // ----- A key determines its runs -----

  lemma {:induction false} RunsOfJoin(rs: seq<string>)
    requires Words(rs)
    ensures Runs(JoinHyphen(rs)) == rs
  {
    if |rs| == 1 {
      OneRun(rs[0]);
      assert rs == [rs[0]];
    } else if |rs| > 1 {
      RunsOfJoin(rs[1..]);
      JoinStep(rs);
    }
  }

  lemma OneRun(w: string)
    requires w != "" && AllKeyChars(w)
    ensures Runs(w) == [w]
  {
    RunThenRest(w, "");
    assert w + "" == w && Runs("") == [];
  }

  lemma JoinSplit(rs: seq<string>)
    requires |rs| > 1
    ensures JoinHyphen(rs) == rs[0] + ("-" + JoinHyphen(rs[1..]))
  {
    Assoc(rs[0], "-", JoinHyphen(rs[1..]));
  }

  lemma JoinStep(rs: seq<string>)
    requires |rs| > 1 && Words(rs) && Runs(JoinHyphen(rs[1..])) == rs[1..]
    ensures Runs(JoinHyphen(rs)) == rs
  {
    var rest := JoinHyphen(rs[1..]);
    JoinSplit(rs);
    RunsSkipPrefix("-", rest);
    RunThenRest(rs[0], "-" + rest);
    assert [rs[0]] + rs[1..] == rs;
  }

  /** A run of key characters with nothing, or a separator, behind it. */
  lemma RunThenRest(w: string, tail: string)
    requires w != "" && AllKeyChars(w) && (tail != "" ==> !KeyChar(tail[0]))
    ensures Runs(w + tail) == [w] + Runs(tail)
  {
    RunLengthAppend(w, tail);
    WholeRun(w);
    assert (w + tail)[..|w|] == w && (w + tail)[|w|..] == tail;
  }

  lemma {:induction false} WholeRun(w: string)
    requires AllKeyChars(w)
    ensures RunLength(w) == |w|
  {
    if w != "" { WholeRun(w[1..]); }
  }

  predicate SlugChars(s: string) {
    forall i | 0 <= i < |s| :: KeyChar(s[i]) || s[i] == '-'
  }

  lemma {:induction false} FoldOfKey(t: CharTables, s: string)
    requires ValidTables(t)
    requires SlugChars(s)
    ensures Casefold(t, s) == s
  {
    if s != "" {
      FoldOfKey(t, s[1..]);
      assert s == [s[0]] + s[1..];
    }
  }

  lemma {:induction false} JoinChars(rs: seq<string>)
    requires Words(rs)
    ensures SlugChars(JoinHyphen(rs))
  {
    if |rs| > 1 {
      JoinChars(rs[1..]);
      assert AllKeyChars(rs[0]);
    }
  }

  /** Two submitted values share a key exactly when they have the same runs. */
  lemma {:induction false} SameKeyIffSameRuns(t: CharTables, v: string, w: string)
    requires ValidTables(t)
    ensures NormalizeFacet(t, Some(v)) == NormalizeFacet(t, Some(w)) <==> FacetRuns(t, v) == FacetRuns(t, w)
  {
    NormalizeIsJoinOfRuns(t, v);
    NormalizeIsJoinOfRuns(t, w);
    RunsOfJoin(FacetRuns(t, v));
    RunsOfJoin(FacetRuns(t, w));
  }

  /** Normalising a key again gives the same key, so a stored key can be used as a query. */
  lemma {:induction false} NormalizeIdempotent(t: CharTables, value: Option<string>)
    requires ValidTables(t)
    ensures NormalizeFacet(t, NormalizeFacet(t, value)) == NormalizeFacet(t, value)
  {
    if value.Some? {
      NormalizeIsJoinOfRuns(t, value.value);
      var rs := FacetRuns(t, value.value);
      if rs != [] {
        JoinChars(rs);
        FoldOfKey(t, JoinHyphen(rs));
        RunsOfJoin(rs);
        NormalizeIsJoinOfRuns(t, JoinHyphen(rs));
      }
    }
  }

  /** Trimming before normalising changes nothing: the key written at ingest is the key of the raw value. */
  lemma {:induction false} StripThenNormalize(t: CharTables, v: string)
    requires ValidTables(t)
    ensures NormalizeFacet(t, Some(Strip(t, v))) == NormalizeFacet(t, Some(v))
  {
    LstripRuns(t, v);
    RstripRuns(t, Lstrip(t, v));
    SameKeyIffSameRuns(t, Strip(t, v), v);
  }

  lemma AsciiTablesValid()
    ensures ValidTables(ASCII)
  {
    forall c: char | AsciiSpace(c) ensures NoKeyChars(ASCII.fold(c)) {
      assert ASCII.fold(c) == [c];
    }
  }
}
