/**
 Merging what the text and image pipelines propose for a product
 (backend/app/services/catalog/catalog_intelligence_service.py): one value per attribute by
 highest confidence, one tag per key, and a quality score.
 */
module CatalogMerges {
  import opened Wrappers
  import opened Facets
  import opened Catalog
  import opened RealArithmetic
  import opened StableSort

  // ----- Grouping: a dict of lists, in insertion order -----

  /** The distinct keys, in order of first occurrence. */
  function Names<T>(items: seq<T>, key: T -> string): seq<string> {
    if items == [] then []
    else
      var k := key(items[|items| - 1]);
      var names := Names(items[..|items| - 1], key);
      if k in names then names else names + [k]
  }

  function Group<T>(items: seq<T>, key: T -> string, k: string): seq<T> {
    if items == [] then []
    else
      var last := items[|items| - 1];
      Group(items[..|items| - 1], key, k) + if key(last) == k then [last] else []
  }

  ghost predicate Grouped<T(!new)>(items: seq<T>, key: T -> string, names: seq<string>, groups: map<string, seq<T>>) {
    && names == Names(items, key)
    && (forall k :: k in groups <==> k in names)
    && (forall k :: k in groups ==> groups[k] == Group(items, key, k))
  }

  lemma {:induction false} GroupMembers<T(!new)>(items: seq<T>, key: T -> string, k: string)
    ensures forall x :: x in Group(items, key, k) <==> x in items && key(x) == k
  {
    if items != [] {
      GroupMembers(items[..|items| - 1], key, k);
      assert items == items[..|items| - 1] + [items[|items| - 1]];
    }
  }

  lemma {:induction false} NamesMembers<T(!new)>(items: seq<T>, key: T -> string)
    ensures forall k :: k in Names(items, key) <==> exists x :: x in items && key(x) == k
  {
    if items != [] {
      var init, last := items[..|items| - 1], items[|items| - 1];
      NamesMembers(init, key);
      assert items == init + [last];
      assert last in items;
    }
  }

  ghost predicate NoRepeats(names: seq<string>) {
    forall i, j :: 0 <= i < j < |names| ==> names[i] != names[j]
  }

  lemma {:induction false} NamesDistinct<T>(items: seq<T>, key: T -> string)
    ensures NoRepeats(Names(items, key))
  {
    if items != [] {
      NamesDistinct(items[..|items| - 1], key);
    }
  }

  lemma SomeMember<T>(g: seq<T>)
    ensures g != [] ==> exists x :: x in g
  {
    if g != [] { assert g[0] in g; }
  }

  lemma NonEmptyGroup<T(!new)>(items: seq<T>, key: T -> string, k: string)
    requires k in Names(items, key)
    ensures Group(items, key, k) != []
  {
    NamesMembers(items, key);
    GroupMembers(items, key, k);
    var x :| x in items && key(x) == k;
    assert x in Group(items, key, k);
  }

  lemma NewGroup<T(!new)>(items: seq<T>, key: T -> string, k: string)
    requires k !in Names(items, key)
    ensures Group(items, key, k) == []
  {
    NamesMembers(items, key);
    GroupMembers(items, key, k);
    SomeMember(Group(items, key, k));
  }

  /** `setdefault(key, []).append(item)` */
  lemma AppendGrouped<T(!new)>(items: seq<T>, key: T -> string, names: seq<string>, groups: map<string, seq<T>>, item: T)
    requires Grouped(items, key, names, groups)
    ensures var k := key(item);
            Grouped(items + [item], key, if k in groups then names else names + [k],
                    groups[k := (if k in groups then groups[k] else []) + [item]])
  {
    var k := key(item);
    var groups' := groups[k := (if k in groups then groups[k] else []) + [item]];
    Snoc(items, key, item, k);
    if k !in groups {
      NewGroup(items, key, k);
    }
    forall j | j in groups' ensures groups'[j] == Group(items + [item], key, j) {
      Snoc(items, key, item, j);
    }
  }

  lemma Snoc<T>(items: seq<T>, key: T -> string, item: T, k: string)
    ensures Group(items + [item], key, k) == Group(items, key, k) + if key(item) == k then [item] else []
    ensures Names(items + [item], key) == if key(item) in Names(items, key) then Names(items, key) else Names(items, key) + [key(item)]
  {
    assert (items + [item])[..|items|] == items;
  }

  // ----- Attributes -----

  // `fields` are the names of the attribute fields of the product model: brand, category, subcategory, color,
  // material, pattern, gender, age_group, style, season and occasion.

  /** The values of the fields that are set, and the aggregate confidence. */
  datatype Attributes = Attributes(values: map<string, string>, confidence: real)

  datatype Merge = Merge(attributes: Attributes, conflicts: nat, considered: nat)

  datatype MergeError = ClashingField(name: string)

  const ByAttribute: Prediction -> string := (p: Prediction) => p.attribute

  /** `max(..., key=confidence)`: the first of the most confident. */
  function Best(g: seq<Prediction>): (b: Prediction)
    requires g != []
    ensures b in g
  {
    if |g| == 1 then g[0]
    else
      var b := Best(g[..|g| - 1]);
      if g[|g| - 1].confidence > b.confidence then g[|g| - 1] else b
  }

  function Values(g: seq<Prediction>): (s: set<string>)
    ensures forall v :: v in s <==> exists p :: p in g && p.value == v
  {
    if g == [] then {}
    else
      assert g == g[..|g| - 1] + [g[|g| - 1]];
      Values(g[..|g| - 1]) + {g[|g| - 1].value}
  }

  /** Prediction k is the first of the most confident ones for attribute a. */
  ghost predicate Winner(ps: seq<Prediction>, a: string, k: nat) {
    && k < |ps| && ps[k].attribute == a
    && (forall j :: 0 <= j < |ps| && ps[j].attribute == a ==> ps[j].confidence <= ps[k].confidence)
    && (forall j :: 0 <= j < k && ps[j].attribute == a ==> ps[j].confidence < ps[k].confidence)
  }

  /** No prediction of the attribute before the last: then the last, if it is one, wins. */
  lemma FirstOfKind(ps: seq<Prediction>, a: string)
    requires ps != [] && Group(ps[..|ps| - 1], ByAttribute, a) == [] && ps[|ps| - 1].attribute == a
    ensures Winner(ps, a, |ps| - 1)
  {
    var init := ps[..|ps| - 1];
    GroupMembers(init, ByAttribute, a);
    forall j | 0 <= j < |init| ensures ps[j].attribute != a {
      assert init[j] in init && ByAttribute(init[j]) == ps[j].attribute;
      assert init[j] !in Group(init, ByAttribute, a);
    }
  }

  lemma NextWinner(ps: seq<Prediction>, a: string, k: nat)
    requires ps != [] && Winner(ps[..|ps| - 1], a, k)
    ensures var n := |ps| - 1;
            if ps[n].attribute == a && ps[n].confidence > ps[k].confidence then Winner(ps, a, n) else Winner(ps, a, k)
  {
    assert forall j :: 0 <= j < |ps| - 1 ==> ps[..|ps| - 1][j] == ps[j];
  }

  lemma {:induction false} BestWins(ps: seq<Prediction>, a: string)
    requires Group(ps, ByAttribute, a) != []
    ensures exists k: nat :: Winner(ps, a, k) && ps[k] == Best(Group(ps, ByAttribute, a))
  {
    var n := |ps| - 1;
    var init := ps[..n];
    var g := Group(init, ByAttribute, a);
    if g == [] {
      FirstOfKind(ps, a);
    } else {
      BestWins(init, a);
      var k: nat :| Winner(init, a, k) && init[k] == Best(g);
      NextWinner(ps, a, k);
      var all := Group(ps, ByAttribute, a);
      assert if ps[n].attribute == a then all[..|all| - 1] == g && all[|all| - 1] == ps[n] else all == g;
    }
  }

  /** Some prediction for the attribute is confident enough. */
  ghost predicate Supported(ps: seq<Prediction>, a: string, threshold: real) {
    exists p :: p in ps && p.attribute == a && p.confidence >= threshold
  }

  ghost predicate Disputed(ps: seq<Prediction>, a: string) {
    exists p, q :: p in ps && q in ps && p.attribute == a && q.attribute == a && p.value != q.value
  }

  lemma ConflictMeansDisputed(ps: seq<Prediction>, a: string)
    ensures Conflicting(ps, a) <==> Disputed(ps, a)
  {
    GroupMembers(ps, ByAttribute, a);
    var g := Group(ps, ByAttribute, a);
    var vs := Values(g);
    if Disputed(ps, a) {
      var p, q :| p in ps && q in ps && p.attribute == a && q.attribute == a && p.value != q.value;
      assert p in g && q in g;
      assert {p.value, q.value} <= vs;
      SubsetSize({p.value, q.value}, vs);
    } else if vs != {} {
      var v :| v in vs;
      var p :| p in g && p.value == v;
      forall u | u in vs ensures u == v {
        var q :| q in g && q.value == u;
      }
      assert vs == {v};
    }
  }

  /** The accepted confidences of these attributes, in order. */
  function Winning(ps: seq<Prediction>, names: seq<string>, threshold: real): seq<real>
    requires forall a :: a in names ==> Group(ps, ByAttribute, a) != []
  {
    if names == [] then []
    else
      var c := Best(Group(ps, ByAttribute, names[|names| - 1])).confidence;
      Winning(ps, names[..|names| - 1], threshold) + if c < threshold then [] else [c as real]
  }

  function Total(cs: seq<real>): real {
    if cs == [] then 0.0 else Total(cs[..|cs| - 1]) + cs[|cs| - 1]
  }

  function Mean(cs: seq<real>): real {
    if cs == [] then 0.0 else Total(cs) / |cs| as real
  }

  /** How far the values lie above m, all taken together. */
  function Excess(cs: seq<real>, m: real): real {
    if cs == [] then 0.0 else cs[0] - m + Excess(cs[1..], m)
  }

  lemma {:induction false} ExcessIsTotal(cs: seq<real>, m: real)
    ensures Excess(cs, m) == Total(cs) - Product(|cs| as real, m)
  {
    if cs != [] {
      ExcessIsTotal(cs[1..], m);
      TotalFront(cs);
    }
  }

  lemma {:induction false} TotalFront(cs: seq<real>)
    requires cs != []
    ensures Total(cs) == cs[0] + Total(cs[1..])
  {
    var n := |cs| - 1;
    if n > 0 {
      TotalFront(cs[..n]);
      assert cs[..n][1..] == cs[1..][..n - 1];
    }
  }

  /** For each attribute with support, once and in some order, the confidence of its winner. */
  ghost predicate WinnersOf(ps: seq<Prediction>, threshold: real, names: seq<string>, cs: seq<real>) {
    && |cs| == |names| && NoRepeats(names) && (forall a :: a in names <==> Supported(ps, a, threshold))
    && forall i :: 0 <= i < |cs| ==> exists k: nat :: Winner(ps, names[i], k) && cs[i] == ps[k].confidence
  }

  /** The mean: 0 of nothing, and else what the values are above and below by as much. */
  predicate IsMean(cs: seq<real>, m: real) {
    if cs == [] then m == 0.0 else Excess(cs, m) == 0.0
  }

  ghost predicate AverageWinner(ps: seq<Prediction>, threshold: real, m: real) {
    exists names, cs :: WinnersOf(ps, threshold, names, cs) && IsMean(cs, m)
  }

  function SupportedAmong(ps: seq<Prediction>, names: seq<string>, threshold: real): seq<string>
    requires forall a :: a in names ==> Group(ps, ByAttribute, a) != []
  {
    if names == [] then []
    else
      var a := names[|names| - 1];
      SupportedAmong(ps, names[..|names| - 1], threshold) + if Best(Group(ps, ByAttribute, a)).confidence < threshold then [] else [a]
  }

  lemma {:induction false} AmongMembers(ps: seq<Prediction>, names: seq<string>, threshold: real)
    requires (forall a :: a in names ==> Group(ps, ByAttribute, a) != []) && NoRepeats(names)
    ensures var s := SupportedAmong(ps, names, threshold);
            && NoRepeats(s) && |s| == |Winning(ps, names, threshold)|
            && (forall a :: a in s <==> a in names && Best(Group(ps, ByAttribute, a)).confidence >= threshold)
            && forall i :: 0 <= i < |s| ==> s[i] in names && Winning(ps, names, threshold)[i] == Best(Group(ps, ByAttribute, s[i])).confidence
  {
    if names != [] {
      AmongMembers(ps, names[..|names| - 1], threshold);
      assert names == names[..|names| - 1] + [names[|names| - 1]];
    }
  }

  lemma MeanIsMean(cs: seq<real>)
    ensures IsMean(cs, Mean(cs))
  {
    ExcessIsTotal(cs, Mean(cs));
    if cs != [] { DivMul(Total(cs), |cs| as real); }
  }

  lemma AcceptedWinners(ps: seq<Prediction>, threshold: real) returns (names: seq<string>)
    ensures WinnersOf(ps, threshold, names, Accepted(ps, threshold))
  {
    EveryGroup(ps);
    NamesDistinct(ps, ByAttribute);
    AmongMembers(ps, Names(ps, ByAttribute), threshold);
    names := SupportedAmong(ps, Names(ps, ByAttribute), threshold);
    forall a ensures a in names <==> Supported(ps, a, threshold) { SupportMeans(ps, a, threshold); }
    forall i | 0 <= i < |names| ensures exists k: nat :: Winner(ps, names[i], k) && Accepted(ps, threshold)[i] == ps[k].confidence {
      BestWins(ps, names[i]);
    }
  }

  lemma MeanIsAverage(ps: seq<Prediction>, threshold: real)
    ensures AverageWinner(ps, threshold, Mean(Accepted(ps, threshold)))
  {
    var names := AcceptedWinners(ps, threshold);
    MeanIsMean(Accepted(ps, threshold));
  }

  /** An attribute has support exactly if its winner has. */
  lemma SupportMeans(ps: seq<Prediction>, a: string, threshold: real)
    ensures Supported(ps, a, threshold) <==>
            a in Names(ps, ByAttribute) && Group(ps, ByAttribute, a) != [] && Best(Group(ps, ByAttribute, a)).confidence >= threshold
  {
    NamesMembers(ps, ByAttribute);
    GroupMembers(ps, ByAttribute, a);
    if p :| p in ps && p.attribute == a {
      assert ByAttribute(p) == a && p in Group(ps, ByAttribute, a);
      BestWins(ps, a);
      var k: nat :| Winner(ps, a, k) && ps[k] == Best(Group(ps, ByAttribute, a));
      if p.confidence >= threshold {
        var j :| 0 <= j < |ps| && ps[j] == p;
      }
    } else {
      assert forall x :: x in ps ==> ByAttribute(x) == x.attribute != a;
    }
  }

  ghost predicate Resolves(ps: seq<Prediction>, names: seq<string>, threshold: real, resolved: map<string, string>)
    requires forall a :: a in names ==> Group(ps, ByAttribute, a) != []
  {
    && (forall a :: a in resolved <==> a in names && Best(Group(ps, ByAttribute, a)).confidence >= threshold)
    && (forall a :: a in resolved ==> resolved[a] == Best(Group(ps, ByAttribute, a)).value)
  }

  predicate Conflicting(ps: seq<Prediction>, a: string) {
    |Values(Group(ps, ByAttribute, a))| > 1
  }

  /** The attributes among these that have two different values. */
  function Disputes(ps: seq<Prediction>, names: seq<string>): (s: set<string>)
    ensures forall a :: a in s <==> a in names && Conflicting(ps, a)
  {
    if names == [] then {}
    else
      var last := names[|names| - 1];
      assert names == names[..|names| - 1] + [last];
      Disputes(ps, names[..|names| - 1]) + if Conflicting(ps, last) then {last} else {}
  }

  /** The confidences of the attributes that reach the threshold. */
  function Accepted(ps: seq<Prediction>, threshold: real): seq<real> {
    EveryGroup(ps);
    Winning(ps, Names(ps, ByAttribute), threshold)
  }

  lemma EveryGroup(ps: seq<Prediction>)
    ensures forall a :: a in Names(ps, ByAttribute) ==> Group(ps, ByAttribute, a) != []
  {
    forall a | a in Names(ps, ByAttribute) ensures Group(ps, ByAttribute, a) != [] {
      NonEmptyGroup(ps, ByAttribute, a);
    }
  }

  /**
   A field is set exactly when some prediction for it is confident enough, and then to the value of the
   first of the most confident.
   */
  ghost predicate Chosen(fields: seq<string>, ps: seq<Prediction>, threshold: real, values: map<string, string>) {
    && (forall a :: a in values <==> a in fields && Supported(ps, a, threshold))
    && (forall a :: a in values ==> exists k: nat :: Winner(ps, a, k) && values[a] == ps[k].value)
  }

  /** What the merge yields, said of the predictions alone. */
  ghost predicate Merges(fields: seq<string>, ps: seq<Prediction>, threshold: real, m: Merge) {
    var names := Names(ps, ByAttribute);
    && Chosen(fields, ps, threshold, m.attributes.values)
    && m.attributes.confidence == Mean(Accepted(ps, threshold)) && 0.0 <= m.attributes.confidence <= 1.0
    && AverageWinner(ps, threshold, m.attributes.confidence)
    && m.conflicts == |Disputes(ps, names)| && (forall a :: a in Disputes(ps, names) <==> Disputed(ps, a))
    && m.considered == |names| && m.conflicts <= m.considered
  }

  method GroupPredictions(ps: seq<Prediction>) returns (names: seq<string>, groups: map<string, seq<Prediction>>)
    ensures Grouped(ps, ByAttribute, names, groups)
  {
    names, groups := [], map[];
    for i := 0 to |ps|
      invariant Grouped(ps[..i], ByAttribute, names, groups)
    {
      AppendGrouped(ps[..i], ByAttribute, names, groups, ps[i]);
      assert ps[..i] + [ps[i]] == ps[..i + 1];
      var k := ps[i].attribute;
      if k !in groups {
        names := names + [k];
        groups := groups[k := []];
      }
      groups := groups[k := groups[k] + [ps[i]]];
    }
    assert ps[..|ps|] == ps;
  }

  /** Where the second loop stands after `names`. */
  ghost predicate Progress(ps: seq<Prediction>, names: seq<string>, threshold: real,
                           resolved: map<string, string>, winning: seq<real>) {
    && (forall a :: a in names ==> Group(ps, ByAttribute, a) != [])
    && Resolves(ps, names, threshold, resolved)
    && winning == Winning(ps, names, threshold)
  }

  lemma ProgressStep(ps: seq<Prediction>, names: seq<string>, i: nat, threshold: real, resolved: map<string, string>, winning: seq<real>)
    requires i < |names| && Group(ps, ByAttribute, names[i]) != []
    requires Progress(ps, names[..i], threshold, resolved, winning)
    ensures var best := Best(Group(ps, ByAttribute, names[i]));
            if best.confidence < threshold then Progress(ps, names[..i + 1], threshold, resolved, winning)
            else Progress(ps, names[..i + 1], threshold, resolved[names[i] := best.value], winning + [best.confidence])
  {
    OneMoreResolved(ps, names, i, threshold, resolved);
    OneMoreWinning(ps, names, i, threshold);
  }

  lemma OneMoreDispute(ps: seq<Prediction>, names: seq<string>, i: nat)
    requires i < |names| && NoRepeats(names)
    ensures |Disputes(ps, names[..i + 1])|
         == |Disputes(ps, names[..i])| + if Conflicting(ps, names[i]) then 1 else 0
  {
    var before, after := names[..i], names[..i + 1];
    assert after[..i] == before && names[i] !in before;
    assert Disputes(ps, after) == Disputes(ps, before) + if Conflicting(ps, names[i]) then {names[i]} else {};
  }

  lemma OneMoreResolved(ps: seq<Prediction>, names: seq<string>, i: nat, threshold: real, resolved: map<string, string>)
    requires i < |names| && Group(ps, ByAttribute, names[i]) != []
    requires forall a :: a in names[..i] ==> Group(ps, ByAttribute, a) != []
    requires Resolves(ps, names[..i], threshold, resolved)
    ensures forall a :: a in names[..i + 1] ==> Group(ps, ByAttribute, a) != []
    ensures var best := Best(Group(ps, ByAttribute, names[i]));
            Resolves(ps, names[..i + 1], threshold, if best.confidence < threshold then resolved else resolved[names[i] := best.value])
  {
    assert names[..i + 1] == names[..i] + [names[i]];
  }

  lemma OneMoreWinning(ps: seq<Prediction>, names: seq<string>, i: nat, threshold: real)
    requires i < |names| && forall a :: a in names[..i + 1] ==> Group(ps, ByAttribute, a) != []
    ensures forall a :: a in names[..i] ==> Group(ps, ByAttribute, a) != []
    ensures var best := Best(Group(ps, ByAttribute, names[i]));
            Winning(ps, names[..i + 1], threshold)
            == Winning(ps, names[..i], threshold) + if best.confidence < threshold then [] else [best.confidence as real]
  {
    assert names[..i + 1][..i] == names[..i];
    assert names[..i + 1] == names[..i] + [names[i]];
  }

  /** Where the second loop stands after the first i names. */
  ghost predicate ResolvedUpTo(ps: seq<Prediction>, names: seq<string>, i: nat, threshold: real,
                               resolved: map<string, string>, winning: seq<real>, conflicts: nat)
    requires i <= |names|
  {
    Progress(ps, names[..i], threshold, resolved, winning) && conflicts == |Disputes(ps, names[..i])| && conflicts <= i
  }

  lemma ResolveStep(ps: seq<Prediction>, names: seq<string>, i: nat, threshold: real,
                    resolved: map<string, string>, winning: seq<real>, conflicts: nat)
    requires i < |names| && NoRepeats(names) && Group(ps, ByAttribute, names[i]) != []
    requires ResolvedUpTo(ps, names, i, threshold, resolved, winning, conflicts)
    ensures var g := Group(ps, ByAttribute, names[i]);
            var conflicts' := if |Values(g)| > 1 then conflicts + 1 else conflicts;
            if Best(g).confidence < threshold then ResolvedUpTo(ps, names, i + 1, threshold, resolved, winning, conflicts')
            else ResolvedUpTo(ps, names, i + 1, threshold, resolved[names[i] := Best(g).value], winning + [Best(g).confidence], conflicts')
  {
    ProgressStep(ps, names, i, threshold, resolved, winning);
    OneMoreDispute(ps, names, i);
  }

  /** The body of the second loop. */
  method ResolveOne(ghost ps: seq<Prediction>, names: seq<string>, i: nat, candidates: seq<Prediction>, threshold: real,
                    before: map<string, string>, confidences: seq<real>, count: nat)
    returns (resolved: map<string, string>, winning: seq<real>, conflicts: nat)
    requires i < |names| && NoRepeats(names) && candidates == Group(ps, ByAttribute, names[i]) && candidates != []
    requires ResolvedUpTo(ps, names, i, threshold, before, confidences, count)
    ensures ResolvedUpTo(ps, names, i + 1, threshold, resolved, winning, conflicts)
  {
    ResolveStep(ps, names, i, threshold, before, confidences, count);
    resolved, winning, conflicts := before, confidences, count;
    var best := Best(candidates);
    if |Values(candidates)| > 1 {
      conflicts := conflicts + 1;
    }
    if !(best.confidence < threshold) {
      resolved := resolved[names[i] := best.value];
      winning := winning + [best.confidence];
    }
  }

  lemma ResolvedNone(ps: seq<Prediction>, names: seq<string>, threshold: real)
    ensures ResolvedUpTo(ps, names, 0, threshold, map[], [], 0)
  {
    assert names[..0] == [];
  }

  lemma ResolvedAll(ps: seq<Prediction>, names: seq<string>, threshold: real, resolved: map<string, string>, winning: seq<real>, conflicts: nat)
    requires ResolvedUpTo(ps, names, |names|, threshold, resolved, winning, conflicts)
    ensures Progress(ps, names, threshold, resolved, winning) && conflicts == |Disputes(ps, names)| && conflicts <= |names|
  {
    assert names[..|names|] == names;
  }

  method ResolveGroups(ghost ps: seq<Prediction>, names: seq<string>, groups: map<string, seq<Prediction>>, threshold: real)
    returns (resolved: map<string, string>, winning: seq<real>, conflicts: nat)
    requires NoRepeats(names)
    requires forall k :: k in names ==> k in groups && groups[k] == Group(ps, ByAttribute, k) && groups[k] != []
    ensures Progress(ps, names, threshold, resolved, winning)
    ensures conflicts == |Disputes(ps, names)| && conflicts <= |names|
  {
    resolved, winning, conflicts := map[], [], 0;
    ResolvedNone(ps, names, threshold);
    for i := 0 to |names|
      invariant ResolvedUpTo(ps, names, i, threshold, resolved, winning, conflicts)
    {
      assert names[i] in names;
      resolved, winning, conflicts := ResolveOne(ps, names, i, groups[names[i]], threshold, resolved, winning, conflicts);
    }
    ResolvedAll(ps, names, threshold, resolved, winning, conflicts);
  }

  method MergeAttributes(fields: seq<string>, ps: seq<Prediction>, threshold: real)
    returns (r: Result<Merge, MergeError>)
    ensures r.Err? <==> Supported(ps, "confidence", threshold)
    ensures r.Ok? ==> Merges(fields, ps, threshold, r.value)
  {
    var names, groups := GroupPredictions(ps);
    NamesDistinct(ps, ByAttribute);
    EveryGroup(ps);
    var resolved, winning, conflicts := ResolveGroups(ps, names, groups, threshold);
    assert "confidence" in resolved <==> Supported(ps, "confidence", threshold) by {
      ResolvedMeans(ps, names, threshold, resolved);
    }
    if "confidence" in resolved {
      return Err(ClashingField("confidence"));
    }
    MergeMeans(fields, ps, names, threshold, resolved, winning);
    var aggregate := if winning == [] then 0.0 else Total(winning) / |winning| as real;
    r := Ok(Merge(Attributes(Fields(fields, resolved), aggregate), conflicts, |names|));
  }

  /** The fields of the model among the resolved attributes; it ignores other names. */
  function Fields(fields: seq<string>, resolved: map<string, string>): map<string, string> {
    map a | a in resolved && a in fields :: resolved[a]
  }

  lemma MergeMeans(fields: seq<string>, ps: seq<Prediction>, names: seq<string>, threshold: real,
                   resolved: map<string, string>, winning: seq<real>)
    requires names == Names(ps, ByAttribute) && Progress(ps, names, threshold, resolved, winning)
    requires |Disputes(ps, names)| <= |names|
    ensures Merges(fields, ps, threshold, Merge(Attributes(Fields(fields, resolved), Mean(winning)), |Disputes(ps, names)|, |names|))
  {
    FieldsChosen(fields, ps, names, threshold, resolved);
    ConfidenceMeans(ps, names, threshold, winning);
    DisputesExactly(ps);
  }

  lemma ConfidenceMeans(ps: seq<Prediction>, names: seq<string>, threshold: real, winning: seq<real>)
    requires names == Names(ps, ByAttribute) && forall a :: a in names ==> Group(ps, ByAttribute, a) != []
    requires winning == Winning(ps, names, threshold)
    ensures Mean(winning) == Mean(Accepted(ps, threshold)) && 0.0 <= Mean(winning) <= 1.0 && AverageWinner(ps, threshold, Mean(winning))
  {
    MeanInRange(ps, names, threshold);
    MeanIsAverage(ps, threshold);
  }

  lemma FieldsChosen(fields: seq<string>, ps: seq<Prediction>, names: seq<string>, threshold: real, resolved: map<string, string>)
    requires names == Names(ps, ByAttribute) && forall a :: a in names ==> Group(ps, ByAttribute, a) != []
    requires Resolves(ps, names, threshold, resolved)
    ensures Chosen(fields, ps, threshold, Fields(fields, resolved))
  {
    ResolvedMeans(ps, names, threshold, resolved);
  }

  lemma DisputesExactly(ps: seq<Prediction>)
    ensures forall a :: a in Disputes(ps, Names(ps, ByAttribute)) <==> Disputed(ps, a)
  {
    var names := Names(ps, ByAttribute);
    NamesMembers(ps, ByAttribute);
    forall a ensures a in Disputes(ps, names) <==> Disputed(ps, a) {
      ConflictMeansDisputed(ps, a);
      if Disputed(ps, a) {
        var p :| p in ps && p.attribute == a;
        assert ByAttribute(p) == a;
      }
    }
  }

  /** What a resolved attribute is, in terms of the predictions. */
  lemma ResolvedMeans(ps: seq<Prediction>, names: seq<string>, threshold: real, resolved: map<string, string>)
    requires names == Names(ps, ByAttribute) && forall a :: a in names ==> Group(ps, ByAttribute, a) != []
    requires Resolves(ps, names, threshold, resolved)
    ensures forall a :: a in resolved <==> Supported(ps, a, threshold)
    ensures forall a :: a in resolved ==> exists k: nat :: Winner(ps, a, k) && resolved[a] == ps[k].value
  {
    NamesMembers(ps, ByAttribute);
    forall a ensures a in resolved <==> Supported(ps, a, threshold) {
      ResolvedExactly(ps, a, threshold);
      assert a in names <==> exists p :: p in ps && ByAttribute(p) == a;
    }
    forall a | a in resolved ensures exists k: nat :: Winner(ps, a, k) && resolved[a] == ps[k].value {
      BestWins(ps, a);
    }
  }

  lemma ResolvedExactly(ps: seq<Prediction>, a: string, threshold: real)
    ensures Supported(ps, a, threshold)
       <==> Group(ps, ByAttribute, a) != [] && Best(Group(ps, ByAttribute, a)).confidence >= threshold
    ensures (exists p :: p in ps && p.attribute == a) <==> Group(ps, ByAttribute, a) != []
  {
    GroupMembers(ps, ByAttribute, a);
    var g := Group(ps, ByAttribute, a);
    if g != [] {
      assert g[0] in g;
      BestWins(ps, a);
      var k: nat :| Winner(ps, a, k) && ps[k] == Best(g);
      if Supported(ps, a, threshold) {
        var p :| p in ps && p.attribute == a && p.confidence >= threshold;
        var j :| 0 <= j < |ps| && ps[j] == p;
        assert ps[j].confidence <= ps[k].confidence;
      }
    } else {
      assert forall p :: p in ps ==> (p in g <==> p.attribute == a);
    }
  }

  lemma {:induction false} TotalInRange(cs: seq<real>)
    requires forall i :: 0 <= i < |cs| ==> 0.0 <= cs[i] <= 1.0
    ensures 0.0 <= Total(cs) <= |cs| as real
  {
    if cs != [] {
      TotalInRange(cs[..|cs| - 1]);
    }
  }

  lemma {:induction false} WinningInRange(ps: seq<Prediction>, names: seq<string>, threshold: real)
    requires forall a :: a in names ==> Group(ps, ByAttribute, a) != []
    ensures forall i :: 0 <= i < |Winning(ps, names, threshold)| ==> 0.0 <= Winning(ps, names, threshold)[i] <= 1.0
  {
    if names != [] {
      WinningInRange(ps, names[..|names| - 1], threshold);
    }
  }

  lemma MeanInRange(ps: seq<Prediction>, names: seq<string>, threshold: real)
    requires forall a :: a in names ==> Group(ps, ByAttribute, a) != []
    ensures 0.0 <= Mean(Winning(ps, names, threshold)) <= 1.0
  {
    var cs := Winning(ps, names, threshold);
    WinningInRange(ps, names, threshold);
    TotalInRange(cs);
    if cs != [] {
      DivideInRange(Total(cs), |cs| as real);
    }
  }

  lemma DivideInRange(x: real, n: real)
    requires 0.0 <= x <= n && n > 0.0
    ensures 0.0 <= x / n <= 1.0
  {
    DivLe(x, n, n);
  }

  // ----- Quality score -----

  datatype Weights = Weights(completeness: real, confidence: real, consistency: real)

  function Filled(values: map<string, string>, names: seq<string>): (n: nat)
    ensures n <= |names|
  {
    if names == [] then 0 else Filled(values, names[..|names| - 1]) + if names[|names| - 1] in values then 1 else 0
  }

  function Weighted(w: Weights, completeness: real, confidence: real, consistency: real): real {
    Product(w.completeness, completeness) + Product(w.confidence, confidence) + Product(w.consistency, consistency)
  }

  function Clamp(x: real): real {
    var low := if x < 1.0 then x else 1.0;
    if low > 0.0 then low else 0.0
  }

  function Completeness(fields: seq<string>, a: Attributes): real
    requires fields != []
  {
    Filled(a.values, fields) as real / |fields| as real
  }

  function Consistency(conflicts: nat, considered: nat): real {
    if considered != 0 then 1.0 - conflicts as real / considered as real else 1.0
  }

  function QualityScore(w: Weights, fields: seq<string>, m: Merge): real
    requires fields != []
  {
    Clamp(Weighted(w, Completeness(fields, m.attributes), m.attributes.confidence, Consistency(m.conflicts, m.considered)))
  }

  /** Each score counts by its own weight. */
  lemma EachByItsWeight(w: Weights, x: real, y: real, z: real)
    ensures Weighted(w, 1.0, 0.0, 0.0) == w.completeness && Weighted(w, 0.0, 1.0, 0.0) == w.confidence && Weighted(w, 0.0, 0.0, 1.0) == w.consistency
    ensures Weighted(w, x, y, z)
         == Product(x, Weighted(w, 1.0, 0.0, 0.0)) + Product(y, Weighted(w, 0.0, 1.0, 0.0)) + Product(z, Weighted(w, 0.0, 0.0, 1.0))
  {
  }

  /** The share of the model's fields that are set, and of the attributes considered that are not disputed. */
  lemma SharesMean(fields: seq<string>, a: Attributes, conflicts: nat, considered: nat)
    requires fields != []
    ensures Product(Completeness(fields, a), |fields| as real) == |set i | 0 <= i < |fields| && fields[i] in a.values| as real
    ensures considered > 0 ==> Product(1.0 - Consistency(conflicts, considered), considered as real) == conflicts as real
    ensures considered == 0 ==> Consistency(conflicts, considered) == 1.0
  {
    FilledCounts(a.values, fields);
    DivMul(Filled(a.values, fields) as real, |fields| as real);
    if considered > 0 { DivMul(conflicts as real, considered as real); }
  }

  lemma {:induction false} FilledCounts(values: map<string, string>, names: seq<string>)
    ensures Filled(values, names) == |set i | 0 <= i < |names| && names[i] in values|
  {
    if names != [] {
      var n := |names| - 1;
      FilledCounts(values, names[..n]);
      var before := set i | 0 <= i < n && names[..n][i] in values;
      assert (set i | 0 <= i < |names| && names[i] in values) == before + if names[n] in values then {n} else {};
    }
  }

  /** The score never leaves the unit interval, and is the weighted sum wherever that stays in it. */
  lemma ScoreClamped(w: Weights, fields: seq<string>, m: Merge)
    requires fields != []
    ensures var x := Weighted(w, Completeness(fields, m.attributes), m.attributes.confidence, Consistency(m.conflicts, m.considered));
            var score := QualityScore(w, fields, m);
            0.0 <= score <= 1.0 && (0.0 <= x <= 1.0 ==> score == x) && (x < 0.0 ==> score == 0.0) && (x > 1.0 ==> score == 1.0)
  {
  }

  lemma ShareInRange(w: real, x: real)
    requires w >= 0.0 && 0.0 <= x <= 1.0
    ensures 0.0 <= Product(w, x) <= w
  {
    MulLe(w, 0.0, x);
    MulLe(w, x, 1.0);
  }

  lemma ClampSum(a: real, b: real, c: real, p: real, q: real, r: real)
    requires 0.0 <= a <= p && 0.0 <= b <= q && 0.0 <= c <= r && p + q + r <= 1.0
    ensures Clamp(a + b + c) == a + b + c
  {
  }

  lemma WeightedInRange(w: Weights, x: real, y: real, z: real)
    requires w.completeness >= 0.0 && w.confidence >= 0.0 && w.consistency >= 0.0
    requires w.completeness + w.confidence + w.consistency <= 1.0
    requires 0.0 <= x <= 1.0 && 0.0 <= y <= 1.0 && 0.0 <= z <= 1.0
    ensures Clamp(Weighted(w, x, y, z)) == Weighted(w, x, y, z)
  {
    ShareInRange(w.completeness, x);
    ShareInRange(w.confidence, y);
    ShareInRange(w.consistency, z);
    ClampSum(Product(w.completeness, x), Product(w.confidence, y), Product(w.consistency, z), w.completeness, w.confidence, w.consistency);
  }

  /**
   For whatever a merge yields, the score is the weighted sum itself when the weights are non-negative
   and sum to at most 1.
   */
  lemma ClampIsIdle(fields: seq<string>, ps: seq<Prediction>, threshold: real, m: Merge, w: Weights)
    requires fields != [] && Merges(fields, ps, threshold, m)
    requires w.completeness >= 0.0 && w.confidence >= 0.0 && w.consistency >= 0.0
    requires w.completeness + w.confidence + w.consistency <= 1.0
    ensures QualityScore(w, fields, m)
         == Weighted(w, Completeness(fields, m.attributes), m.attributes.confidence, Consistency(m.conflicts, m.considered))
  {
    DivideInRange(Filled(m.attributes.values, fields) as real, |fields| as real);
    if m.considered != 0 {
      DivideInRange(m.conflicts as real, m.considered as real);
    }
    WeightedInRange(w, Completeness(fields, m.attributes), m.attributes.confidence, Consistency(m.conflicts, m.considered));
  }

  /** Over all scores between 0 and 1 the clamp never acts exactly when the weights sum to at most 1. */
  lemma ClampIdleExactly(w: Weights)
    requires w.completeness >= 0.0 && w.confidence >= 0.0 && w.consistency >= 0.0
    ensures (forall x: Unit, y: Unit, z: Unit :: Clamp(Weighted(w, x, y, z)) == Weighted(w, x, y, z))
       <==> w.completeness + w.confidence + w.consistency <= 1.0
  {
    if w.completeness + w.confidence + w.consistency <= 1.0 {
      forall x: Unit, y: Unit, z: Unit ensures Clamp(Weighted(w, x, y, z)) == Weighted(w, x, y, z) {
        WeightedInRange(w, x, y, z);
      }
    } else {
      var one: Unit := 1.0;
      assert Clamp(Weighted(w, one, one, one)) == 1.0;
      assert Weighted(w, one, one, one) == w.completeness + w.confidence + w.consistency;
    }
  }

  // ----- Tags -----

  function KeyOf(t: CharTables): Tag -> string {
    (x: Tag) => TagKey(t, x.tag)
  }

  /** The tags whose key is not empty. */
  function Usable(t: CharTables, tags: seq<Tag>): seq<Tag> {
    if tags == [] then []
    else Usable(t, tags[..|tags| - 1]) + if TagKey(t, tags[|tags| - 1].tag) == "" then [] else [tags[|tags| - 1]]
  }

  lemma {:induction false} UsableMembers(t: CharTables, tags: seq<Tag>)
    ensures forall x :: x in Usable(t, tags) <==> x in tags && TagKey(t, x.tag) != ""
  {
    if tags != [] {
      UsableMembers(t, tags[..|tags| - 1]);
      assert tags == tags[..|tags| - 1] + [tags[|tags| - 1]];
    }
  }

  function Highest(g: seq<Tag>): (c: Unit)
    requires g != []
    ensures exists x :: x in g && x.confidence == c
    ensures forall x :: x in g ==> x.confidence <= c
  {
    var last := g[|g| - 1];
    assert g == g[..|g| - 1] + [last];
    if |g| == 1 then
      assert last in g;
      last.confidence
    else
      var c := Highest(g[..|g| - 1]);
      if last.confidence > c then last.confidence else c
  }

  function Sources(g: seq<Tag>): (s: set<Source>)
    ensures forall x :: x in s <==> exists y :: y in g && y.source == x
  {
    if g == [] then {}
    else
      assert g == g[..|g| - 1] + [g[|g| - 1]];
      Sources(g[..|g| - 1]) + {g[|g| - 1].source}
  }

  function MergedSource(g: seq<Tag>): Source
    requires g != []
  {
    if |Sources(g)| > 1 then Hybrid else g[0].source
  }

  lemma SourceMeans(g: seq<Tag>)
    requires g != []
    ensures (exists x, y :: x in g && y in g && x.source != y.source) ==> MergedSource(g) == Hybrid
    ensures (forall x, y :: x in g && y in g ==> x.source == y.source) ==> forall x :: x in g ==> MergedSource(g) == x.source
  {
    var s := Sources(g);
    if x, y :| x in g && y in g && x.source != y.source {
      SubsetSize({x.source, y.source}, s);
    } else {
      assert g[0] in g;
      assert s == {g[0].source};
    }
  }

  /** The merged tags in order of first occurrence, before sorting. */
  function Collected(t: CharTables, usable: seq<Tag>, names: seq<string>, threshold: real): seq<Tag>
    requires forall k :: k in names ==> Group(usable, KeyOf(t), k) != []
  {
    if names == [] then []
    else
      var k := names[|names| - 1];
      var g := Group(usable, KeyOf(t), k);
      Collected(t, usable, names[..|names| - 1], threshold) +
      if Highest(g) < threshold then [] else [Tag(k, Highest(g), MergedSource(g))]
  }

  lemma AllGrouped(t: CharTables, tags: seq<Tag>)
    ensures forall k :: k in Names(Usable(t, tags), KeyOf(t)) ==> Group(Usable(t, tags), KeyOf(t), k) != []
  {
    forall k | k in Names(Usable(t, tags), KeyOf(t)) ensures Group(Usable(t, tags), KeyOf(t), k) != [] {
      NonEmptyGroup(Usable(t, tags), KeyOf(t), k);
    }
  }

  function Merged(t: CharTables, tags: seq<Tag>, threshold: real): seq<Tag> {
    AllGrouped(t, tags);
    Collected(t, Usable(t, tags), Names(Usable(t, tags), KeyOf(t)), threshold)
  }

  function Confidences(tags: seq<Tag>): (keys: seq<real>)
    ensures |keys| == |tags| && forall i :: 0 <= i < |tags| ==> keys[i] == tags[i].confidence
  {
    seq(|tags|, i requires 0 <= i < |tags| => tags[i].confidence as real)
  }

  /** `list.sort(key=confidence, reverse=True)` */
  function Sorted(tags: seq<Tag>): (r: seq<Tag>)
    ensures |r| == |tags|
  {
    var p := Order(Confidences(tags));
    seq(|p|, i requires 0 <= i < |p| => tags[p[i]])
  }

  lemma UsableSnoc(t: CharTables, tags: seq<Tag>, i: nat)
    requires i < |tags|
    ensures Usable(t, tags[..i + 1]) == Usable(t, tags[..i]) + if TagKey(t, tags[i].tag) == "" then [] else [tags[i]]
  {
    assert tags[..i + 1][..i] == tags[..i];
  }

  lemma GroupedStep(t: CharTables, tags: seq<Tag>, i: nat, names: seq<string>, groups: map<string, seq<Tag>>)
    requires i < |tags| && Grouped(Usable(t, tags[..i]), KeyOf(t), names, groups)
    ensures var k := TagKey(t, tags[i].tag);
            if k == "" then Grouped(Usable(t, tags[..i + 1]), KeyOf(t), names, groups)
            else Grouped(Usable(t, tags[..i + 1]), KeyOf(t), if k in groups then names else names + [k],
                         groups[k := (if k in groups then groups[k] else []) + [tags[i]]])
  {
    var usable := Usable(t, tags[..i]);
    UsableSnoc(t, tags, i);
    if TagKey(t, tags[i].tag) == "" {
      assert usable + [] == usable;
    } else {
      AppendGrouped(usable, KeyOf(t), names, groups, tags[i]);
      assert KeyOf(t)(tags[i]) == TagKey(t, tags[i].tag);
    }
  }

  method GroupTags(t: CharTables, tags: seq<Tag>) returns (names: seq<string>, groups: map<string, seq<Tag>>)
    ensures Grouped(Usable(t, tags), KeyOf(t), names, groups)
  {
    names, groups := [], map[];
    for i := 0 to |tags|
      invariant Grouped(Usable(t, tags[..i]), KeyOf(t), names, groups)
    {
      GroupedStep(t, tags, i, names, groups);
      var k := TagKey(t, tags[i].tag);
      if k == "" { continue; }
      if k !in groups {
        names := names + [k];
        groups := groups[k := []];
      }
      groups := groups[k := groups[k] + [tags[i]]];
    }
    assert tags[..|tags|] == tags;
  }

  method MergeTags(t: CharTables, tags: seq<Tag>, threshold: real, maxTags: int) returns (r: seq<Tag>)
    ensures r == Take(Sorted(Merged(t, tags, threshold)), maxTags)
  {
    var names, groups := GroupTags(t, tags);
    AllGrouped(t, tags);
    ghost var usable := Usable(t, tags);
    var merged: seq<Tag> := [];
    for i := 0 to |names|
      invariant merged == Collected(t, usable, names[..i], threshold)
    {
      assert names[..i + 1][..i] == names[..i];
      assert names[i] in names;
      var candidates := groups[names[i]];
      var best := Highest(candidates);
      if !(best < threshold) {
        var source := MergedSource(candidates);
        merged := merged + [Tag(names[i], best, source)];
      }
    }
    assert names[..|names|] == names;
    return Take(Sorted(merged), maxTags);
  }

  // ----- What the merged tags are -----

  /** m is the merge of the tags that share its key: their highest confidence, and Hybrid if their sources differ. */
  ghost predicate IsMerged(t: CharTables, tags: seq<Tag>, threshold: real, m: Tag) {
    && m.tag != "" && m.confidence >= threshold
    && (exists x :: x in tags && TagKey(t, x.tag) == m.tag && x.confidence == m.confidence)
    && (forall x :: x in tags && TagKey(t, x.tag) == m.tag ==> x.confidence <= m.confidence)
    && if MixedSources(t, tags, m.tag) then m.source == Hybrid
       else exists x :: x in tags && TagKey(t, x.tag) == m.tag && x.source == m.source
  }

  ghost predicate MixedSources(t: CharTables, tags: seq<Tag>, k: string) {
    exists x, y :: x in tags && y in tags && TagKey(t, x.tag) == k && TagKey(t, y.tag) == k && x.source != y.source
  }

  lemma {:induction false} CollectedMembers(t: CharTables, usable: seq<Tag>, names: seq<string>, threshold: real, m: Tag)
    requires forall k :: k in names ==> Group(usable, KeyOf(t), k) != []
    ensures m in Collected(t, usable, names, threshold) <==>
              m.tag in names && Highest(Group(usable, KeyOf(t), m.tag)) >= threshold
              && m == Tag(m.tag, Highest(Group(usable, KeyOf(t), m.tag)), MergedSource(Group(usable, KeyOf(t), m.tag)))
  {
    if names != [] {
      CollectedMembers(t, usable, names[..|names| - 1], threshold, m);
      assert names == names[..|names| - 1] + [names[|names| - 1]];
    }
  }

  lemma {:induction false} CollectedDistinct(t: CharTables, usable: seq<Tag>, names: seq<string>, threshold: real)
    requires forall k :: k in names ==> Group(usable, KeyOf(t), k) != []
    requires NoRepeats(names)
    ensures DistinctTags(Collected(t, usable, names, threshold), names)
  {
    if names != [] {
      var init, k := names[..|names| - 1], names[|names| - 1];
      CollectedDistinct(t, usable, init, threshold);
      assert names == init + [k];
      var g := Group(usable, KeyOf(t), k);
      AddDistinct(Collected(t, usable, init, threshold), init, Tag(k, Highest(g), MergedSource(g)));
    }
  }

  ghost predicate DistinctTags(c: seq<Tag>, names: seq<string>) {
    && (forall i, j :: 0 <= i < j < |c| ==> c[i].tag != c[j].tag)
    && forall i :: 0 <= i < |c| ==> c[i].tag in names
  }

  lemma AddDistinct(c: seq<Tag>, names: seq<string>, m: Tag)
    requires DistinctTags(c, names)
    ensures DistinctTags(c, names + [m.tag])
    ensures m.tag !in names ==> DistinctTags(c + [m], names + [m.tag])
  {
  }

  lemma GroupOfKey(t: CharTables, tags: seq<Tag>, k: string)
    requires k != ""
    ensures forall x :: x in Group(Usable(t, tags), KeyOf(t), k) <==> x in tags && TagKey(t, x.tag) == k
    ensures k in Names(Usable(t, tags), KeyOf(t)) <==> exists x :: x in tags && TagKey(t, x.tag) == k
  {
    UsableMembers(t, tags);
    GroupMembers(Usable(t, tags), KeyOf(t), k);
    NamesMembers(Usable(t, tags), KeyOf(t));
    if k in Names(Usable(t, tags), KeyOf(t)) {
      var x :| x in Usable(t, tags) && KeyOf(t)(x) == k;
      assert TagKey(t, x.tag) == k;
    }
    if x :| x in tags && TagKey(t, x.tag) == k {
      assert x in Usable(t, tags) && KeyOf(t)(x) == k;
    }
  }

  lemma NoEmptyKey(t: CharTables, tags: seq<Tag>)
    ensures "" !in Names(Usable(t, tags), KeyOf(t))
  {
    UsableMembers(t, tags);
    NamesMembers(Usable(t, tags), KeyOf(t));
  }

  /** The members of a key's group are the tags with that key. */
  ghost predicate IsGroup(t: CharTables, tags: seq<Tag>, k: string, g: seq<Tag>) {
    g != [] && forall x :: x in g <==> x in tags && TagKey(t, x.tag) == k
  }

  lemma GroupSource(t: CharTables, tags: seq<Tag>, k: string, g: seq<Tag>, source: Source)
    requires IsGroup(t, tags, k, g)
    ensures (if MixedSources(t, tags, k) then source == Hybrid
             else exists x :: x in tags && TagKey(t, x.tag) == k && x.source == source)
       <==> source == MergedSource(g)
  {
    SourceMeans(g);
    assert g[0] in g;
    if MixedSources(t, tags, k) {
      var x, y :| x in tags && y in tags && TagKey(t, x.tag) == k && TagKey(t, y.tag) == k && x.source != y.source;
      assert x in g && y in g;
    }
  }

  lemma MergedOfGroup(t: CharTables, tags: seq<Tag>, threshold: real, m: Tag, g: seq<Tag>)
    requires IsGroup(t, tags, m.tag, g) && m.tag != ""
    ensures IsMerged(t, tags, threshold, m) <==> Highest(g) >= threshold && m.confidence == Highest(g) && m.source == MergedSource(g)
  {
    GroupSource(t, tags, m.tag, g, m.source);
    var x :| x in g && x.confidence == Highest(g);
  }

  /** The merged tags are exactly the merges of the tags by key, each once. */
  lemma MergedExactly(t: CharTables, tags: seq<Tag>, threshold: real, m: Tag)
    ensures m in Merged(t, tags, threshold) <==> IsMerged(t, tags, threshold, m)
  {
    var usable := Usable(t, tags);
    AllGrouped(t, tags);
    NoEmptyKey(t, tags);
    CollectedMembers(t, usable, Names(usable, KeyOf(t)), threshold, m);
    if m.tag != "" {
      GroupOfKey(t, tags, m.tag);
      if m.tag in Names(usable, KeyOf(t)) {
        MergedOfGroup(t, tags, threshold, m, Group(usable, KeyOf(t), m.tag));
      }
    }
  }

  /** Which merged tags there are depends only on which tags go in, not on their order or number. */
  lemma MergeIgnoresOrder(t: CharTables, tags: seq<Tag>, others: seq<Tag>, threshold: real, m: Tag)
    requires forall x :: x in tags <==> x in others
    ensures m in Merged(t, tags, threshold) <==> m in Merged(t, others, threshold)
  {
    MergedExactly(t, tags, threshold, m);
    MergedExactly(t, others, threshold, m);
    MixedSame(t, tags, others, m.tag);
    MixedSame(t, others, tags, m.tag);
  }

  lemma MixedSame(t: CharTables, tags: seq<Tag>, others: seq<Tag>, k: string)
    requires forall x :: x in tags <==> x in others
    ensures MixedSources(t, tags, k) ==> MixedSources(t, others, k)
  {
  }

  lemma MergedDistinct(t: CharTables, tags: seq<Tag>, threshold: real)
    ensures var m := Merged(t, tags, threshold);
            forall i, j :: 0 <= i < j < |m| ==> m[i].tag != m[j].tag
  {
    AllGrouped(t, tags);
    NamesDistinct(Usable(t, tags), KeyOf(t));
    CollectedDistinct(t, Usable(t, tags), Names(Usable(t, tags), KeyOf(t)), threshold);
  }

  lemma KeptTags(t: CharTables, tags: seq<Tag>, threshold: real, maxTags: nat)
    ensures var out := Take(Sorted(Merged(t, tags, threshold)), maxTags);
            && (forall i :: 0 <= i < |out| ==> out[i] in Merged(t, tags, threshold))
            && (forall i, j :: 0 <= i < j < |out| ==> out[i].tag != out[j].tag && out[i].confidence >= out[j].confidence)
  {
    var merged := Merged(t, tags, threshold);
    var keys := Confidences(merged);
    var p := Order(keys);
    var out := Take(Sorted(merged), maxTags);
    RankingDistinct(keys, p);
    MergedDistinct(t, tags, threshold);
    assert forall i :: 0 <= i < |out| ==> out[i] == merged[p[i]];
    forall i, j | 0 <= i < j < |out| ensures out[i].tag != out[j].tag && out[i].confidence >= out[j].confidence {
      assert Before(keys, p[i], p[j]);
    }
  }

  /**
   What comes out of the merge: merged tags with distinct keys, most confident first, at most
   `maxTags`, and none left out that is more confident than one kept.
   */
  lemma BestTagsKept(t: CharTables, tags: seq<Tag>, threshold: real, maxTags: nat)
    ensures var out := Take(Sorted(Merged(t, tags, threshold)), maxTags);
            && |out| <= maxTags
            && (forall i :: 0 <= i < |out| ==> IsMerged(t, tags, threshold, out[i]))
            && (forall i, j :: 0 <= i < j < |out| ==> out[i].tag != out[j].tag && out[i].confidence >= out[j].confidence)
            && (forall m :: IsMerged(t, tags, threshold, m) && m !in out ==>
                  |out| == maxTags && forall i :: 0 <= i < |out| ==> m.confidence <= out[i].confidence)
  {
    var merged := Merged(t, tags, threshold);
    var out := Take(Sorted(merged), maxTags);
    KeptTags(t, tags, threshold, maxTags);
    forall m: Tag ensures m in merged <==> IsMerged(t, tags, threshold, m) {
      MergedExactly(t, tags, threshold, m);
    }
    forall m | m in merged && m !in out
      ensures |out| == maxTags && forall i :: 0 <= i < |out| ==> m.confidence <= out[i].confidence
    {
      var c :| 0 <= c < |merged| && merged[c] == m;
      LeftOutRanksLower(merged, maxTags, c);
    }
  }

  lemma LeftOutRanksLower(merged: seq<Tag>, maxTags: nat, c: nat)
    requires c < |merged| && merged[c] !in Take(Sorted(merged), maxTags)
    ensures var out := Take(Sorted(merged), maxTags);
            |out| == maxTags && forall i :: 0 <= i < |out| ==> merged[c].confidence <= out[i].confidence
  {
    var keys := Confidences(merged);
    var p := Order(keys);
    var out := Take(Sorted(merged), maxTags);
    RankingDistinct(keys, p);
    Hits(p, |keys|, c);
    var b :| 0 <= b < |p| && p[b] == c;
    assert forall i :: 0 <= i < |out| ==> out[i] == merged[p[i]];
    forall i | 0 <= i < |out| ensures merged[c].confidence <= out[i].confidence {
      assert Before(keys, p[i], p[b]);
    }
  }
}
