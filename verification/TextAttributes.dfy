/**
 Attributes and tags found in a product's text by whole-word keyword search
 (backend/app/services/catalog/text_attribute_service.py). The keyword tables and the character
 tables are parameters; a keyword table is a list of pairs, in the order the dict was written.
 */
module TextAttributes {
  import opened Wrappers
  import opened Facets
  import opened Catalog

  datatype Script = Script(tables: CharTables, isWord: char -> bool)

  datatype Keyword = Keyword(word: string, value: string)

  type Keywords = seq<Keyword>

  datatype AttributeTable = AttributeTable(attribute: string, keywords: Keywords, confidence: Unit)

  /** `tagged` are the tables of which every match becomes a tag, `descriptors` the sorted descriptor words. */
  datatype Lexicon = Lexicon(brands: AttributeTable, categories: AttributeTable, others: seq<AttributeTable>,
                             tagged: seq<AttributeTable>, descriptors: seq<string>, descriptorConfidence: Unit)

  datatype Product = Product(name: string, brand: Option<string>, category: Option<string>, description: Option<string>)

  // ----- Whole-word search -----

  /** `\b`: exactly one side of position i is a word character. */
  predicate Edge(sc: Script, s: string, i: nat)
    requires i <= |s|
  {
    (i > 0 && sc.isWord(s[i - 1])) != (i < |s| && sc.isWord(s[i]))
  }

  predicate WordAt(sc: Script, s: string, word: string, i: nat) {
    i + |word| <= |s| && s[i..i + |word|] == word && Edge(sc, s, i) && Edge(sc, s, i + |word|)
  }

  /** For a word that begins and ends in word characters: it stands there, and no word character touches it. */
  lemma WordAtMeans(sc: Script, s: string, word: string, i: nat)
    requires word != "" && sc.isWord(word[0]) && sc.isWord(word[|word| - 1])
    ensures WordAt(sc, s, word, i) <==>
            && i + |word| <= |s| && (forall k :: 0 <= k < |word| ==> s[i + k] == word[k])
            && (i > 0 ==> !sc.isWord(s[i - 1])) && (i + |word| < |s| ==> !sc.isWord(s[i + |word|]))
  {
    if i + |word| <= |s| {
      assert s[i..i + |word|] == word <==> forall k :: 0 <= k < |word| ==> s[i + k] == word[k];
    }
  }

  function SearchFrom(sc: Script, s: string, word: string, i: nat): (r: Option<nat>)
    requires i <= |s|
    ensures r.Some? ==> i <= r.value && WordAt(sc, s, word, r.value)
    ensures forall j :: i <= j < (if r.Some? then r.value else |s| + 1) ==> !WordAt(sc, s, word, j)
    decreases |s| - i
  {
    if WordAt(sc, s, word, i) then Some(i)
    else if i == |s| then None
    else SearchFrom(sc, s, word, i + 1)
  }

  /** Where a whole-word match starts first. */
  function Search(sc: Script, s: string, word: string): (r: Option<nat>)
    ensures r.Some? ==> WordAt(sc, s, word, r.value)
    ensures forall j :: 0 <= j < (if r.Some? then r.value else |s| + 1) ==> !WordAt(sc, s, word, j)
  {
    SearchFrom(sc, s, word, 0)
  }

  // ----- Keyword finders -----

  /** Where each keyword's first match starts. */
  function Starts(sc: Script, s: string, kws: Keywords): (r: seq<Option<nat>>)
    ensures |r| == |kws| && forall k :: 0 <= k < |kws| ==> r[k] == Search(sc, s, kws[k].word)
  {
    seq(|kws|, k requires 0 <= k < |kws| => Search(sc, s, kws[k].word))
  }

  /** Keyword k is the one that starts earliest, and the first in the table of those. */
  ghost predicate Wins(starts: seq<Option<nat>>, k: nat) {
    && k < |starts| && starts[k].Some?
    && (forall j :: 0 <= j < k && starts[j].Some? ==> starts[k].value < starts[j].value)
    && (forall j :: k < j < |starts| && starts[j].Some? ==> starts[k].value <= starts[j].value)
  }

  ghost predicate NoneStarts(starts: seq<Option<nat>>) {
    forall k :: 0 <= k < |starts| ==> starts[k] == None
  }

  function Earliest(starts: seq<Option<nat>>): (r: Option<nat>)
    ensures r == None ==> NoneStarts(starts)
    ensures r.Some? ==> Wins(starts, r.value)
  {
    if starts == [] then None
    else
      var n := |starts| - 1;
      var best := Earliest(starts[..n]);
      assert forall k :: 0 <= k < n ==> starts[..n][k] == starts[k];
      if starts[n].Some? && (best == None || starts[n].value < starts[best.value].value) then Some(n) else best
  }

  function FirstKeyword(sc: Script, text: string, kws: Keywords): Option<string> {
    match Earliest(Starts(sc, Casefold(sc.tables, text), kws))
    case None => None
    case Some(k) => Some(kws[k].value)
  }

  /** What the finder's two variables hold after looking at these keywords. */
  ghost predicate BestSoFar(sc: Script, s: string, kws: Keywords, index: Option<nat>, value: Option<string>) {
    var starts := Starts(sc, s, kws);
    match Earliest(starts)
    case None => index == None && value == None
    case Some(k) => index == starts[k] && value == Some(kws[k].value)
  }

  lemma BestStep(sc: Script, s: string, kws: Keywords, i: nat, index: Option<nat>, value: Option<string>)
    requires i < |kws| && BestSoFar(sc, s, kws[..i], index, value)
    ensures var m := Search(sc, s, kws[i].word);
            if m.Some? && (index == None || m.value < index.value) then BestSoFar(sc, s, kws[..i + 1], m, Some(kws[i].value))
            else BestSoFar(sc, s, kws[..i + 1], index, value)
  {
    var before, after := Starts(sc, s, kws[..i]), Starts(sc, s, kws[..i + 1]);
    assert after[i] == Search(sc, s, kws[i].word);
    assert after[..i] == before;
    EarliestSnoc(after);
  }

  lemma EarliestSnoc(starts: seq<Option<nat>>)
    requires starts != []
    ensures var n := |starts| - 1;
            var best := Earliest(starts[..n]);
            Earliest(starts) == if starts[n].Some? && (best == None || starts[n].value < starts[best.value].value) then Some(n) else best
  {
  }

  ghost predicate Mentions(sc: Script, s: string, kws: Keywords, value: string) {
    exists k :: 0 <= k < |kws| && kws[k].value == value && Search(sc, s, kws[k].word).Some?
  }

  /** The value of the keyword that starts earliest in the text, none if no keyword is in it. */
  method FindFirstKeyword(sc: Script, text: string, kws: Keywords) returns (bestValue: Option<string>)
    ensures bestValue == FirstKeyword(sc, text, kws)
    ensures var starts := Starts(sc, Casefold(sc.tables, text), kws);
            && (bestValue == None <==> NoneStarts(starts))
            && (bestValue.Some? ==> exists k: nat :: Wins(starts, k) && bestValue == Some(kws[k].value))
  {
    var lowered := Casefold(sc.tables, text);
    var bestIndex: Option<nat> := None;
    bestValue := None;
    for i := 0 to |kws|
      invariant BestSoFar(sc, lowered, kws[..i], bestIndex, bestValue)
    {
      BestStep(sc, lowered, kws, i, bestIndex, bestValue);
      var m := Search(sc, lowered, kws[i].word);
      if m.Some? && (bestIndex == None || m.value < bestIndex.value) {
        bestIndex := m;
        bestValue := Some(kws[i].value);
      }
    }
    assert kws[..|kws|] == kws;
    BestMeans(sc, lowered, kws, bestIndex, bestValue);
  }

  lemma BestMeans(sc: Script, s: string, kws: Keywords, index: Option<nat>, value: Option<string>)
    requires BestSoFar(sc, s, kws, index, value)
    ensures var starts := Starts(sc, s, kws);
            && (value == None <==> NoneStarts(starts))
            && (value.Some? ==> exists k: nat :: Wins(starts, k) && value == Some(kws[k].value))
  {
    var starts := Starts(sc, s, kws);
    var best := Earliest(starts);
    if best.Some? {
      assert Wins(starts, best.value);
      assert starts[best.value].Some?;
    }
  }

  function AllKeywords(sc: Script, text: string, kws: Keywords): (found: seq<string>)
  {
    if kws == [] then []
    else
      var last := kws[|kws| - 1];
      var found := AllKeywords(sc, text, kws[..|kws| - 1]);
      if Search(sc, Casefold(sc.tables, text), last.word).Some? && last.value !in found then found + [last.value] else found
  }

  ghost predicate NoRepeats(s: seq<string>) {
    forall i, j :: 0 <= i < j < |s| ==> s[i] != s[j]
  }

  method FindAllKeywords(sc: Script, text: string, kws: Keywords) returns (found: seq<string>)
    ensures found == AllKeywords(sc, text, kws)
    ensures NoRepeats(found)
    ensures forall v :: v in found <==> Mentions(sc, Casefold(sc.tables, text), kws, v)
  {
    var lowered := Casefold(sc.tables, text);
    found := [];
    for i := 0 to |kws|
      invariant found == AllKeywords(sc, text, kws[..i])
    {
      assert kws[..i + 1][..i] == kws[..i];
      if Search(sc, lowered, kws[i].word).Some? && kws[i].value !in found {
        found := found + [kws[i].value];
      }
    }
    assert kws[..|kws|] == kws;
    AllKeywordsMeans(sc, text, kws);
  }

  lemma {:induction false} AllKeywordsMeans(sc: Script, text: string, kws: Keywords)
    ensures NoRepeats(AllKeywords(sc, text, kws))
    ensures forall v :: v in AllKeywords(sc, text, kws) <==> Mentions(sc, Casefold(sc.tables, text), kws, v)
  {
    if kws != [] {
      var n := |kws| - 1;
      var init := kws[..n];
      AllKeywordsMeans(sc, text, init);
      var s := Casefold(sc.tables, text);
      forall v ensures v in AllKeywords(sc, text, kws) <==> Mentions(sc, s, kws, v) {
        MentionsSnoc(sc, s, kws, v);
      }
    }
  }

  lemma MentionsSnoc(sc: Script, s: string, kws: Keywords, v: string)
    requires kws != []
    ensures var n := |kws| - 1;
            Mentions(sc, s, kws, v) <==> Mentions(sc, s, kws[..n], v) || (kws[n].value == v && Search(sc, s, kws[n].word).Some?)
  {
    var n := |kws| - 1;
    if Mentions(sc, s, kws, v) {
      var k :| 0 <= k < |kws| && kws[k].value == v && Search(sc, s, kws[k].word).Some?;
      if k < n { assert kws[..n][k] == kws[k]; }
    }
    if Mentions(sc, s, kws[..n], v) {
      var k :| 0 <= k < n && kws[..n][k].value == v && Search(sc, s, kws[..n][k].word).Some?;
      assert kws[k] == kws[..n][k];
    }
  }

  // ----- Attributes -----

  function Given(s: Option<string>): seq<string> {
    if s.Some? && s.value != "" then [s.value] else []
  }

  /** `" ".join(part for part in (name, category, description) if part)` */
  function CombinedText(p: Product): string {
    JoinSpace((if p.name != "" then [p.name] else []) + Given(p.category) + Given(p.description))
  }

  function JoinSpace(parts: seq<string>): string {
    if parts == [] then "" else if |parts| == 1 then parts[0] else parts[0] + " " + JoinSpace(parts[1..])
  }

  /** Two texts with a space between them, if neither is empty. */
  function Spaced(a: string, b: string): string {
    if a == "" then b else if b == "" then a else a + " " + b
  }

  /** Name, category and description in this order, without those that are missing or empty. */
  lemma CombinedIsSpaced(p: Product)
    ensures CombinedText(p) == Spaced(Spaced(p.name, p.category.GetOr("")), p.description.GetOr(""))
  {
    var parts := if p.name != "" then [p.name] else [];
    JoinGiven(parts, p.category);
    JoinGiven(parts + Given(p.category), p.description);
  }

  lemma {:induction false} JoinGiven(parts: seq<string>, more: Option<string>)
    requires forall x :: x in parts ==> x != ""
    ensures JoinSpace(parts + Given(more)) == Spaced(JoinSpace(parts), more.GetOr(""))
    ensures parts != [] ==> JoinSpace(parts) != ""
  {
    if Given(more) == [] {
      assert parts + Given(more) == parts;
    }
    if |parts| == 1 {
      assert (parts + Given(more))[1..] == Given(more);
      assert parts[0] in parts;
    } else if |parts| > 1 {
      assert (parts + Given(more))[1..] == parts[1..] + Given(more);
      assert forall x :: x in parts[1..] ==> x in parts;
      JoinGiven(parts[1..], more);
    }
  }

  function FirstMatch(sc: Script, text: string, t: AttributeTable): seq<Prediction> {
    match FirstKeyword(sc, text, t.keywords)
    case None => []
    case Some(v) => [Prediction(t.attribute, v, t.confidence, TextSource)]
  }

  /** A field the client gave is trusted outright, otherwise the text is searched. */
  function Submitted(sc: Script, text: string, given: Option<string>, t: AttributeTable): seq<Prediction> {
    if given.Some? && given.value != "" then [Prediction(t.attribute, given.value, 1.0, TextSource)] else FirstMatch(sc, text, t)
  }

  function Concat(lists: seq<seq<Prediction>>): seq<Prediction> {
    if lists == [] then [] else Concat(lists[..|lists| - 1]) + lists[|lists| - 1]
  }

  function FirstMatches(sc: Script, text: string, ts: seq<AttributeTable>): (lists: seq<seq<Prediction>>)
    ensures |lists| == |ts| && forall i :: 0 <= i < |ts| ==> lists[i] == FirstMatch(sc, text, ts[i])
  {
    seq(|ts|, i requires 0 <= i < |ts| => FirstMatch(sc, text, ts[i]))
  }

  function Matches(sc: Script, text: string, ts: seq<AttributeTable>): seq<Prediction> {
    Concat(FirstMatches(sc, text, ts))
  }

  function Extracted(sc: Script, lex: Lexicon, p: Product): seq<Prediction> {
    var text := CombinedText(p);
    Submitted(sc, text, p.brand, lex.brands) + Submitted(sc, text, p.category, lex.categories) + Matches(sc, text, lex.others)
  }

  method AppendFirstMatch(sc: Script, predictions: seq<Prediction>, text: string, t: AttributeTable) returns (r: seq<Prediction>)
    ensures r == predictions + FirstMatch(sc, text, t)
  {
    var value := FindFirstKeyword(sc, text, t.keywords);
    r := predictions;
    if value.Some? {
      r := r + [Prediction(t.attribute, value.value, t.confidence, TextSource)];
    }
  }

  method AppendSubmitted(sc: Script, predictions: seq<Prediction>, text: string, given: Option<string>, t: AttributeTable)
    returns (r: seq<Prediction>)
    ensures r == predictions + Submitted(sc, text, given, t)
  {
    if given.Some? && given.value != "" {
      r := predictions + [Prediction(t.attribute, given.value, 1.0, TextSource)];
    } else {
      r := AppendFirstMatch(sc, predictions, text, t);
    }
  }

  lemma MatchesSnoc(sc: Script, text: string, ts: seq<AttributeTable>, i: nat, front: seq<Prediction>)
    requires i < |ts|
    ensures front + Matches(sc, text, ts[..i + 1]) == front + Matches(sc, text, ts[..i]) + FirstMatch(sc, text, ts[i])
  {
    ConcatSnoc(FirstMatches(sc, text, ts[..i]), FirstMatch(sc, text, ts[i]), front);
    assert FirstMatches(sc, text, ts[..i + 1]) == FirstMatches(sc, text, ts[..i]) + [FirstMatch(sc, text, ts[i])];
  }

  lemma ConcatSnoc(lists: seq<seq<Prediction>>, last: seq<Prediction>, front: seq<Prediction>)
    ensures front + Concat(lists + [last]) == front + Concat(lists) + last
  {
    assert (lists + [last])[..|lists|] == lists;
  }

  method ExtractAttributes(sc: Script, lex: Lexicon, p: Product) returns (predictions: seq<Prediction>)
    ensures predictions == Extracted(sc, lex, p)
  {
    var text := CombinedText(p);
    predictions := AppendSubmitted(sc, [], text, p.brand, lex.brands);
    predictions := AppendSubmitted(sc, predictions, text, p.category, lex.categories);
    ghost var front := predictions;
    for i := 0 to |lex.others|
      invariant predictions == front + Matches(sc, text, lex.others[..i])
    {
      MatchesSnoc(sc, text, lex.others, i, front);
      predictions := AppendFirstMatch(sc, predictions, text, lex.others[i]);
    }
    assert lex.others[..|lex.others|] == lex.others;
  }

  /** A prediction by the keyword of a table that wins in the text. */
  ghost predicate Found(sc: Script, text: string, t: AttributeTable, a: Prediction) {
    exists k: nat :: Wins(Starts(sc, Casefold(sc.tables, text), t.keywords), k)
      && a == Prediction(t.attribute, t.keywords[k].value, t.confidence, TextSource)
  }

  /** A prediction of what the client submitted, or of what is found if nothing was. */
  ghost predicate Believed(sc: Script, text: string, given: Option<string>, t: AttributeTable, a: Prediction) {
    if given.Some? && given.value != "" then a == Prediction(t.attribute, given.value, 1.0, TextSource) else Found(sc, text, t, a)
  }

  lemma OneWinner(starts: seq<Option<nat>>, k: nat)
    requires Wins(starts, k)
    ensures Earliest(starts) == Some(k)
  {
    assert !NoneStarts(starts);
    var r := Earliest(starts).value;
    var mine, best := starts[k].value, starts[r].value;
    assert k < r ==> mine <= best && best < mine;
    assert r < k ==> best <= mine && mine < best;
  }

  lemma FirstMatchMeans(sc: Script, text: string, t: AttributeTable, a: Prediction)
    ensures a in FirstMatch(sc, text, t) <==> Found(sc, text, t, a)
  {
    var starts := Starts(sc, Casefold(sc.tables, text), t.keywords);
    if Found(sc, text, t, a) {
      var k: nat :| Wins(starts, k) && a == Prediction(t.attribute, t.keywords[k].value, t.confidence, TextSource);
      OneWinner(starts, k);
    }
    if Earliest(starts).Some? {
      assert Wins(starts, Earliest(starts).value);
    }
  }

  ghost predicate FoundInSome(sc: Script, text: string, ts: seq<AttributeTable>, a: Prediction) {
    exists i :: 0 <= i < |ts| && Found(sc, text, ts[i], a)
  }

  lemma {:induction false} InConcat(lists: seq<seq<Prediction>>, a: Prediction)
    ensures a in Concat(lists) <==> exists i :: 0 <= i < |lists| && a in lists[i]
  {
    if lists != [] {
      var n := |lists| - 1;
      InConcat(lists[..n], a);
      assert forall i :: 0 <= i < n ==> lists[..n][i] == lists[i];
    }
  }

  lemma MatchesMeans(sc: Script, text: string, ts: seq<AttributeTable>, a: Prediction)
    ensures a in Matches(sc, text, ts) <==> FoundInSome(sc, text, ts, a)
  {
    var lists := FirstMatches(sc, text, ts);
    InConcat(lists, a);
    forall i | 0 <= i < |ts| ensures a in lists[i] <==> Found(sc, text, ts[i], a) {
      FirstMatchMeans(sc, text, ts[i], a);
    }
  }

  /**
   What is extracted: a submitted brand and category as they are, and otherwise, as for every other
   table, its winning keyword's value.
   */
  lemma ExtractedExactly(sc: Script, lex: Lexicon, p: Product, a: Prediction)
    ensures var text := CombinedText(p);
            a in Extracted(sc, lex, p) <==>
              || Believed(sc, text, p.brand, lex.brands, a)
              || Believed(sc, text, p.category, lex.categories, a)
              || FoundInSome(sc, text, lex.others, a)
  {
    var text := CombinedText(p);
    FirstMatchMeans(sc, text, lex.brands, a);
    FirstMatchMeans(sc, text, lex.categories, a);
    MatchesMeans(sc, text, lex.others, a);
  }

  // ----- Tags -----

  /** A value on its way to becoming a tag. */
  datatype Item = Item(value: string, confidence: Unit)

  function FromPredictions(ps: seq<Prediction>): (items: seq<Item>)
    ensures |items| == |ps| && forall i :: 0 <= i < |ps| ==> items[i] == Item(ps[i].value, ps[i].confidence)
  {
    seq(|ps|, i requires 0 <= i < |ps| => Item(ps[i].value, ps[i].confidence))
  }

  function FromValues(vs: seq<string>, confidence: Unit): (items: seq<Item>)
    ensures |items| == |vs| && forall i :: 0 <= i < |vs| ==> items[i] == Item(vs[i], confidence)
  {
    seq(|vs|, i requires 0 <= i < |vs| => Item(vs[i], confidence))
  }

  function FromTables(sc: Script, text: string, ts: seq<AttributeTable>): seq<Item> {
    if ts == [] then []
    else
      var last := ts[|ts| - 1];
      FromTables(sc, text, ts[..|ts| - 1]) + FromValues(AllKeywords(sc, text, last.keywords), last.confidence)
  }

  function FromDescriptors(sc: Script, text: string, ds: seq<string>, confidence: Unit): seq<Item> {
    if ds == [] then []
    else
      var last := ds[|ds| - 1];
      FromDescriptors(sc, text, ds[..|ds| - 1], confidence) +
      if Search(sc, Casefold(sc.tables, text), last).Some? then [Item(last, confidence)] else []
  }

  function Items(sc: Script, lex: Lexicon, p: Product): seq<Item> {
    var text := CombinedText(p);
    FromPredictions(Extracted(sc, lex, p)) + FromTables(sc, text, lex.tagged) +
    FromDescriptors(sc, text, lex.descriptors, lex.descriptorConfidence)
  }

  ghost predicate Tagged(tags: seq<Tag>, key: string) {
    exists i :: 0 <= i < |tags| && tags[i].tag == key
  }

  ghost predicate OneTagPerKey(tags: seq<Tag>) {
    forall i, j :: 0 <= i < j < |tags| ==> tags[i].tag != tags[j].tag
  }

  ghost predicate EveryItemTagged(t: CharTables, items: seq<Item>, tags: seq<Tag>) {
    forall k :: 0 <= k < |items| ==> Tagged(tags, TagKey(t, items[k].value))
  }

  ghost predicate FirstWithKey(t: CharTables, items: seq<Item>, tag: Tag) {
    && tag.source == TextSource
    && exists k :: 0 <= k < |items| && tag == Tag(TagKey(t, items[k].value), items[k].confidence, TextSource)
         && forall j :: 0 <= j < k ==> TagKey(t, items[j].value) != tag.tag
  }

  /** The tags of a list of items: one for each key, with the confidence of the first item that has it. */
  ghost predicate TagsOf(t: CharTables, items: seq<Item>, tags: seq<Tag>) {
    OneTagPerKey(tags) && EveryItemTagged(t, items, tags) && forall i :: 0 <= i < |tags| ==> FirstWithKey(t, items, tags[i])
  }

  lemma TaggedSnoc(tags: seq<Tag>, tag: Tag, key: string)
    ensures Tagged(tags + [tag], key) <==> Tagged(tags, key) || key == tag.tag
  {
    var all := tags + [tag];
    if Tagged(tags, key) {
      var i :| 0 <= i < |tags| && tags[i].tag == key;
      assert all[i].tag == key;
    }
    assert all[|tags|].tag == tag.tag;
  }

  lemma FirstWithKeyGrows(t: CharTables, items: seq<Item>, more: seq<Item>, tag: Tag)
    requires FirstWithKey(t, items, tag)
    ensures FirstWithKey(t, items + more, tag)
  {
    var k :| 0 <= k < |items| && tag == Tag(TagKey(t, items[k].value), items[k].confidence, TextSource)
      && forall j :: 0 <= j < k ==> TagKey(t, items[j].value) != tag.tag;
    var all := items + more;
    assert all[k] == items[k];
    assert forall j :: 0 <= j < k ==> all[j] == items[j];
  }

  lemma NewKey(t: CharTables, items: seq<Item>, tags: seq<Tag>, item: Item)
    requires EveryItemTagged(t, items, tags) && !Tagged(tags, TagKey(t, item.value))
    ensures FirstWithKey(t, items + [item], Tag(TagKey(t, item.value), item.confidence, TextSource))
  {
    var all := items + [item];
    assert all[|items|] == item;
    forall j | 0 <= j < |items| ensures TagKey(t, all[j].value) != TagKey(t, item.value) {
      assert Tagged(tags, TagKey(t, items[j].value));
    }
  }

  lemma StillTagged(t: CharTables, items: seq<Item>, tags: seq<Tag>, tag: Tag, item: Item)
    requires EveryItemTagged(t, items, tags)
    ensures tag.tag == TagKey(t, item.value) ==> EveryItemTagged(t, items + [item], tags + [tag])
    ensures Tagged(tags, TagKey(t, item.value)) ==> EveryItemTagged(t, items + [item], tags)
  {
    var all := items + [item];
    forall k | 0 <= k < |all| ensures all[k] == item || (all[k] == items[k] && Tagged(tags, TagKey(t, items[k].value))) {
    }
    forall k | 0 <= k < |all| && tag.tag == TagKey(t, item.value) ensures Tagged(tags + [tag], TagKey(t, all[k].value)) {
      TaggedSnoc(tags, tag, TagKey(t, all[k].value));
    }
  }

  lemma AddedItem(t: CharTables, items: seq<Item>, tags: seq<Tag>, item: Item)
    requires TagsOf(t, items, tags)
    ensures var key := TagKey(t, item.value);
            TagsOf(t, items + [item], if Tagged(tags, key) then tags else tags + [Tag(key, item.confidence, TextSource)])
  {
    var tag := Tag(TagKey(t, item.value), item.confidence, TextSource);
    StillTagged(t, items, tags, tag, item);
    forall i | 0 <= i < |tags| ensures FirstWithKey(t, items + [item], tags[i]) {
      FirstWithKeyGrows(t, items, [item], tags[i]);
    }
    if !Tagged(tags, tag.tag) {
      NewKey(t, items, tags, item);
      NewTagDistinct(tags, tag);
    }
  }

  lemma NewTagDistinct(tags: seq<Tag>, tag: Tag)
    requires !Tagged(tags, tag.tag) && OneTagPerKey(tags)
    ensures OneTagPerKey(tags + [tag])
  {
  }

  /** The `_add` of tag generation: a key seen before is passed over. */
  class TagList {
    const tables: CharTables
    var tags: seq<Tag>
    var seen: set<string>
    ghost var items: seq<Item>

    ghost predicate Valid()
      reads this
    {
      && TagsOf(tables, items, tags)
      && forall key :: key in seen <==> Tagged(tags, key)
    }

    constructor (tables: CharTables)
      ensures this.tables == tables && Valid() && items == []
    {
      this.tables, tags, seen, items := tables, [], {}, [];
    }

    method Add(value: string, confidence: Unit)
      requires Valid()
      modifies this
      ensures Valid() && items == old(items) + [Item(value, confidence)]
    {
      var normalized := TagKey(tables, value);
      AddedItem(tables, items, tags, Item(value, confidence));
      items := items + [Item(value, confidence)];
      if normalized in seen { return; }
      seen := seen + {normalized};
      ghost var before := tags;
      tags := tags + [Tag(normalized, confidence, TextSource)];
      forall key ensures key in seen <==> Tagged(tags, key) {
        TaggedSnoc(before, Tag(normalized, confidence, TextSource), key);
      }
    }
  }

  method AddAll(list: TagList, items: seq<Item>)
    requires list.Valid()
    modifies list
    ensures list.Valid() && list.items == old(list.items) + items
  {
    for i := 0 to |items|
      invariant list.Valid() && list.items == old(list.items) + items[..i]
    {
      list.Add(items[i].value, items[i].confidence);
    }
    assert items[..|items|] == items;
  }

  lemma TablesSnoc(sc: Script, text: string, ts: seq<AttributeTable>, i: nat, front: seq<Item>)
    requires i < |ts|
    ensures front + FromTables(sc, text, ts[..i + 1])
         == front + FromTables(sc, text, ts[..i]) + FromValues(AllKeywords(sc, text, ts[i].keywords), ts[i].confidence)
  {
    assert ts[..i + 1][..i] == ts[..i];
  }

  method AddTables(list: TagList, sc: Script, text: string, ts: seq<AttributeTable>)
    requires list.Valid()
    modifies list
    ensures list.Valid() && list.items == old(list.items) + FromTables(sc, text, ts)
  {
    for i := 0 to |ts|
      invariant list.Valid() && list.items == old(list.items) + FromTables(sc, text, ts[..i])
    {
      TablesSnoc(sc, text, ts, i, old(list.items));
      var values := FindAllKeywords(sc, text, ts[i].keywords);
      AddAll(list, FromValues(values, ts[i].confidence));
    }
    assert ts[..|ts|] == ts;
  }

  lemma DescriptorsSnoc(sc: Script, text: string, ds: seq<string>, confidence: Unit, i: nat, front: seq<Item>)
    requires i < |ds|
    ensures front + FromDescriptors(sc, text, ds[..i + 1], confidence)
         == front + FromDescriptors(sc, text, ds[..i], confidence) +
            (if Search(sc, Casefold(sc.tables, text), ds[i]).Some? then [Item(ds[i], confidence)] else [])
  {
    assert ds[..i + 1][..i] == ds[..i];
  }

  method AddDescriptors(list: TagList, sc: Script, text: string, ds: seq<string>, confidence: Unit)
    requires list.Valid()
    modifies list
    ensures list.Valid() && list.items == old(list.items) + FromDescriptors(sc, text, ds, confidence)
  {
    for i := 0 to |ds|
      invariant list.Valid() && list.items == old(list.items) + FromDescriptors(sc, text, ds[..i], confidence)
    {
      DescriptorsSnoc(sc, text, ds, confidence, i, old(list.items));
      if Search(sc, Casefold(sc.tables, text), ds[i]).Some? {
        list.Add(ds[i], confidence);
      }
    }
    assert ds[..|ds|] == ds;
  }

  method GenerateTags(sc: Script, lex: Lexicon, p: Product) returns (tags: seq<Tag>)
    ensures TagsOf(sc.tables, Items(sc, lex, p), tags)
  {
    var list := new TagList(sc.tables);
    var predictions := ExtractAttributes(sc, lex, p);
    AddAll(list, FromPredictions(predictions));
    assert list.items == FromPredictions(Extracted(sc, lex, p));
    var text := CombinedText(p);
    AddTables(list, sc, text, lex.tagged);
    AddDescriptors(list, sc, text, lex.descriptors, lex.descriptorConfidence);
    ghost var items := list.items;
    assert items == Items(sc, lex, p);
    return list.tags;
  }

  // ----- What the tags are -----

  /** Any list that meets the description of the tags has no key twice, and every extracted attribute value is in it. */
  lemma EveryAttributeIsTagged(sc: Script, lex: Lexicon, p: Product, tags: seq<Tag>)
    requires TagsOf(sc.tables, Items(sc, lex, p), tags)
    ensures forall i, j :: 0 <= i < j < |tags| ==> tags[i].tag != tags[j].tag
    ensures forall k :: 0 <= k < |Extracted(sc, lex, p)| ==> Tagged(tags, TagKey(sc.tables, Extracted(sc, lex, p)[k].value))
  {
    var ps := Extracted(sc, lex, p);
    forall k | 0 <= k < |ps| ensures Tagged(tags, TagKey(sc.tables, ps[k].value)) {
      assert Items(sc, lex, p)[k] == FromPredictions(ps)[k];
    }
  }

  lemma {:induction false} TableItems(sc: Script, text: string, ts: seq<AttributeTable>, item: Item)
    ensures item in FromTables(sc, text, ts) <==>
              exists i :: 0 <= i < |ts| && ts[i].confidence == item.confidence
                && Mentions(sc, Casefold(sc.tables, text), ts[i].keywords, item.value)
  {
    if ts != [] {
      var n := |ts| - 1;
      var last := ts[n];
      TableItems(sc, text, ts[..n], item);
      AllKeywordsMeans(sc, text, last.keywords);
      var own := FromValues(AllKeywords(sc, text, last.keywords), last.confidence);
      ValueItems(AllKeywords(sc, text, last.keywords), last.confidence, item);
      assert forall i :: 0 <= i < n ==> ts[..n][i] == ts[i];
      if item in own {
        assert Mentions(sc, Casefold(sc.tables, text), ts[n].keywords, item.value);
      }
    }
  }

  lemma ValueItems(vs: seq<string>, confidence: Unit, item: Item)
    ensures item in FromValues(vs, confidence) <==> item.value in vs && item.confidence == confidence
  {
    var items := FromValues(vs, confidence);
    if item.value in vs && item.confidence == confidence {
      var i :| 0 <= i < |vs| && vs[i] == item.value;
      assert items[i] == item;
    }
  }

  lemma {:induction false} DescriptorItems(sc: Script, text: string, ds: seq<string>, confidence: Unit, item: Item)
    ensures item in FromDescriptors(sc, text, ds, confidence) <==>
              item.value in ds && item.confidence == confidence && Search(sc, Casefold(sc.tables, text), item.value).Some?
  {
    if ds != [] {
      DescriptorItems(sc, text, ds[..|ds| - 1], confidence, item);
      assert ds == ds[..|ds| - 1] + [ds[|ds| - 1]];
    }
  }

  /**
   A key is a tag exactly when an extracted attribute, a whole-word match of a tagged table or a
   descriptor word in the text gives it.
   */
  lemma TagsExactly(sc: Script, lex: Lexicon, p: Product, tags: seq<Tag>, key: string)
    requires TagsOf(sc.tables, Items(sc, lex, p), tags)
    ensures var s := Casefold(sc.tables, CombinedText(p));
            Tagged(tags, key) <==>
              || (exists a :: a in Extracted(sc, lex, p) && TagKey(sc.tables, a.value) == key)
              || (exists t, v :: t in lex.tagged && Mentions(sc, s, t.keywords, v) && TagKey(sc.tables, v) == key)
              || (exists d :: d in lex.descriptors && Search(sc, s, d).Some? && TagKey(sc.tables, d) == key)
  {
    var items := Items(sc, lex, p);
    if Tagged(tags, key) {
      var i :| 0 <= i < |tags| && tags[i].tag == key;
      assert FirstWithKey(sc.tables, items, tags[i]);
      var item :| item in items && TagKey(sc.tables, item.value) == key;
      ItemOrigin(sc, lex, p, item);
    } else {
      forall item | item in items ensures TagKey(sc.tables, item.value) != key {
        var k :| 0 <= k < |items| && items[k] == item;
        assert Tagged(tags, TagKey(sc.tables, items[k].value));
      }
      NothingGives(sc, lex, p, key);
    }
  }

  lemma ItemOrigin(sc: Script, lex: Lexicon, p: Product, item: Item)
    requires item in Items(sc, lex, p)
    ensures var s := Casefold(sc.tables, CombinedText(p));
            || (exists a :: a in Extracted(sc, lex, p) && a.value == item.value)
            || (exists t :: t in lex.tagged && Mentions(sc, s, t.keywords, item.value))
            || (item.value in lex.descriptors && Search(sc, s, item.value).Some?)
  {
    var text := CombinedText(p);
    TableItems(sc, text, lex.tagged, item);
    DescriptorItems(sc, text, lex.descriptors, lex.descriptorConfidence, item);
    var ps := Extracted(sc, lex, p);
    if item in FromPredictions(ps) {
      var k :| 0 <= k < |ps| && FromPredictions(ps)[k] == item;
      assert ps[k] in ps && ps[k].value == item.value;
    }
  }

  lemma NothingGives(sc: Script, lex: Lexicon, p: Product, key: string)
    requires forall item :: item in Items(sc, lex, p) ==> TagKey(sc.tables, item.value) != key
    ensures var s := Casefold(sc.tables, CombinedText(p));
            && (forall a :: a in Extracted(sc, lex, p) ==> TagKey(sc.tables, a.value) != key)
            && (forall t, v :: t in lex.tagged && Mentions(sc, s, t.keywords, v) ==> TagKey(sc.tables, v) != key)
            && (forall d :: d in lex.descriptors && Search(sc, s, d).Some? ==> TagKey(sc.tables, d) != key)
  {
    var text := CombinedText(p);
    var ps := Extracted(sc, lex, p);
    forall a | a in ps ensures TagKey(sc.tables, a.value) != key {
      var k :| 0 <= k < |ps| && ps[k] == a;
      assert FromPredictions(ps)[k] in Items(sc, lex, p);
    }
    forall t, v | t in lex.tagged && Mentions(sc, Casefold(sc.tables, text), t.keywords, v) ensures TagKey(sc.tables, v) != key {
      TableItems(sc, text, lex.tagged, Item(v, t.confidence));
      assert Item(v, t.confidence) in Items(sc, lex, p);
    }
    forall d | d in lex.descriptors && Search(sc, Casefold(sc.tables, text), d).Some? ensures TagKey(sc.tables, d) != key {
      DescriptorItems(sc, text, lex.descriptors, lex.descriptorConfidence, Item(d, lex.descriptorConfidence));
      assert Item(d, lex.descriptorConfidence) in Items(sc, lex, p);
    }
  }
}
