/**
 Which names a reader of the parts in `Multipart` gets back as they were: exactly those that hold
 neither a quote nor a line end.
 */
module MultipartNames {
  import opened Wrappers
  import opened Multipart

  lemma FrontOf(text: Bytes, a: Bytes, t: Bytes, h: nat, n: nat)
    requires text == a + (CRLF + t) && n <= |t| && h == |a| + 2 + n
    ensures h <= |text| && text[..h] == a + (CRLF + t[..n])
  {
  }

  /** The lines of a header block that reaches beyond its first line. */
  lemma LinesOfFront(text: Bytes, a: Bytes, t: Bytes, h: nat, n: nat)
    requires text == a + (CRLF + t) && OneLine(a) && n <= |t| && h == |a| + 2 + n
    ensures h <= |text| && Lines(text[..h]) == [a] + Lines(t[..n])
  {
    FrontOf(text, a, t, h, n);
    NoLineEnd(a);
    FindMark(CRLF, a, t[..n]);
    FirstLine(a, t[..n]);
  }

  lemma FirstOf(lines: seq<Bytes>, a: Bytes, more: seq<Bytes>)
    requires lines == [a] + more
    ensures lines != [] && lines[0] == a
  {
  }

  /** The first line of the headers a reader finds is the text up to the first line end. */
  lemma FirstHeaderLine(a: Bytes, rest: Bytes, text: Bytes, h: nat)
    requires OneLine(a) && text == a + (CRLF + rest) && Find(CRLF + CRLF, text) == Some(h)
    ensures h <= |text| && Lines(text[..h]) != [] && Lines(text[..h])[0] == a
  {
    NoLineEnd(a);
    FindMark(CRLF, a, rest);
    EmptyLineLater(text, h, |a|);
    if h == |a| {
      assert text[..h] == a;
      FirstOf(Lines(text[..h]), a, []);
    } else {
      LinesOfFront(text, a, rest, h, h - |a| - 2);
      FirstOf(Lines(text[..h]), a, Lines(rest[..h - |a| - 2]));
    }
  }

  /** An empty line begins with a line end, so not before the first one, nor inside it. */
  lemma EmptyLineLater(text: Bytes, h: nat, first: nat)
    requires MatchAt(CRLF + CRLF, text, h) && Find(CRLF, text) == Some(first)
    ensures h == first || h >= first + 2
  {
    assert text[h..h + 2] == text[h..h + 4][..2] == CRLF;
    assert MatchAt(CRLF, text, h);
    MatchChar(CRLF, text, first, 1);
    MatchChar(CRLF, text, h, 0);
    assert h >= first;
  }

  /** What a reader takes from headers whose first line is this disposition. */
  lemma ReadFirstLine(text: Bytes, line: Bytes, params: Bytes, rest: Bytes)
    requires text == line + (CRLF + rest) && line == "Content-Disposition: " + ("form-data" + params) && OneLine(line)
    ensures var r := DecodePart(text);
            r.Some? ==> Parameter(params, NAME) == Some(r.value.name) && r.value.filename == Parameter(params, FILENAME)
  {
    assert "Content-Disposition" + ": " == "Content-Disposition: ";
    StripPrefix("Content-Disposition: ", "form-data" + params);
    StripPrefix("form-data", params);
    match Find(CRLF + CRLF, text)
    case None =>
    case Some(h) =>
      var lines := Lines(text[..h]);
      FirstHeaderLine(line, rest, text, h);
      assert Header(lines, "Content-Disposition") == Some("form-data" + params);
      ReadDisposition(text, h, lines, "form-data" + params, params);
  }

  lemma ReadDisposition(text: Bytes, h: nat, lines: seq<Bytes>, disposition: Bytes, params: Bytes)
    requires Find(CRLF + CRLF, text) == Some(h) && h <= |text| && lines == Lines(text[..h])
    requires Header(lines, "Content-Disposition") == Some(disposition) && Strip("form-data", disposition) == Some(params)
    ensures var r := DecodePart(text);
            r.Some? ==> Parameter(params, NAME) == Some(r.value.name) && r.value.filename == Parameter(params, FILENAME)
  {
  }

  /** A quoted value that is not closed, or closed at once behind a shorter one, is not read as v. */
  lemma CutParameter(key: Bytes, cut: Bytes, more: Bytes, v: Bytes)
    requires IsWord(key) && CutOf(cut, more, v)
    ensures Parameter("; " + (key + ("=\"" + (cut + more))), key) != Some(v)
  {
    if more != "" {
      assert more == "\"" + more[1..];
      FirstParameter(key, cut, more[1..], key);
    } else {
      assert cut + more == cut;
      UnclosedParameter(key, cut, key);
    }
  }

  lemma NoQuoteFound(s: Bytes)
    requires NoQuote(s)
    ensures Find("\"", s) == None
  {
    forall k: nat ensures !MatchAt("\"", s, k) { MatchChar("\"", s, k, 0); }
  }

  lemma UnclosedParameter(key: Bytes, cut: Bytes, wanted: Bytes)
    requires IsWord(key) && NoQuote(cut)
    ensures Parameter("; " + (key + ("=\"" + cut)), wanted) == None
  {
    var t := key + ("=\"" + cut);
    StripPrefix("; ", t);
    ValueFound(key, cut);
    assert t[|key| + 2..] == cut;
    NoQuoteFound(cut);
  }

  /** Where a value stops being plain. */
  predicate BadAt(v: Bytes, q: nat) {
    q < |v| && (v[q] == '"' || LineEndAt(v, q))
  }

  lemma PlainFront(s: Bytes, q: nat)
    requires Plain(s) && q <= |s|
    ensures Plain(s[..q])
  {
    forall i: nat | i < q ensures !LineEndAt(s[..q], i) { assert !LineEndAt(s, i); }
  }

  lemma {:induction false} FirstBad(v: Bytes) returns (q: nat)
    requires !Plain(v)
    ensures BadAt(v, q) && Plain(v[..q])
    decreases |v|
  {
    var n := |v| - 1;
    if Plain(v[..n]) {
      if v[n] == '"' {
        q := n;
      } else {
        assert NoQuote(v) by { assert forall i | 0 <= i < n :: v[i] == v[..n][i]; }
        q :| q < |v| && LineEndAt(v, q);
        if q + 1 < n { assert !LineEndAt(v[..n], q); }
        PlainFront(v[..n], q);
      }
      assert v[..n][..q] == v[..q];
    } else {
      q := FirstBad(v[..n]);
      assert v[..n][..q] == v[..q];
    }
  }

  lemma SplitAround(x: Bytes, s: Bytes, k: nat)
    requires MatchAt(x, s, k)
    ensures s == s[..k] + (x + s[k + |x|..])
  {
    assert s == s[..k] + (s[k..k + |x|] + s[k + |x|..]);
  }

  lemma SplitLine(s: Bytes) returns (line: Bytes, rest: Bytes)
    requires Occurs(CRLF, s)
    ensures s == line + (CRLF + rest) && OneLine(line)
    ensures s[0] == '"' ==> line != "" && line[0] == '"'
    ensures MatchAt(CRLF, s, 0) ==> line == ""
  {
    var k := Find(CRLF, s).value;
    line, rest := s[..k], s[k + 2..];
    forall i: nat | i < |line| ensures !LineEndAt(line, i) {
      assert !MatchAt(CRLF, s, i);
      if i + 1 < k { assert s[i..i + 2] == [line[i], line[i + 1]]; }
    }
    SplitAround(CRLF, s, k);
  }

  /** A front part of a value with, if anything, a quote behind it. */
  predicate CutOf(cut: Bytes, more: Bytes, v: Bytes) {
    NoQuote(cut) && |cut| < |v| && (more == "" || more[0] == '"')
  }

  /** The line with a value that is not plain ends, for a reader, before the value does. */
  lemma CutLine(text: Bytes, pre: Bytes, v: Bytes, tail: Bytes) returns (line: Bytes, cut: Bytes, more: Bytes, rest: Bytes)
    requires text == pre + (v + tail) && !Plain(v) && Occurs(CRLF, tail) && OneLine(pre) && pre != "" && pre[|pre| - 1] == '"'
    ensures text == line + (CRLF + rest) && line == pre + (cut + more) && OneLine(line)
    ensures CutOf(cut, more, v)
  {
    var q := FirstBad(v);
    cut := v[..q];
    var s := v[q..] + tail;
    OccursBehind(CRLF, v[q..], tail);
    assert s[0] == '"' || MatchAt(CRLF, s, 0);
    more, rest := SplitLine(s);
    line := pre + (cut + more);
    assert v + tail == cut + s;
    OneLineConcat(pre, cut);
    OneLineConcat(pre + cut, more);
    Assoc(pre, cut, more);
    Assoc(cut, more, CRLF + rest);
    Assoc(pre, cut + more, CRLF + rest);
  }

  lemma OccursBehind(x: Bytes, a: Bytes, s: Bytes)
    requires Occurs(x, s)
    ensures Occurs(x, a + s)
  {
    var k: nat :| MatchAt(x, s, k);
    MatchShift(x, a, s, |a| + k);
  }

  /** What follows the disposition line. */
  function BehindLine(p: Part, content: Bytes): Bytes {
    match p.mime
    case None => CRLF + (CRLF + content)
    case Some(m) => CRLF + ((TYPE_HEADER + m) + (CRLF + (CRLF + content)))
  }

  lemma TextForm(p: Part, content: Bytes)
    ensures Head(p) + content == DispositionLine(p) + BehindLine(p, content)
    ensures Occurs(CRLF, BehindLine(p, content))
  {
    var behind := BehindLine(p, content);
    assert behind[0..2] == CRLF && MatchAt(CRLF, behind, 0);
    match p.mime
    case None =>
    case Some(m) =>
      var line := TYPE_HEADER + m;
      assert CRLF + (line + (CRLF + CRLF)) + content == CRLF + (line + (CRLF + (CRLF + content)));
      assert DispositionLine(p) + (CRLF + (line + (CRLF + CRLF))) + content == DispositionLine(p) + (CRLF + (line + (CRLF + CRLF)) + content);
  }

  const BEFORE_NAME: Bytes := "Content-Disposition: form-data; name=\""
  const BEFORE_FILENAME: Bytes := "\"; filename=\""

  /** A disposition line up to the value of its first parameter, and parameters of which that is the value. */
  lemma NameLine(value: Bytes)
    ensures BEFORE_NAME + value == "Content-Disposition: " + ("form-data" + ("; " + (NAME + ("=\"" + value))))
  {
    assert BEFORE_NAME == "Content-Disposition: " + "form-data" + "; " + NAME + "=\"";
  }

  lemma NameText(p: Part, content: Bytes) returns (tail: Bytes)
    ensures Head(p) + content == BEFORE_NAME + (p.name + tail) && Occurs(CRLF, tail)
  {
    var fn, behind := FilenameParameter(p), BehindLine(p, content);
    TextForm(p, content);
    DispositionForm(p);
    NameLine(p.name + ("\"" + fn));
    Assoc(BEFORE_NAME, p.name + ("\"" + fn), behind);
    Assoc(p.name, "\"" + fn, behind);
    OccursBehind(CRLF, "\"" + fn, behind);
    tail := "\"" + fn + behind;
  }

  lemma NotReadName(text: Bytes, line: Bytes, cut: Bytes, more: Bytes, rest: Bytes, name: Bytes)
    requires text == line + (CRLF + rest) && line == BEFORE_NAME + (cut + more) && OneLine(line) && CutOf(cut, more, name)
    ensures var r := DecodePart(text); r.Some? ==> r.value.name != name
  {
    NameLine(cut + more);
    ReadFirstLine(text, line, "; " + (NAME + ("=\"" + (cut + more))), rest);
    CutParameter(NAME, cut, more, name);
  }

  /** A name with a quote or a line end in it is not read back. */
  lemma BadName(p: Part, content: Bytes)
    requires !Plain(p.name)
    ensures var r := DecodePart(Head(p) + content); r.Some? ==> r.value.name != p.name
  {
    var text := Head(p) + content;
    var tail := NameText(p, content);
    var line, cut, more, rest := CutLine(text, BEFORE_NAME, p.name, tail);
    NotReadName(text, line, cut, more, rest, p.name);
  }

  lemma FilenameText(p: Part, f: Bytes, content: Bytes)
    requires p.filename == Some(f)
    ensures var tail := "\"" + BehindLine(p, content);
            Head(p) + content == (BEFORE_NAME + p.name + BEFORE_FILENAME) + (f + tail) && Occurs(CRLF, tail)
  {
    var behind := BehindLine(p, content);
    TextForm(p, content);
    FileLine(p, p.name, f);
    OccursBehind(CRLF, "\"", behind);
    assert DispositionLine(p) == BEFORE_NAME + p.name + BEFORE_FILENAME + f + "\"";
    assert (BEFORE_NAME + p.name + BEFORE_FILENAME) + f + "\"" + behind == (BEFORE_NAME + p.name + BEFORE_FILENAME) + (f + ("\"" + behind));
  }

  /** A line up to the value of its second parameter. */
  lemma SecondValueLine(name: Bytes, value: Bytes)
    ensures BEFORE_NAME + name + BEFORE_FILENAME + value ==
            "Content-Disposition: " + ("form-data" + ("; " + (NAME + ("=\"" + (name + ("\"" + ("; " + (FILENAME + ("=\"" + value)))))))))
  {
    assert BEFORE_FILENAME + value == "\"" + ("; " + (FILENAME + ("=\"" + value)));
    assert BEFORE_NAME + name + BEFORE_FILENAME + value == BEFORE_NAME + (name + (BEFORE_FILENAME + value));
    NameLine(name + (BEFORE_FILENAME + value));
  }

  lemma CutSecond(name: Bytes, second: Bytes, cut: Bytes, more: Bytes, f: Bytes)
    requires NoQuote(name) && CutOf(cut, more, f) && second == "; " + (FILENAME + ("=\"" + (cut + more)))
    ensures Parameter("; " + (NAME + ("=\"" + (name + ("\"" + second)))), FILENAME) != Some(f)
  {
    CutParameter(FILENAME, cut, more, f);
    PassName(name, second);
  }

  lemma PassName(name: Bytes, rest: Bytes)
    requires NoQuote(name)
    ensures Parameter("; " + (NAME + ("=\"" + (name + ("\"" + rest)))), FILENAME) == Parameter(rest, FILENAME)
  {
    assert NAME[0] != FILENAME[0];
    FirstParameter(NAME, name, rest, FILENAME);
  }

  lemma NotReadFilename(text: Bytes, line: Bytes, name: Bytes, cut: Bytes, more: Bytes, rest: Bytes, f: Bytes)
    requires text == line + (CRLF + rest) && line == BEFORE_NAME + name + BEFORE_FILENAME + (cut + more) && OneLine(line)
    requires NoQuote(name) && CutOf(cut, more, f)
    ensures var r := DecodePart(text); r.Some? ==> r.value.filename != Some(f)
  {
    SecondValueLine(name, cut + more);
    CutSecond(name, "; " + (FILENAME + ("=\"" + (cut + more))), cut, more, f);
    ReadFirstLine(text, line, "; " + (NAME + ("=\"" + (name + ("\"" + ("; " + (FILENAME + ("=\"" + (cut + more)))))))), rest);
  }

  /** Nor is a file name. */
  lemma BadFilename(p: Part, f: Bytes, content: Bytes)
    requires Plain(p.name) && p.filename == Some(f) && !Plain(f)
    ensures var r := DecodePart(Head(p) + content); r.Some? ==> r.value.filename != p.filename
  {
    var text, pre := Head(p) + content, BEFORE_NAME + p.name + BEFORE_FILENAME;
    OneLineConcat(BEFORE_NAME, p.name);
    OneLineConcat(BEFORE_NAME + p.name, BEFORE_FILENAME);
    FilenameText(p, f, content);
    var line, cut, more, rest := CutLine(text, pre, f, "\"" + BehindLine(p, content));
    NotReadFilename(text, line, p.name, cut, more, rest, f);
  }

  /** A first match behind a front part is the first match in what follows it. */
  lemma FindInRest(x: Bytes, a: Bytes, t: Bytes, n: nat)
    requires Find(x, a + t) == Some(|a| + n)
    ensures Find(x, t) == Some(n)
  {
    MatchShift(x, a, t, |a| + n);
    forall j: nat | j < n ensures !MatchAt(x, t, j) {
      MatchShift(x, a, t, |a| + j);
    }
    FindFirst(x, t, n);
  }

  /** An empty line cannot begin at a line end behind which a header begins. */
  lemma HeaderNotEmpty(a: Bytes, t: Bytes, h: nat)
    requires OneLine(a) && t != "" && t[0] == 'C' && MatchAt(CRLF + CRLF, a + (CRLF + t), h)
    ensures h >= |a| + 2
  {
    var text := a + (CRLF + t);
    NoLineEnd(a);
    FindMark(CRLF, a, t);
    EmptyLineLater(text, h, |a|);
    MatchChar(CRLF + CRLF, text, h, 2);
    assert text[|a| + 2] == t[0];
  }

  lemma FindBehindTwo(x: Bytes, a: Bytes, e: Bytes, t: Bytes, h: nat)
    requires Find(x, a + (e + t)) == Some(h) && h >= |a| + |e|
    ensures Find(x, t) == Some(h - |a| - |e|)
  {
    Assoc(a, e, t);
    FindInRest(x, a + e, t, h - |a| - |e|);
  }

  lemma EmptyLineBehind(a: Bytes, t: Bytes, h: nat)
    requires OneLine(a) && t != "" && t[0] == 'C' && Find(CRLF + CRLF, a + (CRLF + t)) == Some(h)
    ensures h >= |a| + 2 && Find(CRLF + CRLF, t) == Some(h - |a| - 2)
  {
    HeaderNotEmpty(a, t, h);
    FindBehindTwo(CRLF + CRLF, a, CRLF, t, h);
  }

  lemma SecondOf(lines: seq<Bytes>, a: Bytes, more: seq<Bytes>, b: Bytes)
    requires lines == [a] + more && more != [] && more[0] == b
    ensures |lines| >= 2 && lines[0] == a && lines[1] == b
  {
  }

  /** The second line a reader finds, if a header follows the first. */
  lemma SecondHeaderLine(text: Bytes, a: Bytes, b: Bytes, rest: Bytes, t: Bytes, h: nat, n: nat)
    requires text == a + (CRLF + t) && t == b + (CRLF + rest) && OneLine(a) && OneLine(b)
    requires Find(CRLF + CRLF, t) == Some(n) && h == |a| + 2 + n
    ensures h <= |text|
    ensures var lines := Lines(text[..h]); |lines| >= 2 && lines[0] == a && lines[1] == b
  {
    FirstHeaderLine(b, rest, t, n);
    LinesOfFront(text, a, t, h, n);
    SecondOf(Lines(text[..h]), a, Lines(t[..n]), b);
  }

  lemma HeaderSecond(lines: seq<Bytes>, name: Bytes, v: Bytes)
    requires |lines| >= 2 && Strip(name + ": ", lines[0]) == None && Strip(name + ": ", lines[1]) == Some(v)
    ensures Header(lines, name) == Some(v)
  {
    assert lines[1..][0] == lines[1];
  }

  const TYPE: Bytes := "Content-Type"

  lemma ReadTypeLine(text: Bytes, h: nat, lines: seq<Bytes>, m: Option<Bytes>)
    requires Find(CRLF + CRLF, text) == Some(h) && h <= |text| && lines == Lines(text[..h]) && Header(lines, TYPE) == m
    ensures var r := DecodePart(text); r.Some? ==> r.value.mime == m
  {
  }

  lemma TypeOfLines(lines: seq<Bytes>, line: Bytes, m: Bytes)
    requires |lines| >= 2 && lines[0] == line && lines[1] == TYPE_HEADER + m && |line| > 8 && line[8] == 'D'
    ensures Header(lines, TYPE) == Some(m)
  {
    assert TYPE + ": " == TYPE_HEADER;
    StripMismatch(TYPE_HEADER, line, 8);
    StripPrefix(TYPE_HEADER, m);
    HeaderSecond(lines, TYPE, m);
  }

  /** What a reader takes for the type. */
  lemma ReadType(text: Bytes, line: Bytes, m: Bytes, rest: Bytes, t: Bytes)
    requires |line| > 8 && line[8] == 'D' && OneLine(line) && OneLine(TYPE_HEADER + m)
    requires text == line + (CRLF + t) && t == (TYPE_HEADER + m) + (CRLF + rest)
    ensures var r := DecodePart(text); r.Some? ==> r.value.mime == Some(m)
  {
    match Find(CRLF + CRLF, text)
    case None =>
    case Some(h) =>
      EmptyLineBehind(line, t, h);
      SecondHeaderLine(text, line, TYPE_HEADER + m, rest, t, h, h - |line| - 2);
      TypeOfLines(Lines(text[..h]), line, m);
      ReadTypeLine(text, h, Lines(text[..h]), Some(m));
  }

  lemma TypeText(p: Part, cut: Bytes, rest: Bytes, content: Bytes)
    requires p.mime == Some(cut + (CRLF + rest))
    ensures Head(p) + content == DispositionLine(p) + (CRLF + ((TYPE_HEADER + cut) + (CRLF + (rest + (CRLF + (CRLF + content))))))
  {
    var behind := CRLF + (CRLF + content);
    TextForm(p, content);
    Assoc(TYPE_HEADER, cut, CRLF + rest);
    Assoc(TYPE_HEADER + cut, CRLF + rest, behind);
    Assoc(CRLF, rest, behind);
  }

  /** Nor is a type. */
  lemma BadType(p: Part, m: Bytes, content: Bytes)
    requires Plain(p.name) && p.filename.Some? && Plain(p.filename.value) && p.mime == Some(m) && !OneLine(m)
    ensures var r := DecodePart(Head(p) + content); r.Some? ==> r.value.mime != p.mime
  {
    DispositionPlain(p.(mime := Some("")));
    assert DispositionLine(p) == DispositionLine(p.(mime := Some("")));
    OneLineOccurs(m);
    var cut, rest := SplitLine(m);
    TypeLine(cut);
    TypeText(p, cut, rest, content);
    var behind := rest + (CRLF + (CRLF + content));
    ReadType(Head(p) + content, DispositionLine(p), cut, behind, (TYPE_HEADER + cut) + (CRLF + behind));
  }

  lemma OneLineOccurs(m: Bytes)
    requires !OneLine(m)
    ensures Occurs(CRLF, m)
  {
    var i: nat :| i < |m| && LineEndAt(m, i);
    assert m[i..i + 2] == CRLF && MatchAt(CRLF, m, i);
  }

  /** The encoder gives a part a type exactly if it has a file name. */
  predicate Encodable(p: Part) {
    p.mime.Some? <==> p.filename.Some?
  }

  /**
   Names, exactly: a part is read back from its header block and content if and only if there is no quote and no
   line end in its name and file name, and no line end in its type.
   */
  lemma ReadBackExactly(p: Part, content: Bytes)
    requires Encodable(p)
    ensures DecodePart(Head(p) + content) == Some(p.(content := content)) <==> Receivable(p)
  {
    if Receivable(p) { DecodePartBack(p, content); }
    else if !Plain(p.name) { BadName(p, content); }
    else if p.filename.Some? && !Plain(p.filename.value) { BadFilename(p, p.filename.value, content); }
    else { BadType(p, p.mime.value, content); }
  }
}
