/**
 The hand-written multipart/form-data encoder of the smoke client (scripts/smoke/client.py,
 `_encode_multipart`), and a decoder that reads RFC 7578 section 4 parts in the framing of
 RFC 2046 section 5.1.1. A body is a sequence of bytes, written here as one character per byte;
 text fields are given as their encoded bytes.
 */
module Multipart {
  import opened Wrappers

  type Bytes = seq<char>

  const CRLF: Bytes := "\r\n"

  datatype Field = Field(name: Bytes, value: Option<Bytes>)
  datatype File = File(name: Bytes, filename: Bytes, content: Bytes)

  /** What a receiver sees of one part. */
  datatype Part = Part(name: Bytes, filename: Option<Bytes>, mime: Option<Bytes>, content: Bytes)

  const BOUNDARY_PREFIX: Bytes := "----ProductIntelligenceSmoke"
  const CONTENT_TYPE: Bytes := "multipart/form-data; boundary="
  const DEFAULT_MIME: Bytes := "application/octet-stream"

  predicate HexToken(token: Bytes) {
    forall i | 0 <= i < |token| :: '0' <= token[i] <= '9' || 'a' <= token[i] <= 'f'
  }

  function Boundary(token: Bytes): Bytes {
    BOUNDARY_PREFIX + token
  }

  // ----- Encoding -----

  function FieldParts(fields: seq<Field>): seq<Part> {
    if fields == [] then []
    else (if fields[0].value.None? then [] else [Part(fields[0].name, None, None, fields[0].value.value)]) + FieldParts(fields[1..])
  }

  function FilePart(file: File, guess: Bytes -> Option<Bytes>): Part {
    Part(file.name, Some(file.filename), Some(guess(file.filename).GetOr(DEFAULT_MIME)), file.content)
  }

  function FileParts(files: seq<File>, guess: Bytes -> Option<Bytes>): seq<Part> {
    if files == [] then [] else [FilePart(files[0], guess)] + FileParts(files[1..], guess)
  }

  const DISPOSITION: Bytes := "Content-Disposition: form-data"
  const TYPE_HEADER: Bytes := "Content-Type: "

  function DispositionLine(p: Part): Bytes {
    DISPOSITION + ("; name=\"" + p.name + "\"" + match p.filename case None => "" case Some(f) => "; filename=\"" + f + "\"")
  }

  /** The headers of a part with the empty line that ends them. */
  function Head(p: Part): Bytes {
    match p.mime
    case None => DispositionLine(p) + (CRLF + CRLF)
    case Some(m) => DispositionLine(p) + (CRLF + ((TYPE_HEADER + m) + (CRLF + CRLF)))
  }

  function EncodePart(boundary: Bytes, p: Part): Bytes {
    "--" + boundary + CRLF + (Head(p) + p.content) + CRLF
  }

  function Body(boundary: Bytes, parts: seq<Part>): Bytes {
    if parts == [] then "--" + boundary + "--" + CRLF else EncodePart(boundary, parts[0]) + Body(boundary, parts[1..])
  }

  function Join(chunks: seq<Bytes>): Bytes {
    if chunks == [] then "" else chunks[0] + Join(chunks[1..])
  }

  lemma {:induction false} JoinAppend(a: seq<Bytes>, b: seq<Bytes>)
    ensures Join(a + b) == Join(a) + Join(b)
  {
    if a == [] {
      assert a + b == b;
    } else {
      assert (a + b)[1..] == a[1..] + b;
      JoinAppend(a[1..], b);
    }
  }

  /** All parts, without the closing delimiter. */
  function Chunks(boundary: Bytes, parts: seq<Part>): Bytes {
    if parts == [] then "" else EncodePart(boundary, parts[0]) + Chunks(boundary, parts[1..])
  }

  lemma {:induction false} ChunksAppend(boundary: Bytes, a: seq<Part>, b: seq<Part>)
    ensures Chunks(boundary, a + b) == Chunks(boundary, a) + Chunks(boundary, b)
  {
    if a == [] {
      assert a + b == b;
    } else {
      assert (a + b)[1..] == a[1..] + b;
      ChunksAppend(boundary, a[1..], b);
    }
  }

  lemma {:induction false} BodyIsChunks(boundary: Bytes, parts: seq<Part>)
    ensures Body(boundary, parts) == Chunks(boundary, parts) + ("--" + boundary + "--" + CRLF)
  {
    var close := "--" + boundary + "--" + CRLF;
    if parts != [] {
      BodyIsChunks(boundary, parts[1..]);
      Assoc(EncodePart(boundary, parts[0]), Chunks(boundary, parts[1..]), close);
    }
  }

  lemma TakeSnoc<T>(s: seq<T>, i: nat)
    requires i < |s|
    ensures s[..i + 1] == s[..i] + [s[i]]
  {
  }

  lemma FieldPartsCons(fields: seq<Field>)
    requires fields != []
    ensures FieldParts(fields) == FieldParts([fields[0]]) + FieldParts(fields[1..])
  {
    assert [fields[0]][1..] == [];
  }

  lemma {:induction false} FieldPartsSnoc(fields: seq<Field>, f: Field)
    ensures FieldParts(fields + [f]) == FieldParts(fields) + FieldParts([f])
  {
    if fields == [] {
      assert fields + [f] == [f];
    } else {
      assert (fields + [f])[1..] == fields[1..] + [f] && (fields + [f])[0] == fields[0];
      FieldPartsSnoc(fields[1..], f);
      Assoc(FieldParts([fields[0]]), FieldParts(fields[1..]), FieldParts([f]));
      FieldPartsCons(fields);
      FieldPartsCons(fields + [f]);
    }
  }

  lemma {:induction false} FilePartsSnoc(files: seq<File>, f: File, guess: Bytes -> Option<Bytes>)
    ensures FileParts(files + [f], guess) == FileParts(files, guess) + [FilePart(f, guess)]
    decreases files
  {
    if files == [] {
      assert files + [f] == [f];
    } else {
      assert (files + [f])[1..] == files[1..] + [f];
      FilePartsSnoc(files[1..], f, guess);
    }
  }

  /** One more part appended to the list of chunks. */
  lemma PushPart(chunks: seq<Bytes>, boundary: Bytes, parts: seq<Part>, p: Part, chunk: Bytes)
    requires Join(chunks) == Chunks(boundary, parts) && chunk == EncodePart(boundary, p)
    ensures Join(chunks + [chunk]) == Chunks(boundary, parts + [p])
  {
    JoinAppend(chunks, [chunk]);
    ChunksAppend(boundary, parts, [p]);
    assert Join([chunk]) == chunk + "" == chunk;
    assert Chunks(boundary, [p]) == EncodePart(boundary, p) + "" == EncodePart(boundary, p);
  }

  lemma FieldHead(name: Bytes, value: Bytes)
    ensures "Content-Disposition: form-data; name=\"" + name + "\"" + CRLF + CRLF == Head(Part(name, None, None, value))
  {
    var p := Part(name, None, None, value);
    var line := "Content-Disposition: form-data; name=\"" + name + "\"";
    assert DispositionLine(p) == line;
    Assoc(line, CRLF, CRLF);
  }

  lemma FileLine(p: Part, name: Bytes, filename: Bytes)
    requires p.name == name && p.filename == Some(filename)
    ensures DispositionLine(p) == "Content-Disposition: form-data; name=\"" + name + "\"; filename=\"" + filename + "\""
  {
  }

  lemma GroupHeaders(line: Bytes, end: Bytes, header: Bytes, value: Bytes)
    ensures line + end + header + value + end + end == line + (end + ((header + value) + (end + end)))
  {
    assert line + end + header + value + end + end == line + end + (header + value) + (end + end);
  }

  lemma FileHead(name: Bytes, filename: Bytes, mime: Bytes, content: Bytes)
    ensures "Content-Disposition: form-data; name=\"" + name + "\"; filename=\"" + filename + "\"" + CRLF + "Content-Type: " + mime + CRLF + CRLF
         == Head(Part(name, Some(filename), Some(mime), content))
  {
    var p := Part(name, Some(filename), Some(mime), content);
    FileLine(p, name, filename);
    GroupHeaders(DispositionLine(p), CRLF, TYPE_HEADER, mime);
  }

  /** The bytes of one form field. */
  function FieldChunk(boundary: Bytes, name: Bytes, value: Bytes): (r: Bytes)
    ensures r == EncodePart(boundary, Part(name, None, None, value))
  {
    FieldHead(name, value);
    "--" + boundary + CRLF + ("Content-Disposition: form-data; name=\"" + name + "\"" + CRLF + CRLF + value) + CRLF
  }

  /** The bytes of one file. */
  function FileChunk(boundary: Bytes, file: File, mime: Bytes): (r: Bytes)
    ensures r == EncodePart(boundary, Part(file.name, Some(file.filename), Some(mime), file.content))
  {
    FileHead(file.name, file.filename, mime, file.content);
    "--" + boundary + CRLF
    + ("Content-Disposition: form-data; name=\"" + file.name + "\"; filename=\"" + file.filename + "\"" + CRLF
       + "Content-Type: " + mime + CRLF + CRLF + file.content)
    + CRLF
  }

  lemma CloseBody(chunks: seq<Bytes>, boundary: Bytes, parts: seq<Part>)
    requires Join(chunks) == Chunks(boundary, parts)
    ensures Join(chunks + ["--" + boundary + "--" + CRLF]) == Body(boundary, parts)
  {
    var last := "--" + boundary + "--" + CRLF;
    JoinAppend(chunks, [last]);
    assert Join([last]) == last + "" == last;
    BodyIsChunks(boundary, parts);
  }

  lemma FieldStep(fields: seq<Field>, i: nat, chunks: seq<Bytes>, boundary: Bytes)
    requires i < |fields| && Join(chunks) == Chunks(boundary, FieldParts(fields[..i]))
    ensures match fields[i].value
            case None => Join(chunks) == Chunks(boundary, FieldParts(fields[..i + 1]))
            case Some(v) => Join(chunks + [FieldChunk(boundary, fields[i].name, v)]) == Chunks(boundary, FieldParts(fields[..i + 1]))
  {
    TakeSnoc(fields, i);
    FieldPartsSnoc(fields[..i], fields[i]);
    var done := FieldParts(fields[..i]);
    match fields[i].value
    case None => assert FieldParts([fields[i]]) == [] && done + [] == done;
    case Some(v) =>
      var p := Part(fields[i].name, None, None, v);
      assert FieldParts([fields[i]]) == [p];
      PushPart(chunks, boundary, done, p, FieldChunk(boundary, fields[i].name, v));
  }

  lemma FileStep(front: seq<Part>, files: seq<File>, i: nat, guess: Bytes -> Option<Bytes>, chunks: seq<Bytes>, boundary: Bytes)
    requires i < |files| && Join(chunks) == Chunks(boundary, front + FileParts(files[..i], guess))
    ensures var chunk := FileChunk(boundary, files[i], guess(files[i].filename).GetOr(DEFAULT_MIME));
            Join(chunks + [chunk]) == Chunks(boundary, front + FileParts(files[..i + 1], guess))
  {
    TakeSnoc(files, i);
    FilePartsSnoc(files[..i], files[i], guess);
    var done, p := FileParts(files[..i], guess), FilePart(files[i], guess);
    PushPart(chunks, boundary, front + done, p, FileChunk(boundary, files[i], guess(files[i].filename).GetOr(DEFAULT_MIME)));
    assert front + done + [p] == front + (done + [p]);
  }

  method EncodeMultipart(fields: seq<Field>, files: seq<File>, token: Bytes, guess: Bytes -> Option<Bytes>)
    returns (body: Bytes, contentType: Bytes)
    ensures body == Body(Boundary(token), FieldParts(fields) + FileParts(files, guess))
    ensures contentType == CONTENT_TYPE + Boundary(token)
  {
    var boundary := BOUNDARY_PREFIX + token;
    var parts: seq<Bytes> := [];
    for i := 0 to |fields|
      invariant Join(parts) == Chunks(boundary, FieldParts(fields[..i]))
    {
      FieldStep(fields, i, parts, boundary);
      if fields[i].value.None? {
        continue;
      }
      parts := parts + [FieldChunk(boundary, fields[i].name, fields[i].value.value)];
    }
    assert fields[..|fields|] == fields;
    ghost var front := FieldParts(fields);
    assert front + FileParts(files[..0], guess) == front;
    for i := 0 to |files|
      invariant Join(parts) == Chunks(boundary, front + FileParts(files[..i], guess))
    {
      FileStep(front, files, i, guess, parts, boundary);
      var mime := guess(files[i].filename).GetOr(DEFAULT_MIME);
      parts := parts + [FileChunk(boundary, files[i], mime)];
    }
    assert files[..|files|] == files;
    CloseBody(parts, boundary, front + FileParts(files, guess));
    parts := parts + ["--" + boundary + "--" + CRLF];
    body, contentType := Join(parts), CONTENT_TYPE + boundary;
  }

  // ----- Searching -----

  predicate MatchAt(x: Bytes, s: Bytes, k: nat) {
    k + |x| <= |s| && s[k..k + |x|] == x
  }

  ghost predicate Occurs(x: Bytes, s: Bytes) {
    exists k: nat :: MatchAt(x, s, k)
  }

  /** The first occurrence. */
  function Find(x: Bytes, s: Bytes): (r: Option<nat>)
    ensures r.Some? ==> MatchAt(x, s, r.value) && forall k: nat | k < r.value :: !MatchAt(x, s, k)
    ensures r.None? ==> !Occurs(x, s)
    decreases |s|
  {
    if MatchAt(x, s, 0) then Some(0)
    else if s == "" then None
    else
      var r := Find(x, s[1..]);
      assert forall k: nat | k > 0 :: MatchAt(x, s, k) <==> MatchAt(x, s[1..], k - 1) by {
        forall k: nat | k > 0 ensures MatchAt(x, s, k) <==> MatchAt(x, s[1..], k - 1) {
          assert s[..1] + s[1..] == s;
          MatchShift(x, s[..1], s[1..], k);
        }
      }
      match r
      case None => None
      case Some(k) => Some(k + 1)
  }

  /** Matches behind a prefix are matches of the rest. */
  lemma MatchShift(x: Bytes, a: Bytes, s: Bytes, k: nat)
    requires k >= |a|
    ensures MatchAt(x, a + s, k) <==> MatchAt(x, s, k - |a|)
  {
    if k + |x| <= |a + s| { assert (a + s)[k..k + |x|] == s[k - |a|..k - |a| + |x|]; }
  }

  /** A match shows the characters of the mark. */
  lemma MatchChar(x: Bytes, s: Bytes, k: nat, i: nat)
    requires i < |x|
    ensures MatchAt(x, s, k) ==> k + i < |s| && s[k + i] == x[i]
  {
    if MatchAt(x, s, k) { assert s[k..k + |x|][i] == s[k + i]; }
  }

  lemma MatchInside(x: Bytes, a: Bytes, rest: Bytes, k: nat)
    requires k + |x| <= |a|
    ensures MatchAt(x, a + rest, k) <==> MatchAt(x, a, k)
  {
    assert (a + rest)[k..k + |x|] == a[k..k + |x|];
  }

  lemma FindFirst(x: Bytes, s: Bytes, k: nat)
    requires MatchAt(x, s, k) && forall j: nat | j < k :: !MatchAt(x, s, j)
    ensures Find(x, s) == Some(k)
  {
  }

  // ----- Decoding -----

  function Delimiter(boundary: Bytes): Bytes {
    CRLF + "--" + boundary
  }

  function SkipPadding(s: Bytes): Bytes {
    if s != "" && (s[0] == ' ' || s[0] == '\t') then SkipPadding(s[1..]) else s
  }

  function Strip(prefix: Bytes, s: Bytes): Option<Bytes> {
    if MatchAt(prefix, s, 0) then Some(s[|prefix|..]) else None
  }

  /** The lines of a header block. */
  function Lines(s: Bytes): seq<Bytes>
    decreases |s|
  {
    match Find(CRLF, s)
    case None => [s]
    case Some(k) => [s[..k]] + Lines(s[k + 2..])
  }

  /** The value of the first header line with this name. */
  function Header(lines: seq<Bytes>, name: Bytes): Option<Bytes> {
    if lines == [] then None
    else match Strip(name + ": ", lines[0])
         case Some(v) => Some(v)
         case None => Header(lines[1..], name)
  }

  /** The value of parameter `key` among `; key="value"` parameters. */
  function Parameter(s: Bytes, key: Bytes): Option<Bytes>
    decreases |s|
  {
    match Strip("; ", s)
    case None => None
    case Some(t) =>
    match Find("=\"", t)
    case None => None
    case Some(k) =>
      var rest := t[k + 2..];
      match Find("\"", rest)
      case None => None
      case Some(q) => if t[..k] == key then Some(rest[..q]) else Parameter(rest[q + 1..], key)
  }

  function DecodePart(text: Bytes): Option<Part> {
    match Find(CRLF + CRLF, text)
    case None => None
    case Some(h) =>
      var lines := Lines(text[..h]);
      match Header(lines, "Content-Disposition")
      case None => None
      case Some(disposition) =>
      match Strip("form-data", disposition)
      case None => None
      case Some(params) =>
      match Parameter(params, NAME)
      case None => None
      case Some(name) => Some(Part(name, Parameter(params, FILENAME), Header(lines, "Content-Type"), text[h + 4..]))
  }

  datatype Piece = Closed | Malformed | Piece(text: Bytes, rest: Bytes)

  /**
   What follows a delimiter (RFC 2046 section 5.1.1): the close mark, or padding, a line end and one
   part up to the next delimiter.
   */
  function NextPiece(d: Bytes, s: Bytes): (p: Piece)
    ensures p.Piece? ==> |p.rest| < |s|
  {
    PaddingShortens(s);
    if Strip("--", s).Some? then Closed
    else
      match Strip(CRLF, SkipPadding(s))
      case None => Malformed
      case Some(t) =>
      match Find(d, t)
      case None => Malformed
      case Some(k) => Piece(t[..k], t[k + |d|..])
  }

  /** The texts of all the parts behind a delimiter. */
  function SplitRest(d: Bytes, s: Bytes): Option<seq<Bytes>>
    decreases |s|
  {
    match NextPiece(d, s)
    case Closed => Some([])
    case Malformed => None
    case Piece(text, rest) =>
      match SplitRest(d, rest)
      case None => None
      case Some(more) => Some([text] + more)
  }

  function DecodeParts(texts: seq<Bytes>): Option<seq<Part>> {
    if texts == [] then Some([])
    else
      match DecodePart(texts[0])
      case None => None
      case Some(p) =>
      match DecodeParts(texts[1..])
      case None => None
      case Some(ps) => Some([p] + ps)
  }

  /** What follows a delimiter, read as parts. */
  function DecodeRest(d: Bytes, s: Bytes): Option<seq<Part>> {
    match SplitRest(d, s)
    case None => None
    case Some(texts) => DecodeParts(texts)
  }

  lemma {:induction false} PaddingShortens(s: Bytes)
    ensures |SkipPadding(s)| <= |s|
  {
    if s != "" { PaddingShortens(s[1..]); }
  }

  /** A body from its first delimiter on; the line end that belongs to the first delimiter is the start of the body. */
  function Decode(boundary: Bytes, body: Bytes): Option<seq<Part>> {
    match Find(Delimiter(boundary), CRLF + body)
    case None => None
    case Some(k) => DecodeRest(Delimiter(boundary), (CRLF + body)[k + |Delimiter(boundary)|..])
  }

  // ----- When a search finds what the encoder put there -----

  predicate LineEndAt(s: Bytes, i: nat) {
    i + 1 < |s| && s[i] == '\r' && s[i + 1] == '\n'
  }

  /** No CR with an LF behind it; either may stand alone. */
  predicate OneLine(s: Bytes) {
    forall i: nat | i < |s| :: !LineEndAt(s, i)
  }

  predicate NoQuote(s: Bytes) {
    forall i | 0 <= i < |s| :: s[i] != '"'
  }

  /** What may stand between quotes in a header line. */
  predicate Plain(s: Bytes) {
    NoQuote(s) && OneLine(s)
  }

  predicate Joins(a: Bytes, b: Bytes) {
    a != "" && b != "" ==> !(a[|a| - 1] == '\r' && b[0] == '\n')
  }

  lemma OneLineConcat(a: Bytes, b: Bytes)
    requires OneLine(a) && OneLine(b) && Joins(a, b)
    ensures OneLine(a + b)
  {
    forall i: nat | i < |a + b| ensures !LineEndAt(a + b, i) {
      if i < |a| { assert !LineEndAt(a, i); } else { assert !LineEndAt(b, i - |a|); }
    }
  }

  predicate Marked(x: Bytes) {
    x != "" && forall i | 0 < i < |x| :: x[i] != x[0]
  }

  /** A search skips a prefix in which nothing matches. */
  lemma FindBehind(x: Bytes, a: Bytes, s: Bytes)
    requires forall j: nat | j < |a| :: !MatchAt(x, a + s, j)
    requires Find(x, s).Some?
    ensures Find(x, a + s) == Some(|a| + Find(x, s).value)
  {
    var k := Find(x, s).value;
    MatchShift(x, a, s, |a| + k);
    forall j: nat | |a| <= j < |a| + k ensures !MatchAt(x, a + s, j) { NoEarlier(x, a, s, j); }
    FindFirst(x, a + s, |a| + k);
  }

  lemma NoEarlier(x: Bytes, a: Bytes, s: Bytes, j: nat)
    requires Find(x, s).Some? && |a| <= j < |a| + Find(x, s).value
    ensures !MatchAt(x, a + s, j)
  {
    MatchShift(x, a, s, j);
    var i: nat := j - |a|;
    assert !MatchAt(x, s, i);
  }

  /**
   A mark whose first character does not recur in it cannot begin before a and end inside it: it is
   found exactly behind a.
   */
  lemma FindMark(x: Bytes, a: Bytes, rest: Bytes)
    requires Marked(x) && !Occurs(x, a)
    ensures Find(x, a + (x + rest)) == Some(|a|)
  {
    var s := a + (x + rest);
    forall j: nat | j < |a| ensures !MatchAt(x, s, j) {
      if j + |x| <= |a| {
        MatchInside(x, a, x + rest, j);
        assert !MatchAt(x, a, j);
      } else {
        MatchChar(x, s, j, |a| - j);
      }
    }
    assert s[|a|..|a| + |x|] == x;
    FindFirst(x, s, |a|);
  }

  lemma DelimiterMarked(token: Bytes)
    requires HexToken(token)
    ensures Marked(Delimiter(Boundary(token)))
  {
  }

  // ----- Header blocks -----

  predicate Receivable(p: Part) {
    && Plain(p.name)
    && (p.filename.Some? ==> Plain(p.filename.value))
    && (p.mime.Some? ==> OneLine(p.mime.value))
  }

  function HeaderLines(p: Part): seq<Bytes> {
    match p.mime
    case None => [DispositionLine(p)]
    case Some(m) => [DispositionLine(p), TYPE_HEADER + m]
  }

  /** The header block without the empty line that ends it. */
  function HeaderText(p: Part): Bytes {
    match p.mime
    case None => DispositionLine(p)
    case Some(m) => DispositionLine(p) + (CRLF + (TYPE_HEADER + m))
  }

  lemma HeadIsText(p: Part, content: Bytes)
    ensures Head(p) == HeaderText(p) + (CRLF + CRLF)
    ensures Head(p) + content == HeaderText(p) + ((CRLF + CRLF) + content)
  {
    match p.mime
    case None =>
    case Some(m) =>
      assert DispositionLine(p) + (CRLF + ((TYPE_HEADER + m) + (CRLF + CRLF)))
          == (DispositionLine(p) + (CRLF + (TYPE_HEADER + m))) + (CRLF + CRLF);
  }

  lemma DispositionPlain(p: Part)
    requires Receivable(p)
    ensures var line := DispositionLine(p); OneLine(line) && |line| > 30 && line[0] == 'C' && line[|line| - 1] == '"'
  {
    var front := DISPOSITION + "; name=\"";
    OneLineConcat(front, p.name);
    OneLineConcat(front + p.name, "\"");
    match p.filename
    case None =>
      assert DispositionLine(p) == front + p.name + "\"";
    case Some(f) =>
      OneLineConcat(front + p.name + "\"", "; filename=\"");
      OneLineConcat(front + p.name + "\"" + "; filename=\"", f);
      OneLineConcat(front + p.name + "\"" + "; filename=\"" + f, "\"");
      assert DispositionLine(p) == front + p.name + "\"" + "; filename=\"" + f + "\"";
  }

  /** A text that neither continues a line with a dash nor has an empty line: what no header block contains. */
  predicate Tame(s: Bytes) {
    forall i: nat | i + 2 < |s| :: LineEndAt(s, i) ==> s[i + 2] == 'C'
  }

  /** Nor does it end in a line end. */
  predicate Open(s: Bytes) {
    |s| > 1 ==> !LineEndAt(s, |s| - 2)
  }

  lemma TypeLine(m: Bytes)
    requires OneLine(m)
    ensures OneLine(TYPE_HEADER + m) && TYPE_HEADER + m != "" && (TYPE_HEADER + m)[0] == 'C'
  {
    OneLineConcat(TYPE_HEADER, m);
  }

  lemma TextTame(p: Part)
    requires Receivable(p)
    ensures Tame(HeaderText(p)) && Open(HeaderText(p)) && HeaderText(p) != ""
  {
    DispositionPlain(p);
    match p.mime
    case None =>
    case Some(m) =>
      TypeLine(m);
      TwoLinesTame(DispositionLine(p), TYPE_HEADER + m);
  }

  lemma TwoLinesTame(a: Bytes, b: Bytes)
    requires OneLine(a) && OneLine(b) && a != "" && a[|a| - 1] == '"' && |b| > 1 && b[0] == 'C'
    ensures Tame(a + (CRLF + b)) && Open(a + (CRLF + b))
  {
    var t, n := a + (CRLF + b), |a|;
    assert t[n] == '\r' && t[n + 1] == '\n' && t[n + 2] == 'C';
    forall i: nat | i < n ensures !LineEndAt(t, i) { assert !LineEndAt(a, i); }
    forall i: nat | n + 1 < i < |t| ensures !LineEndAt(t, i) { assert !LineEndAt(b, i - n - 2); }
  }

  /** A mark that starts a line with something other than a header can only match from the end of the header text on. */
  lemma NoMatchInText(x: Bytes, t: Bytes, s: Bytes)
    requires |x| >= 3 && x[0] == '\r' && x[1] == '\n' && x[2] != 'C'
    requires Tame(t) && Open(t) && s != "" && s[0] == '\r'
    ensures forall j: nat | j < |t| :: !MatchAt(x, t + s, j)
  {
    forall j: nat | j < |t| ensures !MatchAt(x, t + s, j) {
      MatchChar(x, t + s, j, 0);
      MatchChar(x, t + s, j, 1);
      MatchChar(x, t + s, j, 2);
      assert MatchAt(x, t + s, j) && j + 2 < |t| ==> LineEndAt(t, j);
    }
  }

  lemma HeadersEnd(p: Part, content: Bytes)
    requires Receivable(p)
    ensures Find(CRLF + CRLF, Head(p) + content) == Some(|HeaderText(p)|)
  {
    var t := HeaderText(p);
    var tail := (CRLF + CRLF) + content;
    TextTame(p);
    HeadIsText(p, content);
    NoMatchInText(CRLF + CRLF, t, tail);
    assert tail[0..4] == CRLF + CRLF;
    FindFirst(CRLF + CRLF, tail, 0);
    FindBehind(CRLF + CRLF, t, tail);
  }

  /** The delimiter occurs in a part exactly when its content contains it or starts with the dash-boundary. */
  lemma DelimiterInPart(token: Bytes, p: Part)
    requires Receivable(p)
    ensures Occurs(Delimiter(Boundary(token)), Head(p) + p.content) <==> Occurs(Delimiter(Boundary(token)), CRLF + p.content)
  {
    var d := Delimiter(Boundary(token));
    var t := HeaderText(p) + CRLF;
    var tail := CRLF + p.content;
    var text := HeaderText(p);
    TextTame(p);
    HeadIsText(p, p.content);
    assert Head(p) + p.content == t + tail;
    assert forall j: nat | j < |t| :: !MatchAt(d, t + tail, j) by {
      NoMatchInText(d, text, CRLF + tail);
      assert text + (CRLF + tail) == t + tail;
      forall j: nat | |text| <= j < |t| ensures !MatchAt(d, t + tail, j) {
        MatchChar(d, t + tail, j, 0);
        MatchChar(d, t + tail, j, 2);
      }
    }
    if Occurs(d, t + tail) {
      var k: nat :| MatchAt(d, t + tail, k);
      MatchShift(d, t, tail, k);
    }
    if Occurs(d, tail) {
      var k: nat :| MatchAt(d, tail, k);
      MatchShift(d, t, tail, |t| + k);
    }
  }

  // ----- Reading the headers back -----

  lemma FirstLine(first: Bytes, rest: Bytes)
    requires Find(CRLF, first + (CRLF + rest)) == Some(|first|)
    ensures Lines(first + (CRLF + rest)) == [first] + Lines(rest)
  {
    var t := first + (CRLF + rest);
    assert t[..|first|] == first && t[|first| + 2..] == rest;
  }

  lemma TwoLines(first: Bytes, second: Bytes)
    requires OneLine(first) && OneLine(second)
    ensures Lines(first + (CRLF + second)) == [first, second]
  {
    NoLineEnd(first);
    FindMark(CRLF, first, second);
    FirstLine(first, second);
    NoLineEnd(second);
  }

  lemma LinesOfText(p: Part)
    requires Receivable(p)
    ensures Lines(HeaderText(p)) == HeaderLines(p)
  {
    DispositionPlain(p);
    match p.mime
    case None => NoLineEnd(DispositionLine(p));
    case Some(m) =>
      TypeLine(m);
      TwoLines(DispositionLine(p), TYPE_HEADER + m);
  }

  lemma NoLineEnd(s: Bytes)
    requires OneLine(s)
    ensures !Occurs(CRLF, s) && Find(CRLF, s) == None && Lines(s) == [s]
  {
    forall k: nat ensures !MatchAt(CRLF, s, k) {
      MatchChar(CRLF, s, k, 0);
      MatchChar(CRLF, s, k, 1);
      assert k < |s| ==> !LineEndAt(s, k);
    }
  }

  lemma StripPrefix(prefix: Bytes, s: Bytes)
    ensures Strip(prefix, prefix + s) == Some(s)
  {
    assert (prefix + s)[0..|prefix|] == prefix;
  }

  lemma StripMismatch(prefix: Bytes, s: Bytes, i: nat)
    requires i < |prefix| && i < |s| && prefix[i] != s[i]
    ensures Strip(prefix, s) == None
  {
    MatchChar(prefix, s, 0, i);
  }

  lemma FindQuote(a: Bytes, rest: Bytes)
    requires NoQuote(a)
    ensures Find("\"", a + ("\"" + rest)) == Some(|a|)
  {
    forall k: nat ensures !MatchAt("\"", a, k) { MatchChar("\"", a, k, 0); }
    FindMark("\"", a, rest);
  }

  predicate IsWord(key: Bytes) {
    key != "" && forall i | 0 <= i < |key| :: 'a' <= key[i] <= 'z'
  }

  lemma ValueFound(key: Bytes, value: Bytes)
    requires IsWord(key)
    ensures Find("=\"", key + ("=\"" + value)) == Some(|key|)
  {
    forall k: nat ensures !MatchAt("=\"", key, k) { MatchChar("=\"", key, k, 0); }
    assert Marked("=\"");
    FindMark("=\"", key, value);
  }

  /** One parameter in front: it is the answer for its own key, and passed over for another. */
  lemma FirstParameter(key: Bytes, value: Bytes, rest: Bytes, wanted: Bytes)
    requires IsWord(key) && NoQuote(value)
    ensures Parameter("; " + (key + ("=\"" + (value + ("\"" + rest)))), wanted) == if key == wanted then Some(value) else Parameter(rest, wanted)
  {
    var tail := value + ("\"" + rest);
    var t := key + ("=\"" + tail);
    StripPrefix("; ", t);
    ValueFound(key, tail);
    assert t[..|key|] == key && t[|key| + 2..] == tail;
    FindQuote(value, rest);
    assert tail[..|value|] == value && tail[|value| + 1..] == rest;
  }

  function NameParameter(p: Part): Bytes {
    "; " + (NAME + ("=\"" + (p.name + ("\"" + FilenameParameter(p)))))
  }

  function FilenameParameter(p: Part): Bytes {
    match p.filename
    case None => ""
    case Some(f) => "; " + (FILENAME + ("=\"" + (f + ("\"" + ""))))
  }

  lemma DispositionForm(p: Part)
    ensures DispositionLine(p) == "Content-Disposition: " + ("form-data" + NameParameter(p))
  {
    var fn := FilenameParameter(p);
    match p.filename
    case None =>
      assert "; name=\"" + p.name + "\"" + "" == NameParameter(p);
    case Some(f) =>
      assert "; filename=\"" + f + "\"" == fn;
      assert "; name=\"" + p.name + "\"" + fn == NameParameter(p);
  }

  const NAME: Bytes := "name"
  const FILENAME: Bytes := "filename"

  lemma ParametersRead(p: Part)
    requires Receivable(p)
    ensures Parameter(NameParameter(p), NAME) == Some(p.name)
    ensures Parameter(NameParameter(p), FILENAME) == p.filename
  {
    assert NAME[0] != FILENAME[0];
    FirstParameter(NAME, p.name, FilenameParameter(p), NAME);
    FirstParameter(NAME, p.name, FilenameParameter(p), FILENAME);
    FilenameRead(p);
  }

  lemma FilenameRead(p: Part)
    requires Receivable(p)
    ensures Parameter(FilenameParameter(p), FILENAME) == p.filename
  {
    match p.filename
    case None =>
    case Some(f) => FirstParameter(FILENAME, f, "", FILENAME);
  }

  lemma HeadersRead(p: Part)
    requires Receivable(p)
    ensures Header(HeaderLines(p), "Content-Disposition") == Some("form-data" + NameParameter(p))
    ensures Header(HeaderLines(p), "Content-Type") == p.mime
  {
    DispositionForm(p);
    var line := DispositionLine(p);
    assert "Content-Disposition" + ": " == "Content-Disposition: ";
    StripPrefix("Content-Disposition: ", "form-data" + NameParameter(p));
    StripMismatch("Content-Type" + ": ", line, 8);
    assert HeaderLines(p)[0] == line;
    match p.mime
    case None => assert HeaderLines(p)[1..] == [];
    case Some(m) =>
      assert "Content-Type" + ": " == TYPE_HEADER;
      StripPrefix(TYPE_HEADER, m);
      assert HeaderLines(p)[1..] == [TYPE_HEADER + m];
  }

  /** A part is read back from its header block and content. */
  lemma DecodePartBack(p: Part, content: Bytes)
    requires Receivable(p)
    ensures DecodePart(Head(p) + content) == Some(p.(content := content))
  {
    var text := Head(p) + content;
    HeadersEnd(p, content);
    HeadIsText(p, content);
    var h := |HeaderText(p)|;
    assert text[..h] == HeaderText(p) && text[h + 4..] == content;
    LinesOfText(p);
    HeadersRead(p);
    StripPrefix("form-data", NameParameter(p));
    ParametersRead(p);
  }

  /** A part cut within its headers: whatever is found there as their end is too early. */
  lemma DecodeCutHead(p: Part, k: nat)
    requires Receivable(p) && k < |Head(p)|
    ensures Find(CRLF + CRLF, (Head(p) + p.content)[..k]) == None
  {
    var whole := Head(p) + p.content;
    var text := whole[..k];
    HeadersEnd(p, p.content);
    HeadIsText(p, p.content);
    forall h: nat ensures !MatchAt(CRLF + CRLF, text, h) {
      if MatchAt(CRLF + CRLF, text, h) { PrefixMatch(CRLF + CRLF, whole, k, h); }
    }
  }

  lemma PrefixMatch(x: Bytes, s: Bytes, k: nat, h: nat)
    requires k <= |s| && MatchAt(x, s[..k], h)
    ensures MatchAt(x, s, h)
  {
    assert s[h..h + |x|] == s[..k][h..h + |x|];
  }

  /** A part cut short is never read back as the part. */
  lemma DecodeCutPart(p: Part, k: nat)
    requires Receivable(p) && k < |Head(p) + p.content|
    ensures DecodePart((Head(p) + p.content)[..k]) != Some(p)
  {
    if k >= |Head(p)| {
      var cut := p.content[..k - |Head(p)|];
      assert (Head(p) + p.content)[..k] == Head(p) + cut;
      DecodePartBack(p, cut);
    } else {
      DecodeCutHead(p, k);
    }
  }

  // ----- The framing -----

  /** What follows the first delimiter of a body. */
  function Tail(boundary: Bytes, parts: seq<Part>): Bytes {
    if parts == [] then "--" + CRLF
    else CRLF + ((Head(parts[0]) + parts[0].content) + (Delimiter(boundary) + Tail(boundary, parts[1..])))
  }

  lemma {:induction false} BodyIsTail(boundary: Bytes, parts: seq<Part>)
    ensures CRLF + Body(boundary, parts) == Delimiter(boundary) + Tail(boundary, parts)
  {
    var d := Delimiter(boundary);
    if parts == [] {
      assert CRLF + ("--" + boundary + "--" + CRLF) == d + ("--" + CRLF);
    } else {
      var text := Head(parts[0]) + parts[0].content;
      var rest := Body(boundary, parts[1..]);
      BodyIsTail(boundary, parts[1..]);
      Regroup(boundary, text, rest);
    }
  }

  lemma Regroup(b: Bytes, text: Bytes, rest: Bytes)
    ensures CRLF + (("--" + b + CRLF + text + CRLF) + rest) == Delimiter(b) + (CRLF + (text + (CRLF + rest)))
  {
    var left := "--" + b + CRLF;
    assert left + text + CRLF + rest == left + (text + (CRLF + rest));
    assert CRLF + (left + (text + (CRLF + rest))) == (CRLF + left) + (text + (CRLF + rest));
    assert CRLF + left == Delimiter(b) + CRLF;
  }

  /** The delimiter does not occur in the content, nor its dash-boundary at the start of it. */
  ghost predicate Clear(token: Bytes, content: Bytes) {
    !Occurs(Delimiter(Boundary(token)), CRLF + content)
  }

  ghost predicate AllClear(token: Bytes, parts: seq<Part>) {
    forall i | 0 <= i < |parts| :: Clear(token, parts[i].content)
  }

  predicate AllReceivable(parts: seq<Part>) {
    forall i | 0 <= i < |parts| :: Receivable(parts[i])
  }

  /** A part whose content hides a delimiter is cut there, so the first part read differs. */
  lemma CutAtHiddenDelimiter(token: Bytes, p: Part, rest: Bytes)
    requires Receivable(p) && !Clear(token, p.content)
    ensures var d := Delimiter(Boundary(token)); var t := (Head(p) + p.content) + (d + rest);
            match Find(d, t) case None => true case Some(k) => DecodePart(t[..k]) != Some(p)
  {
    var d := Delimiter(Boundary(token));
    var whole := Head(p) + p.content;
    var t := whole + (d + rest);
    DelimiterInPart(token, p);
    var j: nat :| MatchAt(d, whole, j);
    MatchInside(d, whole, d + rest, j);
    match Find(d, t)
    case None =>
    case Some(k) =>
      assert k <= j < |whole|;
      assert t[..k] == whole[..k];
      DecodeCutPart(p, k);
  }

  lemma FindAtClearPart(token: Bytes, p: Part, rest: Bytes)
    requires HexToken(token) && Receivable(p) && Clear(token, p.content)
    ensures var d := Delimiter(Boundary(token)); var whole := Head(p) + p.content; var t := whole + (d + rest);
            Find(d, t) == Some(|whole|) && t[..|whole|] == whole && t[|whole| + |d|..] == rest
  {
    DelimiterMarked(token);
    DelimiterInPart(token, p);
    FindMark(Delimiter(Boundary(token)), Head(p) + p.content, rest);
  }

  /** Reading past the line end that follows a delimiter. */
  lemma RestOfPart(t: Bytes)
    ensures Strip("--", CRLF + t) == None && SkipPadding(CRLF + t) == CRLF + t && Strip(CRLF, CRLF + t) == Some(t)
  {
    StripMismatch("--", CRLF + t, 0);
    StripPrefix(CRLF, t);
  }

  lemma {:induction false} DecodeTail(token: Bytes, parts: seq<Part>)
    requires HexToken(token) && AllReceivable(parts)
    ensures DecodeRest(Delimiter(Boundary(token)), Tail(Boundary(token), parts)) == Some(parts) <==> AllClear(token, parts)
    decreases parts
  {
    var b := Boundary(token);
    if parts == [] {
      StripPrefix("--", CRLF);
    } else {
      var p, ps := parts[0], parts[1..];
      assert parts == [p] + ps;
      AllClearSplit(token, p, ps);
      if Clear(token, p.content) {
        DecodeTail(token, ps);
        ReadClearPart(token, p, Tail(b, ps));
      } else {
        ReadHidingPart(token, p, Tail(b, ps));
      }
    }
  }

  function Framed(token: Bytes, p: Part, rest: Bytes): Bytes {
    CRLF + ((Head(p) + p.content) + (Delimiter(Boundary(token)) + rest))
  }

  /** Past the line end, up to the next delimiter. */
  lemma PieceBehindLineEnd(d: Bytes, t: Bytes)
    ensures NextPiece(d, CRLF + t) == match Find(d, t) case None => Malformed case Some(k) => Piece(t[..k], t[k + |d|..])
  {
    RestOfPart(t);
  }

  lemma DecodeCons(text: Bytes, more: seq<Bytes>, part: Option<Part>)
    requires DecodePart(text) == part
    ensures DecodeParts([text] + more) ==
            if part.Some? && DecodeParts(more).Some? then Some([part.value] + DecodeParts(more).value) else None
  {
    assert ([text] + more)[1..] == more;
  }

  lemma ReadPiece(d: Bytes, s: Bytes, text: Bytes, rest: Bytes, part: Option<Part>)
    requires NextPiece(d, s) == Piece(text, rest) && DecodePart(text) == part
    ensures DecodeRest(d, s) ==
            if part.Some? && DecodeRest(d, rest).Some? then Some([part.value] + DecodeRest(d, rest).value) else None
  {
    match SplitRest(d, rest)
    case None =>
    case Some(more) => DecodeCons(text, more, part);
  }

  /** A part whose text is followed at once by the next delimiter. */
  lemma ReadPart(d: Bytes, text: Bytes, rest: Bytes, p: Part)
    requires Find(d, text + (d + rest)) == Some(|text|) && DecodePart(text) == Some(p)
    ensures DecodeRest(d, CRLF + (text + (d + rest))) ==
            match DecodeRest(d, rest) case None => None case Some(ps) => Some([p] + ps)
  {
    var t := text + (d + rest);
    PieceBehindLineEnd(d, t);
    assert t[..|text|] == text && t[|text| + |d|..] == rest;
    ReadPiece(d, CRLF + t, text, rest, Some(p));
  }

  lemma ReadClearPart(token: Bytes, p: Part, rest: Bytes)
    requires HexToken(token) && Receivable(p) && Clear(token, p.content)
    ensures DecodeRest(Delimiter(Boundary(token)), Framed(token, p, rest)) ==
            match DecodeRest(Delimiter(Boundary(token)), rest) case None => None case Some(ps) => Some([p] + ps)
  {
    FindAtClearPart(token, p, rest);
    DecodePartBack(p, p.content);
    ReadPart(Delimiter(Boundary(token)), Head(p) + p.content, rest, p);
  }

  ghost predicate StartsOtherwise(r: Option<seq<Part>>, p: Part) {
    r.None? || r.value == [] || r.value[0] != p
  }

  lemma ReadCutPiece(d: Bytes, s: Bytes, text: Bytes, rest: Bytes, p: Part)
    requires NextPiece(d, s) == Piece(text, rest) && DecodePart(text) != Some(p)
    ensures StartsOtherwise(DecodeRest(d, s), p)
  {
    ReadPiece(d, s, text, rest, DecodePart(text));
  }

  lemma ReadMalformed(d: Bytes, s: Bytes, p: Part)
    requires NextPiece(d, s) == Malformed
    ensures StartsOtherwise(DecodeRest(d, s), p)
  {
  }

  lemma ReadCutAt(d: Bytes, t: Bytes, k: nat, p: Part)
    requires Find(d, t) == Some(k) && DecodePart(t[..k]) != Some(p)
    ensures StartsOtherwise(DecodeRest(d, CRLF + t), p)
  {
    PieceBehindLineEnd(d, t);
    ReadCutPiece(d, CRLF + t, t[..k], t[k + |d|..], p);
  }

  lemma ReadUncut(d: Bytes, t: Bytes, p: Part)
    requires Find(d, t) == None
    ensures StartsOtherwise(DecodeRest(d, CRLF + t), p)
  {
    PieceBehindLineEnd(d, t);
    ReadMalformed(d, CRLF + t, p);
  }

  /** A part cut where a delimiter is found: not the part, if the cut text does not decode to it. */
  lemma ReadCutPart(d: Bytes, t: Bytes, p: Part)
    requires match Find(d, t) case None => true case Some(k) => DecodePart(t[..k]) != Some(p)
    ensures StartsOtherwise(DecodeRest(d, CRLF + t), p)
  {
    match Find(d, t)
    case None => ReadUncut(d, t, p);
    case Some(k) => ReadCutAt(d, t, k, p);
  }

  lemma ReadHidingPart(token: Bytes, p: Part, rest: Bytes)
    requires Receivable(p) && !Clear(token, p.content)
    ensures StartsOtherwise(DecodeRest(Delimiter(Boundary(token)), Framed(token, p, rest)), p)
  {
    CutAtHiddenDelimiter(token, p, rest);
    ReadCutPart(Delimiter(Boundary(token)), (Head(p) + p.content) + (Delimiter(Boundary(token)) + rest), p);
  }

  lemma AllClearSplit(token: Bytes, p: Part, ps: seq<Part>)
    ensures AllClear(token, [p] + ps) <==> Clear(token, p.content) && AllClear(token, ps)
  {
    var all := [p] + ps;
    if AllClear(token, all) {
      assert all[0] == p;
      forall i | 0 <= i < |ps| ensures Clear(token, ps[i].content) { assert all[i + 1] == ps[i]; }
    }
  }

  /**
   The round trip, exactly: a body is read back as the parts it was written from if and only if no
   content hides a delimiter.
   */
  lemma RoundTrip(token: Bytes, parts: seq<Part>)
    requires HexToken(token) && AllReceivable(parts)
    ensures Decode(Boundary(token), Body(Boundary(token), parts)) == Some(parts) <==> AllClear(token, parts)
  {
    var b := Boundary(token);
    var d := Delimiter(b);
    var s := d + Tail(b, parts);
    BodyIsTail(b, parts);
    assert s[0..|d|] == d;
    FindFirst(d, s, 0);
    assert s[|d|..] == Tail(b, parts);
    DecodeTail(token, parts);
  }

  /** A boundary that occurs in no content -- the encoder's hope in drawing it at random -- is enough. */
  lemma FreshBoundaryIsClear(token: Bytes, content: Bytes)
    requires !Occurs(Boundary(token), content)
    ensures Clear(token, content)
  {
    var b := Boundary(token);
    var d := Delimiter(b);
    var s := CRLF + content;
    forall k: nat ensures !MatchAt(d, s, k) {
      if k + |d| <= |s| {
        assert s[k..k + |d|][4..] == s[k + 4..k + 4 + |b|] == content[k + 2..k + 2 + |b|];
        assert d[4..] == b;
        assert !MatchAt(b, content, k + 2);
      }
    }
  }

  // ----- The request as a whole -----

  predicate SendableField(f: Field) {
    Plain(f.name)
  }

  predicate SendableFile(f: File, guess: Bytes -> Option<Bytes>) {
    Plain(f.name) && Plain(f.filename) && (guess(f.filename).Some? ==> OneLine(guess(f.filename).value))
  }

  lemma {:induction false} FieldsReceivable(fields: seq<Field>)
    requires forall i | 0 <= i < |fields| :: SendableField(fields[i])
    ensures AllReceivable(FieldParts(fields))
  {
    if fields != [] {
      assert SendableField(fields[0]);
      FieldsReceivable(fields[1..]);
    }
  }

  lemma {:induction false} FilesReceivable(files: seq<File>, guess: Bytes -> Option<Bytes>)
    requires forall i | 0 <= i < |files| :: SendableFile(files[i], guess)
    ensures AllReceivable(FileParts(files, guess))
    decreases files
  {
    if files != [] {
      assert SendableFile(files[0], guess);
      FilesReceivable(files[1..], guess);
    }
  }

  /** The boundary a receiver takes from the content type. */
  function BoundaryOf(contentType: Bytes): Option<Bytes> {
    Strip(CONTENT_TYPE, contentType)
  }

  /**
   A receiver that is given only the content type and the body recovers the present fields and then the
   files, in order and byte for byte, whenever the random boundary occurs in none of them.
   */
  lemma RequestRoundTrip(fields: seq<Field>, files: seq<File>, token: Bytes, guess: Bytes -> Option<Bytes>)
    requires HexToken(token)
    requires forall i | 0 <= i < |fields| :: SendableField(fields[i])
    requires forall i | 0 <= i < |files| :: SendableFile(files[i], guess)
    requires forall p | p in FieldParts(fields) + FileParts(files, guess) :: !Occurs(Boundary(token), p.content)
    ensures var parts := FieldParts(fields) + FileParts(files, guess);
            match BoundaryOf(CONTENT_TYPE + Boundary(token))
            case None => false
            case Some(b) => Decode(b, Body(Boundary(token), parts)) == Some(parts)
  {
    var parts := FieldParts(fields) + FileParts(files, guess);
    StripPrefix(CONTENT_TYPE, Boundary(token));
    FieldsReceivable(fields);
    FilesReceivable(files, guess);
    forall i | 0 <= i < |parts| ensures Clear(token, parts[i].content) {
      assert parts[i] in parts;
      FreshBoundaryIsClear(token, parts[i].content);
    }
    RoundTrip(token, parts);
  }
}
