/**
  Variable references: source:path.field.field with quoted segments, parsed and printed.

  Text is a sequence of Unicode scalar values.  Which of them are printable is a parameter:
  every result holds whatever the Unicode tables say.
 */
module References {
  import opened Prelude

  datatype Reference = Reference(source: string, path: string, fields: seq<string>)

  function Segments(r: Reference): seq<string> { [r.path] + r.fields }

  // ----- scanning outside quotes -----

  /** The first occurrence of c from position i on that no quotes enclose. */
  function FindFrom(s: string, c: char, i: nat, quoted: bool): Option<nat>
    requires i <= |s|
    decreases |s| - i
  {
    if i == |s| then None
    else if s[i] == c then if quoted then FindFrom(s, c, i + 1, quoted) else Some(i)
    else if s[i] == '"' then FindFrom(s, c, i + 1, !quoted)
    else FindFrom(s, c, i + 1, quoted)
  }

  method FindUnquoted(s: string, c: char) returns (r: Option<nat>)
    ensures r == FindFrom(s, c, 0, false)
  {
    var quoted := false;
    for i := 0 to |s|
      invariant FindFrom(s, c, 0, false) == FindFrom(s, c, i, quoted)
    {
      if s[i] == c {
        if !quoted { return Some(i); }
      } else if s[i] == '"' {
        quoted := !quoted;
      }
    }
    return None;
  }

  /** What is found is the character looked for, and the first one where there are no quotes. */
  lemma {:induction false} FoundIsFirst(s: string, c: char, i: nat, quoted: bool)
    requires i <= |s| && FindFrom(s, c, i, quoted).Some?
    ensures i <= FindFrom(s, c, i, quoted).value < |s| && s[FindFrom(s, c, i, quoted).value] == c
    ensures !quoted && '"' !in s[i..FindFrom(s, c, i, quoted).value] ==> c !in s[i..FindFrom(s, c, i, quoted).value]
    decreases |s| - i
  {
    var n := FindFrom(s, c, i, quoted).value;
    if s[i] != c || quoted {
      FoundIsFirst(s, c, i + 1, if s[i] == '"' && s[i] != c then !quoted else quoted);
      assert s[i..n] == [s[i]] + s[i + 1..n];
    }
  }

  /** Scanning passes over text that neither stops it nor toggles the quotes. */
  lemma {:induction false} ScanPasses(s: string, c: char, i: nat, j: nat, quoted: bool)
    requires i <= j <= |s| && c != '"'
    requires forall k :: i <= k < j ==> s[k] != '"' && (quoted || s[k] != c)
    ensures FindFrom(s, c, i, quoted) == FindFrom(s, c, j, quoted)
    decreases j - i
  {
    if i < j {
      ScanPasses(s, c, i + 1, j, quoted);
    }
  }

  // ----- trimming and quotes -----

  /** White space as Unicode defines it. */
  predicate IsSpace(c: char) {
    || '\t' <= c <= '\r' || c == ' ' || c == '\U{85}' || c == '\U{A0}' || c == '\U{1680}'
    || '\U{2000}' <= c <= '\U{200A}' || c == '\U{2028}' || c == '\U{2029}' || c == '\U{202F}' || c == '\U{205F}'
    || c == '\U{3000}'
  }

  function TrimLeft(s: string): string {
    if s != [] && IsSpace(s[0]) then TrimLeft(s[1..]) else s
  }

  function TrimRight(s: string): string {
    if s != [] && IsSpace(s[|s| - 1]) then TrimRight(s[..|s| - 1]) else s
  }

  function TrimSpace(s: string): string { TrimRight(TrimLeft(s)) }

  predicate Trimmed(s: string) { s != [] ==> !IsSpace(s[0]) && !IsSpace(s[|s| - 1]) }

  lemma TrimShortens(s: string)
    ensures |TrimLeft(s)| <= |s| && |TrimRight(s)| <= |s|
    ensures s != [] && IsSpace(s[0]) ==> |TrimLeft(s)| < |s|
    ensures s != [] && IsSpace(s[|s| - 1]) ==> |TrimRight(s)| < |s|
  {
  }

  lemma TrimIsIdentityIff(s: string)
    ensures TrimSpace(s) == s <==> Trimmed(s)
  {
    TrimShortens(s);
    TrimShortens(TrimLeft(s));
  }

  function RemoveQuotes(s: string): string {
    if s == [] then []
    else if s[|s| - 1] == '"' then RemoveQuotes(s[..|s| - 1])
    else RemoveQuotes(s[..|s| - 1]) + [s[|s| - 1]]
  }

  lemma {:induction false} RemoveQuotesRemoves(s: string)
    ensures '"' !in RemoveQuotes(s)
    ensures '"' !in s ==> RemoveQuotes(s) == s
  {
    if s != [] {
      RemoveQuotesRemoves(s[..|s| - 1]);
      assert s == s[..|s| - 1] + [s[|s| - 1]];
    }
  }

  lemma {:induction false} RemoveQuotesConcat(a: string, b: string)
    ensures RemoveQuotes(a + b) == RemoveQuotes(a) + RemoveQuotes(b)
  {
    if b == [] {
      assert a + b == a;
    } else {
      RemoveQuotesConcat(a, b[..|b| - 1]);
      assert (a + b)[..|a + b| - 1] == a + b[..|b| - 1];
    }
  }

  // ----- parsing -----

  datatype Segment = Segment(field: string, rest: string, more: bool)

  function Clean(raw: string): string { RemoveQuotes(TrimSpace(raw)) }

  function ReadSegment(raw: string): Segment {
    var i := FindFrom(raw, '.', 0, false);
    if i.None? then Segment(Clean(raw), "", false)
    else FoundIsFirst(raw, '.', 0, false); Segment(Clean(raw[..i.value]), raw[i.value + 1..], true)
  }

  function ReadSegments(raw: string): Option<seq<string>>
    decreases |raw|
  {
    var s := ReadSegment(raw);
    if s.field == "" then None
    else if !s.more then Some([s.field])
    else
      FoundIsFirst(raw, '.', 0, false);
      var rest := ReadSegments(s.rest);
      if rest.None? then None else Some([s.field] + rest.value)
  }

  function Parse(name: string): Option<Reference> {
    var i := FindFrom(name, ':', 0, false);
    if i.None? then ParsePath("", name)
    else
      FoundIsFirst(name, ':', 0, false);
      if '"' in name[..i.value] then None else ParsePath(name[..i.value], name[i.value + 1..])
  }

  function ParsePath(source: string, raw: string): Option<Reference> {
    var segments := ReadSegments(raw);
    if segments.None? then None
    else ReadSegmentsShape(raw); Some(Reference(source, segments.value[0], segments.value[1..]))
  }

  /** Parsed segments are never empty and never hold a quote. */
  lemma {:induction false} ReadSegmentsShape(raw: string)
    requires ReadSegments(raw).Some?
    ensures ReadSegments(raw).value != []
    ensures forall k :: 0 <= k < |ReadSegments(raw).value| ==> PlainSegment(ReadSegments(raw).value[k])
    decreases |raw|
  {
    var s := ReadSegment(raw);
    RemoveQuotesRemoves(TrimSpace(raw));
    if s.more {
      FoundIsFirst(raw, '.', 0, false);
      RemoveQuotesRemoves(TrimSpace(raw[..FindFrom(raw, '.', 0, false).value]));
      ReadSegmentsShape(s.rest);
    }
  }

  predicate PlainSegment(seg: string) { seg != "" && '"' !in seg }

  method ParseReference(name: string) returns (r: Option<Reference>)
    ensures r == Parse(name)
  {
    var source, input := "", name;
    var colon := FindUnquoted(input, ':');
    if colon.Some? {
      FoundIsFirst(input, ':', 0, false);
      source := input[..colon.value];
      if '"' in source { return None; }
      input := input[colon.value + 1..];
    }
    var fields, more := [], true;
    ghost var path := input;
    assert ReadSegments(path).Some? ==> [] + ReadSegments(path).value == ReadSegments(path).value;
    while more
      invariant more ==> ReadSegments(path) == Prepend(fields, ReadSegments(input))
      invariant !more ==> fields != [] && ReadSegments(path) == Some(fields)
      decreases more, |input|
    {
      var segment := ReadSegment(input);
      if segment.field == "" { return None; }
      if segment.more { FoundIsFirst(input, '.', 0, false); }
      PrependOne(fields, segment.field, ReadSegments(segment.rest));
      fields := fields + [segment.field];
      input, more := segment.rest, segment.more;
    }
    return Some(Reference(source, fields[0], fields[1..]));
  }

  function Prepend(fields: seq<string>, rest: Option<seq<string>>): Option<seq<string>> {
    if rest.None? then None else Some(fields + rest.value)
  }

  lemma PrependOne(fields: seq<string>, field: string, rest: Option<seq<string>>)
    ensures Prepend(fields + [field], rest) == Prepend(fields, Prepend([field], rest))
  {
    if rest.Some? {
      assert fields + [field] + rest.value == fields + ([field] + rest.value);
    }
  }

  // ----- printing -----

  /** How a quoted literal renders each character. */
  type Escaper = char -> string

  function EscapeAll(esc: Escaper, s: string): string {
    if s == [] then "" else EscapeAll(esc, s[..|s| - 1]) + esc(s[|s| - 1])
  }

  predicate Special(seg: string) { ',' in seg || '.' in seg || ':' in seg || '/' in seg || ' ' in seg }

  function SegmentString(esc: Escaper, seg: string): string {
    if Special(seg) then "\"" + EscapeAll(esc, seg) + "\"" else seg
  }

  function Join(esc: Escaper, segments: seq<string>): string
    requires segments != []
  {
    if |segments| == 1 then SegmentString(esc, segments[0])
    else SegmentString(esc, segments[0]) + "." + Join(esc, segments[1..])
  }

  /** The printed form of a reference. */
  function Print(esc: Escaper, r: Reference): string {
    (if r.source != "" then r.source + ":" else "") + Join(esc, Segments(r))
  }

  method ReferenceString(esc: Escaper, r: Reference) returns (s: string)
    ensures s == Print(esc, r)
  {
    s := "";
    if r.source != "" { s := s + r.source + ":"; }
    ghost var prefix := s;
    s := s + SegmentString(esc, r.path);
    var fields := r.fields;
    ghost var done := [r.path];
    while |fields| > 0
      invariant done != [] && done + fields == Segments(r) && s == prefix + Join(esc, done)
    {
      JoinSnoc(esc, done, fields[0]);
      Regroup(prefix, Join(esc, done), SegmentString(esc, fields[0]));
      s := s + ".";
      s := s + SegmentString(esc, fields[0]);
      done := done + [fields[0]];
      fields := fields[1..];
    }
    assert done == Segments(r);
  }

  lemma Regroup(prefix: string, joined: string, last: string)
    ensures prefix + joined + "." + last == prefix + (joined + "." + last)
  {
  }

  lemma {:induction false} JoinSnoc(esc: Escaper, segments: seq<string>, last: string)
    requires segments != []
    ensures Join(esc, segments + [last]) == Join(esc, segments) + "." + SegmentString(esc, last)
  {
    if |segments| > 1 {
      JoinSnoc(esc, segments[1..], last);
      assert (segments + [last])[1..] == segments[1..] + [last];
    } else {
      assert (segments + [last])[1..] == [last];
    }
  }

  // ----- what printing does to characters -----

  predicate Verbatim(esc: Escaper, c: char) { esc(c) == [c] }

  /** Escapes are longer than what they stand for, and only a quote is rendered with a quote. */
  ghost predicate Escapes(esc: Escaper) {
    forall c :: (Verbatim(esc, c) || |esc(c)| > 1) && (c != '"' ==> '"' !in esc(c))
  }

  lemma {:induction false} EscapeAllHasNoQuotes(esc: Escaper, s: string)
    requires Escapes(esc) && '"' !in s
    ensures '"' !in EscapeAll(esc, s)
  {
    if s != [] {
      EscapeAllHasNoQuotes(esc, s[..|s| - 1]);
    }
  }

  lemma {:induction false} EscapeAllIsIdentityIff(esc: Escaper, s: string)
    requires Escapes(esc)
    ensures |EscapeAll(esc, s)| >= |s|
    ensures EscapeAll(esc, s) == s <==> forall k :: 0 <= k < |s| ==> Verbatim(esc, s[k])
  {
    if s != [] {
      var n := |s| - 1;
      EscapeAllIsIdentityIff(esc, s[..n]);
      assert s == s[..n] + [s[n]];
      assert forall k :: 0 <= k < n ==> s[..n][k] == s[k];
      if EscapeAll(esc, s) == s {
        assert |esc(s[n])| == 1;
        assert EscapeAll(esc, s)[..n] == EscapeAll(esc, s[..n]);
      }
    }
  }

  /** What parsing makes of a printed segment. */
  function Reread(esc: Escaper, seg: string): string {
    if Special(seg) then EscapeAll(esc, seg) else TrimSpace(seg)
  }

  lemma {:induction false} TrimKeepsOut(s: string, c: char)
    requires c !in s
    ensures c !in TrimLeft(s) && c !in TrimRight(s)
    decreases |s|
  {
    if s != [] {
      TrimKeepsOut(s[1..], c);
      TrimKeepsOut(s[..|s| - 1], c);
    }
  }

  lemma CleanQuoted(body: string)
    requires '"' !in body
    ensures Clean("\"" + body + "\"") == body
  {
    TrimIsIdentityIff("\"" + body + "\"");
    RemoveQuotesRemoves(body);
    RemoveQuotesConcat("\"" + body, "\"");
    RemoveQuotesConcat("\"", body);
    assert RemoveQuotes("\"") == "";
  }

  lemma CleanPrinted(esc: Escaper, seg: string)
    requires Escapes(esc) && '"' !in seg
    ensures Clean(SegmentString(esc, seg)) == Reread(esc, seg)
  {
    if Special(seg) {
      EscapeAllHasNoQuotes(esc, seg);
      CleanQuoted(EscapeAll(esc, seg));
    } else {
      TrimKeepsOut(seg, '"');
      TrimKeepsOut(TrimLeft(seg), '"');
      RemoveQuotesRemoves(TrimSpace(seg));
    }
  }

  // ----- scanning what was printed -----

  predicate At(s: string, i: nat, part: string) {
    i + |part| <= |s| && s[i..i + |part|] == part
  }

  lemma ScanQuoted(s: string, c: char, i: nat, body: string)
    requires c != '"' && '"' !in body && At(s, i, "\"" + body + "\"")
    ensures FindFrom(s, c, i, false) == FindFrom(s, c, i + |body| + 2, false)
  {
    var printed, j := "\"" + body + "\"", i + |body| + 1;
    forall k | i <= k <= j
      ensures s[k] == printed[k - i]
    {
      assert s[i..i + |printed|][k - i] == s[k];
    }
    ScanPasses(s, c, i + 1, j, true);
  }

  lemma ScanUnquoted(s: string, c: char, i: nat, seg: string)
    requires c != '"' && '"' !in seg && c !in seg && At(s, i, seg)
    ensures FindFrom(s, c, i, false) == FindFrom(s, c, i + |seg|, false)
  {
    forall k | i <= k < i + |seg|
      ensures s[k] != '"' && s[k] != c
    {
      assert s[i..i + |seg|][k - i] == s[k];
    }
    ScanPasses(s, c, i, i + |seg|, false);
  }

  /** A printed segment neither stops a scan for a separator nor leaves it inside quotes. */
  lemma ScanSegment(esc: Escaper, s: string, c: char, i: nat, seg: string)
    requires Escapes(esc) && (c == '.' || c == ':')
    requires '"' !in seg && At(s, i, SegmentString(esc, seg))
    ensures FindFrom(s, c, i, false) == FindFrom(s, c, i + |SegmentString(esc, seg)|, false)
  {
    if Special(seg) {
      EscapeAllHasNoQuotes(esc, seg);
      ScanQuoted(s, c, i, EscapeAll(esc, seg));
    } else {
      ScanUnquoted(s, c, i, seg);
    }
  }

  ghost predicate NoQuotes(segments: seq<string>) {
    forall k :: 0 <= k < |segments| ==> '"' !in segments[k]
  }

  lemma {:induction false} ScanSegments(esc: Escaper, s: string, i: nat, segments: seq<string>)
    requires Escapes(esc) && NoQuotes(segments)
    requires segments != [] && i <= |s| && s[i..] == Join(esc, segments)
    ensures FindFrom(s, ':', i, false) == None
    decreases |segments|
  {
    var printed := SegmentString(esc, segments[0]);
    assert s[i..][..|printed|] == s[i..i + |printed|] == printed;
    ScanSegment(esc, s, ':', i, segments[0]);
    if |segments| > 1 {
      assert s[i..][|printed|] == '.';
      assert s[i + |printed| + 1..] == s[i..][|printed| + 1..] == Join(esc, segments[1..]);
      ScanSegments(esc, s, i + |printed| + 1, segments[1..]);
    }
  }

  lemma ReadOnly(printed: string)
    requires FindFrom(printed, '.', 0, false) == FindFrom(printed, '.', |printed|, false)
    ensures ReadSegment(printed) == Segment(Clean(printed), "", false)
  {
  }

  lemma ReadFirst(s: string, printed: string, rest: string)
    requires s == printed + "." + rest
    requires FindFrom(s, '.', 0, false) == FindFrom(s, '.', |printed|, false)
    ensures ReadSegment(s) == Segment(Clean(printed), rest, true)
  {
    assert s[|printed|] == '.';
    assert s[..|printed|] == printed && s[|printed| + 1..] == rest;
  }

  /** A scan for a dot passes over the first printed segment. */
  lemma ScanFirst(esc: Escaper, s: string, seg: string, tail: string)
    requires Escapes(esc) && '"' !in seg && s == SegmentString(esc, seg) + tail
    ensures FindFrom(s, '.', 0, false) == FindFrom(s, '.', |SegmentString(esc, seg)|, false)
  {
    assert s[0..|SegmentString(esc, seg)|] == SegmentString(esc, seg);
    ScanSegment(esc, s, '.', 0, seg);
  }

  lemma ReadPrintedFirst(esc: Escaper, seg: string, rest: string)
    requires Escapes(esc) && '"' !in seg
    ensures ReadSegment(SegmentString(esc, seg) + "." + rest) == Segment(Reread(esc, seg), rest, true)
  {
    var printed := SegmentString(esc, seg);
    var s := printed + "." + rest;
    assert s == printed + ("." + rest);
    ScanFirst(esc, s, seg, "." + rest);
    ReadFirst(s, printed, rest);
    CleanPrinted(esc, seg);
  }

  lemma ReadPrintedOnly(esc: Escaper, seg: string)
    requires Escapes(esc) && '"' !in seg
    ensures ReadSegment(SegmentString(esc, seg)) == Segment(Reread(esc, seg), "", false)
  {
    var printed := SegmentString(esc, seg);
    assert printed == printed + "";
    ScanFirst(esc, printed, seg, "");
    ReadOnly(printed);
    CleanPrinted(esc, seg);
  }

  /** The first segment is split off a printed path. */
  lemma ReadPrinted(esc: Escaper, segments: seq<string>)
    requires Escapes(esc) && segments != [] && NoQuotes(segments)
    ensures ReadSegment(Join(esc, segments)) == Segment(
      Reread(esc, segments[0]), if |segments| > 1 then Join(esc, segments[1..]) else "", |segments| > 1)
  {
    if |segments| > 1 {
      ReadPrintedFirst(esc, segments[0], Join(esc, segments[1..]));
    } else {
      ReadPrintedOnly(esc, segments[0]);
    }
  }

  function RereadAll(esc: Escaper, segments: seq<string>): seq<string> {
    if segments == [] then [] else [Reread(esc, segments[0])] + RereadAll(esc, segments[1..])
  }

  lemma {:induction false} ReadAllPrinted(esc: Escaper, segments: seq<string>)
    requires Escapes(esc) && segments != [] && NoQuotes(segments)
    ensures ReadSegments(Join(esc, segments)) ==
      if "" in RereadAll(esc, segments) then None else Some(RereadAll(esc, segments))
    decreases |segments|
  {
    ReadPrinted(esc, segments);
    if |segments| > 1 {
      ReadAllPrinted(esc, segments[1..]);
    } else {
      assert RereadAll(esc, segments) == [Reread(esc, segments[0])];
    }
  }

  predicate PlainSource(source: string) { ':' !in source && '"' !in source }

  /** Without quotes in the segments and separators in the source, the parts are found again. */
  lemma ParsePrinted(esc: Escaper, r: Reference)
    requires Escapes(esc) && PlainSource(r.source) && NoQuotes(Segments(r))
    ensures Parse(Print(esc, r)) == ParsePath(r.source, Join(esc, Segments(r)))
  {
    var s, path := Print(esc, r), Join(esc, Segments(r));
    if r.source == "" {
      assert s == path && s[0..] == path;
      ScanSegments(esc, s, 0, Segments(r));
    } else {
      ScanPasses(s, ':', 0, |r.source|, false);
      assert s[|r.source|] == ':';
      assert s[..|r.source|] == r.source && s[|r.source| + 1..] == path;
    }
  }

  // ----- the main result -----

  /** A segment that printing keeps: quoted text must be verbatim, unquoted text already trimmed. */
  predicate KeptSegment(esc: Escaper, seg: string) {
    && PlainSegment(seg)
    && if Special(seg) then forall k :: 0 <= k < |seg| ==> Verbatim(esc, seg[k]) else Trimmed(seg)
  }

  predicate Kept(esc: Escaper, r: Reference) {
    PlainSource(r.source) && forall k :: 0 <= k < |Segments(r)| ==> KeptSegment(esc, Segments(r)[k])
  }

  lemma KeptIffReread(esc: Escaper, seg: string)
    requires Escapes(esc) && PlainSegment(seg)
    ensures Reread(esc, seg) == seg <==> KeptSegment(esc, seg)
  {
    TrimIsIdentityIff(seg);
    EscapeAllIsIdentityIff(esc, seg);
  }

  lemma {:induction false} AllKeptIffReread(esc: Escaper, segments: seq<string>)
    requires Escapes(esc) && forall k :: 0 <= k < |segments| ==> PlainSegment(segments[k])
    ensures RereadAll(esc, segments) == segments <==> forall k :: 0 <= k < |segments| ==> KeptSegment(esc, segments[k])
  {
    if segments != [] {
      KeptIffReread(esc, segments[0]);
      AllKeptIffReread(esc, segments[1..]);
      var all := RereadAll(esc, segments);
      assert all[1..] == RereadAll(esc, segments[1..]);
      assert segments == [segments[0]] + segments[1..];
      assert forall k :: 1 <= k < |segments| ==> segments[k] == segments[1..][k - 1];
    }
  }

  lemma ParsedIsPlain(name: string)
    requires Parse(name).Some?
    ensures PlainSource(Parse(name).value.source)
    ensures forall k :: 0 <= k < |Segments(Parse(name).value)| ==> PlainSegment(Segments(Parse(name).value)[k])
  {
    var i := FindFrom(name, ':', 0, false);
    if i.None? {
      ReadSegmentsShape(name);
    } else {
      FoundIsFirst(name, ':', 0, false);
      assert name[0..i.value] == name[..i.value];
      ReadSegmentsShape(name[i.value + 1..]);
    }
  }

  lemma SameSegments(source: string, all: seq<string>, r: Reference)
    requires all != []
    ensures Reference(source, all[0], all[1..]) == r <==> source == r.source && all == Segments(r)
  {
    assert all == [all[0]] + all[1..];
    assert Segments(r)[1..] == r.fields;
  }

  /** A reference is read back from its printed form exactly when printing keeps each of its parts. */
  lemma RoundTripIffKept(esc: Escaper, r: Reference)
    requires Escapes(esc)
    ensures Parse(Print(esc, r)) == Some(r) <==> Kept(esc, r)
  {
    var segments := Segments(r);
    if Parse(Print(esc, r)) == Some(r) {
      ParsedIsPlain(Print(esc, r));
    }
    if PlainSource(r.source) && forall k :: 0 <= k < |segments| ==> PlainSegment(segments[k]) {
      ParsePrinted(esc, r);
      ReadAllPrinted(esc, segments);
      AllKeptIffReread(esc, segments);
      SameSegments(r.source, RereadAll(esc, segments), r);
    }
  }

  // ----- the escapes in use -----

  function Hex(n: nat, width: nat): string {
    if width == 0 then "" else Hex(n / 16, width - 1) + ["0123456789abcdef"[n % 16]]
  }

  /** A quoted literal's rendering of one character, printable or not. */
  function Escape(isPrint: char -> bool, c: char): string {
    if c == '"' || c == '\\' then ['\\', c]
    else if isPrint(c) then [c]
    else ['\\'] + Code(c)
  }

  function Code(c: char): string {
    if c == '\U{7}' then "a"
    else if c == '\U{8}' then "b"
    else if c == '\U{C}' then "f"
    else if c == '\n' then "n"
    else if c == '\r' then "r"
    else if c == '\t' then "t"
    else if c == '\U{B}' then "v"
    else if c < ' ' || c == '\U{7F}' then "x" + Hex(c as int, 2)
    else if c as int < 0x10000 then "u" + Hex(c as int, 4)
    else "U" + Hex(c as int, 8)
  }

  function Quoting(isPrint: char -> bool): Escaper { c => Escape(isPrint, c) }

  lemma {:induction false} HexHasNoQuotes(n: nat, width: nat)
    ensures '"' !in Hex(n, width)
  {
    if width > 0 {
      HexHasNoQuotes(n / 16, width - 1);
      var digits := "0123456789abcdef";
      assert forall k :: 0 <= k < |digits| ==> digits[k] != '"';
    }
  }

  lemma CodeShape(c: char)
    ensures |Code(c)| > 0 && '"' !in Code(c)
  {
    HexHasNoQuotes(c as int, 2);
    HexHasNoQuotes(c as int, 4);
    HexHasNoQuotes(c as int, 8);
  }

  lemma QuotingEscapes(isPrint: char -> bool)
    ensures Escapes(Quoting(isPrint))
    ensures forall c :: Verbatim(Quoting(isPrint), c) <==> isPrint(c) && c != '"' && c != '\\'
  {
    forall c
      ensures Verbatim(Quoting(isPrint), c) || |Quoting(isPrint)(c)| > 1
      ensures c != '"' ==> '"' !in Quoting(isPrint)(c)
      ensures Verbatim(Quoting(isPrint), c) <==> isPrint(c) && c != '"' && c != '\\'
    {
      CodeShape(c);
    }
  }

  /** In particular for segments of printable characters without quotes, backslashes or outer white space. */
  lemma PrintableReferenceRoundTrips(isPrint: char -> bool, r: Reference)
    requires PlainSource(r.source)
    requires forall k :: 0 <= k < |Segments(r)| ==> PlainSegment(Segments(r)[k]) && Printable(isPrint, Segments(r)[k])
    ensures Parse(Print(Quoting(isPrint), r)) == Some(r)
  {
    QuotingEscapes(isPrint);
    RoundTripIffKept(Quoting(isPrint), r);
  }

  predicate Printable(isPrint: char -> bool, seg: string) {
    && (forall k :: 0 <= k < |seg| ==> isPrint(seg[k]) && seg[k] != '\\' && (IsSpace(seg[k]) ==> seg[k] == ' '))
  }

  /** The failing case: a segment that needs quotes and holds a backslash, whatever is printable. */
  lemma BackslashIsLost(isPrint: char -> bool)
    ensures var r := Reference("", "a.b\\c", []); Parse(Print(Quoting(isPrint), r)) != Some(r)
  {
    var r := Reference("", "a.b\\c", []);
    QuotingEscapes(isPrint);
    RoundTripIffKept(Quoting(isPrint), r);
    assert Segments(r)[0][1] == '.' && Segments(r)[0][3] == '\\';
    assert !KeptSegment(Quoting(isPrint), Segments(r)[0]);
  }
}
