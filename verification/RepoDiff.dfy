/**
  The stored form of a repository diff: a bounded prefix of git's output, however it arrives,
  and the patch of each file cut out of it.  A character is a byte.
 */
module RepoDiff {
  import opened Prelude

  function Min(a: int, b: int): int { if a < b then a else b }

  // ----- the prefix writer -----

  /** Keeps the first limit bytes written to it and counts them all. */
  class PrefixWriter {
    const limit: nat
    var buffer: string
    var total: nat
    ghost var written: string                  // everything written so far

    ghost predicate Valid()
      reads this
    {
      total == |written| && buffer == written[..Min(limit, |written|)]
    }

    constructor (limit: nat)
      ensures Valid() && this.limit == limit && written == ""
    {
      this.limit := limit;
      buffer, total, written := "", 0, "";
    }

    method Write(contents: string) returns (n: nat)
      requires Valid()
      modifies this
      ensures Valid() && written == old(written) + contents && n == |contents|
    {
      n := |contents|;
      total := total + n;
      written := written + contents;
      var remaining := limit - |buffer|;
      if remaining > 0 {
        if remaining > n { remaining := n; }
        buffer := buffer + contents[..remaining];
      }
    }
  }

  function Concat(chunks: seq<string>): string {
    if chunks == [] then "" else Concat(chunks[..|chunks| - 1]) + chunks[|chunks| - 1]
  }

  /** What a bounded run of git returns: it depends on the output, not on how it was split. */
  method Collect(chunks: seq<string>, limit: nat) returns (output: string, truncated: bool)
    ensures output == Concat(chunks)[..Min(limit, |Concat(chunks)|)]
    ensures truncated == (|Concat(chunks)| > limit)
  {
    var writer := new PrefixWriter(limit);
    for i := 0 to |chunks|
      invariant writer.Valid() && writer.limit == limit && writer.written == Concat(chunks[..i])
    {
      assert chunks[..i + 1][..i] == chunks[..i];
      var _ := writer.Write(chunks[i]);
    }
    assert chunks[..|chunks|] == chunks;
    return writer.buffer, writer.total > limit;
  }

  // ----- the stored diff -----

  const BUDGET: nat := 65536

  const MARKER: string := "\n... [repository diff truncated at 65536 bytes]\n"

  /** The longest prefix of at most n bytes that is valid text, or nothing. */
  ghost predicate LongestValid(valid: string -> bool, s: string, n: int, k: nat) {
    && k <= n <= |s|
    && (k > 0 ==> valid(s[..k]))
    && forall m :: k < m <= n ==> !valid(s[..m])
  }

  ghost predicate Stores(valid: string -> bool, output: string, stored: string, truncated: bool) {
    && truncated == (|output| > BUDGET)
    && if !truncated then stored == output
       else exists k: nat :: LongestValid(valid, output, BUDGET - |MARKER|, k) && stored == output[..k] + MARKER
  }

  /** The stored diff of an output that arrives in any chunks. */
  method StoreDiff(valid: string -> bool, chunks: seq<string>) returns (stored: string, truncated: bool)
    ensures Stores(valid, Concat(chunks), stored, truncated)
    ensures |stored| <= BUDGET
  {
    ghost var output := Concat(chunks);
    assert |MARKER| == 48;
    var raw, outputTruncated := Collect(chunks, BUDGET + 1);
    if outputTruncated || |raw| > BUDGET {
      var limit := BUDGET - |MARKER|;
      if |raw| > limit { raw := raw[..limit]; }
      while !valid(raw) && |raw| > 0
        invariant |raw| <= limit <= |output| && raw == output[..|raw|]
        invariant forall m :: |raw| < m <= limit ==> !valid(output[..m])
        decreases |raw|
      {
        raw := raw[..|raw| - 1];
      }
      assert LongestValid(valid, output, limit, |raw|);
      return raw + MARKER, true;
    }
    assert raw == output;
    return raw, false;
  }

  // ----- headers -----

  const HEADER: string := "diff --git "

  predicate StartsAt(s: string, i: nat, part: string) { i + |part| <= |s| && s[i..i + |part|] == part }

  /** A header: the marker text at the start of a line. */
  predicate IsHeader(s: string, i: nat) {
    StartsAt(s, i, HEADER) && (i == 0 || s[i - 1] == '\n')
  }

  /** The first header after the end of a line, at or after position i. */
  function NextHeader(s: string, i: nat): Option<nat>
    requires i <= |s|
    decreases |s| - i
  {
    if i == |s| then None
    else if s[i] == '\n' && StartsAt(s, i + 1, HEADER) then Some(i + 1)
    else NextHeader(s, i + 1)
  }

  lemma {:induction false} NextHeaderIsNext(s: string, i: nat)
    requires i <= |s|
    ensures NextHeader(s, i).Some? ==> i < NextHeader(s, i).value <= |s| - |HEADER| && IsHeader(s, NextHeader(s, i).value)
    ensures forall p :: i < p <= |s| && IsHeader(s, p) ==> NextHeader(s, i).Some? && NextHeader(s, i).value <= p
    decreases |s| - i
  {
    if i < |s| && !(s[i] == '\n' && StartsAt(s, i + 1, HEADER)) {
      NextHeaderIsNext(s, i + 1);
    }
  }

  lemma HeaderIsOneLine(s: string, p: nat, k: nat)
    requires IsHeader(s, p) && p <= k < p + |HEADER|
    ensures s[k] != '\n'
  {
    assert s[k] == s[p..p + |HEADER|][k - p] == HEADER[k - p];
    assert forall n :: 0 <= n < |HEADER| ==> HEADER[n] != '\n';
  }

  /** No header starts inside another. */
  lemma HeadersAreApart(s: string, p: nat, q: nat)
    requires IsHeader(s, p) && IsHeader(s, q) && p < q
    ensures p + |HEADER| < q
  {
    if q - 1 < p + |HEADER| {
      HeaderIsOneLine(s, p, q - 1);
    }
  }

  ghost predicate Increasing(starts: seq<nat>) {
    forall i, j :: 0 <= i < j < |starts| ==> starts[i] < starts[j]
  }

  /** All headers before position n, in order. */
  ghost predicate HeadersBefore(s: string, starts: seq<nat>, n: nat) {
    && Increasing(starts)
    && (forall i :: 0 <= i < |starts| ==> IsHeader(s, starts[i]) && starts[i] < n)
    && forall p :: 0 <= p < n && IsHeader(s, p) ==> p in starts
  }

  /** Exactly the headers of a text, in order. */
  ghost predicate AllHeaders(s: string, starts: seq<nat>) { HeadersBefore(s, starts, |s| + 1) }

  lemma HeadersUpTo(s: string, starts: seq<nat>, cursor: nat, start: nat)
    requires cursor <= |s| && HeadersBefore(s, starts, cursor + 1) && NextHeader(s, cursor) == Some(start)
    ensures HeadersBefore(s, starts + [start], start + |HEADER| + 1)
  {
    NextHeaderIsNext(s, cursor);
    forall p | 0 <= p < start + |HEADER| + 1 && IsHeader(s, p)
      ensures p in starts + [start]
    {
      if p > start { HeadersAreApart(s, start, p); }
    }
  }

  method FindHeaders(contents: string) returns (starts: seq<nat>)
    ensures AllHeaders(contents, starts)
  {
    starts := [];
    if StartsAt(contents, 0, HEADER) { starts := [0]; }
    var cursor := 0;
    while cursor < |contents|
      invariant 0 <= cursor <= |contents| && HeadersBefore(contents, starts, cursor + 1)
    {
      NextHeaderIsNext(contents, cursor);
      var next := NextHeader(contents, cursor);
      if next.None? { break; }
      HeadersUpTo(contents, starts, cursor, next.value);
      starts := starts + [next.value];
      cursor := next.value + |HEADER|;
    }
    NextHeaderIsNext(contents, cursor);
  }

  // ----- patches -----

  datatype ChangedFile = ChangedFile(path: string, patch: string, truncated: bool)

  function End(contents: string, starts: seq<nat>, i: nat): nat {
    if i < |starts| then starts[i] else |contents|
  }

  ghost predicate Cuts(contents: string, starts: seq<nat>) {
    Increasing(starts) && forall i :: 0 <= i < |starts| ==> starts[i] <= |contents|
  }

  /** The text from one header to the next. */
  function Piece(contents: string, starts: seq<nat>, i: nat): string
    requires Cuts(contents, starts) && i < |starts|
  {
    contents[starts[i]..End(contents, starts, i + 1)]
  }

  /** One file with its patch; a file that is cut off, or comes after the cut, is marked. */
  function WithPatch(file: ChangedFile, contents: string, starts: seq<nat>, truncated: bool, i: nat): ChangedFile
    requires Cuts(contents, starts)
  {
    file.(patch := if i < |starts| then Piece(contents, starts, i) else file.patch,
          truncated := file.truncated || (truncated && i + 1 >= |starts|))
  }

  ghost predicate Attached(before: seq<ChangedFile>, after: seq<ChangedFile>, contents: string, starts: seq<nat>,
      truncated: bool) {
    && Cuts(contents, starts)
    && |after| == |before|
    && forall i :: 0 <= i < |after| ==> after[i] == WithPatch(before[i], contents, starts, truncated, i)
  }

  lemma HeadersCut(contents: string, starts: seq<nat>)
    requires AllHeaders(contents, starts)
    ensures Cuts(contents, starts)
  {
  }

  method AttachPatches(files: array<ChangedFile>, contents: string, truncated: bool)
    modifies files
    ensures files.Length == 0 || contents == "" ==> files[..] == old(files[..])
    ensures files.Length > 0 && contents != "" ==>
      exists starts :: AllHeaders(contents, starts) && Attached(old(files[..]), files[..], contents, starts, truncated)
  {
    if files.Length == 0 || contents == "" { return; }
    var starts := FindHeaders(contents);
    HeadersCut(contents, starts);
    for index := 0 to files.Length
      invariant forall i :: 0 <= i < index ==> files[i] == WithPatch(old(files[i]), contents, starts, truncated, i)
      invariant forall i :: index <= i < files.Length ==> files[i] == old(files[i])
    {
      if index >= |starts| {
        if truncated { files[index] := files[index].(truncated := true); }
        continue;
      }
      var end := |contents|;
      if index + 1 < |starts| { end := starts[index + 1]; }
      files[index] := files[index].(patch := contents[starts[index]..end]);
      if truncated && index == |starts| - 1 { files[index] := files[index].(truncated := true); }
    }
    assert Attached(old(files[..]), files[..], contents, starts, truncated);
  }

  function Patches(files: seq<ChangedFile>): string {
    if files == [] then "" else Patches(files[..|files| - 1]) + files[|files| - 1].patch
  }

  ghost predicate Unpatched(files: seq<ChangedFile>) {
    forall i :: 0 <= i < |files| ==> files[i].patch == ""
  }

  lemma Adjoin(s: string, a: nat, b: nat, c: nat)
    requires a <= b <= c <= |s|
    ensures s[a..b] + s[b..c] == s[a..c]
  {
  }

  /** The patches of the first n files cover the text from the first header to where the n-th ends. */
  lemma {:induction false} PatchesCover(before: seq<ChangedFile>, after: seq<ChangedFile>, contents: string,
      starts: seq<nat>, truncated: bool, n: nat)
    requires Attached(before, after, contents, starts, truncated) && Unpatched(before) && n <= |after|
    ensures End(contents, starts, 0) <= End(contents, starts, n) <= |contents|
    ensures Patches(after[..n]) == contents[End(contents, starts, 0)..End(contents, starts, n)]
  {
    if n > 0 {
      PatchesCover(before, after, contents, starts, truncated, n - 1);
      assert after[..n][..n - 1] == after[..n - 1];
      assert after[n - 1] == WithPatch(before[n - 1], contents, starts, truncated, n - 1);
      if n - 1 < |starts| {
        assert End(contents, starts, n - 1) <= End(contents, starts, n);
        Adjoin(contents, End(contents, starts, 0), End(contents, starts, n - 1), End(contents, starts, n));
      }
    }
  }

  lemma FirstHeader(contents: string, starts: seq<nat>)
    requires AllHeaders(contents, starts) && contents != ""
    ensures End(contents, starts, 0) == 0 <==> IsHeader(contents, 0)
  {
    if IsHeader(contents, 0) {
      assert 0 in starts;
    }
  }

  /** The patches in file order are the whole stored diff exactly when it opens with a header and has no more headers than files. */
  lemma PatchesAreWholeIff(before: seq<ChangedFile>, after: seq<ChangedFile>, contents: string, starts: seq<nat>,
      truncated: bool)
    requires AllHeaders(contents, starts) && Attached(before, after, contents, starts, truncated) && Unpatched(before)
    requires contents != ""
    ensures Patches(after) == contents <==> IsHeader(contents, 0) && |starts| <= |after|
  {
    PatchesCover(before, after, contents, starts, truncated, |after|);
    assert after[..|after|] == after;
    FirstHeader(contents, starts);
    var from, end := End(contents, starts, 0), End(contents, starts, |after|);
    assert |Patches(after)| == end - from;
    if |starts| > |after| {
      assert IsHeader(contents, starts[|after|]);
    }
    if from == 0 && end == |contents| {
      assert contents[0..|contents|] == contents;
    }
  }

  // ----- each file and its own text -----

  /** One printed section: a header, lines that are not headers, and the end of the last line. */
  ghost predicate IsSection(t: string) {
    IsHeader(t, 0) && t[|t| - 1] == '\n' && forall p :: 0 < p <= |t| ==> !IsHeader(t, p)
  }

  ghost predicate AreSections(sections: seq<string>) { forall k :: 0 <= k < |sections| ==> IsSection(sections[k]) }

  function Joined(sections: seq<string>): string {
    if sections == [] then "" else Joined(sections[..|sections| - 1]) + sections[|sections| - 1]
  }

  /** Where each section starts. */
  function Offsets(sections: seq<string>): seq<nat> {
    if sections == [] then []
    else Offsets(sections[..|sections| - 1]) + [|Joined(sections[..|sections| - 1])|]
  }

  lemma {:induction false} OffsetsAt(sections: seq<string>, k: nat)
    requires k < |sections|
    ensures |Offsets(sections)| == |sections| && Offsets(sections)[k] == |Joined(sections[..k])|
  {
    var front := sections[..|sections| - 1];
    if k < |front| {
      OffsetsAt(front, k);
      assert front[..k] == sections[..k];
    } else if |front| > 0 {
      OffsetsAt(front, 0);
    }
  }

  lemma {:induction false} JoinedEndsLine(sections: seq<string>)
    requires AreSections(sections) && sections != []
    ensures |Joined(sections)| > 0 && Joined(sections)[|Joined(sections)| - 1] == '\n'
  {
    assert IsSection(sections[|sections| - 1]);
  }

  /** After a line that is complete, a header of the text before it is one of the whole. */
  lemma HeaderBefore(a: string, b: string, p: nat)
    requires (a == "" || a[|a| - 1] == '\n') && p < |a|
    ensures IsHeader(a + b, p) <==> IsHeader(a, p)
  {
    if IsHeader(a + b, p) && p + |HEADER| > |a| {
      HeaderIsOneLine(a + b, p, |a| - 1);
    }
    if p + |HEADER| <= |a| {
      assert (a + b)[p..p + |HEADER|] == a[p..p + |HEADER|];
    }
  }

  lemma HeaderAfter(a: string, b: string, p: nat)
    requires (a == "" || a[|a| - 1] == '\n') && p <= |b|
    ensures IsHeader(a + b, |a| + p) <==> IsHeader(b, p)
  {
    if p + |HEADER| <= |b| {
      assert (a + b)[|a| + p..|a| + p + |HEADER|] == b[p..p + |HEADER|];
    }
  }

  /** The headers of joined sections are where the sections start. */
  lemma {:induction false} SectionHeaders(sections: seq<string>)
    requires AreSections(sections)
    ensures AllHeaders(Joined(sections), Offsets(sections))
  {
    if sections == [] {
      assert forall p :: 0 <= p < 1 ==> !IsHeader("", p);
    } else {
      var front, last := sections[..|sections| - 1], sections[|sections| - 1];
      SectionHeaders(front);
      if front != [] { JoinedEndsLine(front); }
      assert IsSection(last);
      SectionAdded(Joined(front), last, Offsets(front));
    }
  }

  lemma SectionAdded(text: string, last: string, starts: seq<nat>)
    requires AllHeaders(text, starts) && IsSection(last) && (text == "" || text[|text| - 1] == '\n')
    ensures AllHeaders(text + last, starts + [|text|])
  {
    forall i | 0 <= i < |starts|
      ensures starts[i] < |text| && IsHeader(text + last, starts[i])
    {
      assert IsHeader(text, starts[i]);
      HeaderBefore(text, last, starts[i]);
    }
    HeaderAfter(text, last, 0);
    forall p | 0 <= p < |text + last| + 1 && IsHeader(text + last, p)
      ensures p in starts + [|text|]
    {
      if p < |text| {
        HeaderBefore(text, last, p);
        assert p in starts;
      } else if p > |text| {
        HeaderAfter(text, last, p - |text|);
      }
    }
  }

  /** The last is the greatest, and the others are the rest. */
  lemma LastIsGreatest(a: seq<nat>, p: nat)
    requires Increasing(a) && a != []
    ensures p in a ==> p <= a[|a| - 1]
    ensures p in a[..|a| - 1] <==> p in a && p != a[|a| - 1]
  {
    assert a == a[..|a| - 1] + [a[|a| - 1]];
  }

  lemma {:induction false} SameIncreasing(a: seq<nat>, b: seq<nat>)
    requires Increasing(a) && Increasing(b) && forall p :: p in a <==> p in b
    ensures a == b
    decreases |a|
  {
    assert (a != [] ==> a[0] in a) && (b != [] ==> b[0] in b);
    if a != [] && b != [] {
      var x, y, front, other := a[|a| - 1], b[|b| - 1], a[..|a| - 1], b[..|b| - 1];
      assert x in a && y in b;
      LastIsGreatest(a, y);
      LastIsGreatest(b, x);
      forall p: nat
        ensures p in front <==> p in other
      {
        LastIsGreatest(a, p);
        LastIsGreatest(b, p);
      }
      SameIncreasing(front, other);
      assert a == front + [x] && b == other + [y];
    }
  }

  lemma HeadersAreUnique(s: string, a: seq<nat>, b: seq<nat>)
    requires AllHeaders(s, a) && AllHeaders(s, b)
    ensures a == b
  {
    SameIncreasing(a, b);
  }

  lemma {:induction false} JoinedPrefix(sections: seq<string>, k: nat)
    requires k <= |sections|
    ensures Joined(sections[..k]) <= Joined(sections)
  {
    if k < |sections| {
      var front := sections[..|sections| - 1];
      JoinedPrefix(front, k);
      assert front[..k] == sections[..k];
    } else {
      assert sections[..k] == sections;
    }
  }

  lemma SectionStands(sections: seq<string>, i: nat)
    requires i < |sections|
    ensures
      var start, end := |Joined(sections[..i])|, |Joined(sections[..i + 1])|;
      start <= end <= |Joined(sections)| && Joined(sections)[start..end] == sections[i]
  {
    var upto := Joined(sections[..i + 1]);
    JoinedPrefix(sections, i + 1);
    assert sections[..i + 1][..i] == sections[..i];
    assert upto == Joined(sections[..i]) + sections[i];
    assert Joined(sections)[..|upto|] == upto;
    Within(Joined(sections), |Joined(sections[..i])|, |upto|);
  }

  lemma Within(s: string, start: nat, end: nat)
    requires start <= end <= |s|
    ensures s[start..end] == s[..end][start..]
  {
  }

  lemma OffsetsEnd(sections: seq<string>, i: nat)
    requires i <= |sections|
    ensures End(Joined(sections), Offsets(sections), i) == |Joined(sections[..i])|
  {
    if i < |sections| {
      OffsetsAt(sections, i);
    } else {
      assert sections[..i] == sections;
      if i > 0 { OffsetsAt(sections, 0); }
    }
  }

  /** Cutting at the headers gives the sections back. */
  lemma PieceIsSection(sections: seq<string>, i: nat)
    requires AreSections(sections) && i < |sections|
    ensures Cuts(Joined(sections), Offsets(sections)) && |Offsets(sections)| == |sections|
    ensures Piece(Joined(sections), Offsets(sections), i) == sections[i]
  {
    SectionHeaders(sections);
    HeadersCut(Joined(sections), Offsets(sections));
    OffsetsAt(sections, i);
    OffsetsEnd(sections, i + 1);
    SectionStands(sections, i);
  }

  /** The sections of every file in turn. */
  function Flat(parts: seq<seq<string>>): seq<string> {
    if parts == [] then [] else Flat(parts[..|parts| - 1]) + parts[|parts| - 1]
  }

  /** Every file has a section, and no section is printed twice. */
  ghost predicate Printed(parts: seq<seq<string>>) {
    && (forall i :: 0 <= i < |parts| ==> parts[i] != [])
    && AreSections(Flat(parts))
    && forall k, l :: 0 <= k < l < |Flat(parts)| ==> Flat(parts)[k] != Flat(parts)[l]
  }

  ghost predicate Single(parts: seq<seq<string>>, n: nat)
    requires n <= |parts|
  {
    forall j :: 0 <= j < n ==> |parts[j]| == 1
  }

  /** The first n files have at least n sections, and just n when each has one. */
  lemma {:induction false} FlatCounts(parts: seq<seq<string>>, n: nat)
    requires n <= |parts| && forall i :: 0 <= i < |parts| ==> parts[i] != []
    ensures n <= |Flat(parts[..n])| && (|Flat(parts[..n])| == n <==> Single(parts, n))
  {
    if n > 0 {
      FlatCounts(parts, n - 1);
      assert parts[..n][..n - 1] == parts[..n - 1];
    }
  }

  lemma {:induction false} FlatPrefix(parts: seq<seq<string>>, n: nat)
    requires n <= |parts|
    ensures Flat(parts[..n]) <= Flat(parts)
  {
    if n < |parts| {
      var front := parts[..|parts| - 1];
      FlatPrefix(front, n);
      assert front[..n] == parts[..n];
    } else {
      assert parts[..n] == parts;
    }
  }

  /** A file's sections stand after those of the files before it. */
  lemma FlatHolds(parts: seq<seq<string>>, i: nat, k: nat)
    requires i < |parts| && k < |parts[i]|
    ensures |Flat(parts[..i])| + k < |Flat(parts)| && Flat(parts)[|Flat(parts[..i])| + k] == parts[i][k]
  {
    FlatPrefix(parts, i + 1);
    assert parts[..i + 1][..i] == parts[..i];
    assert Flat(parts[..i + 1]) == Flat(parts[..i]) + parts[i];
  }

  /** The text of two or more sections is not one section. */
  lemma ManyAreNotOne(sections: seq<string>)
    requires AreSections(sections) && |sections| >= 2
    ensures !IsSection(Joined(sections))
  {
    SectionHeaders(sections);
    OffsetsAt(sections, 1);
    assert sections[..1][..0] == [];
    assert Joined(sections[..1]) == sections[0] && IsSection(sections[0]);
    JoinedPrefix(sections, 1);
    assert IsHeader(Joined(sections), Offsets(sections)[1]);
  }

  /** The i-th file is given the i-th section. */
  lemma FileGetsSection(before: seq<ChangedFile>, after: seq<ChangedFile>, sections: seq<string>, starts: seq<nat>,
      truncated: bool, i: nat)
    requires AreSections(sections) && i < |after| && i < |sections| && AllHeaders(Joined(sections), starts)
    requires Attached(before, after, Joined(sections), starts, truncated)
    ensures after[i].patch == sections[i]
  {
    SectionHeaders(sections);
    HeadersAreUnique(Joined(sections), starts, Offsets(sections));
    PieceIsSection(sections, i);
    assert after[i] == WithPatch(before[i], Joined(sections), starts, truncated, i);
  }

  /** A file is given exactly its own text iff it and every file before it were printed with one header. */
  lemma FileGetsItsOwnIff(before: seq<ChangedFile>, after: seq<ChangedFile>, parts: seq<seq<string>>, starts: seq<nat>,
      truncated: bool, i: nat)
    requires Printed(parts) && |before| == |parts| && i < |parts|
    requires AllHeaders(Joined(Flat(parts)), starts) && Attached(before, after, Joined(Flat(parts)), starts, truncated)
    ensures after[i].patch == Joined(parts[i]) <==> Single(parts, i + 1)
  {
    OwnTextIff(parts, i);
    FileGetsSection(before, after, Flat(parts), starts, truncated, i);
  }

  /** The i-th section is the text of the i-th file iff the files up to it have one each. */
  lemma OwnTextIff(parts: seq<seq<string>>, i: nat)
    requires Printed(parts) && i < |parts|
    ensures i < |Flat(parts)|
    ensures Flat(parts)[i] == Joined(parts[i]) <==> Single(parts, i + 1)
  {
    FlatCounts(parts, |parts|);
    assert parts[..|parts|] == parts;
    if |parts[i]| == 1 {
      OneIsItsOwnIff(parts, i);
    } else {
      ManyAreNotASection(parts, i);
      assert IsSection(Flat(parts)[i]);
    }
  }

  lemma OneIsItsOwnIff(parts: seq<seq<string>>, i: nat)
    requires Printed(parts) && i < |parts| && i < |Flat(parts)| && |parts[i]| == 1
    ensures Flat(parts)[i] == Joined(parts[i]) <==> Single(parts, i)
  {
    FlatCounts(parts, i);
    FlatHolds(parts, i, 0);
    assert parts[i][..0] == [];
    assert Joined(parts[i]) == parts[i][0];
  }

  lemma ManyAreNotASection(parts: seq<seq<string>>, i: nat)
    requires Printed(parts) && i < |parts| && |parts[i]| >= 2
    ensures !IsSection(Joined(parts[i]))
  {
    forall k | 0 <= k < |parts[i]|
      ensures IsSection(parts[i][k])
    {
      FlatHolds(parts, i, k);
    }
    ManyAreNotOne(parts[i]);
  }

  /** A changed type is one listed file printed as a removal and an addition. */
  const REMOVED: string := "diff --git a b\n-\n"
  const ADDED: string := "diff --git a b\n+\n"
  const NEXT: string := "diff --git c c\n+\n"

  lemma ShortSection(t: string)
    requires |t| == |HEADER| + 6 && t[..|HEADER|] == HEADER && t[|t| - 1] == '\n'
    ensures IsSection(t)
  {
    assert IsHeader(t, 0);
    forall p | 0 < p <= |t|
      ensures !IsHeader(t, p)
    {
      if p <= |HEADER| { HeaderIsOneLine(t, 0, p - 1); }
    }
  }

  /** The failing listing: after a changed type the next file is given the second half of it. */
  lemma TypeChangeShiftsPatches(before: seq<ChangedFile>, after: seq<ChangedFile>, starts: seq<nat>, truncated: bool)
    requires |before| == 2 && AllHeaders(Joined([REMOVED, ADDED, NEXT]), starts)
    requires Attached(before, after, Joined([REMOVED, ADDED, NEXT]), starts, truncated)
    ensures after[0].patch == REMOVED && after[1].patch == ADDED
  {
    ShortSection(REMOVED);
    ShortSection(ADDED);
    ShortSection(NEXT);
    FileGetsSection(before, after, [REMOVED, ADDED, NEXT], starts, truncated, 0);
    FileGetsSection(before, after, [REMOVED, ADDED, NEXT], starts, truncated, 1);
  }
}
