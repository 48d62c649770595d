/**
  Git's NUL-separated listings of changed files: the name-status form and the numstat form,
  parsed as the projection parses them and printed as git prints them.  A character is a byte.
 */
module DiffListing {
  import opened Prelude
  import opened Decimal

  const NUL: char := '\0'

  // ----- fields -----

  /** The text before the first separator and the text after it. */
  function Field(s: string, separator: char): Option<(string, string)> {
    if s == "" then None
    else if s[0] == separator then Some(("", s[1..]))
    else
      var rest := Field(s[1..], separator);
      if rest.None? then None else Some(([s[0]] + rest.value.0, rest.value.1))
  }

  lemma {:induction false} FieldShape(s: string, separator: char)
    ensures Field(s, separator).None? <==> separator !in s
    ensures Field(s, separator).Some? ==>
      && separator !in Field(s, separator).value.0
      && s == Field(s, separator).value.0 + [separator] + Field(s, separator).value.1
  {
    if s != "" {
      assert s == [s[0]] + s[1..];
      if s[0] != separator {
        FieldShape(s[1..], separator);
      }
    }
  }

  lemma {:induction false} FieldOfConcat(a: string, separator: char, b: string)
    requires separator !in a
    ensures Field(a + [separator] + b, separator) == Some((a, b))
  {
    var s := a + [separator] + b;
    if a == "" {
      assert s[0] == separator && s[1..] == b;
    } else {
      FieldOfConcat(a[1..], separator, b);
      assert s[1..] == a[1..] + [separator] + b;
      assert [a[0]] + a[1..] == a;
    }
  }

  /** The field that starts at a position, and where the next one starts. */
  method FieldUntil(value: string, start: nat, separator: char) returns (field: string, next: nat, ok: bool)
    requires start <= |value|
    ensures ok == Field(value[start..], separator).Some?
    ensures ok ==> start < next <= |value| && Field(value[start..], separator) == Some((field, value[next..]))
    ensures !ok ==> next == start
  {
    ghost var s := value[start..];
    for end := start to |value|
      invariant separator !in value[start..end]
    {
      if value[end] == separator {
        FieldOfConcat(value[start..end], separator, value[end + 1..]);
        assert s == value[start..end] + [separator] + value[end + 1..];
        return value[start..end], end + 1, true;
      }
      assert value[start..end + 1] == value[start..end] + [value[end]];
    }
    assert value[start..|value|] == s;
    FieldShape(s, separator);
    return "", start, false;
  }

  // ----- name-status -----

  datatype Status = Added | Modified | Deleted | Renamed | Copied | TypeChanged | Unmerged

  datatype File = File(status: Status, previous: string, path: string)

  /** The status a code stands for, and whether two paths follow it. */
  function ChangeStatus(code: string): Option<(Status, bool)> {
    if code == "" then None
    else match code[0]
      case 'A' => Some((Added, false))
      case 'M' => Some((Modified, false))
      case 'D' => Some((Deleted, false))
      case 'R' => Some((Renamed, true))
      case 'C' => Some((Copied, true))
      case 'T' => Some((TypeChanged, false))
      case 'U' => Some((Unmerged, false))
      case _ => None
  }

  /** The parts of a text between separators; one more than there are separators. */
  function Split(s: string, separator: char): seq<string>
    decreases |s|
  {
    var first := Field(s, separator);
    if first.None? then [s]
    else FieldShape(s, separator); [first.value.0] + Split(first.value.1, separator)
  }

  /** The files the tokens from a position on describe. */
  function ParseTokens(tokens: seq<string>, i: nat): Option<seq<File>>
    requires i <= |tokens|
    decreases |tokens| - i
  {
    if i == |tokens| then Some([])
    else if tokens[i] == "" then ParseTokens(tokens, i + 1)
    else
      var code := ChangeStatus(tokens[i]);
      if code.None? || i + 1 >= |tokens| || tokens[i + 1] == "" then None
      else if !code.value.1 then Prepend(File(code.value.0, "", tokens[i + 1]), ParseTokens(tokens, i + 2))
      else if i + 2 >= |tokens| || tokens[i + 2] == "" then None
      else Prepend(File(code.value.0, tokens[i + 1], tokens[i + 2]), ParseTokens(tokens, i + 3))
  }

  function Prepend(file: File, rest: Option<seq<File>>): Option<seq<File>> {
    if rest.None? then None else Some([file] + rest.value)
  }

  function Following(files: seq<File>, rest: Option<seq<File>>): Option<seq<File>> {
    if rest.None? then None else Some(files + rest.value)
  }

  lemma FollowingOne(files: seq<File>, file: File, rest: Option<seq<File>>)
    ensures Following(files + [file], rest) == Following(files, Prepend(file, rest))
  {
    if rest.Some? {
      assert files + [file] + rest.value == files + ([file] + rest.value);
    }
  }

  method ParseNameStatus(output: string) returns (r: Option<seq<File>>)
    ensures r == ParseTokens(Split(output, NUL), 0)
  {
    var tokens, files, index := Split(output, NUL), [], 0;
    assert ParseTokens(tokens, 0).Some? ==> [] + ParseTokens(tokens, 0).value == ParseTokens(tokens, 0).value;
    while index < |tokens|
      invariant 0 <= index <= |tokens|
      invariant ParseTokens(tokens, 0) == Following(files, ParseTokens(tokens, index))
    {
      if tokens[index] == "" {
        index := index + 1;
        continue;
      }
      var status := ChangeStatus(tokens[index]);
      index := index + 1;
      if status.None? || index >= |tokens| || tokens[index] == "" { return None; }
      var previous := "";
      if status.value.1 {
        previous := tokens[index];
        index := index + 1;
        if index >= |tokens| || tokens[index] == "" { return None; }
      }
      var file := File(status.value.0, previous, tokens[index]);
      index := index + 1;
      FollowingOne(files, file, ParseTokens(tokens, index));
      files := files + [file];
    }
    assert files + [] == files;
    return Some(files);
  }

  /** A line of the listing: its code, such as M or R087, and one path or two. */
  datatype Change = Change(code: string, previous: string, path: string)

  ghost predicate ProperPath(path: string) { path != "" && NUL !in path }

  ghost predicate Proper(c: Change) {
    && ChangeStatus(c.code).Some? && NUL !in c.code
    && ProperPath(c.path)
    && if ChangeStatus(c.code).value.1 then ProperPath(c.previous) else c.previous == ""
  }

  function Tokens(c: Change): seq<string> {
    if c.previous == "" then [c.code, c.path] else [c.code, c.previous, c.path]
  }

  function Terminated(tokens: seq<string>): string {
    if tokens == [] then "" else tokens[0] + [NUL] + Terminated(tokens[1..])
  }

  function AllTokens(changes: seq<Change>): seq<string> {
    if changes == [] then [] else Tokens(changes[0]) + AllTokens(changes[1..])
  }

  /** Git's listing: every token ended by a NUL. */
  function PrintNameStatus(changes: seq<Change>): string { Terminated(AllTokens(changes)) }

  ghost function FileOf(c: Change): File
    requires Proper(c)
  {
    File(ChangeStatus(c.code).value.0, c.previous, c.path)
  }

  ghost predicate AllProper(changes: seq<Change>) {
    forall i :: 0 <= i < |changes| ==> Proper(changes[i])
  }

  ghost function FilesOf(changes: seq<Change>): seq<File>
    requires AllProper(changes)
  {
    seq(|changes|, i requires 0 <= i < |changes| => FileOf(changes[i]))
  }

  ghost predicate NulFree(tokens: seq<string>) {
    forall i :: 0 <= i < |tokens| ==> NUL !in tokens[i]
  }

  lemma {:induction false} SplitTerminated(tokens: seq<string>)
    requires NulFree(tokens)
    ensures Split(Terminated(tokens), NUL) == tokens + [""]
  {
    if tokens != [] {
      FieldOfConcat(tokens[0], NUL, Terminated(tokens[1..]));
      SplitTerminated(tokens[1..]);
      assert [tokens[0]] + (tokens[1..] + [""]) == tokens + [""];
    }
  }

  lemma {:induction false} AllTokensAreNulFree(changes: seq<Change>)
    requires AllProper(changes)
    ensures NulFree(AllTokens(changes))
  {
    if changes != [] {
      assert Proper(changes[0]);
      AllTokensAreNulFree(changes[1..]);
    }
  }

  lemma {:induction false} ParsePrinted(changes: seq<Change>, done: seq<string>)
    requires AllProper(changes)
    ensures ParseTokens(done + AllTokens(changes) + [""], |done|) == Some(FilesOf(changes))
    decreases |changes|
  {
    var tokens := done + AllTokens(changes) + [""];
    if changes == [] {
      assert tokens[|done|] == "" && |tokens| == |done| + 1;
      assert ParseTokens(tokens, |done| + 1) == Some([]);
    } else {
      var first, rest := changes[0], changes[1..];
      assert Proper(first);
      ParsePrinted(rest, done + Tokens(first));
      assert tokens == done + Tokens(first) + AllTokens(rest) + [""];
      assert tokens[|done|] == first.code;
      assert FilesOf(changes) == [FileOf(first)] + FilesOf(rest);
      if first.previous == "" {
        assert tokens[|done| + 1] == first.path;
      } else {
        assert tokens[|done| + 1] == first.previous && tokens[|done| + 2] == first.path;
      }
    }
  }

  /** Every status and both paths come back, in order. */
  lemma NameStatusRoundTrip(changes: seq<Change>)
    requires AllProper(changes)
    ensures ParseTokens(Split(PrintNameStatus(changes), NUL), 0) == Some(FilesOf(changes))
  {
    AllTokensAreNulFree(changes);
    SplitTerminated(AllTokens(changes));
    ParsePrinted(changes, []);
    assert [] + AllTokens(changes) + [""] == AllTokens(changes) + [""];
  }

  // ----- numstat -----

  datatype Stat = Stat(added: int, deleted: int, binary: bool)

  type Stats = map<string, Stat>

  function ParseCounts(added: string, deleted: string): Option<Stat> {
    if added == "-" || deleted == "-" then Some(Stat(0, 0, true))
    else
      var a, d := ParseInt(added), ParseInt(deleted);
      if a.None? || d.None? then None else Some(Stat(a.value, d.value, false))
  }

  datatype Entry = Entry(path: string, stat: Stat, rest: string)

  function ParsePath(s: string): Option<(string, string)> {
    if s != "" && s[0] == NUL then
      var source := Field(s[1..], NUL);
      if source.None? then None else Field(source.value.1, NUL)
    else Field(s, NUL)
  }

  predicate OnlyNuls(s: string) { forall i :: 0 <= i < |s| ==> s[i] == NUL }

  function ParseEntry(s: string): Option<Entry> {
    var added := Field(s, '\t');
    if added.None? then None
    else
      var deleted := Field(added.value.1, '\t');
      if deleted.None? then None
      else
        var path := ParsePath(deleted.value.1);
        if path.None? then None
        else
          var stat := ParseCounts(added.value.0, deleted.value.0);
          if stat.None? then None else Some(Entry(path.value.0, stat.value, path.value.1))
  }

  lemma EntryShortens(s: string)
    requires ParseEntry(s).Some?
    ensures |ParseEntry(s).value.rest| < |s|
  {
    FieldShape(s, '\t');
    var afterAdded := Field(s, '\t').value.1;
    FieldShape(afterAdded, '\t');
    var tail := Field(afterAdded, '\t').value.1;
    FieldShape(tail, NUL);
    if tail != "" && tail[0] == NUL {
      FieldShape(tail[1..], NUL);
      FieldShape(Field(tail[1..], NUL).value.1, NUL);
    }
  }

  function ParseStats(s: string, stats: Stats): Option<Stats>
    decreases |s|
  {
    if s == "" || (Field(s, '\t').None? && OnlyNuls(s)) then Some(stats)
    else
      var entry := ParseEntry(s);
      if entry.None? then None
      else EntryShortens(s); ParseStats(entry.value.rest, stats[entry.value.path := entry.value.stat])
  }

  /** The path that starts at a position, alone or after the path it was renamed from. */
  method ReadPath(output: string, start: nat) returns (path: string, next: nat, ok: bool)
    requires start <= |output|
    ensures ok == ParsePath(output[start..]).Some?
    ensures ok ==> start < next <= |output| && ParsePath(output[start..]) == Some((path, output[next..]))
  {
    var cursor := start;
    if cursor < |output| && output[cursor] == NUL {
      cursor := cursor + 1;
      assert output[start..][1..] == output[cursor..];
      var source;
      source, cursor, ok := FieldUntil(output, cursor, NUL);
      if !ok { return "", start, false; }
      path, next, ok := FieldUntil(output, cursor, NUL);
    } else {
      path, next, ok := FieldUntil(output, cursor, NUL);
    }
  }

  method ParseNumstat(output: string) returns (r: Option<Stats>)
    ensures r == ParseStats(output, map[])
  {
    var stats: Stats, cursor := map[], 0;
    assert output[0..] == output;
    while cursor < |output|
      invariant 0 <= cursor <= |output|
      invariant ParseStats(output, map[]) == ParseStats(output[cursor..], stats)
    {
      var added, deleted, path, ok;
      ghost var s := output[cursor..];
      ghost var before := cursor;
      added, cursor, ok := FieldUntil(output, cursor, '\t');
      if !ok {
        if OnlyNuls(output[cursor..]) { break; }
        return None;
      }
      deleted, cursor, ok := FieldUntil(output, cursor, '\t');
      if !ok { return None; }
      path, cursor, ok := ReadPath(output, cursor);
      if !ok { return None; }
      var stat := ParseCounts(added, deleted);
      if stat.None? { return None; }
      assert ParseEntry(s) == Some(Entry(path, stat.value, output[cursor..]));
      stats := stats[path := stat.value];
    }
    assert cursor == |output| ==> output[cursor..] == "";
    return Some(stats);
  }

  /** A line of the listing: line counts or a binary mark, and one path or two. */
  datatype Line = Line(counts: Option<(nat, nat)>, previous: string, path: string)

  ghost predicate ProperLine(l: Line) {
    && (l.counts.Some? ==> l.counts.value.0 <= MAX_INT64 && l.counts.value.1 <= MAX_INT64)
    && ProperPath(l.path)
    && NUL !in l.previous
  }

  function PrintLine(l: Line): string {
    AddedText(l) + ['\t'] + (DeletedText(l) + ['\t'] + PathsText(l))
  }

  function AddedText(l: Line): string { if l.counts.Some? then Format(l.counts.value.0) else "-" }

  function DeletedText(l: Line): string { if l.counts.Some? then Format(l.counts.value.1) else "-" }

  function PathsText(l: Line): string {
    if l.previous == "" then l.path + [NUL] else [NUL] + (l.previous + [NUL] + (l.path + [NUL]))
  }

  function PrintNumstat(lines: seq<Line>): string {
    if lines == [] then "" else PrintLine(lines[0]) + PrintNumstat(lines[1..])
  }

  function StatOf(l: Line): Stat {
    if l.counts.Some? then Stat(l.counts.value.0, l.counts.value.1, false) else Stat(0, 0, true)
  }

  /** For each path the counts of its last line. */
  function LastStats(lines: seq<Line>, stats: Stats): Stats {
    if lines == [] then stats else LastStats(lines[1..], stats[lines[0].path := StatOf(lines[0])])
  }

  lemma DigitsHaveNoTabs(n: nat)
    ensures '\t' !in Format(n) && Format(n) != "-"
  {
    FormatIsDigits(n);
  }

  lemma CountsRoundTrip(l: Line)
    requires ProperLine(l)
    ensures '\t' !in AddedText(l) && '\t' !in DeletedText(l)
    ensures ParseCounts(AddedText(l), DeletedText(l)) == Some(StatOf(l))
  {
    if l.counts.Some? {
      DigitsHaveNoTabs(l.counts.value.0);
      DigitsHaveNoTabs(l.counts.value.1);
      ParseFormat(l.counts.value.0);
      ParseFormat(l.counts.value.1);
    }
  }

  lemma OnePath(path: string, rest: string)
    requires ProperPath(path)
    ensures ParsePath(path + [NUL] + rest) == Some((path, rest))
  {
    FieldOfConcat(path, NUL, rest);
    assert (path + [NUL] + rest)[0] == path[0];
  }

  lemma TwoPaths(previous: string, path: string, rest: string)
    requires NUL !in previous && ProperPath(path)
    ensures ParsePath([NUL] + (previous + [NUL] + (path + [NUL] + rest))) == Some((path, rest))
  {
    var tail := previous + [NUL] + (path + [NUL] + rest);
    FieldOfConcat(previous, NUL, path + [NUL] + rest);
    FieldOfConcat(path, NUL, rest);
    assert ([NUL] + tail)[1..] == tail;
  }

  lemma RegroupPaths(previous: string, path: string, rest: string)
    ensures [NUL] + (previous + [NUL] + (path + [NUL])) + rest == [NUL] + (previous + [NUL] + (path + [NUL] + rest))
  {
  }

  lemma PathRoundTrip(l: Line, rest: string)
    requires ProperLine(l)
    ensures ParsePath(PathsText(l) + rest) == Some((l.path, rest))
  {
    if l.previous == "" {
      OnePath(l.path, rest);
    } else {
      RegroupPaths(l.previous, l.path, rest);
      TwoPaths(l.previous, l.path, rest);
    }
  }

  lemma LineRoundTrip(l: Line, rest: string)
    requires ProperLine(l)
    ensures ParseEntry(PrintLine(l) + rest) == Some(Entry(l.path, StatOf(l), rest))
    ensures Field(PrintLine(l) + rest, '\t').Some?
  {
    var tail := PathsText(l) + rest;
    var afterAdded := DeletedText(l) + ['\t'] + tail;
    CountsRoundTrip(l);
    Regroup(AddedText(l), DeletedText(l), PathsText(l), rest);
    FieldOfConcat(AddedText(l), '\t', afterAdded);
    FieldOfConcat(DeletedText(l), '\t', tail);
    PathRoundTrip(l, rest);
  }

  lemma Regroup(added: string, deleted: string, paths: string, rest: string)
    ensures added + ['\t'] + (deleted + ['\t'] + paths) + rest == added + ['\t'] + (deleted + ['\t'] + (paths + rest))
  {
  }

  /** Printing and parsing gives each path the counts of its last line. */
  lemma {:induction false} NumstatRoundTrip(lines: seq<Line>, stats: Stats)
    requires forall i :: 0 <= i < |lines| ==> ProperLine(lines[i])
    ensures ParseStats(PrintNumstat(lines), stats) == Some(LastStats(lines, stats))
    decreases |lines|
  {
    if lines != [] {
      assert ProperLine(lines[0]);
      LineRoundTrip(lines[0], PrintNumstat(lines[1..]));
      NumstatRoundTrip(lines[1..], stats[lines[0].path := StatOf(lines[0])]);
    }
  }

  lemma {:induction false} LastStatsAreLast(lines: seq<Line>, stats: Stats, i: nat)
    requires i < |lines| && forall j :: i < j < |lines| ==> lines[j].path != lines[i].path
    ensures lines[i].path in LastStats(lines, stats) && LastStats(lines, stats)[lines[i].path] == StatOf(lines[i])
    decreases |lines|
  {
    var after := stats[lines[0].path := StatOf(lines[0])];
    if i == 0 {
      LaterStatsKeep(lines[1..], after, lines[0].path);
    } else {
      LastStatsAreLast(lines[1..], after, i - 1);
    }
  }

  lemma {:induction false} LaterStatsKeep(lines: seq<Line>, stats: Stats, path: string)
    requires path in stats && forall j :: 0 <= j < |lines| ==> lines[j].path != path
    ensures path in LastStats(lines, stats) && LastStats(lines, stats)[path] == stats[path]
  {
    if lines != [] {
      LaterStatsKeep(lines[1..], stats[lines[0].path := StatOf(lines[0])], path);
    }
  }
}
