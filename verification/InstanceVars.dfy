/**
  Instance vars from query parameters: references sorted by their printed form and
  upserted one by one into nested maps.

  Maps are values here; the maps the source updates in place are fresh from JSON decoding
  and shared with nothing.
 */
module InstanceVars {
  import opened Prelude
  import opened References
  import opened Lexicographic
  import Sorting

  // ----- nested values -----

  datatype Value = Scalar(text: string) | Map(entries: map<string, Value>)

  datatype Pair = Pair(ref: Reference, value: Value)

  /** A value under a chain of single-entry maps. */
  function Construct(fields: seq<string>, value: Value): Value {
    if fields == [] then value
    else Construct(fields[..|fields| - 1], Map(map[fields[|fields| - 1] := value]))
  }

  function Upsert(out: map<string, Value>, path: string, fields: seq<string>, value: Value): map<string, Value>
    decreases |fields|
  {
    if path !in out || !out[path].Map? then out[path := Construct(fields, value)]
    else if fields == [] then out[path := value]
    else out[path := Map(Upsert(out[path].entries, fields[0], fields[1..], value))]
  }

  /** The value at a chain of fields; None where a field is missing or sits under no map. */
  function Follow(value: Value, fields: seq<string>): Option<Value> {
    if fields == [] then Some(value)
    else if value.Map? && fields[0] in value.entries then Follow(value.entries[fields[0]], fields[1..])
    else None
  }

  function Lookup(out: map<string, Value>, segments: seq<string>): Option<Value> {
    Follow(Map(out), segments)
  }

  method Traverse(value: Value, fields: seq<string>) returns (r: Option<Value>)
    ensures r == Follow(value, fields)
  {
    var v := value;
    for i := 0 to |fields|
      invariant Follow(value, fields) == Follow(v, fields[i..])
    {
      if !v.Map? || fields[i] !in v.entries { return None; }
      assert fields[i..][1..] == fields[i + 1..];
      v := v.entries[fields[i]];
    }
    return Some(v);
  }

  method Get(vars: map<string, Value>, ref: Reference) returns (r: Option<Value>)
    ensures r == if ref.source != "" then None else Lookup(vars, Segments(ref))
  {
    if ref.source != "" || ref.path !in vars { return None; }
    assert Segments(ref)[1..] == ref.fields;
    r := Traverse(vars[ref.path], ref.fields);
  }

  // ----- one upsert -----

  lemma {:induction false} ConstructFirst(fields: seq<string>, value: Value)
    requires fields != []
    ensures Construct(fields, value) == Map(map[fields[0] := Construct(fields[1..], value)])
    decreases |fields|
  {
    if |fields| > 1 {
      var n := |fields| - 1;
      ConstructFirst(fields[..n], Map(map[fields[n] := value]));
      assert fields[..n][1..] == fields[1..][..n - 1];
    }
  }

  lemma {:induction false} ConstructHolds(fields: seq<string>, value: Value)
    ensures Follow(Construct(fields, value), fields) == Some(value)
    decreases |fields|
  {
    if fields != [] {
      ConstructFirst(fields, value);
      ConstructHolds(fields[1..], value);
    }
  }

  /** An upserted value is found where it was put, whatever was there before. */
  lemma {:induction false} UpsertHolds(out: map<string, Value>, path: string, fields: seq<string>, value: Value)
    ensures Lookup(Upsert(out, path, fields, value), [path] + fields) == Some(value)
    decreases |fields|
  {
    assert ([path] + fields)[1..] == fields;
    assert Lookup(Upsert(out, path, fields, value), [path] + fields)
        == Follow(Upsert(out, path, fields, value)[path], fields);
    if path !in out || !out[path].Map? {
      ConstructHolds(fields, value);
    } else if fields != [] {
      UpsertHolds(out[path].entries, fields[0], fields[1..], value);
      assert [fields[0]] + fields[1..] == fields;
    }
  }

  predicate Unrelated(a: seq<string>, b: seq<string>) { !(a <= b) && !(b <= a) }

  lemma UnrelatedTails(a: seq<string>, b: seq<string>)
    requires Unrelated(a, b)
    ensures a != [] && b != []
    ensures a[0] == b[0] ==> Unrelated(a[1..], b[1..])
  {
    if a[0] == b[0] {
      assert a == [a[0]] + a[1..] && b == [b[0]] + b[1..];
    }
  }

  lemma {:induction false} ConstructLacks(fields: seq<string>, value: Value, other: seq<string>)
    requires Unrelated(fields, other)
    ensures Follow(Construct(fields, value), other) == None
    decreases |fields|
  {
    UnrelatedTails(fields, other);
    ConstructFirst(fields, value);
    if fields[0] == other[0] {
      ConstructLacks(fields[1..], value, other[1..]);
    }
  }

  /** An upsert changes nothing at any unrelated place. */
  lemma {:induction false} UpsertFrames(out: map<string, Value>, path: string, fields: seq<string>, value: Value,
      other: seq<string>)
    requires Unrelated([path] + fields, other)
    ensures Lookup(Upsert(out, path, fields, value), other) == Lookup(out, other)
    decreases |fields|
  {
    UnrelatedTails([path] + fields, other);
    assert ([path] + fields)[1..] == fields;
    if other[0] == path {
      var rest := other[1..];
      UnrelatedTails(fields, rest);
      if path !in out || !out[path].Map? {
        ConstructLacks(fields, value, rest);
        assert path in out ==> Follow(out[path], rest) == None;
      } else {
        assert [fields[0]] + fields[1..] == fields;
        UpsertFrames(out[path].entries, fields[0], fields[1..], value, rest);
      }
    }
  }

  // ----- expanding a list -----

  function ExpandAll(pairs: seq<Pair>): map<string, Value> {
    if pairs == [] then map[]
    else
      var last := pairs[|pairs| - 1];
      Upsert(ExpandAll(pairs[..|pairs| - 1]), last.ref.path, last.ref.fields, last.value)
  }

  method Expand(pairs: seq<Pair>) returns (out: map<string, Value>)
    ensures out == ExpandAll(pairs)
  {
    out := map[];
    for i := 0 to |pairs|
      invariant out == ExpandAll(pairs[..i])
    {
      out := Upsert(out, pairs[i].ref.path, pairs[i].ref.fields, pairs[i].value);
      assert pairs[..i + 1][..i] == pairs[..i];
    }
    assert pairs[..|pairs|] == pairs;
  }

  /** A value stays where it was put as long as every later place is unrelated. */
  lemma {:induction false} ExpandKeeps(pairs: seq<Pair>, i: nat)
    requires i < |pairs|
    requires forall j :: i < j < |pairs| ==> Unrelated(Segments(pairs[j].ref), Segments(pairs[i].ref))
    ensures Lookup(ExpandAll(pairs), Segments(pairs[i].ref)) == Some(pairs[i].value)
    decreases |pairs|
  {
    var n := |pairs| - 1;
    var front, last := pairs[..n], pairs[n];
    if i == n {
      UpsertHolds(ExpandAll(front), last.ref.path, last.ref.fields, last.value);
    } else {
      ExpandKeeps(front, i);
      UpsertFrames(ExpandAll(front), last.ref.path, last.ref.fields, last.value, Segments(pairs[i].ref));
    }
  }

  // ----- order -----

  lemma {:induction false} JoinExtends(esc: Escaper, a: seq<string>, b: seq<string>)
    requires a != [] && a < b
    ensures Join(esc, a) < Join(esc, b)
    decreases |a|
  {
    assert b[..|a|] == a;
    if |a| > 1 {
      assert a[1..] < b[1..];
      JoinExtends(esc, a[1..], b[1..]);
    }
  }

  /** A reference always sorts before every reference that extends it. */
  lemma ExtensionSortsLater(esc: Escaper, r: Reference, t: Reference)
    requires r.source == t.source && Segments(r) < Segments(t)
    ensures Below(Print(esc, r), Print(esc, t))
  {
    JoinExtends(esc, Segments(r), Segments(t));
    PrefixIsBelow(Print(esc, r), Print(esc, t));
  }

  // ----- sorting -----

  predicate InOrder(esc: Escaper, p: Pair, q: Pair) { !Below(Print(esc, q.ref), Print(esc, p.ref)) }

  function ByName(esc: Escaper): (Pair, Pair) -> bool { (p: Pair, q: Pair) => InOrder(esc, p, q) }

  lemma InOrderIsTransitive(esc: Escaper, p: Pair, q: Pair, r: Pair)
    requires InOrder(esc, p, q) && InOrder(esc, q, r)
    ensures InOrder(esc, p, r)
  {
    var a, b, c := Print(esc, p.ref), Print(esc, q.ref), Print(esc, r.ref);
    BelowIsTotal(a, b);
    if Below(c, a) && Below(a, b) {
      BelowIsTransitive(c, a, b);
    }
  }

  lemma ByNameIsTotalPreorder(esc: Escaper)
    ensures Sorting.TotalPreorder(ByName(esc))
  {
    forall p: Pair, q: Pair
      ensures InOrder(esc, p, q) || InOrder(esc, q, p)
    {
      if !InOrder(esc, p, q) {
        BelowIsStrict(Print(esc, q.ref), Print(esc, p.ref));
      }
    }
    forall p, q, r | InOrder(esc, p, q) && InOrder(esc, q, r)
      ensures InOrder(esc, p, r)
    {
      InOrderIsTransitive(esc, p, q, r);
    }
  }

  // ----- the main result -----

  /** The references of a list, in any order, are all different. */
  ghost predicate DistinctRefs(pairs: seq<Pair>) {
    forall i, j :: 0 <= i < j < |pairs| ==> pairs[i].ref != pairs[j].ref
  }

  ghost predicate SourceFree(pairs: seq<Pair>) {
    forall p :: p in pairs ==> p.ref.source == ""
  }

  /** No listed reference strictly extends this one. */
  ghost predicate Unextended(pairs: seq<Pair>, ref: Reference) {
    forall p :: p in pairs ==> !(Segments(ref) < Segments(p.ref))
  }

  lemma SameSegmentsSameRef(r: Reference, t: Reference)
    requires r.source == t.source && Segments(r) == Segments(t)
    ensures r == t
  {
    assert Segments(r)[1..] == r.fields && Segments(t)[1..] == t.fields;
  }

  lemma SortedExpansionKeeps(esc: Escaper, pairs: seq<Pair>, i: nat)
    requires Sorting.Sorted(ByName(esc), pairs) && DistinctRefs(pairs) && SourceFree(pairs)
    requires i < |pairs| && Unextended(pairs, pairs[i].ref)
    ensures Lookup(ExpandAll(pairs), Segments(pairs[i].ref)) == Some(pairs[i].value)
  {
    forall j | i < j < |pairs|
      ensures Unrelated(Segments(pairs[j].ref), Segments(pairs[i].ref))
    {
      var r, t := pairs[i].ref, pairs[j].ref;
      assert pairs[i] in pairs && pairs[j] in pairs;
      assert ByName(esc)(pairs[i], pairs[j]);
      if Segments(r) == Segments(t) {
        SameSegmentsSameRef(r, t);
      } else if Segments(t) < Segments(r) {
        ExtensionSortsLater(esc, t, r);
      }
    }
    ExpandKeeps(pairs, i);
  }

  lemma RepeatedElement<T>(s: seq<T>, i: nat, j: nat)
    requires i < j < |s| && s[i] == s[j]
    ensures multiset(s)[s[i]] >= 2
  {
    assert s == s[..i] + [s[i]] + s[i + 1..j] + [s[j]] + s[j + 1..];
  }

  /** Distinct references stay distinct when the list is permuted. */
  lemma PermutedDistinct(pairs: seq<Pair>, sorted: seq<Pair>)
    requires multiset(pairs) == multiset(sorted) && DistinctRefs(pairs)
    ensures DistinctRefs(sorted)
  {
    forall i, j | 0 <= i < j < |sorted|
      ensures sorted[i].ref != sorted[j].ref
    {
      if sorted[i].ref == sorted[j].ref {
        assert sorted[i] in multiset(pairs) && sorted[j] in multiset(pairs);
        var a :| 0 <= a < |pairs| && pairs[a] == sorted[i];
        var b :| 0 <= b < |pairs| && pairs[b] == sorted[j];
        assert a == b;
        RepeatedElement(sorted, i, j);
        SingleElement(pairs, a);
      }
    }
  }

  lemma SingleElement(pairs: seq<Pair>, a: nat)
    requires a < |pairs| && DistinctRefs(pairs)
    ensures multiset(pairs)[pairs[a]] == 1
  {
    assert pairs == pairs[..a] + [pairs[a]] + pairs[a + 1..];
  }

  /** Every reference no other listed one extends keeps its value, in whatever order the list was given. */
  lemma ExpansionKeeps(esc: Escaper, pairs: seq<Pair>, sorted: seq<Pair>, p: Pair)
    requires Sorting.Sorted(ByName(esc), sorted) && multiset(sorted) == multiset(pairs)
    requires DistinctRefs(pairs) && SourceFree(pairs)
    requires p in pairs && Unextended(pairs, p.ref)
    ensures Lookup(ExpandAll(sorted), Segments(p.ref)) == Some(p.value)
  {
    PermutedDistinct(pairs, sorted);
    assert forall q :: q in sorted ==> q in multiset(pairs);
    assert p in multiset(sorted);
    var i :| 0 <= i < |sorted| && sorted[i] == p;
    SortedExpansionKeeps(esc, sorted, i);
  }

  // ----- query parameters -----

  /** A query parameter and its JSON value, if that decodes. */
  datatype Param = Param(key: string, value: Option<Value>)

  predicate IsVar(key: string) { key == "vars" || "vars." <= key }

  /** The pairs the parameters describe, in the order given; None when a name or a value is malformed. */
  function Pairs(q: seq<Param>): Option<seq<Pair>> {
    if q == [] then Some([])
    else
      var last := q[|q| - 1];
      var front := Pairs(q[..|q| - 1]);
      if front.None? || !IsVar(last.key) then front
      else if Parse(last.key).None? || last.value.None? then None
      else Some(front.value + [Pair(Parse(last.key).value, last.value.value)])
  }

  /** A reference without a source starts at vars. */
  lemma VarsPath(key: string)
    requires IsVar(key) && Parse(key).Some? && Parse(key).value.source == ""
    ensures Parse(key).value.path == "vars"
  {
    assert key[..4] == "vars" && key[0] == 'v';
    var colon := FindFrom(key, ':', 0, false);
    if colon.Some? {
      FoundIsFirst(key, ':', 0, false);
    } else {
      ScanPasses(key, '.', 0, 4, false);
      TrimIsIdentityIff("vars");
      RemoveQuotesRemoves("vars");
      assert key == "vars" || key[4] == '.';
    }
  }

  lemma {:induction false} PairsStartAtVars(q: seq<Param>)
    requires Pairs(q).Some?
    ensures forall p :: p in Pairs(q).value && p.ref.source == "" ==> p.ref.path == "vars"
  {
    if q != [] {
      PairsStartAtVars(q[..|q| - 1]);
      var last := q[|q| - 1];
      if IsVar(last.key) && Parse(last.key).value.source == "" {
        VarsPath(last.key);
      }
    }
  }

  lemma {:induction false} PairsFail(q: seq<Param>, i: nat)
    requires i < |q| && Pairs(q[..i + 1]).None?
    ensures Pairs(q).None?
  {
    if i + 1 == |q| {
      assert q[..i + 1] == q;
    } else {
      var front := q[..|q| - 1];
      assert front[..i + 1] == q[..i + 1];
      PairsFail(front, i);
    }
  }

  /** What the instance vars hold for one pair. */
  ghost predicate Holds(instanceVars: map<string, Value>, p: Pair) {
    if p.ref.fields == [] then instanceVars == if p.value.Map? then p.value.entries else map[]
    else Lookup(instanceVars, p.ref.fields) == Some(p.value)
  }

  /** A sorted permutation of the pairs. */
  ghost predicate Arranged(esc: Escaper, pairs: seq<Pair>, sorted: seq<Pair>) {
    Sorting.Sorted(ByName(esc), sorted) && multiset(sorted) == multiset(pairs)
  }

  function VarsOf(out: map<string, Value>): map<string, Value> {
    if "vars" in out && out["vars"].Map? then out["vars"].entries else map[]
  }

  lemma VarsHold(out: map<string, Value>, p: Pair)
    requires p.ref.path == "vars" && Lookup(out, Segments(p.ref)) == Some(p.value)
    ensures Holds(VarsOf(out), p)
  {
    assert Segments(p.ref)[1..] == p.ref.fields;
    assert "vars" in out && Follow(out["vars"], p.ref.fields) == Some(p.value);
  }

  method InstanceVarsFromQueryParams(esc: Escaper, q: seq<Param>) returns (r: Option<map<string, Value>>)
    ensures r.None? <==> Pairs(q).None?
    ensures r.Some? ==> exists sorted :: Arranged(esc, Pairs(q).value, sorted) && r.value == VarsOf(ExpandAll(sorted))
    ensures r.Some? && DistinctRefs(Pairs(q).value) && SourceFree(Pairs(q).value) ==>
      forall p :: p in Pairs(q).value && Unextended(Pairs(q).value, p.ref) ==> Holds(r.value, p)
  {
    var pairs := [];
    for i := 0 to |q|
      invariant Pairs(q[..i]) == Some(pairs)
    {
      assert q[..i + 1][..i] == q[..i];
      if !IsVar(q[i].key) { continue; }
      var ref := ParseReference(q[i].key);
      if ref.None? || q[i].value.None? {
        PairsFail(q, i);
        return None;
      }
      pairs := pairs + [Pair(ref.value, q[i].value.value)];
    }
    assert q[..|q|] == q;
    if |pairs| == 0 {
      assert Arranged(esc, pairs, []);
      return Some(map[]);
    }
    ByNameIsTotalPreorder(esc);
    var sorted := Sorting.Sort(ByName(esc), pairs);
    assert Arranged(esc, pairs, sorted);
    var out := Expand(sorted);
    PairsStartAtVars(q);
    forall p | DistinctRefs(pairs) && SourceFree(pairs) && p in pairs && Unextended(pairs, p.ref)
      ensures Holds(VarsOf(out), p)
    {
      ExpansionKeeps(esc, pairs, sorted, p);
      VarsHold(out, p);
    }
    return Some(VarsOf(out));
  }
}
