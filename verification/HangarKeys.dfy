/** Object keys of the content-addressed store: a canonical string for every (kind, digest). */
module HangarKeys {
  import opened Prelude

  type Kind = string
  type Digest = string

  const SNAPSHOTS: Kind := "snapshots"
  const CHECKPOINTS: Kind := "checkpoints"
  const DIGEST_PREFIX := "sha256:"
  const PREFIX := "hangar/v1/"
  const INFIX := "/sha256/"
  const SUFFIX := ".tar.zst"

  predicate ValidKind(kind: Kind) { kind == SNAPSHOTS || kind == CHECKPOINTS }

  predicate LowerHex(c: char) { '0' <= c <= '9' || 'a' <= c <= 'f' }

  predicate ValidDigest(d: Digest) {
    && |d| == |DIGEST_PREFIX| + 64 && DIGEST_PREFIX <= d
    && forall i | |DIGEST_PREFIX| <= i < |d| :: LowerHex(d[i])
  }

  function Key(kind: Kind, digest: Digest): Result<string> {
    if ValidKind(kind) && ValidDigest(digest)
    then Ok(PREFIX + kind + INFIX + digest[|DIGEST_PREFIX|..] + SUFFIX)
    else Err
  }

  predicate HasSuffix(s: string, suffix: string) {
    |suffix| <= |s| && s[|s| - |suffix|..] == suffix
  }

  predicate MatchesAt(s: string, pattern: string, i: nat) {
    i + |pattern| <= |s| && s[i..i + |pattern|] == pattern
  }

  /** The first place at or after `from` where the pattern occurs. */
  function Index(s: string, pattern: string, from: nat): (r: Option<nat>)
    requires from <= |s|
    ensures r.Some? ==> from <= r.value <= |s| && MatchesAt(s, pattern, r.value)
    ensures forall i | from <= i < (if r.Some? then r.value else |s| + 1) :: !MatchesAt(s, pattern, i)
    decreases |s| - from
  {
    if MatchesAt(s, pattern, from) then Some(from)
    else if from == |s| then None
    else Index(s, pattern, from + 1)
  }

  function ParseKey(key: string): Result<(Kind, Digest)> {
    if !(PREFIX <= key) then Err else
    var rest := key[|PREFIX|..];
    var at := Index(rest, INFIX, 0);
    if at.None? || !ValidKind(rest[..at.value]) then Err else
    var kind, encoded := rest[..at.value], rest[at.value + |INFIX|..];
    if !HasSuffix(encoded, SUFFIX) then Err else
    var digest := DIGEST_PREFIX + encoded[..|encoded| - |SUFFIX|];
    if ValidDigest(digest) && Key(kind, digest) == Ok(key) then Ok((kind, digest)) else Err
  }

  lemma InfixFollowsKind(kind: Kind, tail: string)
    requires ValidKind(kind)
    ensures Index(kind + INFIX + tail, INFIX, 0) == Some(|kind|)
  {
    var rest := kind + INFIX + tail;
    assert rest[|kind|..|kind| + |INFIX|] == INFIX;
    assert MatchesAt(rest, INFIX, |kind|);
    forall i | 0 <= i < |kind| ensures !MatchesAt(rest, INFIX, i) {
      assert rest[i] == kind[i] != '/';
    }
  }

  /** Every canonical key parses back to what it was built from. */
  lemma ParseKeyOfKey(kind: Kind, digest: Digest)
    requires ValidKind(kind) && ValidDigest(digest)
    ensures ParseKey(Key(kind, digest).value) == Ok((kind, digest))
  {
    var key, hex := Key(kind, digest).value, digest[|DIGEST_PREFIX|..];
    var rest := key[|PREFIX|..];
    assert rest == kind + INFIX + (hex + SUFFIX);
    InfixFollowsKind(kind, hex + SUFFIX);
    assert rest[..|kind|] == kind;
    var encoded := rest[|kind| + |INFIX|..];
    assert encoded == hex + SUFFIX;
    assert encoded[|encoded| - |SUFFIX|..] == SUFFIX && encoded[..|encoded| - |SUFFIX|] == hex;
    assert DIGEST_PREFIX + hex == digest;
  }

  /** A string is accepted exactly when it is the canonical key of some object, and then names only that object. */
  lemma ParseKeyAcceptsExactlyKeys(key: string, kind: Kind, digest: Digest)
    ensures ParseKey(key) == Ok((kind, digest)) <==> Key(kind, digest) == Ok(key)
  {
    if Key(kind, digest) == Ok(key) { ParseKeyOfKey(kind, digest); }
  }
}
