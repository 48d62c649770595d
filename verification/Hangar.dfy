/**
  The content-addressed object store over a bucket with generations.

  The bucket gives what GCS gives: content writes mint a new generation, metadata
  writes raise the metageneration, and conditional calls see the object at one
  instant.  Every version ever stored is kept in `versions`, so that "never changes"
  can be said.  Between any two bucket calls of an operation, other writers may do
  anything.  Hashing and compression are parameters under their laws.
 */
module Hangar {
  import opened Prelude
  import opened Decimal
  import opened HangarKeys

  type Bytes = seq<Byte>

  datatype Codec = Codec(sha256: Bytes -> Digest, compress: Bytes -> Bytes, decompress: Bytes -> Option<Bytes>)

  /** Decompression undoes compression, and a frame costs at most four bytes per byte plus 32. */
  ghost predicate Lawful(c: Codec) {
    forall b: Bytes ::
      && c.decompress(c.compress(b)) == Some(b) && |c.compress(b)| <= 4 * |b| + 32
      && ValidDigest(c.sha256(b))
  }

  type Metadata = map<string, string>

  datatype Object = Object(generation: nat, metageneration: nat, bytes: Bytes, metadata: Metadata)

  datatype Version = Version(key: string, generation: nat, metageneration: nat)

  datatype Bucket = Bucket(
    objects: map<string, Object>,
    next: nat,                              // the next generation
    versions: map<Version, Object>,         // every object value that was ever live
    contents: map<(string, nat), Bytes>     // the bytes stored under (key, generation)
  )

  const EMPTY_BUCKET := Bucket(map[], 1, map[], map[])

  // ----- writers -----

  datatype Write =
    | Create(key: string, bytes: Bytes, metadata: Metadata)     // only if absent
    | Overwrite(key: string, bytes: Bytes, metadata: Metadata)
    | Patch(key: string, metadata: Metadata)
    | Remove(key: string)

  function Store(b: Bucket, key: string, o: Object): Bucket {
    b.(objects := b.objects[key := o],
       versions := b.versions[VersionOf(key, o) := o],
       contents := b.contents[(key, o.generation) := o.bytes],
       next := if o.generation == b.next then b.next + 1 else b.next)
  }

  /** The object after a metadata write: same bytes, same generation. */
  function Redescribed(o: Object, metadata: Metadata): Object {
    o.(metadata := metadata, metageneration := o.metageneration + 1)
  }

  /** The one object a write stores, if it stores one. */
  function Stored(b: Bucket, w: Write): Option<Object> {
    match w
    case Create(key, bytes, metadata) => if key in b.objects then None else Some(Object(b.next, 1, bytes, metadata))
    case Overwrite(_, bytes, metadata) => Some(Object(b.next, 1, bytes, metadata))
    case Patch(key, metadata) => if key in b.objects then Some(Redescribed(b.objects[key], metadata)) else None
    case Remove(_) => None
  }

  function Apply(b: Bucket, w: Write): Bucket {
    if w.Remove? then b.(objects := b.objects - {w.key})
    else
      match Stored(b, w)
      case None => b
      case Some(o) => Store(b, w.key, o)
  }

  function ApplyAll(b: Bucket, writes: seq<Write>): Bucket {
    if writes == [] then b else Apply(ApplyAll(b, writes[..|writes| - 1]), writes[|writes| - 1])
  }

  function VersionOf(key: string, o: Object): Version { Version(key, o.generation, o.metageneration) }

  /** A live object is a recorded version, the newest of its generation. */
  ghost predicate LiveOk(b: Bucket, k: string)
    requires k in b.objects
  {
    var o := b.objects[k];
    && 0 < o.generation < b.next
    && VersionOf(k, o) in b.versions && b.versions[VersionOf(k, o)] == o
    && forall v | v in b.versions && v.key == k && v.generation == o.generation :: v.metageneration <= o.metageneration
  }

  /** Every version of a generation holds that generation's one content. */
  ghost predicate VersionOk(b: Bucket, v: Version)
    requires v in b.versions
  {
    var o := b.versions[v];
    && v.generation < b.next && o.generation == v.generation && o.metageneration == v.metageneration
    && (v.key, v.generation) in b.contents && o.bytes == b.contents[(v.key, v.generation)]
  }

  ghost predicate Coherent(b: Bucket) {
    && b.next > 0
    && (forall k | k in b.objects :: LiveOk(b, k))
    && (forall v | v in b.versions :: VersionOk(b, v))
    && (forall p | p in b.contents :: p.1 < b.next)
  }

  /** c comes after b: versions and contents are write-once, generations do not return, metagenerations only grow. */
  ghost predicate Later(b: Bucket, c: Bucket) {
    && b.next <= c.next
    && (forall v | v in b.versions :: v in c.versions && c.versions[v] == b.versions[v])
    && (forall p | p in b.contents :: p in c.contents && c.contents[p] == b.contents[p])
    && (forall k | k in c.objects && c.objects[k].generation < b.next ::
          k in b.objects && b.objects[k].generation == c.objects[k].generation
          && b.objects[k].metageneration <= c.objects[k].metageneration)
  }

  /** A content write with a new generation, or a metadata write on the live generation. */
  ghost predicate Legitimate(b: Bucket, key: string, o: Object) {
    || o.generation == b.next
    || (key in b.objects && o.generation == b.objects[key].generation && o.bytes == b.objects[key].bytes
        && o.metageneration == b.objects[key].metageneration + 1)
  }

  lemma StoreComesLater(b: Bucket, key: string, o: Object)
    requires Coherent(b) && Legitimate(b, key, o)
    ensures Later(b, Store(b, key, o))
  {
    if key in b.objects { assert LiveOk(b, key) && VersionOk(b, VersionOf(key, b.objects[key])); }
  }

  lemma StoreKeepsCoherence(b: Bucket, key: string, o: Object)
    requires Coherent(b) && Legitimate(b, key, o)
    ensures Coherent(Store(b, key, o))
  {
    var c := Store(b, key, o);
    if key in b.objects { assert LiveOk(b, key) && VersionOk(b, VersionOf(key, b.objects[key])); }
    forall v | v in c.versions ensures VersionOk(c, v) {
      if v in b.versions { assert VersionOk(b, v); }
    }
    forall k | k in c.objects ensures LiveOk(c, k) {
      if k != key { assert LiveOk(b, k); }
    }
  }

  lemma RemoveKeepsCoherence(b: Bucket, key: string)
    requires Coherent(b)
    ensures Coherent(Apply(b, Remove(key)))
  {
    var c := Apply(b, Remove(key));
    forall k | k in c.objects ensures LiveOk(c, k) { assert LiveOk(b, k); }
    forall v | v in c.versions ensures VersionOk(c, v) { assert VersionOk(b, v); }
  }

  lemma WriteKeeps(b: Bucket, w: Write)
    requires Coherent(b)
    ensures Coherent(Apply(b, w)) && Later(b, Apply(b, w))
  {
    if w.Remove? {
      RemoveKeepsCoherence(b, w.key);
    } else if Stored(b, w).Some? {
      StoreComesLater(b, w.key, Stored(b, w).value);
      StoreKeepsCoherence(b, w.key, Stored(b, w).value);
    }
  }

  lemma LaterTransitive(b: Bucket, c: Bucket, d: Bucket)
    requires Later(b, c) && Later(c, d)
    ensures Later(b, d)
  {
  }

  /** Whatever writers do, what was stored under a generation stays what it was. */
  lemma {:induction false} VersionsAreImmutable(b: Bucket, writes: seq<Write>)
    requires Coherent(b)
    ensures Coherent(ApplyAll(b, writes)) && Later(b, ApplyAll(b, writes))
  {
    if writes != [] {
      var before := ApplyAll(b, writes[..|writes| - 1]);
      VersionsAreImmutable(b, writes[..|writes| - 1]);
      WriteKeeps(before, writes[|writes| - 1]);
      LaterTransitive(b, before, ApplyAll(b, writes));
    }
  }

  // ----- strict reads -----

  datatype Error = NotFound | Conflict | Corrupt | Unrepairable | Invalid | Transport

  datatype Outcome<+T> = Done(value: T) | Fail(error: Error)

  datatype ObjectRef = ObjectRef(kind: Kind, digest: Digest, key: string, generation: nat)

  datatype Attributes = Attributes(ref: ObjectRef, compressedBytes: nat, uncompressedBytes: nat)

  const META_REPRESENTATION := "concourse-representation"
  const META_SHA256 := "concourse-uncompressed-sha256"
  const META_BYTES := "concourse-uncompressed-bytes"
  const VOCABULARY: set<string> := {META_REPRESENTATION, META_SHA256, META_BYTES}
  const ZSTD := "zstd"

  predicate ValidRef(ref: ObjectRef) {
    ref.generation > 0 && Key(ref.kind, ref.digest) == Ok(ref.key)
  }

  predicate ValidLimit(limit: Int64) { 0 < limit != MAX_INT64 }

  /** The exact vocabulary, naming this digest and a canonical size within the limit. */
  function ValidateMetadata(m: Metadata, digest: Digest, limit: Int64): Option<nat> {
    if |m| != |VOCABULARY| then None
    else if !(META_REPRESENTATION in m && m[META_REPRESENTATION] == ZSTD) then None
    else if !(META_SHA256 in m && m[META_SHA256] == digest) then None
    else if META_BYTES !in m then None
    else
      match ParseInt(m[META_BYTES])
      case None => None
      case Some(size) =>
        if size < 0 || Format(size) != m[META_BYTES] || size > limit then None else Some(size)
  }

  /** The largest frame an object of this size can have; None when the bound would leave 64 bits. */
  function MaxCompressed(size: nat): Option<nat> {
    if size > (MAX_INT64 - 32) / 4 then None else Some(size * 4 + 32)
  }

  /** What the attributes alone must satisfy; the declared size. */
  function Admissible(o: Object, digest: Digest, limit: Int64): Option<nat> {
    match ValidateMetadata(o.metadata, digest, limit)
    case None => None
    case Some(size) =>
      match MaxCompressed(size)
      case None => None
      case Some(max) => if |o.bytes| > max then None else Some(size)
  }

  /** Everything a strict read checks about an object whose attributes and bytes it holds. */
  function Verify(c: Codec, o: Object, bytes: Bytes, digest: Digest, limit: Int64): Outcome<Bytes> {
    match Admissible(o, digest, limit)
    case None => Fail(Corrupt)
    case Some(size) =>
      match c.decompress(bytes)
      case None => Fail(Corrupt)
      case Some(content) =>
        if |content| > limit || |content| != size || |bytes| != |o.bytes| || c.sha256(content) != digest
        then Fail(Corrupt) else Done(content)
  }

  function Pinned(b: Bucket, key: string, generation: nat): Option<Object> {
    if key in b.objects && b.objects[key].generation == generation then Some(b.objects[key]) else None
  }

  /** What opening a reference means in an undisturbed bucket. */
  function OpenSpec(c: Codec, b: Bucket, ref: ObjectRef, limit: Int64): Outcome<Bytes> {
    if !ValidRef(ref) || !ValidLimit(limit) then Fail(Invalid) else
    match Pinned(b, ref.key, ref.generation)
    case None => Fail(NotFound)
    case Some(o) => Verify(c, o, o.bytes, ref.digest, limit)
  }

  // ----- what the store itself writes -----

  function Described(digest: Digest, size: nat): Metadata {
    map[META_REPRESENTATION := ZSTD, META_SHA256 := digest, META_BYTES := Format(size)]
  }

  lemma DescribedIsValid(digest: Digest, size: nat, limit: Int64)
    requires size <= MAX_INT64
    ensures ValidateMetadata(Described(digest, size), digest, limit) == if size <= limit then Some(size) else None
  {
    ParseFormat(size);
    var m := Described(digest, size);
    assert m.Keys == VOCABULARY;
  }

  /** The writes Ensure, repair and Delete commit, and the loss of metadata they must survive. */
  datatype Service =
    | Ensured(kind: Kind, content: Bytes)
    | Repaired(kind: Kind, digest: Digest)
    | Deleted(key: string)
    | MetadataLost(key: string, left: Metadata)

  function ServiceWrite(c: Codec, b: Bucket, s: Service): Option<Write> {
    match s
    case Ensured(kind, content) =>
      var digest := c.sha256(content);
      if ValidKind(kind) && ValidDigest(digest) && |content| < MAX_INT64
      then Some(Create(Key(kind, digest).value, c.compress(content), Described(digest, |content|))) else None
    case Repaired(kind, digest) =>
      if !(ValidKind(kind) && ValidDigest(digest)) || Key(kind, digest).value !in b.objects then None else
      var o := b.objects[Key(kind, digest).value];
      var content := c.decompress(o.bytes);
      if content.Some? && c.sha256(content.value) == digest && |content.value| < MAX_INT64
      then Some(Patch(Key(kind, digest).value, Described(digest, |content.value|))) else None
    case Deleted(key) => Some(Remove(key))
    case MetadataLost(key, left) => Some(Patch(key, left))
  }

  function Serve(c: Codec, b: Bucket, s: Service): Bucket {
    match ServiceWrite(c, b, s) case None => b case Some(w) => Apply(b, w)
  }

  function ServeAll(c: Codec, b: Bucket, services: seq<Service>): Bucket {
    if services == [] then b else Serve(c, ServeAll(c, b, services[..|services| - 1]), services[|services| - 1])
  }

  /** The frame stored under a key is the compression of a content with the key's digest. */
  ghost predicate Names(c: Codec, key: string, bytes: Bytes) {
    exists kind, content :: ValidKind(kind) && |content| < MAX_INT64 &&
      Key(kind, c.sha256(content)) == Ok(key) && bytes == c.compress(content)
  }

  ghost predicate Trusted(c: Codec, b: Bucket) {
    && Coherent(b)
    && (forall k | k in b.objects :: Names(c, k, b.objects[k].bytes))
    && (forall p | p in b.contents :: Names(c, p.0, b.contents[p]))
  }

  /** Every object and every content satisfies a property of its key and bytes. */
  ghost predicate Throughout(b: Bucket, p: (string, Bytes) -> bool) {
    && (forall k | k in b.objects :: p(k, b.objects[k].bytes))
    && (forall v | v in b.contents :: p(v.0, b.contents[v]))
  }

  lemma WriteKeepsThroughout(b: Bucket, w: Write, p: (string, Bytes) -> bool)
    requires Coherent(b) && Throughout(b, p) && !w.Overwrite? && (w.Create? ==> p(w.key, w.bytes))
    ensures Throughout(Apply(b, w), p)
  {
    if w.key in b.objects { assert LiveOk(b, w.key); }
  }

  lemma WriteKeepsNames(c: Codec, b: Bucket, w: Write)
    requires Trusted(c, b) && !w.Overwrite? && (w.Create? ==> Names(c, w.key, w.bytes))
    ensures Trusted(c, Apply(b, w)) && Later(b, Apply(b, w))
  {
    WriteKeeps(b, w);
    var p := (key: string, bytes: Bytes) => Names(c, key, bytes);
    assert Throughout(b, p);
    WriteKeepsThroughout(b, w, p);
    var d := Apply(b, w);
    forall k | k in d.objects ensures Names(c, k, d.objects[k].bytes) { assert p(k, d.objects[k].bytes); }
    forall v | v in d.contents ensures Names(c, v.0, d.contents[v]) { assert p(v.0, d.contents[v]); }
  }

  lemma ServeKeepsTrust(c: Codec, b: Bucket, s: Service)
    requires Trusted(c, b)
    ensures Trusted(c, Serve(c, b, s)) && Later(b, Serve(c, b, s))
  {
    var w := ServiceWrite(c, b, s);
    if w.Some? {
      if s.Ensured? { assert Key(s.kind, c.sha256(s.content)) == Ok(w.value.key); }
      WriteKeepsNames(c, b, w.value);
    }
  }

  lemma {:induction false} ServeAllKeepsTrust(c: Codec, b: Bucket, services: seq<Service>)
    requires Trusted(c, b)
    ensures Trusted(c, ServeAll(c, b, services)) && Later(b, ServeAll(c, b, services))
  {
    if services != [] {
      var mid := ServeAll(c, b, services[..|services| - 1]);
      ServeAllKeepsTrust(c, b, services[..|services| - 1]);
      ServeKeepsTrust(c, mid, services[|services| - 1]);
      LaterTransitive(b, mid, ServeAll(c, b, services));
    }
  }

  lemma {:induction false} ServeAllSplits(c: Codec, b: Bucket, services: seq<Service>, more: seq<Service>)
    ensures ServeAll(c, b, services + more) == ServeAll(c, ServeAll(c, b, services), more)
  {
    if more == [] {
      assert services + more == services;
    } else {
      assert (services + more)[..|services + more| - 1] == services + more[..|more| - 1];
      ServeAllSplits(c, b, services, more[..|more| - 1]);
    }
  }

  /**
    Over every interleaving of ensure, repair, delete and metadata loss: the bytes under a
    (key, generation) never change, and they decompress to a content with the key's digest.
   */
  lemma StoredBytesAlwaysMatchTheirKey(c: Codec, services: seq<Service>, more: seq<Service>, p: (string, nat))
    requires Lawful(c) && p in ServeAll(c, EMPTY_BUCKET, services).contents
    ensures
      var bytes := ServeAll(c, EMPTY_BUCKET, services).contents[p];
      var later := ServeAll(c, EMPTY_BUCKET, services + more).contents;
      && p in later && later[p] == bytes
      && c.decompress(bytes).Some? && exists kind :: Key(kind, c.sha256(c.decompress(bytes).value)) == Ok(p.0)
  {
    var b := ServeAll(c, EMPTY_BUCKET, services);
    ServeAllKeepsTrust(c, EMPTY_BUCKET, services);
    ServeAllKeepsTrust(c, b, more);
    ServeAllSplits(c, EMPTY_BUCKET, services, more);
    assert Names(c, p.0, b.contents[p]);
    var kind, content :| ValidKind(kind) && Key(kind, c.sha256(content)) == Ok(p.0) && b.contents[p] == c.compress(content);
    assert c.decompress(c.compress(content)) == Some(content);
  }

  predicate Touches(s: Service, key: string) {
    (s.Deleted? || s.MetadataLost?) && s.key == key
  }

  /** The object a reference names, intact: its content's own compression and description. */
  ghost predicate Intact(c: Codec, b: Bucket, ref: ObjectRef, content: Bytes) {
    && ValidRef(ref) && c.sha256(content) == ref.digest && |content| < MAX_INT64
    && Pinned(b, ref.key, ref.generation).Some?
    && var o := Pinned(b, ref.key, ref.generation).value;
       o.bytes == c.compress(content) && o.metadata == Described(ref.digest, |content|)
  }

  /** Exactly when an intact object opens: it fits the limit, and its frame bound fits in 64 bits. */
  lemma IntactOpensIffBounded(c: Codec, b: Bucket, ref: ObjectRef, content: Bytes, limit: Int64)
    requires Lawful(c) && Intact(c, b, ref, content) && ValidLimit(limit)
    ensures OpenSpec(c, b, ref, limit) == if |content| <= limit && |content| <= (MAX_INT64 - 32) / 4 then Done(content) else Fail(Corrupt)
  {
    DescribedIsValid(ref.digest, |content|, limit);
    assert c.decompress(c.compress(content)) == Some(content);
  }

  lemma ServeKeepsIntact(c: Codec, b: Bucket, ref: ObjectRef, content: Bytes, s: Service)
    requires Intact(c, b, ref, content) && !Touches(s, ref.key) && c.decompress(c.compress(content)) == Some(content)
    ensures Intact(c, Serve(c, b, s), ref, content)
  {
    if s.Repaired? && ServiceWrite(c, b, s).Some? && ServiceWrite(c, b, s).value.key == ref.key {
      ParseKeyOfKey(s.kind, s.digest);
      ParseKeyOfKey(ref.kind, ref.digest);
    }
  }

  /** An object stays intact under ensure, repair and delete of anything, until its own deletion or loss of metadata. */
  lemma {:induction false} IntactUntilTouched(c: Codec, b: Bucket, ref: ObjectRef, content: Bytes, services: seq<Service>)
    requires Lawful(c) && Intact(c, b, ref, content)
    requires forall s | s in services :: !Touches(s, ref.key)
    ensures Intact(c, ServeAll(c, b, services), ref, content)
  {
    if services != [] {
      var before, s := services[..|services| - 1], services[|services| - 1];
      IntactUntilTouched(c, b, ref, content, before);
      assert c.decompress(c.compress(content)) == Some(content);
      ServeKeepsIntact(c, ServeAll(c, b, before), ref, content, s);
    }
  }

  /** Metadata loss makes an object unreadable, never wrong; repairing it makes it intact again. */
  lemma RepairRestores(c: Codec, b: Bucket, ref: ObjectRef, content: Bytes, left: Metadata)
    requires Lawful(c) && Intact(c, b, ref, content)
    ensures
      var lost := Serve(c, b, MetadataLost(ref.key, left));
      && Intact(c, Serve(c, lost, Repaired(ref.kind, ref.digest)), ref, content)
      && forall limit: Int64 :: OpenSpec(c, lost, ref, limit).Done? ==> OpenSpec(c, lost, ref, limit) == Done(content)
  {
    assert c.decompress(c.compress(content)) == Some(content);
  }

  // ----- a certified object stays readable -----

  /** The attributes name an object of this kind and digest that opens, right now, with the declared size. */
  ghost predicate Certified(c: Codec, b: Bucket, kind: Kind, digest: Digest, limit: Int64, a: Attributes) {
    var got := OpenSpec(c, b, a.ref, limit);
    && a.ref.kind == kind && a.ref.digest == digest
    && got.Done? && |got.value| == a.uncompressedBytes && a.compressedBytes == |b.objects[a.ref.key].bytes|
  }

  lemma CertifiedIsBounded(c: Codec, b: Bucket, kind: Kind, digest: Digest, limit: Int64, a: Attributes)
    requires Certified(c, b, kind, digest, limit, a)
    ensures a.uncompressedBytes <= (MAX_INT64 - 32) / 4 && Pinned(b, a.ref.key, a.ref.generation).Some?
  {
  }

  lemma SameCardinality(m: Metadata)
    requires |m| == |VOCABULARY| && VOCABULARY <= m.Keys
    ensures m.Keys == VOCABULARY
  {
    var extra := m.Keys - VOCABULARY;
    assert m.Keys == VOCABULARY + extra;
    assert |m.Keys| == |VOCABULARY| + |extra|;
  }

  /** Metadata that passes the strict check is the very description of its digest and size. */
  lemma ValidMetadataIsTheDescription(m: Metadata, digest: Digest, limit: Int64)
    requires ValidateMetadata(m, digest, limit).Some?
    ensures m == Described(digest, ValidateMetadata(m, digest, limit).value)
  {
    SameCardinality(m);
  }

  lemma NamedBytesCompress(c: Codec, key: string, bytes: Bytes)
    requires Lawful(c) && Names(c, key, bytes)
    ensures c.decompress(bytes).Some? && bytes == c.compress(c.decompress(bytes).value)
    ensures |c.decompress(bytes).value| < MAX_INT64
  {
    var kind, content :| ValidKind(kind) && |content| < MAX_INT64 && Key(kind, c.sha256(content)) == Ok(key)
      && bytes == c.compress(content);
    assert c.decompress(c.compress(content)) == Some(content);
  }

  lemma VerifiedIsDescribed(c: Codec, o: Object, digest: Digest, limit: Int64)
    requires Verify(c, o, o.bytes, digest, limit).Done?
    ensures
      var content := Verify(c, o, o.bytes, digest, limit).value;
      c.decompress(o.bytes) == Some(content) && c.sha256(content) == digest && o.metadata == Described(digest, |content|)
  {
    ValidMetadataIsTheDescription(o.metadata, digest, limit);
  }

  /** In a bucket only the services wrote, an object that opens is intact. */
  lemma CertifiedIsIntact(c: Codec, b: Bucket, kind: Kind, digest: Digest, limit: Int64, a: Attributes)
    requires Lawful(c) && Trusted(c, b) && Certified(c, b, kind, digest, limit, a)
    ensures Intact(c, b, a.ref, OpenSpec(c, b, a.ref, limit).value)
  {
    var o := b.objects[a.ref.key];
    NamedBytesCompress(c, a.ref.key, o.bytes);
    VerifiedIsDescribed(c, o, digest, limit);
  }

  ghost predicate Untouched(services: seq<Service>, key: string) {
    forall s | s in services :: !Touches(s, key)
  }

  /** Whatever ensures, repairs and deletes follow, short of its own deletion or loss of metadata, the reference opens. */
  ghost predicate OpensUntilTouched(c: Codec, services: seq<Service>, ref: ObjectRef, limit: Int64) {
    forall after | Untouched(after, ref.key) :: OpensAfter(c, services + after, ref, limit)
  }

  ghost predicate OpensAfter(c: Codec, services: seq<Service>, ref: ObjectRef, limit: Int64) {
    var r := OpenSpec(c, ServeAll(c, EMPTY_BUCKET, services), ref, limit);
    r.Done? && c.sha256(r.value) == ref.digest && |r.value| <= limit
  }

  lemma CertifiedOpensUntilTouched(c: Codec, services: seq<Service>, kind: Kind, digest: Digest, limit: Int64, a: Attributes)
    requires Lawful(c) && Certified(c, ServeAll(c, EMPTY_BUCKET, services), kind, digest, limit, a)
    ensures OpensUntilTouched(c, services, a.ref, limit)
  {
    var b := ServeAll(c, EMPTY_BUCKET, services);
    var content := OpenSpec(c, b, a.ref, limit).value;
    ServeAllKeepsTrust(c, EMPTY_BUCKET, services);
    CertifiedIsIntact(c, b, kind, digest, limit, a);
    CertifiedIsBounded(c, b, kind, digest, limit, a);
    forall after | Untouched(after, a.ref.key)
      ensures OpensAfter(c, services + after, a.ref, limit)
    {
      IntactUntilTouched(c, b, a.ref, content, after);
      ServeAllSplits(c, EMPTY_BUCKET, services, after);
      IntactOpensIffBounded(c, ServeAll(c, b, after), a.ref, content, limit);
    }
  }

  /** A fresh object above the frame bound is stored and can be opened under no limit at all. */
  lemma HugeObjectIsStoredButNeverOpens(c: Codec, kind: Kind, content: Bytes, limit: Int64)
    requires Lawful(c) && ValidKind(kind) && (MAX_INT64 - 32) / 4 < |content| < MAX_INT64 && ValidLimit(limit)
    ensures
      var digest := c.sha256(content);
      var b := Serve(c, EMPTY_BUCKET, Ensured(kind, content));
      var ref := ObjectRef(kind, digest, Key(kind, digest).value, 1);
      Intact(c, b, ref, content) && OpenSpec(c, b, ref, limit) == Fail(Corrupt)
  {
    var digest := c.sha256(content);
    var ref := ObjectRef(kind, digest, Key(kind, digest).value, 1);
    IntactOpensIffBounded(c, Serve(c, EMPTY_BUCKET, Ensured(kind, content)), ref, content, limit);
  }

  // ----- the operations, under interference -----

  /** What others do to the bucket: the services of this store, or anything a foreign writer likes. */
  datatype Act = Own(service: Service) | Foreign(write: Write)

  function Perform(c: Codec, b: Bucket, act: Act): Bucket {
    match act
    case Own(service) => Serve(c, b, service)
    case Foreign(write) => Apply(b, write)
  }

  function PerformAll(c: Codec, b: Bucket, acts: seq<Act>): Bucket {
    if acts == [] then b else Perform(c, PerformAll(c, b, acts[..|acts| - 1]), acts[|acts| - 1])
  }

  lemma ServeKeeps(c: Codec, b: Bucket, s: Service)
    requires Coherent(b)
    ensures Coherent(Serve(c, b, s)) && Later(b, Serve(c, b, s))
  {
    if ServiceWrite(c, b, s).Some? { WriteKeeps(b, ServiceWrite(c, b, s).value); }
  }

  lemma PerformKeeps(c: Codec, b: Bucket, act: Act)
    requires Coherent(b)
    ensures Coherent(Perform(c, b, act)) && Later(b, Perform(c, b, act))
  {
    match act
    case Own(service) => ServeKeeps(c, b, service);
    case Foreign(write) => WriteKeeps(b, write);
  }

  /** The services that made a bucket, as long as no one else wrote to it. */
  type Trace = Option<seq<Service>>

  function Traced(trace: Trace, act: Act): Trace {
    if trace.Some? && act.Own? then Some(trace.value + [act.service]) else None
  }

  ghost predicate Explains(c: Codec, trace: Trace, b: Bucket) {
    trace.Some? ==> b == ServeAll(c, EMPTY_BUCKET, trace.value)
  }

  ghost predicate Continues(before: Trace, after: Trace) {
    after.Some? ==> before.Some? && before.value <= after.value
  }

  /** The trace goes on, and is not lost to the services' own acts. */
  ghost predicate Tracked(before: Trace, after: Trace, served: bool) {
    Continues(before, after) && (before.Some? && served ==> after.Some?)
  }

  lemma PerformIsTraced(c: Codec, trace: Trace, b: Bucket, act: Act)
    requires Explains(c, trace, b)
    ensures Explains(c, Traced(trace, act), Perform(c, b, act)) && Continues(trace, Traced(trace, act))
  {
    if trace.Some? && act.Own? {
      assert (trace.value + [act.service])[..|trace.value|] == trace.value;
    }
  }

  /** What an operation does not decide: what others do in each gap, and calls that fail there. */
  datatype Script = Script(others: nat -> seq<Act>, fails: nat -> bool, replyLost: bool)

  /** Only the services of this store interfere. */
  ghost predicate Served(script: Script) { forall gap :: OwnOnly(script.others(gap)) }

  ghost predicate OwnOnly(acts: seq<Act>) { forall i | 0 <= i < |acts| :: acts[i].Own? }

  ghost predicate Calm(script: Script) {
    !script.replyLost && forall gap :: script.others(gap) == [] && !script.fails(gap)
  }

  /** The digest proof repair rests on: the pinned bytes decompress to a content with the key's digest. */
  function Prove(c: Codec, o: Object, bytes: Bytes, digest: Digest, limit: Int64): Option<Bytes> {
    match c.decompress(bytes)
    case None => None
    case Some(content) =>
      if |content| > limit || |bytes| != |o.bytes| || c.sha256(content) != digest then None else Some(content)
  }

  /** Repair of an undisturbed object: the metadata it would write, or None when it must not write. */
  function RepairPlan(c: Codec, o: Object, digest: Digest, limit: Int64): Option<Metadata> {
    if ValidateMetadata(o.metadata, digest, limit).Some? || !(o.metadata.Keys <= VOCABULARY) then None else
    match Prove(c, o, o.bytes, digest, limit)
    case None => None
    case Some(content) =>
      match MaxCompressed(|content|)
      case None => None
      case Some(max) => if |o.bytes| > max then None else Some(Described(digest, |content|))
  }

  /** The write repair would make opens the object, with the proved content. */
  lemma RepairedOpens(c: Codec, o: Object, digest: Digest, limit: Int64)
    requires RepairPlan(c, o, digest, limit).Some?
    ensures var fixed := Redescribed(o, RepairPlan(c, o, digest, limit).value);
      Verify(c, fixed, fixed.bytes, digest, limit) == Done(c.decompress(o.bytes).value)
  {
    DescribedIsValid(digest, |c.decompress(o.bytes).value|, limit);
  }

  lemma CommitOpens(c: Codec, b: Bucket, ref: ObjectRef, limit: Int64, o: Object)
    requires ValidRef(ref) && ValidLimit(limit) && Pinned(b, ref.key, ref.generation) == Some(o)
    requires RepairPlan(c, o, ref.digest, limit).Some?
    ensures
      var metadata := RepairPlan(c, o, ref.digest, limit).value;
      var d := Apply(b, Patch(ref.key, metadata));
      && Pinned(d, ref.key, ref.generation) == Some(Redescribed(o, metadata))
      && OpenSpec(c, d, ref, limit) == Done(c.decompress(o.bytes).value)
  {
    RepairedOpens(c, o, ref.digest, limit);
  }

  /** o was the live object of its generation at some instant between b and d. */
  ghost predicate LiveBetween(b: Bucket, d: Bucket, key: string, o: Object) {
    && VersionOf(key, o) in d.versions && d.versions[VersionOf(key, o)] == o
    && (key in b.objects && b.objects[key].generation == o.generation ==> b.objects[key].metageneration <= o.metageneration)
    && (key in d.objects && d.objects[key].generation == o.generation ==> o.metageneration <= d.objects[key].metageneration)
  }

  /** If generation and metageneration are the same before and after, so was everything in between. */
  lemma Unmoved(b: Bucket, d: Bucket, e: Bucket, key: string, o: Object)
    requires Coherent(b) && Coherent(d) && Coherent(e) && Later(b, d) && Later(d, e) && LiveBetween(b, d, key, o)
    requires key in b.objects && key in e.objects && o.generation == b.objects[key].generation
    requires b.objects[key].generation == e.objects[key].generation && b.objects[key].metageneration == e.objects[key].metageneration
    ensures e.objects[key] == o
  {
    assert LiveOk(b, key) && LiveOk(e, key);
    assert VersionOk(d, VersionOf(key, o));
  }

  lemma EnsuredPresentIsNothing(c: Codec, b: Bucket, kind: Kind, content: Bytes)
    requires Key(kind, c.sha256(content)).Ok? && Key(kind, c.sha256(content)).value in b.objects
    ensures Serve(c, b, Ensured(kind, content)) == b
  {
  }

  class GCSStore {
    const codec: Codec
    var bucket: Bucket
    ghost var trace: Trace

    ghost predicate Valid()
      reads this
    {
      Coherent(bucket) && Explains(codec, trace, bucket)
    }

    constructor (codec: Codec)
      ensures Valid() && this.codec == codec && bucket == EMPTY_BUCKET && trace == Some([])
    {
      this.codec, bucket, trace := codec, EMPTY_BUCKET, Some([]);
    }

    method Act(act: Act)
      requires Valid()
      modifies this
      ensures Valid() && Later(old(bucket), bucket) && Tracked(old(trace), trace, act.Own?)
      ensures bucket == Perform(codec, old(bucket), act)
    {
      PerformKeeps(codec, bucket, act);
      PerformIsTraced(codec, trace, bucket, act);
      bucket := Perform(codec, bucket, act);
      trace := Traced(trace, act);
    }

    method Others(acts: seq<Act>)
      requires Valid()
      modifies this
      ensures Valid() && Later(old(bucket), bucket) && Tracked(old(trace), trace, OwnOnly(acts))
      ensures bucket == PerformAll(codec, old(bucket), acts)
    {
      for i := 0 to |acts|
        invariant Valid() && Later(old(bucket), bucket) && Tracked(old(trace), trace, OwnOnly(acts))
        invariant bucket == PerformAll(codec, old(bucket), acts[..i])
      {
        assert acts[..i + 1][..i] == acts[..i];
        ghost var before := bucket;
        Act(acts[i]);
        LaterTransitive(old(bucket), before, bucket);
      }
      assert acts[..|acts|] == acts;
    }

    /** The pinned, verified read; `stored` is the version whose attributes were accepted. */
    method OpenVerified(ref: ObjectRef, limit: Int64, missing: Error, script: Script, gap: nat)
      returns (r: Outcome<Bytes>, stored: Object)
      requires Valid() && ValidRef(ref)
      modifies this
      ensures Valid() && Later(old(bucket), bucket) && Tracked(old(trace), trace, Served(script))
      ensures r.Done? ==>
        && stored.generation == ref.generation && LiveBetween(old(bucket), bucket, ref.key, stored)
        && Verify(codec, stored, stored.bytes, ref.digest, limit) == r
      ensures Calm(script) ==> bucket == old(bucket)
      ensures Calm(script) ==>
        match Pinned(bucket, ref.key, ref.generation)
        case None => r == Fail(missing)
        case Some(o) => stored == o && r == Verify(codec, o, o.bytes, ref.digest, limit)
    {
      stored := Object(0, 0, [], map[]);
      Others(script.others(gap));
      if script.fails(gap) { return Fail(Transport), stored; }
      var attributes := Pinned(bucket, ref.key, ref.generation);
      if attributes.None? { return Fail(missing), stored; }
      stored := attributes.value;
      assert LiveOk(bucket, ref.key) && VersionOk(bucket, VersionOf(ref.key, stored));
      ghost var between := bucket;
      if Admissible(stored, ref.digest, limit).None? { return Fail(Corrupt), stored; }
      r := ReadVerified(ref, limit, missing, stored, script, gap + 1);
      LaterTransitive(old(bucket), between, bucket);
    }

    /** The bytes of the pinned generation, held against the attributes read before. */
    method ReadVerified(ref: ObjectRef, limit: Int64, missing: Error, stored: Object, script: Script, gap: nat)
      returns (r: Outcome<Bytes>)
      requires Valid() && Pinned(bucket, ref.key, ref.generation) == Some(stored)
      modifies this
      ensures Valid() && Later(old(bucket), bucket) && Tracked(old(trace), trace, Served(script))
      ensures r.Done? ==> Verify(codec, stored, stored.bytes, ref.digest, limit) == r
      ensures r.Done? ==> LiveBetween(old(bucket), bucket, ref.key, stored)
      ensures Calm(script) ==> bucket == old(bucket) && r == Verify(codec, stored, stored.bytes, ref.digest, limit)
    {
      assert LiveOk(bucket, ref.key) && VersionOk(bucket, VersionOf(ref.key, stored));
      Others(script.others(gap));
      if script.fails(gap) { return Fail(Transport); }
      var reader := Pinned(bucket, ref.key, ref.generation);
      if reader.None? { return Fail(missing); }
      assert LiveOk(bucket, ref.key) && VersionOk(bucket, VersionOf(ref.key, reader.value));
      assert VersionOk(bucket, VersionOf(ref.key, stored));
      r := Verify(codec, stored, reader.value.bytes, ref.digest, limit);
    }

    method Open(ref: ObjectRef, limit: Int64, script: Script) returns (r: Outcome<Bytes>)
      requires Valid()
      modifies this
      ensures Valid() && Later(old(bucket), bucket) && Tracked(old(trace), trace, Served(script))
      ensures r.Done? ==>
        && ValidRef(ref) && |r.value| <= limit && codec.sha256(r.value) == ref.digest
        && (ref.key, ref.generation) in bucket.contents
        && codec.decompress(bucket.contents[(ref.key, ref.generation)]) == Some(r.value)
      ensures Calm(script) ==> bucket == old(bucket) && r == OpenSpec(codec, bucket, ref, limit)
    {
      if !ValidRef(ref) || !ValidLimit(limit) { return Fail(Invalid); }
      var stored;
      r, stored := OpenVerified(ref, limit, NotFound, script, 0);
      if r.Done? { assert VersionOk(bucket, VersionOf(ref.key, stored)); }
    }

    /** Look the object up, verify it pinned, and insist that nothing moved meanwhile. */
    method Inspect(kind: Kind, digest: Digest, limit: Int64, script: Script, gap: nat) returns (r: Outcome<Attributes>)
      requires Valid()
      modifies this
      ensures Valid() && Later(old(bucket), bucket) && Tracked(old(trace), trace, Served(script))
      ensures r.Done? ==> Certified(codec, bucket, kind, digest, limit, r.value)
      ensures Calm(script) ==> bucket == old(bucket)
      ensures Calm(script) && Key(kind, digest).Ok? && ValidLimit(limit) ==>
        if Key(kind, digest).value !in bucket.objects then r == Fail(NotFound)
        else r == InspectSpec(codec, bucket, kind, digest, limit)
    {
      var key := Key(kind, digest);
      if key.Err? || !ValidLimit(limit) { return Fail(Invalid); }
      Others(script.others(gap));
      if script.fails(gap) { return Fail(Transport); }
      if key.value !in bucket.objects { return Fail(NotFound); }
      assert LiveOk(bucket, key.value);
      var ref := ObjectRef(kind, digest, key.value, bucket.objects[key.value].generation);
      ghost var first := bucket;
      r := InspectPinned(ref, limit, script, gap + 1);
      LaterTransitive(old(bucket), first, bucket);
    }

    method InspectPinned(ref: ObjectRef, limit: Int64, script: Script, gap: nat) returns (r: Outcome<Attributes>)
      requires Valid() && ValidRef(ref) && ValidLimit(limit) && Pinned(bucket, ref.key, ref.generation).Some?
      modifies this
      ensures Valid() && Later(old(bucket), bucket) && Tracked(old(trace), trace, Served(script))
      ensures r.Done? ==> Certified(codec, bucket, ref.kind, ref.digest, limit, r.value)
      ensures Calm(script) ==> bucket == old(bucket) && r == InspectSpec(codec, bucket, ref.kind, ref.digest, limit)
    {
      var current := bucket.objects[ref.key];
      var content, stored := OpenVerified(ref, limit, Conflict, script, gap);
      if content.Fail? { return Fail(content.error); }
      ghost var second := bucket;
      Others(script.others(gap + 2));
      LaterTransitive(old(bucket), second, bucket);
      if script.fails(gap + 2) { return Fail(Transport); }
      if ref.key !in bucket.objects { return Fail(Conflict); }
      var latest := bucket.objects[ref.key];
      if latest.generation != current.generation || latest.metageneration != current.metageneration { return Fail(Conflict); }
      Unmoved(old(bucket), second, bucket, ref.key, stored);
      return Done(Attributes(ref, |stored.bytes|, |content.value|));
    }

    /**
      Store a content under its digest, or find it already there.  On success the object
      opens with a content of exactly that digest, if and only if its frame bound fits in 64 bits;
      and where only ensure, repair and delete write to the bucket, it goes on opening, whatever
      they do, until the object's own deletion or loss of metadata.
     */
    method Ensure(kind: Kind, digest: Digest, source: Bytes, limit: Int64, script: Script)
      returns (r: Outcome<Attributes>)
      requires Valid() && Lawful(codec)
      modifies this
      ensures Valid() && Later(old(bucket), bucket) && Tracked(old(trace), trace, Served(script))
      ensures r.Done? ==> codec.sha256(source) == digest && Settled(codec, bucket, kind, digest, limit, r.value)
      ensures r.Done? && r.value.uncompressedBytes <= (MAX_INT64 - 32) / 4 && trace.Some? ==>
        OpensUntilTouched(codec, trace.value, r.value.ref, limit)
      ensures Calm(script) && Storable(codec, kind, digest, source, limit) ==>
        SettledCalmly(codec, old(bucket), bucket, kind, digest, source, limit, r)
    {
      r := Settle(kind, digest, source, limit, script);
      if r.Done? && r.value.uncompressedBytes <= (MAX_INT64 - 32) / 4 && trace.Some? {
        CertifiedOpensUntilTouched(codec, trace.value, kind, digest, limit, r.value);
      }
    }

    method Settle(kind: Kind, digest: Digest, source: Bytes, limit: Int64, script: Script)
      returns (r: Outcome<Attributes>)
      requires Valid() && Lawful(codec)
      modifies this
      ensures Valid() && Later(old(bucket), bucket) && Tracked(old(trace), trace, Served(script))
      ensures r.Done? ==> codec.sha256(source) == digest && Settled(codec, bucket, kind, digest, limit, r.value)
      ensures Calm(script) && Storable(codec, kind, digest, source, limit) ==>
        SettledCalmly(codec, old(bucket), bucket, kind, digest, source, limit, r)
    {
      var key := Key(kind, digest);
      if key.Err? || !ValidLimit(limit) { return Fail(Invalid); }
      if |source| > limit { return Fail(Corrupt); }
      if codec.sha256(source) != digest { return Fail(Corrupt); }
      Others(script.others(0));
      if script.fails(0) { return Fail(Transport); }
      ghost var first := bucket;
      r := CreateOrInspect(kind, digest, source, limit, script);
      LaterTransitive(old(bucket), first, bucket);
    }

    method CreateOrInspect(kind: Kind, digest: Digest, source: Bytes, limit: Int64, script: Script)
      returns (r: Outcome<Attributes>)
      requires Valid() && Lawful(codec) && Storable(codec, kind, digest, source, limit)
      modifies this
      ensures Valid() && Later(old(bucket), bucket) && Tracked(old(trace), trace, Served(script))
      ensures r.Done? ==> Settled(codec, bucket, kind, digest, limit, r.value)
      ensures Calm(script) ==> SettledCalmly(codec, old(bucket), bucket, kind, digest, source, limit, r)
    {
      var key := Key(kind, digest).value;
      if key in bucket.objects {
        EnsuredPresentIsNothing(codec, bucket, kind, source);
        r := InspectAfterConflict(kind, digest, limit, script);
      } else {
        r := Upload(ObjectRef(kind, digest, key, bucket.next), source, limit, script.replyLost);
      }
    }

    /** The object is already there: it must open, and what fails to is a conflict. */
    method InspectAfterConflict(kind: Kind, digest: Digest, limit: Int64, script: Script) returns (r: Outcome<Attributes>)
      requires Valid()
      modifies this
      ensures Valid() && Later(old(bucket), bucket) && Tracked(old(trace), trace, Served(script))
      ensures r.Done? ==> Settled(codec, bucket, kind, digest, limit, r.value)
      ensures r.Fail? ==> !r.error.Corrupt? && !r.error.NotFound?
      ensures Calm(script) ==> bucket == old(bucket)
      ensures Calm(script) && Key(kind, digest).Ok? && ValidLimit(limit) && Key(kind, digest).value in bucket.objects ==>
        r.Done? == InspectSpec(codec, bucket, kind, digest, limit).Done?
    {
      r := Inspect(kind, digest, limit, script, 1);
      if r.Done? { CertifiedIsBounded(codec, bucket, kind, digest, limit, r.value); }
      if r.Fail? && (r.error.Corrupt? || r.error.NotFound?) { r := Fail(Conflict); }
    }

    /** The conditional create of an absent object. */
    method Upload(ref: ObjectRef, source: Bytes, limit: Int64, replyLost: bool) returns (r: Outcome<Attributes>)
      requires Valid() && Lawful(codec) && ValidRef(ref) && ValidLimit(limit)
      requires ref.key !in bucket.objects && ref.generation == bucket.next
      requires codec.sha256(source) == ref.digest && |source| <= limit
      modifies this
      ensures Valid() && Later(old(bucket), bucket) && Tracked(old(trace), trace, true)
      ensures bucket == Serve(codec, old(bucket), Ensured(ref.kind, source)) && Intact(codec, bucket, ref, source)
      ensures r == if replyLost then Fail(Transport) else Done(Attributes(ref, |codec.compress(source)|, |source|))
      ensures Settled(codec, bucket, ref.kind, ref.digest, limit, Attributes(ref, |codec.compress(source)|, |source|))
    {
      Act(Own(Ensured(ref.kind, source)));
      IntactOpensIffBounded(codec, bucket, ref, source, limit);
      return if replyLost then Fail(Transport) else Done(Attributes(ref, |codec.compress(source)|, |source|));
    }

    /**
      Restore lost metadata.  When it writes, the object at that instant is the very
      generation and metageneration that was proved; bytes and generation stay; and the
      object then opens, under the same limit, with the proved content.
     */
    method RepairDerivableMetadata(kind: Kind, digest: Digest, limit: Int64, script: Script)
      returns (r: Outcome<Attributes>, wrote: bool, proved: Object)
      requires Valid()
      modifies this
      ensures Valid() && Later(old(bucket), bucket) && Tracked(old(trace), trace, Served(script))
      ensures wrote ==>
        && Key(kind, digest).Ok? && Key(kind, digest).value in bucket.objects
        && RepairPlan(codec, proved, digest, limit).Some?
        && bucket.objects[Key(kind, digest).value] ==
             Redescribed(proved, RepairPlan(codec, proved, digest, limit).value)
        && VersionOf(Key(kind, digest).value, proved) in bucket.versions
        && bucket.versions[VersionOf(Key(kind, digest).value, proved)] == proved
        && var ref := ObjectRef(kind, digest, Key(kind, digest).value, proved.generation);
           OpenSpec(codec, bucket, ref, limit) == Done(codec.decompress(proved.bytes).value)
      ensures r.Done? && wrote ==> Certified(codec, bucket, kind, digest, limit, r.value)
      ensures Calm(script) && Key(kind, digest).Ok? && ValidLimit(limit) && Key(kind, digest).value in old(bucket).objects ==>
        var o := old(bucket).objects[Key(kind, digest).value];
        && (wrote <==> RepairPlan(codec, o, digest, limit).Some?)
        && (wrote ==> proved == o && r.Done?)
        && (!wrote ==> bucket == old(bucket) && (r.Done? <==> ValidateMetadata(o.metadata, digest, limit).Some?))
    {
      wrote, proved := false, Object(0, 0, [], map[]);
      var key := Key(kind, digest);
      if key.Err? || !ValidLimit(limit) { return Fail(Invalid), wrote, proved; }
      Others(script.others(0));
      if script.fails(0) { return Fail(Transport), wrote, proved; }
      if key.value !in bucket.objects { return Fail(NotFound), wrote, proved; }
      assert LiveOk(bucket, key.value);
      ghost var first := bucket;
      r, wrote, proved := RepairPinned(ObjectRef(kind, digest, key.value, bucket.objects[key.value].generation), limit, script);
      LaterTransitive(old(bucket), first, bucket);
    }

    method RepairPinned(ref: ObjectRef, limit: Int64, script: Script)
      returns (r: Outcome<Attributes>, wrote: bool, proved: Object)
      requires Valid() && ValidRef(ref) && ValidLimit(limit) && Pinned(bucket, ref.key, ref.generation).Some?
      modifies this
      ensures Valid() && Later(old(bucket), bucket) && Tracked(old(trace), trace, Served(script))
      ensures proved == old(bucket).objects[ref.key] && VersionOf(ref.key, proved) in bucket.versions
        && bucket.versions[VersionOf(ref.key, proved)] == proved
      ensures wrote ==>
        && RepairPlan(codec, proved, ref.digest, limit).Some? && ref.key in bucket.objects
        && bucket.objects[ref.key] ==
             Redescribed(proved, RepairPlan(codec, proved, ref.digest, limit).value)
        && OpenSpec(codec, bucket, ref, limit) == Done(codec.decompress(proved.bytes).value)
      ensures wrote && r.Done? ==> Certified(codec, bucket, ref.kind, ref.digest, limit, r.value)
      ensures Calm(script) ==>
        && (wrote <==> RepairPlan(codec, proved, ref.digest, limit).Some?)
        && (wrote ==> r.Done?)
        && (!wrote ==> bucket == old(bucket) && (r.Done? <==> ValidateMetadata(proved.metadata, ref.digest, limit).Some?))
    {
      wrote, proved := false, bucket.objects[ref.key];
      assert LiveOk(bucket, ref.key) && VersionOk(bucket, VersionOf(ref.key, proved));
      var size := ValidateMetadata(proved.metadata, ref.digest, limit);
      if size.Some? { return Done(Attributes(ref, |proved.bytes|, size.value)), wrote, proved; }
      if !(proved.metadata.Keys <= VOCABULARY) { return Fail(Unrepairable), wrote, proved; }

      var content := ProveStored(ref, proved, limit, script);
      if content.Fail? { return Fail(content.error), wrote, proved; }
      var max := MaxCompressed(|content.value|);
      if max.None? || |proved.bytes| > max.value { return Fail(Corrupt), wrote, proved; }

      ghost var second := bucket;
      r, wrote := CommitIfUnmoved(ref, limit, proved, content.value, script);
      LaterTransitive(old(bucket), second, bucket);
    }

    /** Decompress the pinned bytes and hold them against the key's digest. */
    method ProveStored(ref: ObjectRef, stored: Object, limit: Int64, script: Script) returns (r: Outcome<Bytes>)
      requires Valid() && Pinned(bucket, ref.key, ref.generation) == Some(stored)
      modifies this
      ensures Valid() && Later(old(bucket), bucket) && Tracked(old(trace), trace, Served(script))
      ensures r.Done? ==> Prove(codec, stored, stored.bytes, ref.digest, limit) == Some(r.value)
      ensures Calm(script) ==> bucket == old(bucket) && (r.Done? <==> Prove(codec, stored, stored.bytes, ref.digest, limit).Some?)
    {
      assert LiveOk(bucket, ref.key) && VersionOk(bucket, VersionOf(ref.key, stored));
      Others(script.others(1));
      if script.fails(1) { return Fail(Transport); }
      var reader := Pinned(bucket, ref.key, ref.generation);
      if reader.None? { return Fail(NotFound); }
      assert LiveOk(bucket, ref.key) && VersionOk(bucket, VersionOf(ref.key, reader.value)) && VersionOk(bucket, VersionOf(ref.key, stored));
      var content := Prove(codec, stored, reader.value.bytes, ref.digest, limit);
      return if content.None? then Fail(Corrupt) else Done(content.value);
    }

    /** The conditional metadata update: it commits only on the generation and metageneration that were proved. */
    method CommitIfUnmoved(ref: ObjectRef, limit: Int64, proved: Object, content: Bytes, script: Script)
      returns (r: Outcome<Attributes>, wrote: bool)
      requires Valid() && ValidRef(ref) && ValidLimit(limit) && proved.generation == ref.generation
      requires VersionOf(ref.key, proved) in bucket.versions && bucket.versions[VersionOf(ref.key, proved)] == proved
      requires RepairPlan(codec, proved, ref.digest, limit) == Some(Described(ref.digest, |content|))
      requires codec.decompress(proved.bytes) == Some(content)
      modifies this
      ensures Valid() && Later(old(bucket), bucket) && Tracked(old(trace), trace, Served(script))
      ensures wrote ==>
        && Pinned(bucket, ref.key, ref.generation) == Some(Redescribed(proved, Described(ref.digest, |content|)))
        && OpenSpec(codec, bucket, ref, limit) == Done(content)
      ensures r.Done? ==> wrote && r.value == Attributes(ref, |proved.bytes|, |content|)
      ensures Calm(script) && Pinned(old(bucket), ref.key, ref.generation) == Some(proved) ==> wrote && r.Done?
    {
      wrote := false;
      Others(script.others(2));
      if script.fails(2) { return Fail(Transport), false; }
      if ref.key !in bucket.objects { return Fail(NotFound), false; }
      var now := bucket.objects[ref.key];
      if now.generation != proved.generation || now.metageneration != proved.metageneration { return Fail(Conflict), false; }
      assert LiveOk(bucket, ref.key);
      ghost var third := bucket;
      Commit(ref, limit, proved, content);
      LaterTransitive(old(bucket), third, bucket);
      return if script.replyLost then Fail(Transport) else Done(Attributes(ref, |proved.bytes|, |content|)), true;
    }

    method Commit(ref: ObjectRef, limit: Int64, proved: Object, content: Bytes)
      requires Valid() && ValidRef(ref) && ValidLimit(limit) && Pinned(bucket, ref.key, ref.generation) == Some(proved)
      requires RepairPlan(codec, proved, ref.digest, limit) == Some(Described(ref.digest, |content|))
      requires codec.decompress(proved.bytes) == Some(content)
      modifies this
      ensures Valid() && Later(old(bucket), bucket) && Tracked(old(trace), trace, true)
      ensures Pinned(bucket, ref.key, ref.generation) == Some(Redescribed(proved, Described(ref.digest, |content|)))
      ensures OpenSpec(codec, bucket, ref, limit) == Done(content)
    {
      CommitOpens(codec, bucket, ref, limit, proved);
      assert ServiceWrite(codec, bucket, Repaired(ref.kind, ref.digest)) == Some(Patch(ref.key, Described(ref.digest, |content|)));
      Act(Own(Repaired(ref.kind, ref.digest)));
    }

    /** Remove one generation; a missing object is already removed, a newer one is left alone. */
    method Delete(ref: ObjectRef, script: Script) returns (r: Outcome<()>)
      requires Valid()
      modifies this
      ensures Valid() && Later(old(bucket), bucket) && Tracked(old(trace), trace, Served(script))
      ensures !ValidRef(ref) ==> bucket == old(bucket) && r == Fail(Invalid)
      ensures ValidRef(ref) ==>
        var before := PerformAll(codec, old(bucket), script.others(0));
        if script.fails(0) then bucket == before && r == Fail(Transport)
        else if Pinned(before, ref.key, ref.generation).Some?
        then bucket == Apply(before, Remove(ref.key)) && r == (if script.replyLost then Fail(Transport) else Done(()))
        else bucket == before && r == (if ref.key in before.objects then Fail(Conflict) else Done(()))
    {
      if !ValidRef(ref) { return Fail(Invalid); }
      Others(script.others(0));
      if script.fails(0) { return Fail(Transport); }
      if ref.key !in bucket.objects { return Done(()); }
      if bucket.objects[ref.key].generation != ref.generation { return Fail(Conflict); }
      ghost var before := bucket;
      Act(Own(Deleted(ref.key)));
      LaterTransitive(old(bucket), before, bucket);
      if script.replyLost { return Fail(Transport); }
      return Done(());
    }
  }

  /** The attributes name a live object that opens exactly when its frame bound fits in 64 bits. */
  ghost predicate Settled(c: Codec, b: Bucket, kind: Kind, digest: Digest, limit: Int64, a: Attributes) {
    && a.ref.kind == kind && a.ref.digest == digest
    && Pinned(b, a.ref.key, a.ref.generation).Some?
    && (a.uncompressedBytes <= (MAX_INT64 - 32) / 4 <==> Certified(c, b, kind, digest, limit, a))
  }

  ghost predicate Storable(c: Codec, kind: Kind, digest: Digest, source: Bytes, limit: Int64) {
    Key(kind, digest).Ok? && ValidLimit(limit) && |source| <= limit && c.sha256(source) == digest
  }

  /** Undisturbed, an absent object is stored intact and a present one is inspected. */
  ghost predicate SettledCalmly(c: Codec, b: Bucket, d: Bucket, kind: Kind, digest: Digest, source: Bytes, limit: Int64,
      r: Outcome<Attributes>)
    requires Key(kind, digest).Ok?
  {
    && d == Serve(c, b, Ensured(kind, source))
    && if Key(kind, digest).value in b.objects
       then Key(kind, digest).value in d.objects && r.Done? == InspectSpec(c, d, kind, digest, limit).Done?
       else r.Done? && Intact(c, d, r.value.ref, source)
  }

  /** Inspection of an undisturbed, present object. */
  ghost function InspectSpec(c: Codec, b: Bucket, kind: Kind, digest: Digest, limit: Int64): Outcome<Attributes>
    requires Key(kind, digest).Ok? && Key(kind, digest).value in b.objects
  {
    var o := b.objects[Key(kind, digest).value];
    var ref := ObjectRef(kind, digest, Key(kind, digest).value, o.generation);
    match OpenSpec(c, b, ref, limit)
    case Done(content) => Done(Attributes(ref, |o.bytes|, |content|))
    case Fail(e) => Fail(e)
  }
}
