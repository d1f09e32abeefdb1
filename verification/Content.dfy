/** Retained content: a bounded store that evicts in order of expiry, its chunk reader, and
    the client loop that reassembles an object from any source of chunks. */
module Content {
  import opened Base64
  import opened Options

  const OBJECT_MAX := 128 * 1024 * 1024
  const STORE_MAX := 512 * 1024 * 1024
  const MAX_ENTRIES := 1024
  const LIFETIME := 24 * 60 * 60000

  datatype Format = TextFormat | JsonFormat

  datatype Reference = Reference(id: string, sha256: string, byteLength: nat, format: Format, expiresAt: int)

  datatype Chunk = Chunk(reference: Reference, offset: int, data: string, nextOffset: Option<int>)

  /** The chunk schema. */
  predicate ChunkOk(c: Chunk) {
    && c.reference.byteLength <= OBJECT_MAX && 0 <= c.offset <= OBJECT_MAX
    && |c.data| <= CHUNK_TEXT && IsCanonical(c.data)
    && (c.nextOffset.Some? ==> 0 <= c.nextOffset.value <= OBJECT_MAX)
    && var size := |c.data| / 4 * 3 - Padding(c.data);
       var end := c.offset + size;
       && size <= CHUNK_BYTES && end <= c.reference.byteLength
       && (if end < c.reference.byteLength then size != 0 && c.nextOffset == Some(end) else c.nextOffset.None?)
  }

  // ---------- The store's contents ----------

  datatype Entry = Entry(session: string, reference: Reference, bytes: seq<Byte>)

  function Total(entries: seq<Entry>): nat {
    if entries == [] then 0 else entries[0].reference.byteLength + Total(entries[1..])
  }

  function InsertByExpiry(e: Entry, sorted: seq<Entry>): seq<Entry> {
    if sorted == [] || e.reference.expiresAt <= sorted[0].reference.expiresAt then [e] + sorted
    else [sorted[0]] + InsertByExpiry(e, sorted[1..])
  }

  /** In order of expiry, entries of one expiry in the order they were stored. */
  function ByExpiry(entries: seq<Entry>): seq<Entry> {
    if entries == [] then [] else InsertByExpiry(entries[0], ByExpiry(entries[1..]))
  }

  function Without(entries: seq<Entry>, id: string): seq<Entry> {
    if entries == [] then []
    else (if entries[0].reference.id == id then [] else [entries[0]]) + Without(entries[1..], id)
  }

  function WithoutAll(entries: seq<Entry>, gone: seq<Entry>): seq<Entry>
    decreases |gone|
  {
    if gone == [] then entries else WithoutAll(Without(entries, gone[0].reference.id), gone[1..])
  }

  predicate IsAlive(e: Entry, now: int) { e.reference.expiresAt > now }

  predicate MayStay(e: Entry, size: int, count: int, incoming: nat, maxTotal: nat, now: int) {
    IsAlive(e, now) && size + incoming <= maxTotal && count < MAX_ENTRIES
  }

  /** The eviction loop over the rest of the sorted list. */
  function Evict(entries: seq<Entry>, queue: seq<Entry>, size: int, incoming: nat, maxTotal: nat, now: int): seq<Entry>
    decreases |queue|
  {
    if queue == [] then entries
    else if MayStay(queue[0], size, |entries|, incoming, maxTotal, now) then
      Evict(entries, queue[1..], size, incoming, maxTotal, now)
    else
      Evict(Without(entries, queue[0].reference.id), queue[1..], size - queue[0].reference.byteLength, incoming, maxTotal, now)
  }

  function Pruned(entries: seq<Entry>, incoming: nat, maxTotal: nat, now: int): seq<Entry> {
    Evict(entries, ByExpiry(entries), Total(entries), incoming, maxTotal, now)
  }

  // ---------- The evicted set is the shortest prefix that makes room ----------

  /** What is left has not expired, leaves room for the incoming bytes and for one entry. */
  predicate Fits(left: seq<Entry>, incoming: nat, maxTotal: nat, now: int) {
    && (forall i | 0 <= i < |left| :: IsAlive(left[i], now))
    && Total(left) + incoming <= maxTotal && |left| < MAX_ENTRIES
  }

  /** The least number of entries whose removal from the front leaves a list that fits. */
  function EvictionCount(sorted: seq<Entry>, incoming: nat, maxTotal: nat, now: int): (k: nat)
    ensures k <= |sorted|
    ensures forall j | 0 <= j < k :: !Fits(sorted[j..], incoming, maxTotal, now)
    ensures incoming <= maxTotal ==> Fits(sorted[k..], incoming, maxTotal, now)
  {
    if sorted == [] then 0
    else if Fits(sorted, incoming, maxTotal, now) then
      assert sorted[0..] == sorted;
      0
    else
      assert sorted[0..] == sorted;
      var k := EvictionCount(sorted[1..], incoming, maxTotal, now);
      assert forall j | 1 <= j <= |sorted| :: sorted[j..] == sorted[1..][j - 1..];
      k + 1
  }

  predicate IsSorted(queue: seq<Entry>) {
    forall i, j | 0 <= i < j < |queue| :: queue[i].reference.expiresAt <= queue[j].reference.expiresAt
  }

  predicate DistinctIds(entries: seq<Entry>) {
    forall i, j | 0 <= i < j < |entries| :: entries[i].reference.id != entries[j].reference.id
  }

  /** The same entries in another order. */
  ghost predicate SameEntries(entries: seq<Entry>, queue: seq<Entry>) {
    && |entries| == |queue| && Total(entries) == Total(queue) && DistinctIds(entries) && DistinctIds(queue)
    && (forall e | e in queue :: e in entries)
  }

  lemma {:induction false} WithoutMembers(entries: seq<Entry>, id: string)
    ensures forall f :: f in Without(entries, id) <==> f in entries && f.reference.id != id
    ensures DistinctIds(entries) ==> DistinctIds(Without(entries, id))
  {
    if entries != [] {
      WithoutMembers(entries[1..], id);
      var left := Without(entries[1..], id);
      assert forall f :: f in entries <==> f == entries[0] || f in entries[1..];
      assert ([entries[0]] + left)[1..] == left;
      assert forall i | 0 <= i < |left| :: left[i] in left;
    }
  }

  lemma {:induction false} WithoutSizes(entries: seq<Entry>, e: Entry)
    requires e in entries && DistinctIds(entries)
    ensures var left := Without(entries, e.reference.id);
            |left| == |entries| - 1 && Total(left) == Total(entries) - e.reference.byteLength
  {
    var rest := entries[1..];
    if entries[0].reference.id == e.reference.id {
      var i :| 0 <= i < |entries| && entries[i] == e;
      WithoutNone(rest, e.reference.id);
      assert [] + rest == rest;
    } else {
      assert e in rest;
      WithoutSizes(rest, e);
      var left := Without(rest, e.reference.id);
      assert ([entries[0]] + left)[1..] == left;
    }
  }

  lemma WithoutOne(entries: seq<Entry>, e: Entry)
    requires e in entries && DistinctIds(entries)
    ensures var left := Without(entries, e.reference.id);
            && |left| == |entries| - 1 && Total(left) == Total(entries) - e.reference.byteLength && DistinctIds(left)
            && (forall f :: f in left <==> f in entries && f != e)
  {
    WithoutMembers(entries, e.reference.id);
    WithoutSizes(entries, e);
    forall f | f in entries && f.reference.id == e.reference.id ensures f == e {
      var i, j :| 0 <= i < |entries| && 0 <= j < |entries| && entries[i] == e && entries[j] == f;
    }
  }

  lemma {:induction false} WithoutNone(entries: seq<Entry>, id: string)
    requires forall i | 0 <= i < |entries| :: entries[i].reference.id != id
    ensures Without(entries, id) == entries
  {
    if entries != [] { WithoutNone(entries[1..], id); }
  }

  lemma RemoveFirst(entries: seq<Entry>, queue: seq<Entry>)
    requires SameEntries(entries, queue) && queue != []
    ensures SameEntries(Without(entries, queue[0].reference.id), queue[1..])
  {
    WithoutOne(entries, queue[0]);
    var left := Without(entries, queue[0].reference.id);
    forall e | e in queue[1..] ensures e in left {
      var i :| 0 <= i < |queue[1..]| && queue[1..][i] == e;
      assert queue[i + 1] == e && queue[0].reference.id != queue[i + 1].reference.id;
    }
  }

  lemma {:induction false} RestStays(entries: seq<Entry>, queue: seq<Entry>, size: int, incoming: nat, maxTotal: nat, now: int)
    requires size + incoming <= maxTotal && |entries| < MAX_ENTRIES
    requires forall i | 0 <= i < |queue| :: IsAlive(queue[i], now)
    ensures Evict(entries, queue, size, incoming, maxTotal, now) == entries
    decreases |queue|
  {
    if queue != [] { RestStays(entries, queue[1..], size, incoming, maxTotal, now); }
  }

  lemma {:induction false} EvictsPrefix(entries: seq<Entry>, queue: seq<Entry>, incoming: nat, maxTotal: nat, now: int)
    requires SameEntries(entries, queue) && IsSorted(queue)
    ensures var k := EvictionCount(queue, incoming, maxTotal, now);
            var left := Evict(entries, queue, Total(queue), incoming, maxTotal, now);
            left == WithoutAll(entries, queue[..k]) && SameEntries(left, queue[k..])
    decreases |queue|
  {
    hide EvictionCount, Fits, MayStay, SameEntries, Without, DistinctIds, IsSorted;
    if queue == [] {
      assert queue[..0] == [];
      return;
    }
    if Fits(queue, incoming, maxTotal, now) {
      FittingStays(entries, queue, incoming, maxTotal, now);
      assert queue[0..] == queue && queue[..0] == [];
      return;
    }
    var id, rest := queue[0].reference.id, queue[1..];
    EvictsFirst(entries, queue, incoming, maxTotal, now);
    RemoveFirst(entries, queue);
    TailIsSorted(queue);
    hide *;
    EvictsPrefix(Without(entries, id), rest, incoming, maxTotal, now);
    var k := EvictionCount(rest, incoming, maxTotal, now);
    assert queue[..k + 1] == [queue[0]] + rest[..k] && queue[k + 1..] == rest[k..];
    WithoutAllFirst(entries, queue[0], rest[..k]);
  }

  lemma TailIsSorted(queue: seq<Entry>)
    requires IsSorted(queue) && queue != []
    ensures IsSorted(queue[1..])
  {}

  lemma WithoutAllFirst(entries: seq<Entry>, e: Entry, gone: seq<Entry>)
    ensures WithoutAll(entries, [e] + gone) == WithoutAll(Without(entries, e.reference.id), gone)
  {
    assert ([e] + gone)[1..] == gone;
  }

  lemma EvictsFirst(entries: seq<Entry>, queue: seq<Entry>, incoming: nat, maxTotal: nat, now: int)
    requires SameEntries(entries, queue) && IsSorted(queue) && queue != [] && !Fits(queue, incoming, maxTotal, now)
    ensures EvictionCount(queue, incoming, maxTotal, now) == EvictionCount(queue[1..], incoming, maxTotal, now) + 1
    ensures Evict(entries, queue, Total(queue), incoming, maxTotal, now)
         == Evict(Without(entries, queue[0].reference.id), queue[1..], Total(queue[1..]), incoming, maxTotal, now)
  {
    hide Fits, MayStay, Without, IsSorted, IsAlive, DistinctIds;
    FirstMustGo(entries, queue, incoming, maxTotal, now);
  }

  lemma FittingStays(entries: seq<Entry>, queue: seq<Entry>, incoming: nat, maxTotal: nat, now: int)
    requires SameEntries(entries, queue) && Fits(queue, incoming, maxTotal, now)
    ensures Evict(entries, queue, Total(queue), incoming, maxTotal, now) == entries
  {
    RestStays(entries, queue, Total(queue), incoming, maxTotal, now);
  }

  lemma FirstMustGo(entries: seq<Entry>, queue: seq<Entry>, incoming: nat, maxTotal: nat, now: int)
    requires queue != [] && IsSorted(queue) && |entries| == |queue| && !Fits(queue, incoming, maxTotal, now)
    ensures !MayStay(queue[0], Total(queue), |entries|, incoming, maxTotal, now)
  {
    if IsAlive(queue[0], now) {
      assert forall i | 0 < i < |queue| :: queue[0].reference.expiresAt <= queue[i].reference.expiresAt;
    }
  }

  lemma {:induction false} InsertKeeps(e: Entry, sorted: seq<Entry>)
    requires IsSorted(sorted)
    ensures var all := InsertByExpiry(e, sorted);
            && IsSorted(all) && |all| == |sorted| + 1 && Total(all) == Total(sorted) + e.reference.byteLength
            && (forall f :: f in all <==> f == e || f in sorted)
  {
    if sorted == [] || e.reference.expiresAt <= sorted[0].reference.expiresAt {
      assert ([e] + sorted)[1..] == sorted;
    } else {
      InsertKeeps(e, sorted[1..]);
      var rest := InsertByExpiry(e, sorted[1..]);
      assert sorted == [sorted[0]] + sorted[1..];
      InsertedIsSorted(sorted[0], rest, e, sorted[1..]);
      assert ([sorted[0]] + rest)[1..] == rest;
      assert forall f :: f in [sorted[0]] + rest <==> f == sorted[0] || f in rest;
    }
  }

  lemma InsertedIsSorted(first: Entry, rest: seq<Entry>, e: Entry, tail: seq<Entry>)
    requires IsSorted([first] + tail) && IsSorted(rest) && first.reference.expiresAt <= e.reference.expiresAt
    requires forall f | f in rest :: f == e || f in tail
    ensures IsSorted([first] + rest)
  {
    forall j | 0 <= j < |rest| ensures first.reference.expiresAt <= rest[j].reference.expiresAt {
      assert rest[j] in rest;
      if rest[j] != e {
        var i :| 0 <= i < |tail| && tail[i] == rest[j];
        assert ([first] + tail)[0] == first && ([first] + tail)[i + 1] == rest[j];
      }
    }
  }

  lemma {:induction false} ByExpirySorts(entries: seq<Entry>)
    requires DistinctIds(entries)
    ensures IsSorted(ByExpiry(entries)) && SameEntries(entries, ByExpiry(entries))
    ensures forall f :: f in ByExpiry(entries) <==> f in entries
  {
    if entries != [] {
      ByExpirySorts(entries[1..]);
      InsertKeeps(entries[0], ByExpiry(entries[1..]));
      InsertDistinct(entries[0], ByExpiry(entries[1..]));
      assert forall f :: f in entries <==> f == entries[0] || f in entries[1..];
    }
  }

  lemma {:induction false} InsertDistinct(e: Entry, sorted: seq<Entry>)
    requires IsSorted(sorted) && DistinctIds(sorted) && forall f | f in sorted :: f.reference.id != e.reference.id
    ensures DistinctIds(InsertByExpiry(e, sorted))
  {
    if !(sorted == [] || e.reference.expiresAt <= sorted[0].reference.expiresAt) {
      InsertDistinct(e, sorted[1..]);
      InsertKeeps(e, sorted[1..]);
      var rest := InsertByExpiry(e, sorted[1..]);
      forall j | 0 <= j < |rest| ensures rest[j].reference.id != sorted[0].reference.id {
        if rest[j] != e { assert rest[j] in sorted[1..]; }
      }
    }
  }

  /** Pruning removes exactly the shortest prefix of the expiry order after which nothing is
      expired, the incoming bytes fit and an entry is free; the others keep their order. */
  lemma PruneEvictsTheShortestPrefix(entries: seq<Entry>, incoming: nat, maxTotal: nat, now: int)
    requires DistinctIds(entries) && incoming <= maxTotal
    ensures var sorted := ByExpiry(entries);
            var k := EvictionCount(sorted, incoming, maxTotal, now);
            var left := Pruned(entries, incoming, maxTotal, now);
            && left == WithoutAll(entries, sorted[..k]) && SameEntries(left, sorted[k..])
            && Fits(sorted[k..], incoming, maxTotal, now)
            && (forall j | 0 <= j < k :: !Fits(sorted[j..], incoming, maxTotal, now))
  {
    ByExpirySorts(entries);
    EvictsPrefix(entries, ByExpiry(entries), incoming, maxTotal, now);
  }

  /** After a store, the bounds hold, and what was kept is alive. */
  lemma StoringKeepsTheBounds(entries: seq<Entry>, e: Entry, maxTotal: nat, now: int)
    requires DistinctIds(entries) && e.reference.byteLength <= maxTotal && IsAlive(e, now)
    requires forall f | f in entries :: f.reference.id != e.reference.id
    ensures var after := Pruned(entries, e.reference.byteLength, maxTotal, now) + [e];
            && Total(after) <= maxTotal && |after| <= MAX_ENTRIES && DistinctIds(after)
            && (forall f | f in after :: IsAlive(f, now) && (f == e || f in entries))
  {
    var incoming := e.reference.byteLength;
    PruneEvictsTheShortestPrefix(entries, incoming, maxTotal, now);
    ByExpirySorts(entries);
    var sorted := ByExpiry(entries);
    var k := EvictionCount(sorted, incoming, maxTotal, now);
    KeptFits(Pruned(entries, incoming, maxTotal, now), sorted, k, e, maxTotal, now);
  }

  lemma KeptFits(left: seq<Entry>, sorted: seq<Entry>, k: nat, e: Entry, maxTotal: nat, now: int)
    requires k <= |sorted| && SameEntries(left, sorted[k..]) && Fits(sorted[k..], e.reference.byteLength, maxTotal, now)
    requires IsAlive(e, now) && forall f | f in sorted :: f.reference.id != e.reference.id
    ensures Total(left + [e]) <= maxTotal && |left + [e]| <= MAX_ENTRIES && DistinctIds(left + [e])
    ensures forall f | f in left + [e] :: IsAlive(f, now) && (f == e || f in sorted)
  {
    TotalOfAppend(left, e);
    SameMembers(left, sorted[k..]);
    forall f | f in left ensures f in sorted && IsAlive(f, now) {
      var i :| 0 <= i < |sorted[k..]| && sorted[k..][i] == f;
      assert sorted[k + i] == f;
    }
    assert forall i | 0 <= i < |left| :: left[i] in left;
  }

  lemma {:induction false} TotalOfAppend(entries: seq<Entry>, e: Entry)
    ensures Total(entries + [e]) == Total(entries) + e.reference.byteLength
  {
    if entries == [] {
      assert entries + [e] == [e];
    } else {
      assert (entries + [e])[1..] == entries[1..] + [e];
      TotalOfAppend(entries[1..], e);
    }
  }

  /** With as many distinct entries, containing the queue is having the same members. */
  lemma {:induction false} SameMembers(entries: seq<Entry>, queue: seq<Entry>)
    requires SameEntries(entries, queue)
    ensures forall e | e in entries :: e in queue
    decreases |queue|
  {
    if queue != [] {
      WithoutOne(entries, queue[0]);
      RemoveFirst(entries, queue);
      SameMembers(Without(entries, queue[0].reference.id), queue[1..]);
    }
  }

  // ---------- Reading a stored object in chunks ----------

  function Min(a: int, b: int): int { if a < b then a else b }

  function ChunkOf(e: Entry, offset: nat, limit: nat): Chunk
    requires offset <= |e.bytes|
  {
    var end := Min(|e.bytes|, offset + limit);
    Chunk(e.reference, offset, Encode(e.bytes[offset..end]), if end < |e.bytes| then Some(end) else None)
  }

  predicate IsStored(e: Entry, digest: seq<Byte> -> string) {
    e.reference.byteLength == |e.bytes| <= OBJECT_MAX && e.reference.sha256 == digest(e.bytes)
  }

  /** Every chunk the store reads satisfies the chunk schema. */
  lemma StoredChunksAreValid(e: Entry, offset: nat, limit: nat)
    requires e.reference.byteLength == |e.bytes| <= OBJECT_MAX && offset <= |e.bytes| && 1 <= limit <= CHUNK_BYTES
    ensures ChunkOk(ChunkOf(e, offset, limit))
    ensures IsCanonical(ChunkOf(e, offset, limit).data)
    ensures DataOf(ChunkOf(e, offset, limit)) == e.bytes[offset..Min(|e.bytes|, offset + limit)]
  {
    hide ChunkOk, IsCanonical, Encode, Decode, Padding;
    var part := e.bytes[offset..Min(|e.bytes|, offset + limit)];
    EncodedPart(part);
    ChunkFits(ChunkOf(e, offset, limit), |part|);
  }

  lemma ChunkFits(c: Chunk, size: nat)
    requires IsCanonical(c.data) && size == |c.data| / 4 * 3 - Padding(c.data) && |c.data| <= CHUNK_TEXT && size <= CHUNK_BYTES
    requires 0 <= c.offset && c.offset + size <= c.reference.byteLength <= OBJECT_MAX
    requires if c.offset + size < c.reference.byteLength then size != 0 && c.nextOffset == Some(c.offset + size) else c.nextOffset.None?
    ensures ChunkOk(c)
  {
    hide IsCanonical, Padding;
  }

  lemma EncodedPart(part: seq<Byte>)
    requires |part| <= CHUNK_BYTES
    ensures IsCanonical(Encode(part)) && IsLoose(Encode(part)) && Decode(Encode(part)) == part
    ensures |part| == |Encode(part)| / 4 * 3 - Padding(Encode(part)) && |Encode(part)| <= CHUNK_TEXT
  {
    hide IsCanonical, IsLoose, Encode, Decode, Padding;
    DecodeOfEncode(part);
    DecodedLength(Encode(part));
    ChunkTextFits(Encode(part));
  }

  datatype Result<+T> = Ok(value: T) | Err(error: Error)

  datatype Error = ContentLimit | RangeInvalid | Unavailable

  class BoundedHarnessContentStore {
    const maxObject: nat
    const maxTotal: nat
    const digest: seq<Byte> -> string
    var entries: seq<Entry>

    ghost predicate Valid()
      reads this
    {
      && 1 <= maxObject <= maxTotal && maxObject <= OBJECT_MAX && maxTotal <= STORE_MAX
      && DistinctIds(entries) && Total(entries) <= maxTotal && |entries| <= MAX_ENTRIES
      && (forall e | e in entries :: IsStored(e, digest))
    }

    constructor (maxObject: nat, maxTotal: nat, digest: seq<Byte> -> string)
      requires 1 <= maxObject <= OBJECT_MAX && maxObject <= maxTotal <= STORE_MAX
      ensures Valid() && entries == [] && this.maxObject == maxObject && this.maxTotal == maxTotal && this.digest == digest
    {
      this.maxObject, this.maxTotal, this.digest, entries := maxObject, maxTotal, digest, [];
    }

    method Prune(incoming: nat, now: int)
      modifies this
      ensures entries == Pruned(old(entries), incoming, maxTotal, now)
    {
      var size := SumOfLengths(entries);
      var sorted := ByExpiry(entries);
      ghost var goal := Pruned(entries, incoming, maxTotal, now);
      for i := 0 to |sorted|
        invariant Evict(entries, sorted[i..], size, incoming, maxTotal, now) == goal
      {
        var e := sorted[i];
        assert sorted[i..][0] == e && sorted[i..][1..] == sorted[i + 1..];
        if IsAlive(e, now) && size + incoming <= maxTotal && |entries| < MAX_ENTRIES { continue; }
        entries := Without(entries, e.reference.id);
        size := size - e.reference.byteLength;
      }
    }

    static method SumOfLengths(entries: seq<Entry>) returns (total: int)
      ensures total == Total(entries)
    {
      total := 0;
      for i := 0 to |entries|
        invariant total + Total(entries[i..]) == Total(entries)
      {
        assert entries[i..][1..] == entries[i + 1..];
        total := total + entries[i].reference.byteLength;
      }
    }

    /** Stores the bytes under a fresh id, first making room. */
    method Publish(session: string, bytes: seq<Byte>, format: Format, id: string, now: int) returns (r: Result<Reference>)
      requires Valid() && forall e | e in entries :: e.reference.id != id
      modifies this
      ensures Valid()
      ensures if |bytes| > maxObject then r == Err(ContentLimit) && entries == old(entries)
              else
                var reference := Reference(id, digest(bytes), |bytes|, format, now + LIFETIME);
                && r == Ok(reference)
                && entries == Pruned(old(entries), |bytes|, maxTotal, now) + [Entry(session, reference, bytes)]
                && forall e | e in entries :: e.reference.expiresAt > now
    {
      if |bytes| > maxObject { return Err(ContentLimit); }
      var reference := Reference(id, digest(bytes), |bytes|, format, now + LIFETIME);
      StoringKeepsTheBounds(entries, Entry(session, reference, bytes), maxTotal, now);
      Prune(|bytes|, now);
      entries := entries + [Entry(session, reference, bytes)];
      return Ok(reference);
    }

    /** The chunk at the offset, for the session that owns the object, while it lives. */
    method Read(session: string, id: string, offset: int, limit: int, now: int) returns (r: Result<Chunk>)
      requires Valid()
      ensures if offset < 0 || limit < 1 || limit > CHUNK_BYTES then r == Err(RangeInvalid)
              else if !(exists e :: e in entries && e.reference.id == id && e.session == session && e.reference.expiresAt > now) then r == Err(Unavailable)
              else
                exists e :: e in entries && e.reference.id == id && e.session == session && e.reference.expiresAt > now
                  && r == if offset > |e.bytes| then Err(RangeInvalid) else Ok(ChunkOf(e, offset, limit))
      ensures r.Ok? ==> ChunkOk(r.value)
    {
      if offset < 0 || limit < 1 || limit > CHUNK_BYTES { return Err(RangeInvalid); }
      var found := Find(id);
      if found.None? || found.value.session != session || !IsAlive(found.value, now) { return Err(Unavailable); }
      var e := found.value;
      if offset > |e.bytes| { return Err(RangeInvalid); }
      StoredChunksAreValid(e, offset, limit);
      return Ok(ChunkOf(e, offset, limit));
    }

    method Find(id: string) returns (found: Option<Entry>)
      requires Valid()
      ensures found.None? ==> forall e | e in entries :: e.reference.id != id
      ensures found.Some? ==> found.value in entries && found.value.reference.id == id
                              && forall e | e in entries && e.reference.id == id :: e == found.value
    {
      for i := 0 to |entries|
        invariant forall j | 0 <= j < i :: entries[j].reference.id != id
      {
        if entries[i].reference.id == id { return Some(entries[i]); }
      }
      return None;
    }
  }

  // ---------- The client loop ----------

  datatype Reason = LimitExceeded | ReferenceChanged | OffsetChanged | Integrity | SourceFailed

  datatype Outcome = Complete(bytes: seq<Byte>, count: nat) | Failed(reason: Reason)

  /** What the source answers to its n-th read; None when it throws or is not a chunk. */
  type Source = (nat, int, int) -> Option<Chunk>

  /** How many chunks of a size an object takes: the quotient rounded up, and at least one. */
  function ReadsFor(n: nat, size: nat): nat
    requires size > 0
    decreases n
  {
    if n <= size then 1 else 1 + ReadsFor(n - size, size)
  }

  lemma {:induction false} ReadsForRoundsUp(n: nat, size: nat)
    requires size > 0
    ensures n <= ReadsFor(n, size) * size && (n > 0 ==> (ReadsFor(n, size) - 1) * size < n)
  {
    if n > size { ReadsForRoundsUp(n - size, size); }
  }

  predicate LimitsOk(expected: Reference, maxBytes: int, maxChunks: int, chunkSize: int) {
    && 1 <= maxBytes <= OBJECT_MAX && 1 <= maxChunks <= 8192 && 1 <= chunkSize <= CHUNK_BYTES
    && expected.byteLength <= maxBytes && ReadsFor(expected.byteLength, chunkSize) <= maxChunks
  }

  /** What is wrong with an answer to a read at the offset. */
  function Problem(answer: Option<Chunk>, expected: Reference, offset: nat, chunkSize: nat): Option<Reason> {
    if answer.None? || !ChunkOk(answer.value) then Some(SourceFailed)
    else if answer.value.reference != expected then Some(ReferenceChanged)
    else if answer.value.offset != offset then Some(OffsetChanged)
    else if |DataOf(answer.value)| > chunkSize then Some(LimitExceeded)
    else None
  }

  function DataOf(c: Chunk): seq<Byte>
    requires IsCanonical(c.data)
  {
    CanonicalIsLoose(c.data);
    Decode(c.data)
  }

  /** What reassembling from the n-th read on gathers after `got`. */
  function Gathered(source: Source, expected: Reference, chunkSize: nat, maxChunks: nat, n: nat, got: seq<Byte>): Outcome
    decreases maxChunks - n
  {
    if n >= maxChunks then Failed(LimitExceeded)
    else
      var answer := source(n, |got|, chunkSize);
      var problem := Problem(answer, expected, |got|, chunkSize);
      if problem.Some? then Failed(problem.value)
      else
        var all := got + DataOf(answer.value);
        if answer.value.nextOffset.Some? then Gathered(source, expected, chunkSize, maxChunks, n + 1, all)
        else if |all| == expected.byteLength then Complete(all, n + 1)
        else Failed(LimitExceeded)
  }

  function Verified(outcome: Outcome, expected: Reference, digest: seq<Byte> -> string): Outcome {
    if outcome.Complete? && digest(outcome.bytes) != expected.sha256 then Failed(Integrity) else outcome
  }

  function ReadOutcome(source: Source, expected: Reference, maxBytes: int, maxChunks: int, chunkSize: int, digest: seq<Byte> -> string): Outcome {
    if !LimitsOk(expected, maxBytes, maxChunks, chunkSize) then Failed(LimitExceeded)
    else Verified(Gathered(source, expected, chunkSize, maxChunks, 0, []), expected, digest)
  }

  /** A chunk that passes the schema fits the buffer it is copied into. */
  lemma DecodedFits(c: Chunk)
    requires ChunkOk(c)
    ensures c.offset + |DataOf(c)| <= c.reference.byteLength
    ensures c.nextOffset.None? <==> c.offset + |DataOf(c)| == c.reference.byteLength
  {
    CanonicalIsLoose(c.data);
    DecodedLength(c.data);
  }

  /** The loop writes each chunk into one buffer of the declared length. */
  method ReadHcpContent(source: Source, expected: Reference, maxBytes: int, maxChunks: int, chunkSize: int, digest: seq<Byte> -> string)
    returns (r: Outcome)
    ensures r == ReadOutcome(source, expected, maxBytes, maxChunks, chunkSize, digest)
  {
    hide ChunkOk, DataOf;
    if !LimitsOk(expected, maxBytes, maxChunks, chunkSize) { return Failed(LimitExceeded); }
    var bytes := new Byte[expected.byteLength](_ => 0);
    var offset: nat, complete, count: nat := 0, false, 0;
    ghost var goal := Gathered(source, expected, chunkSize, maxChunks, 0, []);
    while count < maxChunks
      invariant count <= maxChunks && offset <= bytes.Length == expected.byteLength && !complete
      invariant Gathered(source, expected, chunkSize, maxChunks, count, bytes[..offset]) == goal
    {
      var answer := source(count, offset, chunkSize);
      if answer.None? || !ChunkOk(answer.value) { return Failed(SourceFailed); }
      var chunk := answer.value;
      if chunk.reference != expected { return Failed(ReferenceChanged); }
      if chunk.offset != offset { return Failed(OffsetChanged); }
      ChunkIsCanonical(chunk);
      var decoded := DataOf(chunk);
      if |decoded| > chunkSize { return Failed(LimitExceeded); }
      DecodedFits(chunk);
      ghost var got := bytes[..offset];
      forall i | 0 <= i < |decoded| { bytes[offset + i] := decoded[i]; }
      assert bytes[..offset + |decoded|] == got + decoded;
      offset := offset + |decoded|;
      count := count + 1;
      if chunk.nextOffset.None? { complete := true; break; }
    }
    if !complete || offset != expected.byteLength { return Failed(LimitExceeded); }
    assert bytes[..] == bytes[..offset];
    if digest(bytes[..]) != expected.sha256 { return Failed(Integrity); }
    return Complete(bytes[..], count);
  }

  lemma ChunkIsCanonical(c: Chunk)
    requires ChunkOk(c)
    ensures IsCanonical(c.data)
  {}

  /** Whatever the source answers, a complete read has the declared length and digest. */
  lemma AnySourceIsSafe(source: Source, expected: Reference, maxBytes: int, maxChunks: int, chunkSize: int, digest: seq<Byte> -> string)
    requires ReadOutcome(source, expected, maxBytes, maxChunks, chunkSize, digest).Complete?
    ensures var r := ReadOutcome(source, expected, maxBytes, maxChunks, chunkSize, digest);
            |r.bytes| == expected.byteLength && digest(r.bytes) == expected.sha256 && r.count <= maxChunks
  {
    GatheredLength(source, expected, chunkSize, maxChunks, 0, []);
  }

  lemma {:induction false} GatheredLength(source: Source, expected: Reference, chunkSize: nat, maxChunks: nat, n: nat, got: seq<Byte>)
    ensures var r := Gathered(source, expected, chunkSize, maxChunks, n, got);
            r.Complete? ==> |r.bytes| == expected.byteLength && r.count <= maxChunks
    decreases maxChunks - n
  {
    hide *;
    if Gathered(source, expected, chunkSize, maxChunks, n, got).Complete? {
      var all, more := CompleteGathers(source, expected, chunkSize, maxChunks, n, got);
      if more { GatheredLength(source, expected, chunkSize, maxChunks, n + 1, all); }
    }
  }

  /** A complete reassembly goes on after its next chunk, or ends there with the declared length. */
  lemma CompleteGathers(source: Source, expected: Reference, chunkSize: nat, maxChunks: nat, n: nat, got: seq<Byte>)
    returns (all: seq<Byte>, more: bool)
    requires Gathered(source, expected, chunkSize, maxChunks, n, got).Complete?
    ensures n < maxChunks
    ensures var r := Gathered(source, expected, chunkSize, maxChunks, n, got);
            if more then r == Gathered(source, expected, chunkSize, maxChunks, n + 1, all)
            else |all| == expected.byteLength && r == Complete(all, n + 1)
  {
    hide ChunkOk, DataOf, IsCanonical;
    var answer := source(n, |got|, chunkSize).value;
    ChunkIsCanonical(answer);
    all, more := got + DataOf(answer), answer.nextOffset.Some?;
  }

  /** A source that reads one stored object. */
  ghost predicate Reads(source: Source, e: Entry) {
    forall n, offset, limit :: 0 <= offset <= |e.bytes| && 1 <= limit <= CHUNK_BYTES ==> source(n, offset, limit) == Some(ChunkOf(e, offset, limit))
  }

  /** Read from the store, every object comes back exactly, in as few reads as its length
      asks for, whatever the chunk size. */
  lemma StoredObjectIsReassembled(source: Source, e: Entry, maxBytes: int, maxChunks: int, chunkSize: int, digest: seq<Byte> -> string)
    requires IsStored(e, digest) && Reads(source, e) && LimitsOk(e.reference, maxBytes, maxChunks, chunkSize)
    ensures ReadOutcome(source, e.reference, maxBytes, maxChunks, chunkSize, digest)
         == Complete(e.bytes, ReadsFor(|e.bytes|, chunkSize))
  {
    assert e.bytes[..0] == [];
    GathersTheRest(source, e, chunkSize, maxChunks, 0, 0);
  }

  lemma {:induction false} GathersTheRest(source: Source, e: Entry, chunkSize: nat, maxChunks: nat, n: nat, offset: nat)
    requires e.reference.byteLength == |e.bytes| <= OBJECT_MAX && Reads(source, e) && 1 <= chunkSize <= CHUNK_BYTES
    requires offset <= |e.bytes| && n + ReadsFor(|e.bytes| - offset, chunkSize) <= maxChunks
    ensures Gathered(source, e.reference, chunkSize, maxChunks, n, e.bytes[..offset])
         == Complete(e.bytes, n + ReadsFor(|e.bytes| - offset, chunkSize))
    decreases |e.bytes| - offset
  {
    hide IsCanonical, DataOf, Encode, ChunkOk;
    var end := Min(|e.bytes|, offset + chunkSize);
    var chunk := ChunkOf(e, offset, chunkSize);
    StoredChunksAreValid(e, offset, chunkSize);
    assert source(n, |e.bytes[..offset]|, chunkSize) == Some(chunk);
    assert e.bytes[..offset] + e.bytes[offset..end] == e.bytes[..end];
    assert e.bytes[..|e.bytes|] == e.bytes;
    if end < |e.bytes| { GathersTheRest(source, e, chunkSize, maxChunks, n + 1, end); }
  }

  // ---------- Exactly which reads succeed ----------

  /** The bytes a chunk carries from its offset, with the offset of the next while there is one. */
  ghost predicate Carries(c: Chunk, part: seq<Byte>) {
    var end := c.offset + |part|;
    && |part| <= CHUNK_BYTES && 0 <= c.offset && end <= c.reference.byteLength <= OBJECT_MAX && c.data == Encode(part)
    && (if end < c.reference.byteLength then part != [] && c.nextOffset == Some(end) else c.nextOffset.None?)
  }

  /** The chunk schema accepts exactly the parts of objects. */
  lemma ChunksCarryParts(c: Chunk)
    ensures ChunkOk(c) <==> exists part :: Carries(c, part)
    ensures ChunkOk(c) ==> IsCanonical(c.data) && Carries(c, DataOf(c))
    ensures forall part | Carries(c, part) :: IsCanonical(c.data) && DataOf(c) == part
  {
    hide IsCanonical, Encode, Decode, Padding;
    forall part | Carries(c, part) ensures ChunkOk(c) && DataOf(c) == part { EncodedPart(part); }
    if ChunkOk(c) {
      CanonicalIsLoose(c.data);
      DecodedLength(c.data);
      EncodeOfDecode(c.data);
      assert Carries(c, DataOf(c));
    }
  }

  /** What the source answers to a read at an offset is the next part of the expected object. */
  ghost predicate IsPartAt(answer: Option<Chunk>, expected: Reference, offset: nat, chunkSize: nat, part: seq<Byte>) {
    answer.Some? && answer.value.reference == expected && answer.value.offset == offset && |part| <= chunkSize && Carries(answer.value, part)
  }

  /** From the n-th read on the source answers these parts, each at the offset the last one
      reached, and none after the object's end. */
  ghost predicate Delivers(source: Source, expected: Reference, chunkSize: nat, n: nat, offset: nat, parts: seq<seq<Byte>>)
    decreases |parts|
  {
    parts != [] ==>
      && IsPartAt(source(n, offset, chunkSize), expected, offset, chunkSize, parts[0])
      && (|parts| > 1 ==> offset + |parts[0]| < expected.byteLength)
      && Delivers(source, expected, chunkSize, n + 1, offset + |parts[0]|, parts[1..])
  }

  function Joined(parts: seq<seq<Byte>>): seq<Byte> { if parts == [] then [] else parts[0] + Joined(parts[1..]) }

  lemma AnswerIsPart(answer: Option<Chunk>, expected: Reference, offset: nat, chunkSize: nat)
    ensures Problem(answer, expected, offset, chunkSize).None? ==>
              answer.Some? && IsCanonical(answer.value.data) && IsPartAt(answer, expected, offset, chunkSize, DataOf(answer.value))
    ensures forall part | IsPartAt(answer, expected, offset, chunkSize, part) ::
              Problem(answer, expected, offset, chunkSize).None? && IsCanonical(answer.value.data) && DataOf(answer.value) == part
  {
    hide ChunkOk, Carries, DataOf, IsCanonical;
    if answer.Some? { ChunksCarryParts(answer.value); }
  }

  /** One read of the loop, by the part it is answered with. */
  lemma GathersPart(source: Source, expected: Reference, chunkSize: nat, maxChunks: nat, n: nat, got: seq<Byte>, part: seq<Byte>)
    requires n < maxChunks && IsPartAt(source(n, |got|, chunkSize), expected, |got|, chunkSize, part)
    ensures Gathered(source, expected, chunkSize, maxChunks, n, got)
         == if |got + part| < expected.byteLength then Gathered(source, expected, chunkSize, maxChunks, n + 1, got + part)
            else Complete(got + part, n + 1)
  {
    AnswerIsPart(source(n, |got|, chunkSize), expected, |got|, chunkSize);
    hide ChunkOk, DataOf, IsCanonical, Problem, Encode;
  }

  lemma {:induction false} DeliveredIsGathered(source: Source, expected: Reference, chunkSize: nat, maxChunks: nat, n: nat, got: seq<Byte>, parts: seq<seq<Byte>>)
    requires parts != [] && n + |parts| <= maxChunks && Delivers(source, expected, chunkSize, n, |got|, parts)
    requires |got| + |Joined(parts)| == expected.byteLength
    ensures Gathered(source, expected, chunkSize, maxChunks, n, got) == Complete(got + Joined(parts), n + |parts|)
    decreases |parts|
  {
    hide Gathered, IsPartAt;
    var all := got + parts[0];
    GathersPart(source, expected, chunkSize, maxChunks, n, got, parts[0]);
    assert got + Joined(parts) == all + Joined(parts[1..]);
    if |parts| > 1 {
      DeliveredIsGathered(source, expected, chunkSize, maxChunks, n + 1, all, parts[1..]);
    } else {
      assert Joined(parts[1..]) == [];
    }
  }

  /** Why a reassembly that has some parts fails at its next read. */
  ghost predicate IsWrong(answer: Option<Chunk>, expected: Reference, offset: nat, chunkSize: nat, reason: Reason) {
    match reason
    case SourceFailed => answer.None? || !exists part :: Carries(answer.value, part)
    case ReferenceChanged => answer.Some? && (exists part :: Carries(answer.value, part)) && answer.value.reference != expected
    case OffsetChanged =>
      answer.Some? && (exists part :: Carries(answer.value, part)) && answer.value.reference == expected && answer.value.offset != offset
    case LimitExceeded =>
      answer.Some? && answer.value.reference == expected && answer.value.offset == offset && exists part :: Carries(answer.value, part) && |part| > chunkSize
    case Integrity => false
  }

  lemma ProblemIsWrong(answer: Option<Chunk>, expected: Reference, offset: nat, chunkSize: nat)
    ensures var problem := Problem(answer, expected, offset, chunkSize);
            problem.Some? ==> IsWrong(answer, expected, offset, chunkSize, problem.value)
  {
    hide ChunkOk, Carries, DataOf, IsCanonical;
    if answer.Some? { ChunksCarryParts(answer.value); }
  }

  /** The parts of a reassembly: the source delivers them, and the loop ends after them with the
      whole object, with the last read it may make, or with a wrong answer. */
  ghost predicate EndsAfter(source: Source, expected: Reference, chunkSize: nat, maxChunks: nat, n: nat, got: seq<Byte>,
                            parts: seq<seq<Byte>>, outcome: Outcome)
  {
    var all, count := got + Joined(parts), n + |parts|;
    && Delivers(source, expected, chunkSize, n, |got|, parts)
    && match outcome
       case Complete(bytes, made) => parts != [] && bytes == all && made == count <= maxChunks && |all| == expected.byteLength
       case Failed(reason) =>
         && count <= maxChunks && (parts != [] ==> |all| < expected.byteLength)
         && if count < maxChunks then IsWrong(source(count, |all|, chunkSize), expected, |all|, chunkSize, reason)
            else reason == LimitExceeded
  }

  lemma {:induction false} GatheredEnds(source: Source, expected: Reference, chunkSize: nat, maxChunks: nat, n: nat, got: seq<Byte>)
    returns (parts: seq<seq<Byte>>)
    requires n <= maxChunks && |got| <= expected.byteLength
    ensures EndsAfter(source, expected, chunkSize, maxChunks, n, got, parts, Gathered(source, expected, chunkSize, maxChunks, n, got))
    decreases maxChunks - n
  {
    hide IsPartAt, IsWrong, Problem, ChunkOk, DataOf, IsCanonical;
    parts := [];
    assert got + Joined([]) == got;
    if n >= maxChunks { return; }
    var answer := source(n, |got|, chunkSize);
    AnswerIsPart(answer, expected, |got|, chunkSize);
    if Problem(answer, expected, |got|, chunkSize).Some? {
      ProblemIsWrong(answer, expected, |got|, chunkSize);
      return;
    }
    var part := DataOf(answer.value);
    var all := got + part;
    GathersPart(source, expected, chunkSize, maxChunks, n, got, part);
    PartFits(answer, expected, |got|, chunkSize, part);
    if |all| == expected.byteLength {
      parts := [part];
      assert parts[1..] == [] && Joined(parts) == part;
      assert Delivers(source, expected, chunkSize, n + 1, |all|, parts[1..]);
      assert Delivers(source, expected, chunkSize, n, |got|, parts);
      assert got + Joined(parts) == all;
      return;
    }
    var rest := GatheredEnds(source, expected, chunkSize, maxChunks, n + 1, all);
    parts := [part] + rest;
    assert parts[1..] == rest && got + Joined(parts) == all + Joined(rest);
  }

  lemma PartFits(answer: Option<Chunk>, expected: Reference, offset: nat, chunkSize: nat, part: seq<Byte>)
    requires IsPartAt(answer, expected, offset, chunkSize, part)
    ensures offset + |part| <= expected.byteLength
  {}

  /** A read gives the bytes and the number of reads exactly when its limits are in order, the
      source answers with parts of the expected object that join to those bytes, each at the
      offset the last one reached, and their digest is the expected one. */
  lemma ReadsAreExact(source: Source, expected: Reference, maxBytes: int, maxChunks: int, chunkSize: int, digest: seq<Byte> -> string, bytes: seq<Byte>, count: nat)
    ensures ReadOutcome(source, expected, maxBytes, maxChunks, chunkSize, digest) == Complete(bytes, count)
       <==> && 1 <= maxBytes <= OBJECT_MAX && 1 <= maxChunks <= 8192 && 1 <= chunkSize <= CHUNK_BYTES
            && expected.byteLength <= maxBytes && expected.byteLength <= chunkSize * maxChunks
            && |bytes| == expected.byteLength && digest(bytes) == expected.sha256
            && exists parts :: 0 < |parts| == count <= maxChunks && Joined(parts) == bytes && Delivers(source, expected, chunkSize, 0, 0, parts)
    ensures !(1 <= maxBytes <= OBJECT_MAX && 1 <= maxChunks <= 8192 && 1 <= chunkSize <= CHUNK_BYTES) ==>
              ReadOutcome(source, expected, maxBytes, maxChunks, chunkSize, digest) == Failed(LimitExceeded)
  {
    hide Gathered, Delivers;
    if !(1 <= maxBytes <= OBJECT_MAX && 1 <= maxChunks <= 8192 && 1 <= chunkSize <= CHUNK_BYTES) { return; }
    LimitsAreThese(expected, maxBytes, maxChunks, chunkSize);
    if LimitsOk(expected, maxBytes, maxChunks, chunkSize) {
      var parts := GatheredEnds(source, expected, chunkSize, maxChunks, 0, []);
      assert [] + Joined(parts) == Joined(parts);
      forall parts | 0 < |parts| == count <= maxChunks && |Joined(parts)| == expected.byteLength && Delivers(source, expected, chunkSize, 0, 0, parts)
        ensures Gathered(source, expected, chunkSize, maxChunks, 0, []) == Complete(Joined(parts), count) {
        DeliveredIsGathered(source, expected, chunkSize, maxChunks, 0, [], parts);
        assert [] + Joined(parts) == Joined(parts);
      }
    }
  }

  lemma LimitsAreThese(expected: Reference, maxBytes: int, maxChunks: int, chunkSize: int)
    requires 1 <= maxBytes <= OBJECT_MAX && 1 <= maxChunks <= 8192 && 1 <= chunkSize <= CHUNK_BYTES
    ensures LimitsOk(expected, maxBytes, maxChunks, chunkSize) <==> expected.byteLength <= maxBytes && expected.byteLength <= chunkSize * maxChunks
  {
    ReadsWithin(expected.byteLength, chunkSize, maxChunks);
  }

  lemma {:induction false} ReadsWithin(n: nat, size: nat, limit: nat)
    requires size > 0 && limit > 0
    ensures ReadsFor(n, size) <= limit <==> n <= size * limit
    decreases n
  {
    assert size * limit == size * (limit - 1) + size;
    if n > size {
      if limit > 1 {
        ReadsWithin(n - size, size, limit - 1);
      } else {
        assert size * limit == size;
      }
    }
  }

  /** A read that fails had its limits out of order, or ran out of reads, or was answered wrongly
      after the parts it had, or joined parts of another digest; and it tells which. */
  lemma FailuresAreTold(source: Source, expected: Reference, maxBytes: int, maxChunks: int, chunkSize: int, digest: seq<Byte> -> string)
    requires 1 <= maxBytes <= OBJECT_MAX && 1 <= maxChunks <= 8192 && 1 <= chunkSize <= CHUNK_BYTES
    requires expected.byteLength <= maxBytes && expected.byteLength <= chunkSize * maxChunks
    requires ReadOutcome(source, expected, maxBytes, maxChunks, chunkSize, digest).Failed?
    ensures var reason := ReadOutcome(source, expected, maxBytes, maxChunks, chunkSize, digest).reason;
            exists parts :: |parts| <= maxChunks && Delivers(source, expected, chunkSize, 0, 0, parts)
              && var got := |Joined(parts)|;
                 if reason == Integrity then got == expected.byteLength && digest(Joined(parts)) != expected.sha256
                 else if |parts| < maxChunks then IsWrong(source(|parts|, got, chunkSize), expected, got, chunkSize, reason)
                 else reason == LimitExceeded && got < expected.byteLength
  {
    LimitsAreThese(expected, maxBytes, maxChunks, chunkSize);
    hide Gathered, Delivers, LimitsOk, Carries;
    var parts := GatheredEnds(source, expected, chunkSize, maxChunks, 0, []);
    assert [] + Joined(parts) == Joined(parts);
  }
}
