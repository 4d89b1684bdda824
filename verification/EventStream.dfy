/** The append-only event stream with offsets and a hash chain (event_stream.py, JsonlEventStream). */
module EventStream {
  import opened Ordering
  import opened HashChain
  import opened ControlPulse

  /** A record without its two hashes. */
  datatype Entry = Entry(offset: int, recordedAt: string, event: ControlEvent)

  type StreamHash = Material<Entry> -> string

  type Record = Link<Entry>

  /** read_from: the records at or above an offset, among the first n in file order. */
  function ReadFrom(records: seq<Record>, n: nat, offset: int): seq<Record>
    requires n <= |records|
  {
    if n == 0 then [] else
      ReadFrom(records, n - 1, offset) + if records[n - 1].content.offset >= offset then [records[n - 1]] else []
  }

  /** The i-th record has offset i, points at its predecessor and carries its own hash. */
  predicate InPlace(h: StreamHash, records: seq<Record>, i: nat)
    requires i < |records|
  {
    records[i].content.offset == i && GoodAt(h, records, i)
  }

  ghost predicate StreamVerifies(h: StreamHash, records: seq<Record>) {
    forall i: nat | i < |records| :: InPlace(h, records, i)
  }

  /** What verify reports: count is the length of the longest verifying prefix. */
  ghost predicate IsStreamVerdict(h: StreamHash, records: seq<Record>, v: Verdict) {
    && v.count <= |records|
    && (forall i: nat | i < v.count :: InPlace(h, records, i))
    && v.valid == (v.count == |records|)
    && (if v.count < |records| then !InPlace(h, records, v.count) && v.broken == Some(records[v.count].hash)
        else v.broken == None)
  }

  lemma StreamPrefix(h: StreamHash, records: seq<Record>, k: nat, i: nat)
    requires i < k <= |records|
    ensures InPlace(h, records[..k], i) == InPlace(h, records, i)
  {
    assert records[..k][..i] == records[..i];
  }

  /** The verdict is unique, and no longer prefix verifies. */
  lemma StreamVerdictExact(h: StreamHash, records: seq<Record>, v: Verdict)
    requires IsStreamVerdict(h, records, v)
    ensures v.valid <==> StreamVerifies(h, records)
    ensures forall k: nat | k <= |records| :: StreamVerifies(h, records[..k]) <==> k <= v.count
    ensures forall w: Verdict :: IsStreamVerdict(h, records, w) ==> w == v
  {
    forall k: nat | k <= |records| ensures StreamVerifies(h, records[..k]) <==> k <= v.count {
      forall i: nat | i < k ensures InPlace(h, records[..k], i) == InPlace(h, records, i) {
        StreamPrefix(h, records, k, i);
      }
      if v.count < k { assert !InPlace(h, records[..k], v.count); }
    }
    assert records[..|records|] == records;
  }

  function FromOffset(records: seq<Record>, n: nat, offset: nat): seq<Record>
    requires n <= |records|
  {
    if offset <= n then records[offset..n] else []
  }

  ghost predicate InOrder(records: seq<Record>, n: nat)
    requires n <= |records|
  {
    forall i: nat | i < n :: records[i].content.offset == i
  }

  lemma {:induction false} SkipsBelow(records: seq<Record>, n: nat, offset: nat)
    requires n <= |records| && InOrder(records, n) && n <= offset
    ensures ReadFrom(records, n, offset) == []
  {
    if n > 0 { SkipsBelow(records, n - 1, offset); }
  }

  lemma OneMoreRead(records: seq<Record>, n: nat, offset: nat)
    requires offset <= n < |records| && records[n].content.offset == n
    requires ReadFrom(records, n, offset) == records[offset..n]
    ensures ReadFrom(records, n + 1, offset) == records[offset..n + 1]
  {
    assert records[offset..n + 1] == records[offset..n] + [records[n]];
  }

  lemma {:induction false} ReadsRest(records: seq<Record>, n: nat, offset: nat)
    requires offset <= n <= |records| && InOrder(records, n)
    ensures ReadFrom(records, n, offset) == records[offset..n]
  {
    if n == offset {
      SkipsBelow(records, n, offset);
    } else {
      ReadsRest(records, n - 1, offset);
      OneMoreRead(records, n - 1, offset);
    }
  }

  /** On a verifying stream read_from skips exactly the records below the offset. */
  lemma ReadFromVerified(h: StreamHash, records: seq<Record>, n: nat, offset: nat)
    requires StreamVerifies(h, records) && n <= |records|
    ensures ReadFrom(records, n, offset) == FromOffset(records, n, offset)
  {
    forall i: nat | i < n ensures records[i].content.offset == i { assert InPlace(h, records, i); }
    if offset <= n { ReadsRest(records, n, offset); } else { SkipsBelow(records, n, offset); }
  }

  /** Two verifying streams with the same last hash are the same, records and offsets, or show a
      collision. */
  lemma StreamBinding(h: StreamHash, a: seq<Record>, b: seq<Record>) returns (m: Material<Entry>, n: Material<Entry>)
    requires HexDigest(h) && StreamVerifies(h, a) && StreamVerifies(h, b)
    requires Head(a) == Head(b)
    ensures a == b || Collision(h, m, n)
  {
    forall i: nat | i < |a| ensures GoodAt(h, a, i) { assert InPlace(h, a, i); }
    forall i: nat | i < |b| ensures GoodAt(h, b, i) { assert InPlace(h, b, i); }
    m := Material(Entry(0, "", ControlEvent("", "", "", "", "", false, false, "", map[])), "");
    n := m;
    if a != [] { assert GoodAt(h, a, |a| - 1) && |Head(a)| == 64; }
    if b != [] { assert GoodAt(h, b, |b| - 1) && |Head(b)| == 64; }
    if a != [] && b != [] { m, n := Binding(h, a, b); }
  }

  /** The record that append writes after these. */
  function NextRecord(h: StreamHash, records: seq<Record>, event: ControlEvent, now: string): Record {
    var offset := if records == [] then 0 else records[|records| - 1].content.offset + 1;
    var entry := Entry(offset, now, event);
    Link(entry, Head(records), h(Material(entry, Head(records))))
  }

  /** Appending to a verifying stream keeps it verifying, one record longer. */
  lemma AppendKeepsStream(h: StreamHash, records: seq<Record>, event: ControlEvent, now: string)
    requires StreamVerifies(h, records)
    ensures StreamVerifies(h, records + [NextRecord(h, records, event, now)])
    ensures NextRecord(h, records, event, now).content == Entry(|records|, now, event)
  {
    var record := NextRecord(h, records, event, now);
    var longer := records + [record];
    if records != [] { assert InPlace(h, records, |records| - 1); }
    forall i: nat | i < |longer| ensures InPlace(h, longer, i) {
      assert longer[..|records|] == records;
      StreamPrefix(h, longer, |longer|, i);
      if i < |records| {
        StreamPrefix(h, longer, |records|, i);
        assert InPlace(h, records, i);
      }
    }
  }

  /** The file behind the stream. */
  class JsonlEventStream {
    const hash: StreamHash
    var records: seq<Record>

    constructor (hash: StreamHash)
      ensures this.hash == hash && records == []
    {
      this.hash := hash;
      records := [];
    }

    /** append reads the stream from offset 0, so records with a negative offset do not count. */
    method Append(event: ControlEvent, now: string) returns (record: Record)
      modifies this`records
      ensures records == old(records) + [record]
      ensures record == NextRecord(hash, ReadFrom(old(records), |old(records)|, 0), event, now)
      ensures StreamVerifies(hash, old(records)) ==>
        StreamVerifies(hash, records) && record.content == Entry(|old(records)|, now, event)
    {
      var known := ReadFrom(records, |records|, 0);
      if StreamVerifies(hash, records) {
        ReadFromVerified(hash, records, |records|, 0);
        assert records[0..|records|] == records;
        AppendKeepsStream(hash, records, event, now);
      }
      var offset := if known != [] then known[|known| - 1].content.offset + 1 else 0;
      var previousHash := if known != [] then known[|known| - 1].hash else GENESIS;
      var entry := Entry(offset, now, event);
      record := Link(entry, previousHash, hash(Material(entry, previousHash)));
      records := records + [record];
    }

    /** verify: the loop over the records from offset 0. */
    method Verify() returns (v: Verdict)
      ensures IsStreamVerdict(hash, ReadFrom(records, |records|, 0), v)
    {
      var known := ReadFrom(records, |records|, 0);
      var previous, expectedOffset := GENESIS, 0;
      for k := 0 to |known|
        invariant expectedOffset == k && previous == Head(known[..k])
        invariant forall i: nat | i < k :: InPlace(hash, known, i)
      {
        var record := known[k];
        var supplied := record.hash;
        if record.content.offset != expectedOffset || record.previous != previous
          || hash(Material(record.content, record.previous)) != supplied {
          return Verdict(false, expectedOffset, Some(supplied));
        }
        assert InPlace(hash, known, k);
        assert known[..k + 1][k] == known[k];
        previous := supplied;
        expectedOffset := expectedOffset + 1;
      }
      return Verdict(true, expectedOffset, None);
    }
  }
}
