/** Sending coalesced datagrams: however a batch goes out, the wire carries the same segments. */
module Segments {
  import opened Sums

  type Bytes = seq<bv8>

  function Chunks(data: Bytes, size: nat): (r: seq<Bytes>)
    requires size > 0
  {
    if |data| == 0 then [] else if |data| <= size then [data] else [data[..size]] + Chunks(data[size..], size)
  }

  /** What one received buffer means: the peer's datagrams, each `stride` long but the last. */
  function Datagrams(data: Bytes, stride: nat): seq<Bytes> {
    if stride == 0 || |data| <= stride then [data] else Chunks(data, stride)
  }

  /** Cutting at a multiple of the stride cuts between datagrams. */
  lemma {:induction false} ChunksSplit(data: Bytes, stride: nat, count: nat)
    requires stride > 0 && stride * count <= |data|
    ensures Chunks(data, stride) == Chunks(data[..stride * count], stride) + Chunks(data[stride * count..], stride)
    decreases count
  {
    var cut := stride * count;
    if count > 0 {
      MulMono(1, count, stride);
      var rest := data[stride..];
      assert stride * (count - 1) == cut - stride;
      ChunksSplit(rest, stride, count - 1);
      assert data[..cut][..stride] == data[..stride];
      assert data[..cut][stride..] == rest[..cut - stride];
      assert rest[cut - stride..] == data[cut..];
      FirstChunk(data, stride);
      FirstChunk(data[..cut], stride);
    } else {
      assert data[..cut] == [] && data[cut..] == data;
    }
  }

  lemma FirstChunk(data: Bytes, stride: nat)
    requires 0 < stride <= |data|
    ensures Chunks(data, stride) == [data[..stride]] + Chunks(data[stride..], stride)
  {
    if |data| == stride { assert data[..stride] == data; }
  }

  function Joined(segments: seq<Bytes>): Bytes {
    if |segments| == 0 then [] else segments[0] + Joined(segments[1..])
  }

  /** The segments put together are the data; all are full but the last, which is not empty. */
  lemma {:induction false} ChunksJoin(data: Bytes, size: nat)
    requires size > 0
    ensures Joined(Chunks(data, size)) == data
    ensures var chunks := Chunks(data, size);
      forall i | 0 <= i < |chunks| :: 0 < |chunks[i]| <= size && (i < |chunks| - 1 ==> |chunks[i]| == size)
  {
    if |data| > size {
      var rest := Chunks(data[size..], size);
      ChunksJoin(data[size..], size);
      assert Chunks(data, size)[1..] == rest;
      assert data == data[..size] + data[size..];
      assert |rest| > 0;
    } else if |data| > 0 {
      assert Chunks(data, size) == [data] && [data][1..] == [];
    }
  }

  /** Whatever the stride, the datagrams put together are the data. */
  lemma DatagramsJoin(data: Bytes, stride: nat)
    ensures Joined(Datagrams(data, stride)) == data
  {
    if stride == 0 || |data| <= stride {
      assert [data][1..] == [];
    } else {
      ChunksJoin(data, stride);
    }
  }

  // ---------------------------------------------------------------- sending

  /** Datagrams `from` to `to` all go out. */
  ghost predicate AllOut(goes: nat -> bool, from: nat, to: nat) {
    forall k | from <= k < to :: goes(k)
  }

  /** Everything up to the first datagram that does not go out, which is also where a failure stops. */
  ghost predicate StopsAt(goes: nat -> bool, from: nat, to: nat, ok: bool, sent: nat) {
    && from <= sent <= to && AllOut(goes, from, sent)
    && (ok <==> sent == to) && (!ok ==> !goes(sent))
  }

  /** One datagram at a time; fails at the first that is refused. */
  method SendEach(chunk: Bytes, stride: nat, wire: seq<Bytes>, accepts: nat -> bool)
    returns (ok: bool, sent: seq<Bytes>)
    requires stride > 0
    ensures wire <= sent <= wire + Chunks(chunk, stride)
    ensures StopsAt(accepts, |wire|, |wire| + |Chunks(chunk, stride)|, ok, |sent|)
  {
    sent := wire;
    var at := 0;
    assert chunk[0..] == chunk;
    while at < |chunk|
      invariant 0 <= at <= |chunk|
      invariant wire <= sent && sent + Chunks(chunk[at..], stride) == wire + Chunks(chunk, stride)
      invariant AllOut(accepts, |wire|, |sent|)
    {
      var end := if at + stride < |chunk| then at + stride else |chunk|;
      var segment := chunk[at..end];
      assert Chunks(chunk[at..], stride) == [segment] + Chunks(chunk[end..], stride) by {
        assert chunk[at..][..end - at] == segment && chunk[at..][end - at..] == chunk[end..];
        assert at + stride >= |chunk| ==> chunk[at..] == segment && chunk[end..] == [];
      }
      if !accepts(|sent|) {
        ok := false;
        return;
      }
      sent := sent + [segment];
      at := end;
    }
    ok := true;
  }

  /** Whether a datagram of a batch goes out: with the others of its batch, or on its own. */
  ghost function InBatch(gso: bool, several: bool, accepts: nat -> bool): nat -> bool {
    (k: nat) => (gso && several) || accepts(k)
  }

  /** One batch: whole, or segment by segment when the segmented send is refused. */
  method SendBatch(chunk: Bytes, stride: nat, wire: seq<Bytes>, gso: nat -> bool, accepts: nat -> bool)
    returns (ok: bool, sent: seq<Bytes>)
    requires stride > 0 && |chunk| > 0
    ensures wire <= sent <= wire + Chunks(chunk, stride)
    ensures StopsAt(InBatch(gso(|wire|), |Chunks(chunk, stride)| > 1, accepts),
                    |wire|, |wire| + |Chunks(chunk, stride)|, ok, |sent|)
  {
    SegmentCount(chunk, stride);
    if |chunk| <= stride {
      ok := accepts(|wire|);
      sent := if ok then wire + [chunk] else wire;
    } else if gso(|wire|) {
      ok, sent := true, wire + Chunks(chunk, stride);
    } else {
      ok, sent := SendEach(chunk, stride, wire, accepts);
    }
  }

  /** A batch of one goes as a single datagram, a larger one as several. */
  lemma {:induction false} SegmentCount(data: Bytes, stride: nat)
    requires stride > 0
    ensures |Chunks(data, stride)| * stride >= |data|
    ensures |data| > 0 ==> (|Chunks(data, stride)| - 1) * stride < |data|
    ensures |Chunks(data, stride)| > 1 <==> |data| > stride
  {
    if |data| > stride { SegmentCount(data[stride..], stride); }
  }

  lemma FullBatch(data: Bytes, stride: nat, many: nat)
    requires stride > 0 && |data| == stride * many
    ensures |Chunks(data, stride)| == many
  {
    var n := |Chunks(data, stride)|;
    SegmentCount(data, stride);
    if n < many { MulMono(n + 1, many, stride); }
    if n > many { MulMono(many, n - 1, stride); }
  }

  lemma SmallBatch(data: Bytes, stride: nat, many: nat)
    requires stride > 0 && |data| <= stride * many
    ensures |Chunks(data, stride)| <= many
  {
    var n := |Chunks(data, stride)|;
    SegmentCount(data, stride);
    if n > many { MulMono(many, n - 1, stride); }
  }

  function Many(segments: nat): nat {
    if segments > 1 then segments else 1
  }

  /**
   Datagram `k` of `n` goes out when the segmented send of its batch is taken, which is tried when the
   batch has more than one, or else when it is accepted on its own.
   */
  ghost function GoesOut(n: nat, segments: nat, gso: nat -> bool, accepts: nat -> bool): nat -> bool {
    (k: nat) =>
      var start := k / Many(segments) * Many(segments);
      (gso(start) && Many(segments) > 1 && start + 1 < n) || accepts(k)
  }

  /** Batch number `q` of `count` datagrams: full, unless it is the last. */
  predicate IsBatch(n: nat, segments: nat, q: nat, count: nat) {
    var start := q * Many(segments);
    && 0 < count <= Many(segments) && start + count <= n && (count < Many(segments) ==> start + count == n)
  }

  /** A batch decides for its datagrams. */
  lemma BatchDecides(n: nat, segments: nat, gso: nat -> bool, accepts: nat -> bool, q: nat, count: nat, k: nat)
    requires IsBatch(n, segments, q, count) && q * Many(segments) <= k < q * Many(segments) + count
    ensures GoesOut(n, segments, gso, accepts)(k) == InBatch(gso(q * Many(segments)), count > 1, accepts)(k)
  {
    SameBatch(q, k - q * Many(segments), Many(segments));
  }

  lemma SameBatch(q: nat, r: nat, many: nat)
    requires r < many
    ensures (q * many + r) / many == q
  {
    var x := q * many + r;
    assert many * (x / many) + x % many == x;
    if x / many > q { MulMono(q + 1, x / many, many); }
    if x / many < q { MulMono(x / many + 1, q, many); }
  }

  /** What a batch did, as part of the whole buffer. */
  lemma BatchStops(n: nat, segments: nat, gso: nat -> bool, accepts: nat -> bool, q: nat, count: nat, ok: bool,
                   sent: nat)
    requires IsBatch(n, segments, q, count)
    requires AllOut(GoesOut(n, segments, gso, accepts), 0, q * Many(segments))
    requires var start := q * Many(segments);
      StopsAt(InBatch(gso(start), count > 1, accepts), start, start + count, ok, sent)
    ensures AllOut(GoesOut(n, segments, gso, accepts), 0, sent)
    ensures !ok ==> StopsAt(GoesOut(n, segments, gso, accepts), 0, n, false, sent)
  {
    var goes := GoesOut(n, segments, gso, accepts);
    forall k | 0 <= k < sent ensures goes(k) {
      if k >= q * Many(segments) { BatchDecides(n, segments, gso, accepts, q, count, k); }
    }
    if !ok { BatchDecides(n, segments, gso, accepts, q, count, sent); }
  }

  /**
   Sends a coalesced buffer. `gso(k)` says whether the kernel takes the segmented send made after
   `k` datagrams, `accepts(k)` whether it takes the single send of datagram `k`, and `segments` is
   how many segments it claims to take at once.
   */
  method Send(data: Bytes, stride: nat, segments: nat, gso: nat -> bool, accepts: nat -> bool)
    returns (ok: bool, sent: seq<Bytes>)
    ensures sent <= Datagrams(data, stride)
    ensures var n := |Datagrams(data, stride)|; StopsAt(GoesOut(n, segments, gso, accepts), 0, n, ok, |sent|)
  {
    ghost var n := |Datagrams(data, stride)|;
    if stride == 0 || |data| <= stride {
      BatchDecides(n, segments, gso, accepts, 0, 1, 0);
      ok := accepts(0);
      sent := if ok then [data] else [];
      return;
    }
    sent := [];
    var at := 0;
    ghost var q := 0;
    assert data[0..] == data;
    while at < |data|
      invariant Sending(data, stride, segments, gso, accepts, at, q, sent)
    {
      ok, sent, at := SendNext(data, stride, segments, gso, accepts, at, q, sent);
      if !ok { return; }
      q := q + 1;
    }
    assert data[at..] == [];
    ok := true;
  }

  /** After `q` batches the wire has the first `at` bytes, and the rest is still to be cut. */
  ghost predicate Sending(data: Bytes, stride: nat, segments: nat, gso: nat -> bool, accepts: nat -> bool, at: nat,
                          q: nat, sent: seq<Bytes>)
    requires stride > 0
  {
    && at <= |data| && sent + Chunks(data[at..], stride) == Chunks(data, stride)
    && (at < |data| ==> |sent| == q * Many(segments))
    && AllOut(GoesOut(|Chunks(data, stride)|, segments, gso, accepts), 0, |sent|)
  }

  method SendNext(data: Bytes, stride: nat, segments: nat, gso: nat -> bool, accepts: nat -> bool, at: nat,
                  ghost q: nat, wire: seq<Bytes>)
    returns (ok: bool, sent: seq<Bytes>, end: nat)
    requires stride > 0 && at < |data| && Sending(data, stride, segments, gso, accepts, at, q, wire)
    ensures at < end <= |data|
    ensures ok ==> Sending(data, stride, segments, gso, accepts, end, q + 1, sent)
    ensures !ok ==> sent <= Chunks(data, stride)
    ensures !ok ==> var n := |Chunks(data, stride)|; StopsAt(GoesOut(n, segments, gso, accepts), 0, n, false, |sent|)
  {
    var many := Many(segments);
    MulMono(1, many, stride);
    end := if at + stride * many < |data| then at + stride * many else |data|;
    CutBatch(data, stride, many, at, end);
    ghost var n, count := |Chunks(data, stride)|, |Chunks(data[at..end], stride)|;
    Regroup(wire, Chunks(data[at..end], stride), Chunks(data[end..], stride));
    BatchSize(data, stride, segments, at, end, q, n);
    ok, sent := SendBatch(data[at..end], stride, wire, gso, accepts);
    BatchStops(n, segments, gso, accepts, q, count, ok, |sent|);
  }

  lemma BatchSize(data: Bytes, stride: nat, segments: nat, at: nat, end: nat, q: nat, n: nat)
    requires stride > 0 && at < end <= |data|
    requires end == at + stride * Many(segments) || (end == |data| && end <= at + stride * Many(segments))
    requires n == q * Many(segments) + |Chunks(data[at..end], stride)| + |Chunks(data[end..], stride)|
    ensures IsBatch(n, segments, q, |Chunks(data[at..end], stride)|)
    ensures end < |data| ==> q * Many(segments) + |Chunks(data[at..end], stride)| == (q + 1) * Many(segments)
  {
    SegmentCount(data[at..end], stride);
    SmallBatch(data[at..end], stride, Many(segments));
    if end < |data| {
      FullBatch(data[at..end], stride, Many(segments));
    } else {
      assert data[end..] == [];
    }
  }

  lemma Regroup(a: seq<Bytes>, b: seq<Bytes>, c: seq<Bytes>)
    ensures a + (b + c) == (a + b) + c
  {
  }

  lemma CutBatch(data: Bytes, stride: nat, many: nat, at: nat, end: nat)
    requires stride > 0 && at <= end <= |data|
    requires end == at + stride * many || end == |data|
    ensures Chunks(data[at..], stride) == Chunks(data[at..end], stride) + Chunks(data[end..], stride)
  {
    var rest := data[at..];
    if end == |data| {
      assert data[at..end] == rest && data[end..] == [];
    } else {
      ChunksSplit(rest, stride, many);
      assert rest[..stride * many] == data[at..end] && rest[stride * many..] == data[end..];
    }
  }
}
