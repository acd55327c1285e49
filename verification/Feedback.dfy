/** libFuzzer's extra counters: saturating bytes that snapshots are added into. */
module Feedback {
  import opened Wrappers
  import opened CovBridge

  /** The counts of one import, and where the first of them goes. */
  datatype Import = Import(offset: nat, counts: seq<nat>)

  /** What import x adds to byte i. */
  function Share(x: Import, i: nat): nat {
    if x.offset <= i < x.offset + |x.counts| then x.counts[i - x.offset] else 0
  }

  function Total(xs: seq<Import>, i: nat): nat {
    if xs == [] then 0 else Total(xs[..|xs| - 1], i) + Share(xs[|xs| - 1], i)
  }

  function Clip(n: nat): uint8 {
    if n < 255 then n else 255
  }

  /** The byte that the source computes from a byte and a count. */
  function Bump(byte: uint8, count: nat): uint8 {
    if count >= 255 - byte then 255 else byte + count
  }

  lemma BumpClips(n: nat, count: nat)
    ensures Bump(Clip(n), count) == Clip(n + count)
  {
  }

  /** The bytes after import x. */
  function Imported(bytes: seq<uint8>, x: Import): seq<uint8> {
    seq(|bytes|, i requires 0 <= i < |bytes| =>
      if x.offset <= i < x.offset + |x.counts| then Bump(bytes[i], x.counts[i - x.offset]) else bytes[i])
  }

  /** The bytes after a clear and then the imports xs. */
  function Replay(xs: seq<Import>): (bytes: seq<uint8>)
    ensures |bytes| == MAX_EDGES
  {
    if xs == [] then seq(MAX_EDGES, _ => 0) else Imported(Replay(xs[..|xs| - 1]), xs[|xs| - 1])
  }

  /** After a clear, any imports leave every byte at the sum of its counts, cut off
    * at 255; in particular a byte that no import covers is 0. */
  lemma {:induction false} ReplaySums(xs: seq<Import>, i: nat)
    requires i < MAX_EDGES
    ensures Replay(xs)[i] == if Total(xs, i) < 255 then Total(xs, i) else 255
  {
    if xs != [] {
      ReplaySums(xs[..|xs| - 1], i);
      BumpClips(Total(xs[..|xs| - 1], i), Share(xs[|xs| - 1], i));
    }
  }

  // ----- Order does not matter -----

  lemma {:induction false} TotalWithout(xs: seq<Import>, k: nat, i: nat)
    requires k < |xs|
    ensures Total(xs, i) == Total(xs[..k] + xs[k + 1..], i) + Share(xs[k], i)
  {
    var last := |xs| - 1;
    if k == last {
      assert xs[..k] + xs[k + 1..] == xs[..last];
    } else {
      var rest := xs[..k] + xs[k + 1..];
      assert rest[..last - 1] == xs[..last][..k] + xs[..last][k + 1..];
      assert rest[last - 1] == xs[last];
      TotalWithout(xs[..last], k, i);
    }
  }

  lemma Without(xs: seq<Import>, k: nat)
    requires k < |xs|
    ensures multiset(xs[..k] + xs[k + 1..]) == multiset(xs) - multiset{xs[k]}
  {
    assert xs == xs[..k] + [xs[k]] + xs[k + 1..];
  }

  lemma {:induction false} TotalUnordered(xs: seq<Import>, ys: seq<Import>, i: nat)
    requires multiset(xs) == multiset(ys)
    ensures Total(xs, i) == Total(ys, i)
  {
    if xs == [] {
      assert |ys| == |multiset(ys)| == 0;
    } else {
      var last := |xs| - 1;
      assert xs[last] in multiset(ys);
      var k :| 0 <= k < |ys| && ys[k] == xs[last];
      Without(xs, last);
      Without(ys, k);
      assert xs[..last] + xs[last + 1..] == xs[..last];
      TotalUnordered(xs[..last], ys[..k] + ys[k + 1..], i);
      TotalWithout(ys, k, i);
    }
  }

  lemma OrderIrrelevant(xs: seq<Import>, ys: seq<Import>)
    requires multiset(xs) == multiset(ys)
    ensures Replay(xs) == Replay(ys)
  {
    forall i: nat | i < MAX_EDGES ensures Replay(xs)[i] == Replay(ys)[i] {
      ReplaySums(xs, i);
      ReplaySums(ys, i);
      TotalUnordered(xs, ys, i);
    }
  }

  // ----- The bytes in place -----

  class ExtraCounters {
    const extra: array<uint8>
    ghost var imports: seq<Import>   // since the last clear

    ghost predicate Valid()
      reads this, extra
    {
      extra[..] == Replay(imports)
    }

    constructor ()
      ensures Valid() && imports == [] && fresh(extra)
    {
      extra := new uint8[MAX_EDGES](_ => 0);
      imports := [];
    }

    /** cb_libfuzzer_clear. */
    method Clear()
      requires Valid()
      modifies this, extra
      ensures Valid() && imports == []
      ensures extra.Length == 1048576 && forall i :: 0 <= i < extra.Length ==> extra[i] == 0
    {
      assert extra.Length == |extra[..]| == MAX_EDGES;
      forall i | 0 <= i < extra.Length {
        extra[i] := 0;
      }
      imports := [];
    }

    /** cb_libfuzzer_import: adds a snapshot at an offset, all of it or nothing, and
      * byte by byte with 255 for an upper limit. */
    method Add(snap: SnapshotBuffer, offset: nat) returns (ok: bool)
      requires Valid() && snap.Valid()
      modifies this, extra
      ensures Valid()
      ensures ok <==> snap.mode == 1 && snap.nslots > 0 && offset + snap.nslots <= 1048576 == extra.Length
      ensures ok ==> forall k :: 0 <= k < snap.nslots ==>
                       var sum := old(extra[offset + k]) + snap.counts[k];
                       extra[offset + k] == if sum < 255 then sum else 255
      ensures forall i :: 0 <= i < extra.Length && !(ok && offset <= i < offset + snap.nslots) ==>
                extra[i] == old(extra[i])
      ensures imports == if ok then old(imports) + [Import(offset, old(snap.counts[..snap.nslots]))] else old(imports)
    {
      assert extra.Length == |extra[..]| == MAX_EDGES;
      if snap.nslots == 0 || snap.mode != COUNTS64 || offset > MAX_EDGES || snap.nslots > MAX_EDGES - offset {
        return false;
      }
      ghost var x := Import(offset, snap.counts[..snap.nslots]);
      ghost var before := extra[..];
      AddCounts(snap, offset);
      IsImported(before, x, extra[..]);
      imports := imports + [x];
      assert imports[..|imports| - 1] == old(imports);
      return true;
    }

    method AddCounts(snap: SnapshotBuffer, offset: nat)
      requires snap.Valid() && offset + snap.nslots <= extra.Length
      modifies extra
      ensures forall k :: 0 <= k < snap.nslots ==>
                extra[offset + k] == Bump(old(extra[offset + k]), snap.counts[k])
      ensures forall i :: 0 <= i < extra.Length && !(offset <= i < offset + snap.nslots) ==> extra[i] == old(extra[i])
    {
      var k := 0;
      while k < snap.nslots
        invariant k <= snap.nslots
        invariant forall j :: 0 <= j < k ==> extra[offset + j] == Bump(old(extra[offset + j]), snap.counts[j])
        invariant forall i :: 0 <= i < extra.Length && !(offset <= i < offset + k) ==> extra[i] == old(extra[i])
      {
        var byte, count := extra[offset + k], snap.counts[k];
        extra[offset + k] := if count >= 255 - byte then 255 else byte + count;
        k := k + 1;
      }
    }

    static lemma IsImported(before: seq<uint8>, x: Import, after: seq<uint8>)
      requires |after| == |before| && x.offset + |x.counts| <= |before|
      requires forall k :: 0 <= k < |x.counts| ==> after[x.offset + k] == Bump(before[x.offset + k], x.counts[k])
      requires forall i :: 0 <= i < |before| && !(x.offset <= i < x.offset + |x.counts|) ==> after[i] == before[i]
      ensures after == Imported(before, x)
    {
      forall i | 0 <= i < |before| ensures after[i] == Imported(before, x)[i] {
        if x.offset <= i < x.offset + |x.counts| {
          var k := i - x.offset;
          assert after[x.offset + k] == Bump(before[x.offset + k], x.counts[k]);
        }
      }
    }

    /** What libFuzzer reads. */
    lemma BytesAreSums()
      requires Valid()
      ensures extra.Length == MAX_EDGES
      ensures forall i :: 0 <= i < extra.Length ==>
                extra[i] == if Total(imports, i) < 255 then Total(imports, i) else 255
    {
      assert |extra[..]| == MAX_EDGES;
      forall i | 0 <= i < extra.Length
        ensures extra[i] == if Total(imports, i) < 255 then Total(imports, i) else 255
      {
        assert extra[..][i] == extra[i];
        ReplaySums(imports, i);
      }
    }
  }
}
