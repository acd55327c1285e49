/** The multipacket framing of fuzzer inputs: one encoder and two decoders. */
module Framing {
  import opened Wrappers
  import opened GateWord

  const PRELUDE: uint8 := 1
  const MULTIPACKET: uint8 := 2
  const WAIT: uint8 := 4
  const MAX_PACKETS := 64
  const MAX_FRAME := 65535

  predicate HasFlag(flags: uint8, flag: uint8) {
    And(flags, flag) != 0
  }

  /** The flag bits as digits of the byte. */
  lemma FlagDigits(flags: uint8)
    ensures HasFlag(flags, PRELUDE) <==> flags % 2 == 1
    ensures HasFlag(flags, MULTIPACKET) <==> flags / 2 % 2 == 1
    ensures HasFlag(flags, WAIT) <==> flags / 4 % 2 == 1
  {
    AndBit(flags, 0);
    AndBit(flags, 1);
    AndBit(flags, 2);
    assert Shr(flags, 1) == flags / 2;
    assert Shr(flags, 2) == Shr(flags / 2, 1) == flags / 2 / 2;
    assert Pow2(1) == 2 && Pow2(2) == 4;
  }

  datatype FuzzInput = FuzzInput(flags: uint8, packets: seq<seq<uint8>>)

  // ----- The format -----

  function Header(n: nat): seq<uint8>
    requires n <= MAX_FRAME
  {
    [n / 256, n % 256]
  }

  function BigEndian(high: nat, low: nat): nat {
    high * 256 + low
  }

  predicate Framable(packets: seq<seq<uint8>>) {
    forall i :: 0 <= i < |packets| ==> 1 <= |packets[i]| <= MAX_FRAME
  }

  /** Each packet after its length. */
  function Frames(packets: seq<seq<uint8>>): seq<uint8>
    requires Framable(packets)
  {
    if packets == [] then []
    else Frames(packets[..|packets| - 1]) + Header(|packets[|packets| - 1]|) + packets[|packets| - 1]
  }

  /** The inputs that have an encoding. */
  predicate WellFormed(x: FuzzInput) {
    if HasFlag(x.flags, MULTIPACKET) then 1 <= |x.packets| <= MAX_PACKETS && Framable(x.packets)
    else |x.packets| == 1
  }

  function Encoding(x: FuzzInput): seq<uint8>
    requires WellFormed(x)
  {
    [x.flags] + if HasFlag(x.flags, MULTIPACKET) then Frames(x.packets) else x.packets[0]
  }

  /** What a decoder must answer: the input that data encodes, if there is one. */
  ghost predicate IsDecoding(data: seq<uint8>, r: Option<FuzzInput>) {
    match r
    case Some(x) => WellFormed(x) && Encoding(x) == data
    case None => forall x :: WellFormed(x) ==> Encoding(x) != data
  }

  // ----- Frames can be told apart -----

  lemma Regroup(a: seq<uint8>, b: seq<uint8>, c: seq<uint8>, d: seq<uint8>)
    ensures a + b + c + d == a + (b + c + d) == a + b + (c + d)
  {
  }

  lemma {:induction false} FramesAppend(ps: seq<seq<uint8>>, qs: seq<seq<uint8>>)
    requires Framable(ps) && Framable(qs)
    ensures Framable(ps + qs) && Frames(ps + qs) == Frames(ps) + Frames(qs)
  {
    if qs == [] {
      assert ps + qs == ps;
    } else {
      var last := |qs| - 1;
      FramesAppend(ps, qs[..last]);
      var all := ps + qs;
      assert all[..|all| - 1] == ps + qs[..last] && all[|all| - 1] == qs[last];
      assert Framable(all);
      Regroup(Frames(ps), Frames(qs[..last]), Header(|qs[last]|), qs[last]);
    }
  }

  /** The frames of a nonempty list start with the frame of its first packet. */
  lemma FirstFrame(qs: seq<seq<uint8>>)
    requires Framable(qs) && qs != []
    ensures Frames(qs) == Header(|qs[0]|) + qs[0] + Frames(qs[1..])
  {
    FramesAppend(qs[..1], qs[1..]);
    assert qs == qs[..1] + qs[1..];
    assert Frames(qs[..1]) == Header(|qs[0]|) + qs[0] by {
      assert qs[..1][..0] == [];
    }
  }

  lemma SameFirst(p: seq<uint8>, a: seq<uint8>, q: seq<uint8>, b: seq<uint8>)
    requires |p| <= MAX_FRAME && |q| <= MAX_FRAME && Header(|p|) + p + a == Header(|q|) + q + b
    ensures p == q && a == b
  {
    var all := Header(|p|) + p + a;
    assert all[0] == |p| / 256 == |q| / 256 && all[1] == |p| % 256 == |q| % 256;
    assert p == all[2..2 + |p|] == q;
    assert a == all[2 + |p|..] == b;
  }

  /** Frames that start with the frames of ps are frames of a list that starts
    * with ps. */
  lemma {:induction false} FramesPrefix(ps: seq<seq<uint8>>, tail: seq<uint8>, qs: seq<seq<uint8>>)
    requires Framable(ps) && Framable(qs) && Frames(ps) + tail == Frames(qs)
    ensures ps <= qs && tail == Frames(qs[|ps|..])
  {
    if ps == [] {
      assert qs[0..] == qs;
    } else {
      FirstFrame(ps);
      assert qs != [];
      FirstFrame(qs);
      Regroup(Header(|ps[0]|), ps[0], Frames(ps[1..]), tail);
      SameFirst(ps[0], Frames(ps[1..]) + tail, qs[0], Frames(qs[1..]));
      FramesPrefix(ps[1..], tail, qs[1..]);
      assert ps == [ps[0]] + ps[1..] && qs == [qs[0]] + qs[1..];
      assert qs[|ps|..] == qs[1..][|ps| - 1..];
    }
  }

  lemma SameFrames(ps: seq<seq<uint8>>, qs: seq<seq<uint8>>)
    requires Framable(ps) && Framable(qs) && Frames(ps) == Frames(qs)
    ensures ps == qs
  {
    assert Frames(ps) + [] == Frames(qs) && Frames(qs) + [] == Frames(ps);
    FramesPrefix(ps, [], qs);
    FramesPrefix(qs, [], ps);
  }

  /** No bytes decode in two ways, so any two decoders agree on every input. */
  lemma DecodingUnique(data: seq<uint8>, r: Option<FuzzInput>, s: Option<FuzzInput>)
    requires IsDecoding(data, r) && IsDecoding(data, s)
    ensures r == s
  {
    if r.Some? && s.Some? {
      var x, y := r.value, s.value;
      assert x.flags == Encoding(x)[0] == Encoding(y)[0] == y.flags;
      assert Encoding(x)[1..] == Encoding(y)[1..];
      if HasFlag(x.flags, MULTIPACKET) {
        assert Frames(x.packets) == Encoding(x)[1..] && Frames(y.packets) == Encoding(y)[1..];
        SameFrames(x.packets, y.packets);
      } else {
        assert x.packets == [Encoding(x)[1..]] && y.packets == [Encoding(y)[1..]];
      }
    }
  }

  ghost function Decoded(data: seq<uint8>): Option<FuzzInput> {
    if x: FuzzInput :| WellFormed(x) && Encoding(x) == data then Some(x) else None
  }

  lemma DecodedIs(data: seq<uint8>)
    ensures IsDecoding(data, Decoded(data))
  {
  }

  // ----- The format, byte by byte -----

  /** A packet as a stretch of the input. */
  datatype View = View(offset: nat, size: nat) {
    predicate Within(data: seq<uint8>) {
      offset + size <= |data|
    }

    function Of(data: seq<uint8>): seq<uint8>
      requires Within(data)
    {
      data[offset..offset + size]
    }
  }

  /** The bytes from 1 to `to` are frames: views[k] is a stretch of them behind its
    * size in two bytes, the high one first, and nothing else lies between. */
  predicate FramedTo(data: seq<uint8>, views: seq<View>, to: nat) {
    && views != [] && to <= |data|
    && views[0].offset == 3 && views[|views| - 1].offset + views[|views| - 1].size == to
    && (forall k :: 0 <= k < |views| ==>
          && 3 <= views[k].offset && 1 <= views[k].size && views[k].offset + views[k].size <= to
          && views[k].size == 256 * (data[views[k].offset - 2] as int) + data[views[k].offset - 1] as int)
    && (forall j, k :: 0 <= j < |views| && k == j + 1 < |views| ==> views[k].offset == views[j].offset + views[j].size + 2)
  }

  predicate Framed(data: seq<uint8>, views: seq<View>) {
    FramedTo(data, views, |data|)
  }

  /** What a decoder has to accept: the flag bit 2, and 1 to 64 frames. */
  predicate LaidOut(data: seq<uint8>, views: seq<View>) {
    data != [] && data[0] / 2 % 2 == 1 && |views| <= 64 && Framed(data, views)
  }

  /** Frames can be seen in the bytes. */
  lemma {:induction false} FrameBytes(flags: uint8, packets: seq<seq<uint8>>, data: seq<uint8>, to: nat)
      returns (views: seq<View>)
    requires packets != [] && Framable(packets) && to <= |data| && data[..to] == [flags] + Frames(packets)
    ensures |views| == |packets| && FramedTo(data, views, to)
    ensures forall k :: 0 <= k < |views| ==> views[k].Of(data) == packets[k]
    decreases |packets|
  {
    var last := |packets| - 1;
    var from := LastFrame(flags, packets, data, to);
    views := [];
    if last > 0 {
      views := FrameBytes(flags, packets[..last], data, from);
    }
    views := LastView(data, from, to, views, packets);
  }

  lemma LastView(data: seq<uint8>, from: nat, to: nat, views: seq<View>, packets: seq<seq<uint8>>)
      returns (more: seq<View>)
    requires |packets| == |views| + 1 && FrameAt(data, from, |packets[|views|]|)
    requires to == from + 2 + |packets[|views|]| && View(from + 2, |packets[|views|]|).Of(data) == packets[|views|]
    requires if views == [] then from == 1 else FramedTo(data, views, from)
    requires forall k :: 0 <= k < |views| ==> views[k].Of(data) == packets[..|views|][k]
    ensures |more| == |packets| && FramedTo(data, more, to)
    ensures forall k :: 0 <= k < |more| ==> more[k].Of(data) == packets[k]
  {
    FramedNext(data, from, views, |packets[|views|]|);
    more := views + [View(from + 2, |packets[|views|]|)];
  }

  lemma LastFrame(flags: uint8, packets: seq<seq<uint8>>, data: seq<uint8>, to: nat) returns (from: nat)
    requires packets != [] && Framable(packets) && to <= |data| && data[..to] == [flags] + Frames(packets)
    ensures var last := |packets| - 1;
            && 1 <= from && from + 2 + |packets[last]| == to
            && data[..from] == [flags] + Frames(packets[..last])
            && FrameAt(data, from, |packets[last]|)
            && View(from + 2, |packets[last]|).Of(data) == packets[last]
    ensures |packets| == 1 ==> from == 1
    ensures 256 * (data[from] as int) + data[from + 1] as int == |packets[|packets| - 1]|
  {
    var last := |packets| - 1;
    var p := packets[last];
    from := 1 + |Frames(packets[..last])|;
    Regroup([flags], Frames(packets[..last]), Header(|p|), p);
    SplitFrame([flags] + Frames(packets[..last]), Header(|p|), p, data, to);
    MeasuredAt(data, from, |p|);
  }

  lemma SplitFrame(a: seq<uint8>, h: seq<uint8>, p: seq<uint8>, data: seq<uint8>, to: nat)
    requires to <= |data| && data[..to] == a + (h + p) && |h| == 2
    ensures to == |a| + 2 + |p| && data[..|a|] == a
    ensures data[|a|..|a| + 2] == h && data[|a| + 2..to] == p
  {
    assert data[..|a|] == data[..to][..|a|] == a;
    assert data[|a|..to] == data[..to][|a|..] == h + p;
    assert data[|a|..|a| + 2] == data[|a|..to][..2] == h;
    assert data[|a| + 2..to] == data[|a|..to][2..] == p;
  }

  lemma FramedNext(data: seq<uint8>, offset: nat, views: seq<View>, n: nat)
    requires FrameAt(data, offset, n)
    requires if views == [] then offset == 1 else FramedTo(data, views, offset)
    ensures FramedTo(data, views + [View(offset + 2, n)], offset + 2 + n)
  {
    MeasuredAt(data, offset, n);
  }

  /** What a decoded input is, in terms of the bytes. */
  lemma DecodingBytes(data: seq<uint8>, x: FuzzInput) returns (views: seq<View>)
    requires IsDecoding(data, Some(x))
    ensures data != [] && x.flags == data[0]
    ensures data[0] / 2 % 2 == 0 ==> x.packets == [data[1..]]
    ensures data[0] / 2 % 2 == 1 ==> LaidOut(data, views) && x.packets == Cut(data, views)
  {
    FlagDigits(x.flags);
    assert data[0] == Encoding(x)[0] == x.flags;
    if HasFlag(x.flags, MULTIPACKET) {
      assert data[..|data|] == data;
      views := FrameBytes(x.flags, x.packets, data, |data|);
    } else {
      views := [];
      assert Encoding(x)[1..] == x.packets[0];
    }
  }

  /** Bytes that are laid out so have a decoding. */
  lemma BytesDecode(data: seq<uint8>, views: seq<View>)
    requires LaidOut(data, views)
    ensures !IsDecoding(data, None)
  {
    FlagDigits(data[0]);
    var ps := LayoutRead(data, views, |views|);
    ReadAll(data, ps);
    var x := FuzzInput(data[0], ps);
    assert WellFormed(x) && Encoding(x) == data;
  }

  /** The offset behind the first n views. */
  function Behind(views: seq<View>, n: nat): nat
    requires n <= |views|
  {
    if n == 0 then 1 else views[n - 1].offset + views[n - 1].size
  }

  lemma {:induction false} LayoutRead(data: seq<uint8>, views: seq<View>, n: nat) returns (ps: seq<seq<uint8>>)
    requires data != [] && Framed(data, views) && n <= |views|
    ensures |ps| == n && ReadSoFar(data, Behind(views, n), ps)
    decreases n
  {
    if n == 0 {
      ps := [];
    } else {
      ps := LayoutRead(data, views, n - 1);
      var v := views[n - 1];
      assert v.offset == Behind(views, n - 1) + 2;
      HeaderAt(data, v.offset - 2, v.size);
      ReadMore(data, v.offset - 2, ps, v.size);
      ps := ps + [data[v.offset..v.offset + v.size]];
    }
  }

  /** What cannot be decoded is empty, or has the flag and is not laid out so. */
  lemma NoLayout(data: seq<uint8>)
    requires IsDecoding(data, None)
    ensures data == [] || data[0] / 2 % 2 == 1
    ensures forall views :: !LaidOut(data, views)
  {
    if data != [] {
      FlagDigits(data[0]);
      if !HasFlag(data[0], MULTIPACKET) {
        WholeInput(data);
        DecodingUnique(data, None, Some(FuzzInput(data[0], [data[1..]])));
      }
    }
    forall views | LaidOut(data, views) ensures false {
      BytesDecode(data, views);
    }
  }

  // ----- Encoders -----

  datatype EncodeError = BadFrame | NoPackets

  /** raw in generate-interesting-corpus.py. */
  function Raw(packet: seq<uint8>, flags: uint8): (data: seq<uint8>)
    ensures flags / 2 % 2 == 0 ==> IsDecoding(data, Some(FuzzInput(flags, [packet])))
  {
    FlagDigits(flags);
    [flags] + packet
  }

  /** multipacket in generate-interesting-corpus.py: the flags, and each packet
    * after its length in two bytes, the high one first. */
  method Multipacket(packets: seq<seq<uint8>>, flags: uint8)
      returns (result: Result<seq<uint8>, EncodeError>, ghost views: seq<View>)
    ensures result.Ok? <==> packets != [] && forall k :: 0 <= k < |packets| ==> 1 <= |packets[k]| <= 65535
    ensures result.Ok? ==> result.value == [flags] + Frames(packets)
    ensures result.Ok? ==>
              && result.value[0] == flags && Framed(result.value, views) && |views| == |packets|
              && forall k :: 0 <= k < |views| ==>
                   result.value[views[k].offset..views[k].offset + views[k].size] == packets[k]
    ensures result == Err(NoPackets) <==> packets == []
  {
    var data := [flags];
    for k := 0 to |packets|
      invariant Framable(packets[..k]) && data == [flags] + Frames(packets[..k])
    {
      if packets[k] == [] || |packets[k]| > 0xFFFF {
        return Err(BadFrame), [];
      }
      data := data + Header(|packets[k]|);
      data := data + packets[k];
      assert packets[..k + 1][..k] == packets[..k];
    }
    if packets == [] {
      return Err(NoPackets), [];
    }
    assert packets[..|packets|] == packets;
    assert data[..|data|] == data;
    views := FrameBytes(flags, packets, data, |data|);
    return Ok(data), views;
  }

  /** Decoding what the encoder made gives back the flags and packets exactly if
    * the flags say multipacket and there are at most 64 packets.  The encoder
    * checks neither. */
  lemma RoundTrip(packets: seq<seq<uint8>>, flags: uint8, r: Option<FuzzInput>)
    requires packets != [] && Framable(packets)
    requires IsDecoding([flags] + Frames(packets), r)
    ensures r == Some(FuzzInput(flags, packets)) <==> flags / 2 % 2 == 1 && |packets| <= 64
  {
    FlagDigits(flags);
    var x := FuzzInput(flags, packets);
    if HasFlag(flags, MULTIPACKET) && |packets| <= MAX_PACKETS {
      DecodingUnique([flags] + Frames(packets), r, Some(x));
    } else if !HasFlag(flags, MULTIPACKET) && |packets| == 1 {
      assert packets[..0] == [];
      assert |Frames(packets)| > |packets[0]|;
    }
  }

  /** Beyond 64 packets there is no decoding at all. */
  lemma TooManyRejected(packets: seq<seq<uint8>>, flags: uint8)
    requires Framable(packets) && |packets| > 64 && flags / 2 % 2 == 1
    ensures IsDecoding([flags] + Frames(packets), None)
  {
    FlagDigits(flags);
    var data := [flags] + Frames(packets);
    forall x | WellFormed(x) ensures Encoding(x) != data {
      if Encoding(x) == data {
        assert x.flags == Encoding(x)[0] == flags;
        assert Frames(x.packets) == Encoding(x)[1..] == data[1..] == Frames(packets);
        FramesPrefix(packets, [], x.packets);
        assert false;
      }
    }
  }

  // ----- What the decoders have read so far -----

  /** The frames of ps fill data between its first byte and offset. */
  ghost predicate ReadSoFar(data: seq<uint8>, offset: nat, ps: seq<seq<uint8>>) {
    && 1 <= offset <= |data|
    && Framable(ps) && data[1..offset] == Frames(ps)
  }

  /** A next frame of n bytes, that lies inside data. */
  predicate FrameAt(data: seq<uint8>, offset: nat, n: nat) {
    && offset + 2 + n <= |data| && 1 <= n <= MAX_FRAME
    && data[offset..offset + 2] == Header(n)
  }

  lemma HeaderAt(data: seq<uint8>, offset: nat, n: nat)
    requires offset + 2 <= |data| && n == BigEndian(data[offset], data[offset + 1])
    ensures forall m: nat :: FrameAt(data, offset, m) <==> m == n && 1 <= n && offset + 2 + n <= |data|
  {
    assert data[offset..offset + 2] == Header(n);
    forall m: nat | FrameAt(data, offset, m) ensures m == n {
      assert data[offset..offset + 2][0] == m / 256 && data[offset..offset + 2][1] == m % 256;
    }
  }

  lemma MeasuredAt(data: seq<uint8>, offset: nat, n: nat)
    requires FrameAt(data, offset, n)
    ensures 256 * (data[offset] as int) + data[offset + 1] as int == n
  {
    assert data[offset..offset + 2][0] == n / 256 && data[offset..offset + 2][1] == n % 256;
  }

  lemma ReadMore(data: seq<uint8>, offset: nat, ps: seq<seq<uint8>>, n: nat)
    requires ReadSoFar(data, offset, ps) && FrameAt(data, offset, n)
    ensures ReadSoFar(data, offset + 2 + n, ps + [data[offset + 2..offset + 2 + n]])
  {
    var p := data[offset + 2..offset + 2 + n];
    assert (ps + [p])[..|ps|] == ps;
    assert data[1..offset + 2 + n] == data[1..offset] + data[offset..offset + 2] + p;
  }

  /** If the rest of data is not one more frame, or would be one too many, then
    * data has no decoding. */
  lemma NoDecoding(data: seq<uint8>, offset: nat, ps: seq<seq<uint8>>)
    requires ReadSoFar(data, offset, ps) && offset < |data| && HasFlag(data[0], MULTIPACKET)
    requires |ps| == MAX_PACKETS || forall n: nat :: !FrameAt(data, offset, n)
    ensures IsDecoding(data, None)
  {
    forall x | WellFormed(x) ensures Encoding(x) != data {
      if Encoding(x) == data {
        NextFrame(data, offset, ps, x);
        assert false;
      }
    }
  }

  /** The packets of a multipacket encoding are what follows its first byte. */
  lemma FramesOf(data: seq<uint8>, x: FuzzInput)
    requires WellFormed(x) && Encoding(x) == data && HasFlag(data[0], MULTIPACKET)
    ensures x.flags == data[0] && Framable(x.packets) && Frames(x.packets) == data[1..]
  {
    assert x.flags == Encoding(x)[0] == data[0];
    assert Encoding(x)[1..] == Frames(x.packets);
  }

  lemma FrameOfRest(data: seq<uint8>, offset: nat, qs: seq<seq<uint8>>)
    requires offset < |data| && Framable(qs) && data[offset..] == Frames(qs)
    ensures qs != [] && FrameAt(data, offset, |qs[0]|)
  {
    var rest := data[offset..];
    assert qs != [];
    FirstFrame(qs);
    assert data[offset..offset + 2] == rest[..2];
    assert rest[..2] == Header(|qs[0]|);
  }

  /** In an encoding, a frame follows wherever bytes are left. */
  lemma NextFrame(data: seq<uint8>, offset: nat, ps: seq<seq<uint8>>, x: FuzzInput)
    requires ReadSoFar(data, offset, ps) && offset < |data| && HasFlag(data[0], MULTIPACKET)
    requires WellFormed(x) && Encoding(x) == data
    ensures |ps| < |x.packets| && FrameAt(data, offset, |x.packets[|ps|]|)
  {
    FramesOf(data, x);
    var rest := data[offset..];
    assert data[1..] == data[1..offset] + rest;
    FramesPrefix(ps, rest, x.packets);
    FrameOfRest(data, offset, x.packets[|ps|..]);
  }

  lemma ReadAll(data: seq<uint8>, ps: seq<seq<uint8>>)
    requires data != [] && HasFlag(data[0], MULTIPACKET) && ReadSoFar(data, |data|, ps) && |ps| <= MAX_PACKETS
    ensures IsDecoding(data, if ps == [] then None else Some(FuzzInput(data[0], ps)))
  {
    assert data == [data[0]] + data[1..|data|];
    if ps == [] {
      forall x | WellFormed(x) ensures Encoding(x) != data {
        if Encoding(x) == data {
          assert x.flags == Encoding(x)[0] == data[0];
          FirstFrame(x.packets);
        }
      }
    }
  }

  lemma WholeInput(data: seq<uint8>)
    requires data != [] && !HasFlag(data[0], MULTIPACKET)
    ensures IsDecoding(data, Some(FuzzInput(data[0], [data[1..]])))
  {
  }

  // ----- The decoder in C -----

  predicate AllWithin(data: seq<uint8>, views: seq<View>) {
    forall i :: 0 <= i < |views| ==> views[i].Within(data)
  }

  function Cut(data: seq<uint8>, views: seq<View>): seq<seq<uint8>>
    requires AllWithin(data, views)
  {
    seq(|views|, i requires 0 <= i < |views| => views[i].Of(data))
  }

  lemma CutMore(data: seq<uint8>, views: seq<View>, v: View)
    requires v.Within(data) && AllWithin(data, views) && AllWithin(data, views + [v])
    ensures Cut(data, views + [v]) == Cut(data, views) + [v.Of(data)]
  {
  }

  /** The views describe the packets before offset. */
  ghost predicate ReadingViews(data: seq<uint8>, offset: nat, views: seq<View>) {
    && AllWithin(data, views)
    && ReadSoFar(data, offset, Cut(data, views))
    && if views == [] then offset == 1 else FramedTo(data, views, offset)
  }

  lemma AllWithinMore(data: seq<uint8>, views: seq<View>, v: View)
    requires AllWithin(data, views) && v.Within(data)
    ensures AllWithin(data, views + [v])
  {
    forall i | 0 <= i < |views + [v]| ensures (views + [v])[i].Within(data) {
    }
  }

  lemma CutNext(data: seq<uint8>, offset: nat, views: seq<View>, n: nat)
    requires AllWithin(data, views) && ReadSoFar(data, offset, Cut(data, views)) && FrameAt(data, offset, n)
    ensures AllWithin(data, views + [View(offset + 2, n)])
    ensures ReadSoFar(data, offset + 2 + n, Cut(data, views + [View(offset + 2, n)]))
  {
    var v := View(offset + 2, n);
    AllWithinMore(data, views, v);
    CutMore(data, views, v);
    ReadView(data, offset, Cut(data, views), n, Cut(data, views + [v]));
  }

  lemma ReadView(data: seq<uint8>, offset: nat, ps: seq<seq<uint8>>, n: nat, qs: seq<seq<uint8>>)
    requires ReadSoFar(data, offset, ps) && FrameAt(data, offset, n)
    requires qs == ps + [View(offset + 2, n).Of(data)]
    ensures ReadSoFar(data, offset + 2 + n, qs)
  {
    ReadMore(data, offset, ps, n);
  }

  lemma ReadingNext(data: seq<uint8>, offset: nat, views: seq<View>, n: nat)
    requires ReadingViews(data, offset, views) && FrameAt(data, offset, n)
    ensures ReadingViews(data, offset + 2 + n, views + [View(offset + 2, n)])
  {
    CutNext(data, offset, views, n);
    FramedNext(data, offset, views, n);
  }

  class InputBuffer {
    var flags: uint8
    var packetCount: nat
    const packets: array<View>

    constructor ()
      ensures packets.Length == MAX_PACKETS && fresh(packets)
    {
      flags, packetCount := 0, 0;
      packets := new View[MAX_PACKETS](_ => View(0, 0));
    }

    predicate Within(data: seq<uint8>)
      reads this, packets
    {
      packetCount <= packets.Length && forall i :: 0 <= i < packetCount ==> packets[i].Within(data)
    }

    /** The input that the views describe. */
    function Input(data: seq<uint8>): FuzzInput
      reads this, packets
      requires Within(data)
    {
      FuzzInput(flags, Cut(data, packets[..packetCount]))
    }

    method Push(data: seq<uint8>, v: View)
      requires Within(data) && v.Within(data) && packetCount < packets.Length
      modifies this`packetCount, packets
      ensures packetCount == old(packetCount) + 1 && Within(data)
      ensures packets[..packetCount] == old(packets[..packetCount]) + [v]
      ensures Input(data).packets == old(Input(data).packets) + [v.Of(data)]
    {
      ghost var views := packets[..packetCount];
      packets[packetCount] := v;
      packetCount := packetCount + 1;
      assert packets[..packetCount] == views + [v];
      CutMore(data, views, v);
    }

    /** decodeFuzzInput.  An accepted input is described by views that tile it. */
    method Decode(data: seq<uint8>) returns (ok: bool)
      requires packets.Length == MAX_PACKETS
      modifies this, packets
      ensures ok ==> Within(data) && IsDecoding(data, Some(Input(data)))
      ensures ok ==> flags == data[0]
      ensures ok && flags / 2 % 2 == 0 ==> packetCount == 1 && packets[0] == View(1, |data| - 1)
      ensures ok && flags / 2 % 2 == 1 ==> LaidOut(data, packets[..packetCount])
      ensures !ok ==> IsDecoding(data, None)
      ensures !ok ==> (data == [] || data[0] / 2 % 2 == 1) && forall views :: !LaidOut(data, views)
    {
      if |data| < 1 {
        NoLayout(data);
        return false;
      }
      FlagDigits(data[0]);
      forall i | 0 <= i < packets.Length {
        packets[i] := View(0, 0);
      }
      flags, packetCount := data[0], 0;
      if !HasFlag(flags, MULTIPACKET) {
        Push(data, View(1, |data| - 1));
        WholeInput(data);
        return true;
      }
      ok := DecodePackets(data);
      if !ok {
        NoLayout(data);
      }
    }

    ghost predicate Reading(data: seq<uint8>, offset: nat)
      reads this, packets
    {
      packetCount <= packets.Length == MAX_PACKETS && ReadingViews(data, offset, packets[..packetCount])
    }

    /** The loop of decodeFuzzInput. */
    method DecodePackets(data: seq<uint8>) returns (ok: bool)
      requires packets.Length == MAX_PACKETS && packetCount == 0
      requires data != [] && flags == data[0] && HasFlag(flags, MULTIPACKET)
      modifies this`packetCount, packets
      ensures ok ==> Within(data) && IsDecoding(data, Some(Input(data)))
      ensures ok ==> 1 <= packetCount <= MAX_PACKETS && Framed(data, packets[..packetCount])
      ensures !ok ==> IsDecoding(data, None)
    {
      var offset := 1;
      ok := true;
      while ok && offset < |data|
        invariant if ok then Reading(data, offset) else IsDecoding(data, None)
        decreases ok, |data| - offset
      {
        ok, offset := DecodePacket(data, offset);
      }
      if ok {
        AllRead(data);
        ok := packetCount > 0;
      }
    }

    lemma AllRead(data: seq<uint8>)
      requires data != [] && flags == data[0] && HasFlag(flags, MULTIPACKET) && Reading(data, |data|)
      ensures packetCount == 0 ==> IsDecoding(data, None)
      ensures packetCount > 0 ==>
                && Within(data) && IsDecoding(data, Some(Input(data)))
                && packetCount <= MAX_PACKETS && Framed(data, packets[..packetCount])
    {
      var views := packets[..packetCount];
      assert forall i :: 0 <= i < packetCount ==> views[i] == packets[i];
      ReadAll(data, Cut(data, views));
    }

    method DecodePacket(data: seq<uint8>, offset: nat) returns (ok: bool, next: nat)
      requires Reading(data, offset) && offset < |data| && HasFlag(data[0], MULTIPACKET)
      modifies this`packetCount, packets
      ensures if ok then offset < next && Reading(data, next) else IsDecoding(data, None)
    {
      ghost var ps := Cut(data, packets[..packetCount]);
      if |data| - offset < 2 || packetCount == MAX_PACKETS {
        NoDecoding(data, offset, ps);
        return false, offset;
      }
      var size := BigEndian(data[offset], data[offset + 1]);
      HeaderAt(data, offset, size);
      next := offset + 2;
      if size == 0 || size > |data| - next {
        NoDecoding(data, offset, ps);
        return false, offset;
      }
      Accept(data, offset, size);
      return true, next + size;
    }

    /** The next frame is another packet. */
    method Accept(data: seq<uint8>, offset: nat, size: nat)
      requires Reading(data, offset) && packetCount < MAX_PACKETS && FrameAt(data, offset, size)
      modifies this`packetCount, packets
      ensures Reading(data, offset + 2 + size)
    {
      ReadingNext(data, offset, packets[..packetCount], size);
      assert Within(data) by {
        assert forall i :: 0 <= i < packetCount ==> packets[..packetCount][i] == packets[i];
      }
      Push(data, View(offset + 2, size));
    }
  }

  // ----- The decoder in Python -----

  datatype ParseError = EmptyInput | TruncatedLength | InvalidLength | TooManyPackets | NoPacketsFound

  /** parse_fuzzer_input in send-test-case.py. */
  method ParseFuzzerInput(data: seq<uint8>) returns (result: Result<FuzzInput, ParseError>, ghost views: seq<View>)
    ensures IsDecoding(data, if result.Ok? then Some(result.value) else None)
    ensures result.Ok? ==> data != [] && result.value.flags == data[0]
    ensures result.Ok? && data[0] / 2 % 2 == 0 ==> result.value.packets == [data[1..]]
    ensures result.Ok? && data[0] / 2 % 2 == 1 ==>
              && LaidOut(data, views) && |result.value.packets| == |views|
              && forall k :: 0 <= k < |views| ==>
                   result.value.packets[k] == data[views[k].offset..views[k].offset + views[k].size]
    ensures result.Err? ==> (data == [] || data[0] / 2 % 2 == 1) && forall views :: !LaidOut(data, views)
    ensures result == Err(EmptyInput) <==> data == []
    ensures result == Err(NoPacketsFound) ==> |data| == 1
  {
    result := Parse(data);
    if result.Ok? {
      views := DecodingBytes(data, result.value);
    } else {
      NoLayout(data);
      views := [];
    }
  }

  /** The body of parse_fuzzer_input. */
  method Parse(data: seq<uint8>) returns (result: Result<FuzzInput, ParseError>)
    ensures IsDecoding(data, if result.Ok? then Some(result.value) else None)
    ensures result == Err(EmptyInput) <==> data == []
    ensures result == Err(NoPacketsFound) ==> |data| == 1
  {
    if data == [] {
      return Err(EmptyInput);
    }
    var flags := data[0];
    if !HasFlag(flags, MULTIPACKET) {
      WholeInput(data);
      return Ok(FuzzInput(flags, [data[1..]]));
    }
    var packets: seq<seq<uint8>> := [];
    var offset := 1;
    while offset < |data|
      invariant |packets| <= MAX_PACKETS && ReadSoFar(data, offset, packets)
      invariant offset > 1 ==> packets != []
    {
      if |data| - offset < 2 {
        NoDecoding(data, offset, packets);
        return Err(TruncatedLength);
      }
      var length := BigEndian(data[offset], data[offset + 1]);
      HeaderAt(data, offset, length);
      offset := offset + 2;
      var end := offset + length;
      if length == 0 || end > |data| {
        NoDecoding(data, offset - 2, packets);
        return Err(InvalidLength);
      }
      ghost var before := packets;
      packets := packets + [data[offset..end]];
      if |packets| > MAX_PACKETS {
        NoDecoding(data, offset - 2, before);
        return Err(TooManyPackets);
      }
      ReadMore(data, offset - 2, before, length);
      offset := end;
    }
    ReadAll(data, packets);
    if packets == [] {
      return Err(NoPacketsFound);
    }
    return Ok(FuzzInput(flags, packets));
  }
}
