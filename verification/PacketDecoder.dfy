/** What the packets of a byte stream are: sections 1.5.5 and 2.1.4 of MQTT Version 5.0. */
module PacketDecoder {
  import opened Basics
  import opened Bytes

  /** The fixed header: its size and Remaining Length, once the length field has ended. */
  datatype Head = Short | Complete(size: nat, value: nat) | Overlong

  /** The weight of the length byte at place `i`. */
  function Shift(i: nat): nat {
    if i == 0 then 1 else if i == 1 then 128 else if i == 2 then 16384 else 2097152
  }

  /** The header of `s`, its bytes before place `k` having the value `v`. */
  function HeadFrom(s: seq<byte>, k: nat, v: nat): Head
    requires 1 <= k <= 4
    decreases 4 - k
  {
    if |s| <= k then Short
    else
      var v' := v + s[k] % 128 * Shift(k - 1);
      if s[k] < 128 then Complete(k + 1, v') else if k == 4 then Overlong else HeadFrom(s, k + 1, v')
  }

  datatype Fault = TooLarge | Malformed

  datatype First = More | Frame(size: nat) | Bad(fault: Fault)

  /** The first packet of `s`: whole, still incomplete, or refused. */
  function FirstFrame(limit: nat, s: seq<byte>): First {
    match HeadFrom(s, 1, 0)
    case Complete(h, v) => if h + v > limit then Bad(TooLarge) else if |s| < h + v then More else Frame(h + v)
    case Overlong => Bad(if limit >= 5 then Malformed else TooLarge)
    case Short => if |s| >= limit then Bad(TooLarge) else More
  }

  datatype Decoded = Decoded(frames: seq<seq<byte>>, end: First)

  /** All the packets of `s`, and what follows the last of them. */
  function Decode(limit: nat, s: seq<byte>): Decoded
    decreases |s|
  {
    match FirstFrame(limit, s)
    case Frame(n) =>
      HeadBounds(s, 1, 0);
      var d := Decode(limit, s[n..]);
      Decoded([s[..n]] + d.frames, d.end)
    case end => Decoded([], end)
  }

  lemma {:induction false} HeadBounds(s: seq<byte>, k: nat, v: nat)
    requires 1 <= k <= 4
    ensures HeadFrom(s, k, v).Complete? ==> k < HeadFrom(s, k, v).size <= |s| && HeadFrom(s, k, v).size <= 5
    ensures HeadFrom(s, k, v).Short? ==> |s| <= 4
    ensures HeadFrom(s, k, v).Overlong? ==> |s| >= 5
    decreases 4 - k
  {
    if k < 4 && |s| > k && s[k] >= 128 {
      HeadBounds(s, k + 1, v + s[k] % 128 * Shift(k - 1));
    }
  }

  lemma {:induction false} HeadStable(s: seq<byte>, t: seq<byte>, k: nat, v: nat)
    requires 1 <= k <= 4 && !HeadFrom(s, k, v).Short?
    ensures HeadFrom(s + t, k, v) == HeadFrom(s, k, v)
    decreases 4 - k
  {
    if k < 4 && s[k] >= 128 {
      HeadStable(s, t, k + 1, v + s[k] % 128 * Shift(k - 1));
    }
  }

  lemma {:induction false} HeadGrows(s: seq<byte>, t: seq<byte>, k: nat, v: nat)
    requires 1 <= k <= 4 && HeadFrom(s, k, v).Short? && k <= |s|
    ensures HeadFrom(s + t, k, v).Complete? ==> HeadFrom(s + t, k, v).size > |s|
    decreases 4 - k
  {
    if k < |s| {
      HeadGrows(s, t, k + 1, v + s[k] % 128 * Shift(k - 1));
    } else {
      HeadBounds(s + t, k, v);
    }
  }

  /** Bytes that come later change nothing about a packet already whole or refused. */
  lemma FirstStable(limit: nat, s: seq<byte>, t: seq<byte>)
    requires !FirstFrame(limit, s).More?
    ensures FirstFrame(limit, s + t) == FirstFrame(limit, s)
  {
    HeadBounds(s, 1, 0);
    HeadBounds(s + t, 1, 0);
    if HeadFrom(s, 1, 0).Short? {
      if |s| >= 1 { HeadGrows(s, t, 1, 0); }
    } else {
      HeadStable(s, t, 1, 0);
    }
  }

  /** A packet is whole by itself. */
  lemma FrameAlone(limit: nat, s: seq<byte>, n: nat)
    requires FirstFrame(limit, s) == Frame(n)
    ensures 2 <= n <= |s| && FirstFrame(limit, s[..n]) == Frame(n)
  {
    HeadBounds(s, 1, 0);
    HeadPrefix(s, n, 1, 0);
  }

  lemma {:induction false} HeadPrefix(s: seq<byte>, n: nat, k: nat, v: nat)
    requires 1 <= k <= 4 && n <= |s| && HeadFrom(s, k, v).Complete? && HeadFrom(s, k, v).size <= n
    ensures HeadFrom(s[..n], k, v) == HeadFrom(s, k, v)
    decreases 4 - k
  {
    HeadBounds(s, k, v);
    if s[k] >= 128 {
      HeadPrefix(s, n, k + 1, v + s[k] % 128 * Shift(k - 1));
    }
  }

  ghost predicate AllFrames(limit: nat, frames: seq<seq<byte>>) {
    forall i :: 0 <= i < |frames| ==> FirstFrame(limit, frames[i]) == Frame(|frames[i]|)
  }

  lemma ConsConcat<T>(a: seq<T>, b: seq<T>)
    requires a != []
    ensures [a[0]] + (a[1..] + b) == a + b
  {}

  lemma DecodeOne(limit: nat, f: seq<byte>, rest: seq<byte>)
    requires FirstFrame(limit, f) == Frame(|f|)
    ensures Decode(limit, f + rest) == Decoded([f] + Decode(limit, rest).frames, Decode(limit, rest).end)
  {
    FirstStable(limit, f, rest);
    assert (f + rest)[..|f|] == f && (f + rest)[|f|..] == rest;
  }

  /** Whole packets followed by anything decode to those packets, then the rest. */
  lemma {:induction false} DecodeFrames(limit: nat, frames: seq<seq<byte>>, rest: seq<byte>)
    requires AllFrames(limit, frames)
    ensures Decode(limit, Concat(frames) + rest)
         == Decoded(frames + Decode(limit, rest).frames, Decode(limit, rest).end)
  {
    var d := Decode(limit, rest);
    if frames == [] {
      assert Concat(frames) + rest == rest && frames + d.frames == d.frames;
    } else {
      var f, u := frames[0], Concat(frames[1..]) + rest;
      assert Concat(frames) + rest == f + u;
      DecodeFrames(limit, frames[1..], rest);
      DecodeOne(limit, f, u);
      ConsConcat(frames, d.frames);
    }
  }

  /** Decoding is the only way to read a stream: its packets are whole and with the rest make it up. */
  lemma {:induction false} DecodeSplits(limit: nat, s: seq<byte>) returns (rest: seq<byte>)
    ensures AllFrames(limit, Decode(limit, s).frames) && s == Concat(Decode(limit, s).frames) + rest
    ensures FirstFrame(limit, rest) == Decode(limit, s).end && !Decode(limit, s).end.Frame?
    decreases |s|
  {
    if FirstFrame(limit, s).Frame? {
      var n := FirstFrame(limit, s).size;
      FrameAlone(limit, s, n);
      rest := DecodeSplits(limit, s[n..]);
      assert s == s[..n] + s[n..];
      assert Decode(limit, s).frames[1..] == Decode(limit, s[n..]).frames;
    } else {
      rest := s;
    }
  }

  /** What has been decoded stays decoded as the stream grows, and a fault is never revised. */
  lemma DecodeMonotone(limit: nat, s: seq<byte>, t: seq<byte>)
    ensures Decode(limit, s).frames <= Decode(limit, s + t).frames
    ensures Decode(limit, s).end.Bad? ==> Decode(limit, s + t) == Decode(limit, s)
  {
    var rest := DecodeSplits(limit, s);
    var fs := Decode(limit, s).frames;
    assert s + t == Concat(fs) + (rest + t);
    DecodeFrames(limit, fs, rest + t);
    if FirstFrame(limit, rest).Bad? {
      FirstStable(limit, rest, t);
      assert fs + [] == fs;
    }
  }

  /** The length field a sender writes: section 1.5.5 of MQTT Version 5.0. */
  function EncodeLength(v: nat): seq<byte> {
    if v < 128 then [v] else [v % 128 + 128] + EncodeLength(v / 128)
  }

  lemma {:induction false} EncodedLength(s: seq<byte>, k: nat, acc: nat, v: nat)
    requires 1 <= k <= 4 && v < Shift(4 - k) * 128 && k <= |s| && EncodeLength(v) <= s[k..]
    ensures HeadFrom(s, k, acc) == Complete(k + |EncodeLength(v)|, acc + v * Shift(k - 1))
    decreases v
  {
    assert s[k] == EncodeLength(v)[0];
    if v >= 128 {
      assert EncodeLength(v)[1..] == EncodeLength(v / 128);
      assert s[k + 1..] == s[k..][1..];
      EncodedLength(s, k + 1, acc + v % 128 * Shift(k - 1), v / 128);
      assert v == v % 128 + 128 * (v / 128) && Shift(k) == 128 * Shift(k - 1);
      Regroup(v % 128, v / 128, Shift(k - 1));
    }
  }

  lemma Regroup(lo: nat, hi: nat, w: nat)
    ensures lo * w + hi * (128 * w) == (lo + 128 * hi) * w
  {}

  function Packet(first: byte, payload: seq<byte>): seq<byte> {
    [first] + EncodeLength(|payload|) + payload
  }

  /** What a sender frames, the decoder finds: any packets that fit the limit come back one by one. */
  lemma {:induction false} DecodeInvertsPackets(limit: nat, packets: seq<(byte, seq<byte>)>, frames: seq<seq<byte>>)
    requires |frames| == |packets|
    requires forall i :: 0 <= i < |packets| ==> frames[i] == Packet(packets[i].0, packets[i].1)
    requires forall i :: 0 <= i < |frames| ==> |frames[i]| <= limit && |packets[i].1| < 268435456
    ensures Decode(limit, Concat(frames)).frames == frames
    ensures Decode(limit, Concat(frames)).end == if limit == 0 then Bad(TooLarge) else More
  {
    forall i | 0 <= i < |frames| ensures FirstFrame(limit, frames[i]) == Frame(|frames[i]|) {
      var f, p := frames[i], packets[i].1;
      assert f[1..] == EncodeLength(|p|) + p;
      EncodedLength(f, 1, 0, |p|);
    }
    DecodeFrames(limit, frames, []);
    assert Concat(frames) + [] == Concat(frames) && frames + [] == frames;
  }
}
