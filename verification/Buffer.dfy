/** The growable byte buffer packets are written to and read from. */
module Buffer {
  import opened Basics
  import opened Bytes

  // ---------------------------------------------------------------------------
  // Numbers as bytes
  // ---------------------------------------------------------------------------

  function Pow256(n: nat): nat { if n == 0 then 1 else 256 * Pow256(n - 1) }

  /** The low `n` bytes of `v`, least significant first. */
  function Le(v: nat, n: nat): seq<byte> {
    if n == 0 then [] else [v % 256] + Le(v / 256, n - 1)
  }

  /** The low `n` bytes of `v`, most significant first. */
  function Be(v: nat, n: nat): seq<byte> {
    if n == 0 then [] else Be(v / 256, n - 1) + [v % 256]
  }

  function FromLe(s: seq<byte>): nat {
    if s == [] then 0 else s[0] + 256 * FromLe(s[1..])
  }

  function FromBe(s: seq<byte>): nat {
    if s == [] then 0 else 256 * FromBe(s[..|s| - 1]) + s[|s| - 1]
  }

  lemma DivPow(v: nat, n: nat)
    requires n > 0 && v < Pow256(n)
    ensures v / 256 < Pow256(n - 1)
  {
    assert Pow256(n) == 256 * Pow256(n - 1);
  }

  lemma {:induction false} LeRoundTrip(v: nat, n: nat)
    requires v < Pow256(n)
    ensures |Le(v, n)| == n && FromLe(Le(v, n)) == v
  {
    if n > 0 {
      DivPow(v, n);
      LeRoundTrip(v / 256, n - 1);
      assert Le(v, n)[1..] == Le(v / 256, n - 1);
    }
  }

  lemma {:induction false} BeRoundTrip(v: nat, n: nat)
    requires v < Pow256(n)
    ensures |Be(v, n)| == n && FromBe(Be(v, n)) == v
  {
    if n > 0 {
      DivPow(v, n);
      BeRoundTrip(v / 256, n - 1);
      assert Be(v, n)[..n - 1] == Be(v / 256, n - 1);
    }
  }

  lemma Inserted(s: seq<byte>, c: seq<byte>, pos: nat, value: byte)
    requires pos <= |c| && |s| == |c| + 1 && s[pos] == value
    requires forall i :: 0 <= i < pos ==> s[i] == c[i]
    requires forall i :: pos < i < |s| ==> s[i] == c[i - 1]
    ensures s == c[..pos] + [value] + c[pos..]
  {}

  /** Reading from the most significant end one byte at a time. */
  lemma FromBeStep(s: seq<byte>, i: nat)
    requires i < |s|
    ensures FromBe(s[..i + 1]) == 256 * FromBe(s[..i]) + s[i]
  {
    assert s[..i + 1][..i] == s[..i];
  }

  /** Reading down to the least significant end. */
  lemma FromLeStep(s: seq<byte>, i: nat)
    requires i < |s|
    ensures FromLe(s[i..]) == 256 * FromLe(s[i + 1..]) + s[i]
  {
    assert s[i..][1..] == s[i + 1..];
  }

  /** The byte at place `i`, counted from the least significant. */
  lemma {:induction false} LeAt(v: nat, n: nat, i: nat)
    requires i < n
    ensures |Le(v, n)| == n && Pow256(i) > 0 && Le(v, n)[i] == v / Pow256(i) % 256
  {
    LeLength(v, n);
    if i > 0 {
      LeAt(v / 256, n - 1, i - 1);
      assert Le(v, n)[i] == Le(v / 256, n - 1)[i - 1];
      DivDiv(v, Pow256(i - 1));
    }
  }

  lemma {:induction false} LeLength(v: nat, n: nat)
    ensures |Le(v, n)| == n
  {
    if n > 0 { LeLength(v / 256, n - 1); }
  }

  lemma DivDiv(v: nat, p: nat)
    requires p > 0
    ensures v / 256 / p == v / (256 * p)
  {
    var q, r := v / 256 / p, v / 256 % p;
    assert v / 256 == q * p + r;
    var low := v % 256;
    assert v == 256 * (q * p + r) + low;
    var rest := 256 * r + low;
    assert v == q * (256 * p) + rest by { assert 256 * (q * p) == q * (256 * p); }
    assert 0 <= rest < 256 * p;
    DivUnique(v, 256 * p, q, rest);
  }

  lemma DivUnique(v: nat, d: nat, q: nat, r: nat)
    requires d > 0 && v == q * d + r && r < d
    ensures v / d == q
  {
    var k, m := v / d, v % d;
    assert v == k * d + m;
    if k < q { NextMultiple(k, q, d); } else if q < k { NextMultiple(q, k, d); }
  }

  lemma NextMultiple(k: nat, q: nat, d: nat)
    requires k < q
    ensures k * d + d <= q * d
  {
    var e := q - k - 1;
    assert q * d == (k + 1 + e) * d == k * d + d + e * d;
  }

  lemma {:induction false} BeIsReversed(v: nat, n: nat, i: nat)
    requires i < n
    ensures |Be(v, n)| == n && |Le(v, n)| == n && Be(v, n)[i] == Le(v, n)[n - 1 - i]
  {
    LeLength(v, n);
    BeLength(v, n);
    if i < n - 1 { BeIsReversed(v / 256, n - 1, i); }
  }

  lemma {:induction false} BeLength(v: nat, n: nat)
    ensures |Be(v, n)| == n
  {
    if n > 0 { BeLength(v / 256, n - 1); }
  }

  // ---------------------------------------------------------------------------
  // How a buffer grows
  // ---------------------------------------------------------------------------

  /** How full a buffer is, and its capacity. */
  datatype Level = Level(size: nat, capacity: nat)

  /** The first of c, 2c, 4c, .. that is enough. */
  function Doubled(c: nat, needed: nat): nat
    requires c > 0
    decreases needed - c
  {
    if needed <= c then c else Doubled(2 * c, needed)
  }

  /** The capacity after room for `needed` bytes was found. */
  function Grown(capacity: nat, needed: nat): nat {
    if needed <= capacity then capacity else Doubled(if capacity == 0 then 64 else capacity, needed)
  }

  lemma {:induction false} DoubledBounds(c: nat, needed: nat)
    requires c > 0
    ensures needed <= Doubled(c, needed) && c <= Doubled(c, needed)
    ensures Doubled(c, needed) == c || (2 * c <= Doubled(c, needed) < 2 * needed)
    decreases needed - c
  {
    if needed > c { DoubledBounds(2 * c, needed); }
  }

  /** Appending n bytes succeeds at this level: they fit, or memory for growing is to be had. */
  predicate Accepts(l: Level, n: nat, memory: bool) {
    n == 0 || l.size + n <= l.capacity || memory
  }

  function AfterAppend(l: Level, n: nat, memory: bool): Level {
    if n == 0 || !Accepts(l, n, memory) then l else Level(l.size + n, Grown(l.capacity, l.size + n))
  }

  /** The level of an empty buffer after the first n of these appends. */
  function LevelAfter(chunks: seq<seq<byte>>, memory: seq<bool>, n: nat): Level
    requires n <= |chunks| == |memory|
  {
    if n == 0 then Level(0, 0) else AfterAppend(LevelAfter(chunks, memory, n - 1), |chunks[n - 1]|, memory[n - 1])
  }

  /** The chunks among the first n that are accepted. */
  function Accepted(chunks: seq<seq<byte>>, memory: seq<bool>, n: nat): seq<seq<byte>>
    requires n <= |chunks| == |memory|
  {
    if n == 0 then [] else
      Accepted(chunks, memory, n - 1) +
      if Accepts(LevelAfter(chunks, memory, n - 1), |chunks[n - 1]|, memory[n - 1]) then [chunks[n - 1]] else []
  }

  // ---------------------------------------------------------------------------
  // The buffer
  // ---------------------------------------------------------------------------

  class Buffer {
    var data: array<byte>
    var size: nat
    var readPos: nat
    /** How many bytes growing has copied so far. */
    var copied: nat
    ghost var base: nat

    ghost predicate Valid()
      reads this
    {
      readPos <= size <= data.Length
    }

    ghost function Contents(): seq<byte>
      reads this, data
      requires Valid()
    {
      data[..size]
    }

    ghost function Fill(): Level
      reads this
    {
      Level(size, data.Length)
    }

    ghost function Unread(): seq<byte>
      reads this, data
      requires Valid()
    {
      data[readPos..size]
    }

    /** What growing has copied is paid for by the capacity gained. */
    ghost predicate Amortised()
      reads this
    {
      if data.Length == 0 then copied == 0 else base > 0 && copied + base <= data.Length
    }

    constructor ()
      ensures Valid() && Amortised() && fresh(data) && data.Length == 0 && copied == 0 && readPos == 0
      ensures Contents() == []
    {
      data := new byte[0];
      size, readPos, copied, base := 0, 0, 0, 0;
    }

    method Reserve(capacity: nat, memory: bool) returns (ok: bool)
      requires Valid()
      modifies this`data, this`copied, this`base
      ensures Valid() && Contents() == old(Contents()) && Unread() == old(Unread())
      ensures (data == old(data) || fresh(data))
      ensures ok <==> capacity <= old(data.Length) || memory
      ensures !ok ==> data == old(data)
      ensures data.Length == if ok && capacity > old(data.Length) then capacity else old(data.Length)
      ensures copied == old(copied) + if ok && capacity > old(data.Length) then size else 0
      ensures old(Amortised()) && (old(data.Length) == 0 || capacity >= 2 * old(data.Length) || !ok) ==> Amortised()
    {
      if capacity <= data.Length { return true; }
      if !memory { return false; }
      var grown := new byte[capacity];
      forall i | 0 <= i < size { grown[i] := data[i]; }
      assert grown[..size] == data[..size] && grown[readPos..size] == data[readPos..size];
      if data.Length == 0 { base := capacity; }
      copied := copied + size;
      data := grown;
      return true;
    }

    /** Doubles until there is room. */
    method EnsureCapacity(needed: nat, memory: bool) returns (ok: bool)
      requires Valid()
      modifies this`data, this`copied, this`base
      ensures Valid() && Contents() == old(Contents()) && Unread() == old(Unread())
      ensures (data == old(data) || fresh(data))
      ensures ok <==> needed <= old(data.Length) || memory
      ensures ok ==> data.Length >= needed
      ensures data.Length == if ok then Grown(old(data.Length), needed) else old(data.Length)
      ensures data.Length == old(data.Length) || data.Length == 64 || data.Length < 2 * needed
      ensures !ok || needed <= old(data.Length) ==> data == old(data) && copied == old(copied)
      ensures old(Amortised()) ==> Amortised()
    {
      if needed <= data.Length { return true; }
      var capacity := if data.Length == 0 then 64 else data.Length;
      DoubledBounds(capacity, needed);
      while capacity < needed
        invariant capacity > 0 && Doubled(capacity, needed) == Grown(data.Length, needed)
        decreases needed - capacity
      {
        capacity := capacity * 2;
      }
      ok := Reserve(capacity, memory);
    }

    method Append(bytes: seq<byte>, memory: bool) returns (ok: bool)
      requires Valid()
      modifies this, data
      ensures Valid() && (data == old(data) || fresh(data)) && readPos == old(readPos)
      ensures ok <==> Accepts(old(Fill()), |bytes|, memory)
      ensures Fill() == AfterAppend(old(Fill()), |bytes|, memory)
      ensures |old(Contents())| + |bytes| <= old(data.Length) ==> data == old(data) && copied == old(copied)
      ensures Contents() == old(Contents()) + if ok then bytes else []
      ensures Unread() == old(Unread()) + if ok then bytes else []
      ensures old(Amortised()) ==> Amortised()
    {
      if |bytes| == 0 { return true; }
      ghost var c, u := Contents(), Unread();
      ok := EnsureCapacity(size + |bytes|, memory);
      if !ok { return false; }
      forall i | 0 <= i < |bytes| { data[size + i] := bytes[i]; }
      size := size + |bytes|;
      assert data[..size] == c + bytes && data[readPos..size] == u + bytes;
    }

    method Insert(pos: nat, value: byte, memory: bool) returns (ok: bool)
      requires Valid()
      modifies this, data
      ensures Valid() && (data == old(data) || fresh(data))
      ensures ok <==> pos <= |old(Contents())| && (|old(Contents())| < old(data.Length) || memory)
      ensures ok ==> Contents() == old(Contents())[..pos] + [value] + old(Contents())[pos..]
      ensures !ok ==> Contents() == old(Contents())
      ensures old(Amortised()) ==> Amortised()
    {
      if pos > size { return false; }
      ghost var c := Contents();
      ok := EnsureCapacity(size + 1, memory);
      if !ok { return false; }
      assert forall i :: 0 <= i < size ==> data[i] == c[i] by { assert data[..size] == c; }
      forall i | pos < i <= size { data[i] := data[i - 1]; }
      data[pos] := value;
      size := size + 1;
      Inserted(data[..size], c, pos, value);
    }

    method PutUint(v: nat, n: nat, bigEndian: bool, memory: bool) returns (ok: bool)
      requires Valid() && v < Pow256(n)
      modifies this, data
      ensures Valid() && (data == old(data) || fresh(data))
      ensures ok <==> n == 0 || |old(Contents())| + n <= old(data.Length) || memory
      ensures Unread() == old(Unread()) + if !ok then [] else if bigEndian then Be(v, n) else Le(v, n)
      ensures old(Amortised()) ==> Amortised()
    {
      LeLength(v, n);
      BeLength(v, n);
      var bytes := ToBytes(v, n, bigEndian);
      ok := Append(bytes, memory);
    }

    /** The value of the next `n` unread bytes. */
    method Peek(n: nat, bigEndian: bool) returns (v: nat)
      requires Valid() && n <= |Unread()|
      ensures v == if bigEndian then FromBe(Unread()[..n]) else FromLe(Unread()[..n])
    {
      v := 0;
      ghost var s := Unread()[..n];
      if bigEndian {
        for i := 0 to n
          invariant v == FromBe(s[..i])
        {
          FromBeStep(s, i);
          v := v * 256 + data[readPos + i];
        }
        assert s[..n] == s;
      } else {
        for i := n downto 0
          invariant v == FromLe(s[i..])
        {
          FromLeStep(s, i);
          v := v * 256 + data[readPos + i];
        }
      }
    }

    method GetUint(n: nat, bigEndian: bool) returns (ok: bool, v: nat)
      requires Valid()
      modifies this`readPos
      ensures Valid()
      ensures ok <==> n <= |old(Unread())|
      ensures ok ==> v == if bigEndian then FromBe(old(Unread())[..n]) else FromLe(old(Unread())[..n])
      ensures Unread() == if ok then old(Unread())[n..] else old(Unread())
    {
      if size - readPos < n { return false, 0; }
      v := Peek(n, bigEndian);
      readPos := readPos + n;
      return true, v;
    }
  }

  /** The bytes are taken from the value one shift at a time, from whichever end comes first. */
  method ToBytes(v: nat, n: nat, bigEndian: bool) returns (bytes: seq<byte>)
    ensures bytes == if bigEndian then Be(v, n) else Le(v, n)
  {
    bytes := [];
    ghost var whole := if bigEndian then Be(v, n) else Le(v, n);
    LeLength(v, n);
    BeLength(v, n);
    for i := 0 to n
      invariant |bytes| == i && bytes == whole[..i]
    {
      var place := if bigEndian then n - 1 - i else i;
      LeAt(v, n, place);
      if bigEndian { BeIsReversed(v, n, i); }
      bytes := bytes + [v / Pow256(place) % 256];
    }
  }

  // ---------------------------------------------------------------------------
  // Runs
  // ---------------------------------------------------------------------------

  datatype Item = Item(value: nat, width: nat, bigEndian: bool)

  lemma WrittenNext(u: seq<byte>, items: seq<Item>, i: nat)
    requires i < |items|
    ensures u + Written(items[..i + 1]) == u + Written(items[..i]) + BytesOf(items[i])
  {
    assert items[..i + 1] == items[..i] + [items[i]];
    WrittenAppend(items[..i], items[i]);
  }

  method Put(b: Buffer, x: Item)
    requires b.Valid() && x.value < Pow256(x.width)
    modifies b, b.data
    ensures b.Valid() && (b.data == old(b.data) || fresh(b.data)) && b.Unread() == old(b.Unread()) + BytesOf(x)
  {
    var ok := b.PutUint(x.value, x.width, x.bigEndian, true);
  }

  method WriteAll(b: Buffer, items: seq<Item>)
    requires b.Valid() && forall i :: 0 <= i < |items| ==> items[i].value < Pow256(items[i].width)
    modifies b, b.data
    ensures b.Valid() && (b.data == old(b.data) || fresh(b.data)) && b.Unread() == old(b.Unread()) + Written(items)
  {
    ghost var u := b.Unread();
    assert items[..0] == [] && u + [] == u;
    for i := 0 to |items|
      invariant b.Valid() && (b.data == old(b.data) || fresh(b.data)) && b.Unread() == u + Written(items[..i])
    {
      WrittenNext(u, items, i);
      Put(b, items[i]);
    }
    assert items[..|items|] == items;
  }

  lemma FirstWritten(items: seq<Item>, i: nat)
    requires i < |items| && items[i].value < Pow256(items[i].width)
    ensures items[i].width <= |Written(items[i..])| && Written(items[i..])[items[i].width..] == Written(items[i + 1..])
    ensures Written(items[i..])[..items[i].width] == BytesOf(items[i])
    ensures items[i].value == if items[i].bigEndian then FromBe(BytesOf(items[i])) else FromLe(BytesOf(items[i]))
  {
    assert items[i..][1..] == items[i + 1..];
    LeRoundTrip(items[i].value, items[i].width);
    BeRoundTrip(items[i].value, items[i].width);
  }

  method Get(b: Buffer, ghost items: seq<Item>, i: nat, width: nat, bigEndian: bool) returns (v: nat)
    requires b.Valid() && i < |items| && b.Unread() == Written(items[i..])
    requires items[i] == Item(items[i].value, width, bigEndian)
    requires items[i].value < Pow256(width)
    modifies b`readPos
    ensures b.Valid() && b.Unread() == Written(items[i + 1..]) && v == items[i].value
  {
    FirstWritten(items, i);
    var ok: bool;
    ok, v := b.GetUint(width, bigEndian);
  }

  method ReadAll(b: Buffer, items: seq<Item>) returns (values: seq<nat>)
    requires b.Valid() && b.Unread() == Written(items) && forall i :: 0 <= i < |items| ==>
        items[i].value < Pow256(items[i].width)
    modifies b`readPos
    ensures |values| == |items| && forall i :: 0 <= i < |items| ==> values[i] == items[i].value
  {
    values := [];
    for i := 0 to |items|
      invariant b.Valid() && b.Unread() == Written(items[i..])
      invariant |values| == i && forall j :: 0 <= j < i ==> values[j] == items[j].value
    {
      var v := Get(b, items, i, items[i].width, items[i].bigEndian);
      values := values + [v];
    }
  }

  /** Values written one after another are read back in that order by the matching reads. */
  method WriteThenRead(items: seq<Item>) returns (values: seq<nat>)
    requires forall i :: 0 <= i < |items| ==> items[i].value < Pow256(items[i].width)
    ensures |values| == |items| && forall i :: 0 <= i < |items| ==> values[i] == items[i].value
  {
    var b := new Buffer();
    WriteAll(b, items);
    values := ReadAll(b, items);
  }

  function BytesOf(x: Item): seq<byte> { if x.bigEndian then Be(x.value, x.width) else Le(x.value, x.width) }

  function Written(items: seq<Item>): seq<byte> {
    if items == [] then [] else BytesOf(items[0]) + Written(items[1..])
  }

  lemma {:induction false} WrittenAppend(items: seq<Item>, x: Item)
    ensures Written(items + [x]) == Written(items) + BytesOf(x)
  {
    if items == [] {
      assert items + [x] == [x];
    } else {
      assert (items + [x])[1..] == items[1..] + [x];
      WrittenAppend(items[1..], x);
    }
  }

  /** Any run of appends, some of which may fail: the contents are the chunks that were accepted, in
      order, the capacity is the one their doublings reach, and what growth has copied is less. */
  method AppendAll(chunks: seq<seq<byte>>, memory: seq<bool>) returns (b: Buffer, kept: seq<byte>)
    requires |memory| == |chunks|
    ensures b.Valid() && b.Contents() == kept == Concat(Accepted(chunks, memory, |chunks|))
    ensures b.Fill() == LevelAfter(chunks, memory, |chunks|)
    ensures b.copied < b.data.Length || b.copied == b.data.Length == 0
  {
    b := new Buffer();
    kept := [];
    for i := 0 to |chunks|
      invariant b.Valid() && b.Amortised() && fresh(b) && fresh(b.data) && b.Contents() == kept
      invariant kept == Concat(Accepted(chunks, memory, i)) && b.Fill() == LevelAfter(chunks, memory, i)
    {
      var ok := b.Append(chunks[i], memory[i]);
      if ok { kept := kept + chunks[i]; }
      AcceptedNext(chunks, memory, i);
    }
  }

  lemma AcceptedNext(chunks: seq<seq<byte>>, memory: seq<bool>, n: nat)
    requires n < |chunks| == |memory|
    ensures Concat(Accepted(chunks, memory, n + 1)) ==
            Concat(Accepted(chunks, memory, n)) + if Accepts(LevelAfter(chunks, memory, n), |chunks[n]|, memory[n])
                then chunks[n] else []
  {
    ConcatAppend(Accepted(chunks, memory, n), chunks[n]);
    assert Accepted(chunks, memory, n) + [] == Accepted(chunks, memory, n);
  }

  /** With memory throughout, every chunk is accepted. */
  lemma {:induction false} AllAccepted(chunks: seq<seq<byte>>, memory: seq<bool>, n: nat)
    requires n <= |chunks| == |memory| && forall i :: 0 <= i < n ==> memory[i]
    ensures Accepted(chunks, memory, n) == chunks[..n]
  {
    if n > 0 {
      AllAccepted(chunks, memory, n - 1);
      assert chunks[..n] == chunks[..n - 1] + [chunks[n - 1]];
    }
  }

  /** Not so for explicit reservations: two of them copy more than the capacity they reach. */
  method ReservationsCopyMore() returns (copied: nat, capacity: nat)
    ensures copied > capacity
  {
    var b := new Buffer();
    var ok := b.Reserve(3, true);
    ok := b.Append([1, 2, 3], true);
    ok := b.Reserve(4, true);
    ok := b.Reserve(5, true);
    copied, capacity := b.copied, b.data.Length;
  }
}
