/** The length-prefixed UTF-8 strings of MQTT: section 1.5.4 of MQTT Version 5.0. */
module MqttString {
  import opened Bytes
  import opened Utf8
  import opened Buffer

  const MAX_LENGTH: nat := 65535

  const SUCCESS := 0
  const INVALID_UTF8 := -2
  const BUFFER_TOO_SHORT := -3
  const STRING_TOO_LONG := -4
  const CONTROL_CHARACTERS := -5
  const NO_MEMORY := -100

  predicate IsControl(x: scalar) { x <= 0x1F || 0x7F <= x <= 0x9F }

  ghost predicate Clean(xs: seq<scalar>) { forall i :: 0 <= i < |xs| ==> !IsControl(xs[i]) }

  /** Text a string field may carry. */
  ghost predicate Text(xs: seq<scalar>) { Clean(xs) && |EncodeAll(xs)| <= MAX_LENGTH }

  // ---------------------------------------------------------------------------
  // Looking for control characters without decoding
  // ---------------------------------------------------------------------------

  /** What the byte scan takes for a control character at place `i`. */
  predicate Hit(s: seq<byte>, i: nat)
    requires i < |s|
  {
    s[i] <= 0x1F || s[i] == 0x7F || (s[i] == 0xC2 && i + 1 < |s| && 0x80 <= s[i + 1] <= 0x9F)
  }

  predicate AnyHit(s: seq<byte>) {
    exists i :: 0 <= i < |s| && Hit(s, i)
  }

  lemma EncodeHits(x: scalar, rest: seq<byte>)
    ensures Hit(Encode(x) + rest, 0) <==> IsControl(x)
    ensures forall i :: 1 <= i < |Encode(x)| ==> !Hit(Encode(x) + rest, i)
  {
    assert forall i :: 0 <= i < |Encode(x)| ==> (Encode(x) + rest)[i] == Encode(x)[i];
  }

  lemma HitsSplit(x: scalar, rest: seq<byte>)
    ensures AnyHit(Encode(x) + rest) <==> IsControl(x) || AnyHit(rest)
  {
    var e, s := Encode(x), Encode(x) + rest;
    EncodeHits(x, rest);
    if AnyHit(rest) {
      var i :| 0 <= i < |rest| && Hit(rest, i);
      assert Hit(s, |e| + i);
    }
    if i :| 0 <= i < |s| && Hit(s, i) {
      if i >= |e| { assert Hit(rest, i - |e|); }
    }
  }

  /** On well-formed text the scan finds exactly the control characters. */
  lemma {:induction false} ScanAgrees(xs: seq<scalar>)
    ensures AnyHit(EncodeAll(xs)) <==> !Clean(xs)
  {
    if xs != [] {
      HitsSplit(xs[0], EncodeAll(xs[1..]));
      ScanAgrees(xs[1..]);
      CleanSplits(xs);
    }
  }

  lemma CleanSplits(xs: seq<scalar>)
    requires xs != []
    ensures Clean(xs) <==> !IsControl(xs[0]) && Clean(xs[1..])
  {
    assert forall i :: 1 <= i < |xs| ==> xs[i] == xs[1..][i - 1];
  }

  method HasControlCharacters(data: seq<byte>) returns (found: bool)
    ensures found <==> AnyHit(data)
  {
    for i := 0 to |data|
      invariant forall j :: 0 <= j < i ==> !Hit(data, j)
    {
      var b := data[i];
      assert Hit(data, i) ==> AnyHit(data);
      if b <= 0x1F { return true; }
      if b == 0x7F { return true; }
      if b == 0xC2 && i + 1 < |data| {
        var next := data[i + 1];
        if 0x80 <= next <= 0x9F { return true; }
      }
    }
    return false;
  }

  method ValidateMqttString(data: seq<byte>) returns (code: int)
    ensures code == SUCCESS <==> exists xs :: Text(xs) && EncodeAll(xs) == data
    ensures code == STRING_TOO_LONG <==> |data| > MAX_LENGTH
    ensures code == INVALID_UTF8 <==> |data| <= MAX_LENGTH && !exists xs :: EncodeAll(xs) == data
    ensures code == CONTROL_CHARACTERS <==> |data| <= MAX_LENGTH && exists xs :: EncodeAll(xs) == data && !Clean(xs)
    ensures code == SUCCESS || code == STRING_TOO_LONG || code == INVALID_UTF8 || code == CONTROL_CHARACTERS
  {
    if |data| > MAX_LENGTH { return STRING_TOO_LONG; }
    if |data| == 0 {
      assert EncodeAll([]) == data && Text([]);
      forall xs | EncodeAll(xs) == data ensures xs == [] { EncodeInjective(xs, []); }
      return SUCCESS;
    }
    var valid := IsValidUtf8(data);
    if !valid { return INVALID_UTF8; }
    ghost var ys :| EncodeAll(ys) == data;
    forall xs | EncodeAll(xs) == data ensures xs == ys { EncodeInjective(xs, ys); }
    ScanAgrees(ys);
    var control := HasControlCharacters(data);
    if control { return CONTROL_CHARACTERS; }
    assert Text(ys);
    return SUCCESS;
  }

  // ---------------------------------------------------------------------------
  // Fields
  // ---------------------------------------------------------------------------

  function Length(hi: byte, lo: byte): nat {
    var h: int := hi;
    h * 256 + lo
  }

  /** The two-byte length, then the bytes. */
  function Field(str: seq<byte>): seq<byte>
    requires |str| <= MAX_LENGTH
  {
    [|str| / 256, |str| % 256] + str
  }

  /** Some text, as a field, is what this input starts with. */
  ghost predicate StartsWithField(input: seq<byte>, xs: seq<scalar>) {
    Text(xs) && Field(EncodeAll(xs)) <= input
  }

  lemma FieldLength(str: seq<byte>, input: seq<byte>)
    requires |str| <= MAX_LENGTH && Field(str) <= input
    ensures |input| >= 2 && Length(input[0], input[1]) == |str| && 2 + |str| <= |input| && input[2..2 + |str|] == str
  {
    assert Field(str)[2..] == str;
  }

  lemma FieldThere(input: seq<byte>, n: nat)
    requires |input| >= 2 && n == Length(input[0], input[1]) && 2 + n <= |input|
    ensures n <= MAX_LENGTH && Field(input[2..2 + n]) == input[..2 + n]
  {
    assert Field(input[2..2 + n]) == [input[0], input[1]] + input[2..2 + n];
  }

  /** At most one text can be at the start of an input. */
  lemma OneField(input: seq<byte>, xs: seq<scalar>, ys: seq<scalar>)
    requires StartsWithField(input, xs) && StartsWithField(input, ys)
    ensures xs == ys
  {
    FieldLength(EncodeAll(xs), input);
    FieldLength(EncodeAll(ys), input);
    EncodeInjective(xs, ys);
  }

  method ParseString(input: seq<byte>) returns (code: int, str: seq<byte>, bytesRead: nat)
    ensures code == SUCCESS <==> exists xs :: StartsWithField(input, xs)
    ensures code == SUCCESS ==> exists xs :: StartsWithField(input, xs) && str == EncodeAll(xs)
    ensures code == SUCCESS ==>
        |str| <= MAX_LENGTH && bytesRead == 2 + |str| <= |input| && input[..bytesRead] == Field(str)
    ensures code == BUFFER_TOO_SHORT <==> |input| < 2 || |input| < 2 + Length(input[0], input[1])
    ensures code != BUFFER_TOO_SHORT ==>
      (code == INVALID_UTF8 <==> !exists xs :: EncodeAll(xs) == input[2..2 + Length(input[0], input[1])]) &&
      (code == CONTROL_CHARACTERS <==>
          exists xs :: EncodeAll(xs) == input[2..2 + Length(input[0], input[1])] && !Clean(xs))
  {
    str, bytesRead := [], 0;
    forall xs | StartsWithField(input, xs) ensures |input| >= 2 && |input| >= 2 + Length(input[0], input[1]) {
      FieldLength(EncodeAll(xs), input);
    }
    if |input| < 2 { return BUFFER_TOO_SHORT, str, 0; }
    var n: nat := Length(input[0], input[1]);
    if |input| < 2 + n { return BUFFER_TOO_SHORT, str, 0; }
    FieldThere(input, n);
    code := ValidateMqttString(input[2..2 + n]);
    forall xs | StartsWithField(input, xs) ensures EncodeAll(xs) == input[2..2 + n] {
      FieldLength(EncodeAll(xs), input);
    }
    if code != SUCCESS { return code, str, 0; }
    str, bytesRead := input[2..2 + n], 2 + n;
    ghost var xs :| Text(xs) && EncodeAll(xs) == str;
    assert StartsWithField(input, xs);
  }

  /** How many bytes of a text's field a buffer at this level takes before memory runs out. */
  function FieldWritten(l: Level, n: nat, memory: (bool, bool, bool)): (k: nat)
    ensures k <= 2 + n
  {
    var l1 := AfterAppend(l, 1, memory.0);
    var l2 := AfterAppend(l1, 1, memory.1);
    if !Accepts(l, 1, memory.0) then 0
    else if !Accepts(l1, 1, memory.1) then 1
    else if !Accepts(l2, n, memory.2) then 2
    else 2 + n
  }

  method SerializeString(str: seq<byte>, buffer: Buffer, memory: (bool, bool, bool)) returns (code: int)
    requires buffer.Valid()
    modifies buffer, buffer.data
    ensures buffer.Valid() && (buffer.data == old(buffer.data) || fresh(buffer.data))
    ensures code == SUCCESS ==>
        && (exists xs :: Text(xs) && EncodeAll(xs) == str) && |str| <= MAX_LENGTH
        && buffer.Contents() == old(buffer.Contents()) + Field(str)
    ensures (exists xs :: Text(xs) && EncodeAll(xs) == str) && memory == (true, true, true) ==> code == SUCCESS
    ensures code == STRING_TOO_LONG <==> |str| > MAX_LENGTH
    ensures code == INVALID_UTF8 <==> |str| <= MAX_LENGTH && !exists xs :: EncodeAll(xs) == str
    ensures code == CONTROL_CHARACTERS <==> |str| <= MAX_LENGTH && exists xs :: EncodeAll(xs) == str && !Clean(xs)
    ensures code != SUCCESS && code != NO_MEMORY ==> buffer.Contents() == old(buffer.Contents())
    ensures code == NO_MEMORY <==>
      && (|str| <= MAX_LENGTH && exists xs :: Text(xs) && EncodeAll(xs) == str)
      && FieldWritten(old(buffer.Fill()), |str|, memory) < 2 + |str|
    ensures code == NO_MEMORY ==>
      buffer.Contents() == old(buffer.Contents()) + Field(str)[..FieldWritten(old(buffer.Fill()), |str|, memory)]
  {
    if |str| > MAX_LENGTH { return STRING_TOO_LONG; }
    code := ValidateMqttString(str);
    if code != SUCCESS { return code; }
    var ok := WriteField(str, buffer, memory);
    return if ok then SUCCESS else NO_MEMORY;
  }

  /** Length high, length low, bytes: each may run out of memory and leave the ones before it. */
  method WriteField(str: seq<byte>, buffer: Buffer, memory: (bool, bool, bool)) returns (ok: bool)
    requires buffer.Valid() && |str| <= MAX_LENGTH
    modifies buffer, buffer.data
    ensures buffer.Valid() && (buffer.data == old(buffer.data) || fresh(buffer.data))
    ensures ok <==> FieldWritten(old(buffer.Fill()), |str|, memory) == 2 + |str|
    ensures buffer.Contents() == old(buffer.Contents()) + Field(str)[..FieldWritten(old(buffer.Fill()), |str|, memory)]
  {
    ghost var c := buffer.Contents();
    ok := buffer.Append([|str| / 256], memory.0);
    if !ok {
      assert buffer.Contents() == c + Field(str)[..0];
      return;
    }
    ok := buffer.Append([|str| % 256], memory.1);
    if !ok {
      assert buffer.Contents() == c + Field(str)[..1];
      return;
    }
    ok := buffer.Append(str, memory.2);
    if !ok {
      assert buffer.Contents() == c + Field(str)[..2];
      return;
    }
    assert buffer.Contents() == c + Field(str);
  }

  /** Writing a text and reading it back, whatever bytes follow it. */
  method RoundTrip(str: seq<byte>, rest: seq<byte>) returns (code: int, parsed: seq<byte>, bytesRead: nat)
    ensures code == SUCCESS <==> exists xs :: Text(xs) && EncodeAll(xs) == str
    ensures code == SUCCESS ==> parsed == str && bytesRead == 2 + |str|
  {
    var b := new Buffer();
    code := SerializeString(str, b, (true, true, true));
    parsed, bytesRead := [], 0;
    if code != SUCCESS { return; }
    var ok := b.Append(rest, true);
    ghost var xs :| Text(xs) && EncodeAll(xs) == str;
    var input := b.data[..b.size];
    assert input == Field(str) + rest;
    assert StartsWithField(input, xs);
    code, parsed, bytesRead := ParseString(input);
    ghost var ys :| StartsWithField(input, ys) && parsed == EncodeAll(ys);
    OneField(input, xs, ys);
  }
}
