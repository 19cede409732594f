/** Length-prefixed messages: the length goes before each message as a Base 128
    Varint, as in the section "Base 128 Varints" of the Protocol Buffers Encoding
    specification. */
module Varint {
  import opened Basics
  import opened Bits
  import opened Results

  /** All bytes but the last have their high bit set. */
  ghost predicate IsVarint(s: seq<Byte>) {
    && |s| >= 1 && s[|s| - 1] < 128
    && forall k :: 0 <= k < |s| - 1 ==> s[k] >= 128
  }

  /** The number a varint stands for: seven bits a byte, lowest first. */
  function Number(s: seq<Byte>): nat {
    if s == [] then 0 else s[0] % 128 + 128 * Number(s[1..])
  }

  /** No superfluous high group. */
  ghost predicate IsCanonical(s: seq<Byte>) {
    IsVarint(s) && (|s| == 1 || s[|s| - 1] != 0)
  }

  function Encoding(v: nat): seq<Byte> {
    if v < 128 then [v] else [128 + v % 128] + Encoding(v / 128)
  }

  lemma {:induction false} EncodingIsCanonical(v: nat)
    ensures IsCanonical(Encoding(v)) && Number(Encoding(v)) == v
    ensures v > 0 ==> Encoding(v)[|Encoding(v)| - 1] != 0
  {
    if v >= 128 {
      EncodingIsCanonical(v / 128);
      assert Encoding(v)[1..] == Encoding(v / 128);
    } else {
      assert Encoding(v)[1..] == [];
    }
  }

  lemma {:induction false} CanonicalIsPositive(s: seq<Byte>)
    requires IsVarint(s) && s[|s| - 1] != 0
    ensures Number(s) > 0
  {
    if |s| > 1 {
      CanonicalIsPositive(s[1..]);
    }
  }

  /** No varint of the same number is shorter. */
  lemma {:induction false} CanonicalIsShortest(a: seq<Byte>, b: seq<Byte>)
    requires IsCanonical(a) && IsVarint(b) && Number(a) == Number(b)
    ensures |a| <= |b|
  {
    var rest := b[1..];
    assert |b| == 1 ==> rest == [];
    if |a| > 1 {
      CanonicalIsPositive(a[1..]);
      assert Number(a[1..]) == Number(rest);
      if |b| > 1 {
        CanonicalIsShortest(a[1..], rest);
      }
    }
  }

  /** A file being read or written. */
  class File {
    var data: seq<Byte>
    var pos: nat

    ghost predicate Valid()
      reads this
    {
      pos <= |data|
    }

    ghost function Rest(): seq<Byte>
      requires Valid()
      reads this
    {
      data[pos..]
    }

    /** Up to n bytes, fewer at the end of the file. */
    method Read(n: nat) returns (bytes: seq<Byte>)
      requires Valid()
      modifies this`pos
      ensures Valid() && bytes + Rest() == old(Rest())
      ensures |bytes| == if n <= |old(Rest())| then n else |old(Rest())|
    {
      var end := if n <= |data| - pos then pos + n else |data|;
      bytes := data[pos..end];
      pos := end;
    }

    method Write(bytes: seq<Byte>)
      modifies this`data
      ensures data == old(data) + bytes
    {
      data := data + bytes;
    }
  }

  method EncodeVarint(file: File, v: nat)
    modifies file`data
    ensures file.data == old(file.data) + Encoding(v)
  {
    var bits: nat, value: nat := v % 128, v / 128;
    ghost var left: nat := v;
    ghost var done: seq<Byte> := [];
    while value != 0
      invariant bits == left % 128 && value == left / 128
      invariant file.data == old(file.data) + done && done + Encoding(left) == Encoding(v)
      decreases value
    {
      file.Write([128 + bits]);
      done := done + [128 + bits];
      left := value;
      bits := value % 128;
      value := value / 128;
    }
    file.Write([bits]);
  }

  method EncodeMessage(file: File, message: seq<Byte>)
    modifies file`data
    ensures file.data == old(file.data) + Encoding(|message|) + message
  {
    EncodeVarint(file, |message|);
    file.Write(message);
  }

  // ---- Decoding, as the script does it ----

  /** The length of the varint at the front of s, 0 if the text ends before it does. */
  function Header(s: seq<Byte>): (h: nat)
    ensures h <= |s|
  {
    if s == [] then 0
    else if s[0] < 128 then 1
    else
      var h := Header(s[1..]);
      if h == 0 then 0 else h + 1
  }

  /** All groups of seven bits laid over each other. */
  function Overlay(s: seq<Byte>): nat {
    if s == [] then 0 else Or(Overlay(s[..|s| - 1]), s[|s| - 1] % 128)
  }

  lemma {:induction false} OverlayBound(s: seq<Byte>)
    ensures Overlay(s) < 128
  {
    if s != [] {
      OverlayBound(s[..|s| - 1]);
      assert Power(7) == 128;
      OrBound(Overlay(s[..|s| - 1]), s[|s| - 1] % 128, 7);
    }
  }

  /** Position k is where the varint at the front of s ends, or lies before it. */
  lemma {:induction false} HeaderScan(s: seq<Byte>, k: nat)
    requires k <= |s| && forall j :: 0 <= j < k ==> s[j] >= 128
    ensures k == |s| ==> Header(s) == 0
    ensures k < |s| && s[k] < 128 ==> Header(s) == k + 1
    decreases k
  {
    if k > 0 {
      HeaderScan(s[1..], k - 1);
    }
  }

  /** The shift is advanced only after the last byte, so every group lands on the
      lowest seven bits; the branches for large results are never taken. */
  method DecodeVarint(file: File) returns (result: nat, length: nat)
    requires file.Valid()
    modifies file`pos
    ensures file.Valid() && length == Header(old(file.Rest()))
    ensures result == if length == 0 then 0 else Overlay(old(file.Rest())[..length])
    ensures file.Rest() == if length == 0 then [] else old(file.Rest())[length..]
  {
    result, length := 0, 0;
    ghost var s := file.Rest();
    while true
      invariant file.Valid() && length <= |s| && file.Rest() == s[length..]
      invariant result == Overlay(s[..length])
      invariant forall j :: 0 <= j < length ==> s[j] >= 128
      decreases |s| - length
    {
      var c := file.Read(1);
      if |c| == 0 {
        HeaderScan(s, length);
        return 0, 0;
      }
      var b := c[0];
      assert b == s[length];
      assert file.Rest() == s[length + 1..];
      assert s[..length + 1][..length] == s[..length];
      result := Or(result, b % 128);
      OverlayBound(s[..length + 1]);
      if b < 128 {
        HeaderScan(s, length);
        length := length + 1;
        return;
      }
      length := length + 1;
    }
  }

  method DecodeMessage(file: File) returns (message: Option<seq<Byte>>)
    requires file.Valid()
    modifies file`pos
    ensures file.Valid()
    ensures var s := old(file.Rest());
            if Size(s) == 0 then message.None?
            else message == Some(Body(s)) && file.Rest() == After(s)
  {
    var size, length := DecodeVarint(file);
    if size == 0 {
      return None;
    }
    ghost var s, rest := old(file.Rest()), file.Rest();
    var bytes := file.Read(size);
    CutAt(bytes, file.Rest(), rest);
    CutOfRest(s, bytes, rest);
    message := Some(bytes);
  }

  lemma {:induction false} CutAt(a: seq<Byte>, b: seq<Byte>, s: seq<Byte>)
    requires a + b == s
    ensures a == s[..|a|] && b == s[|a|..]
  {
  }

  lemma {:induction false} CutOfRest(s: seq<Byte>, bytes: seq<Byte>, rest: seq<Byte>)
    requires rest == s[Header(s)..] && |bytes| == if Size(s) <= |rest| then Size(s) else |rest|
    ensures rest[..|bytes|] == Body(s) && rest[|bytes|..] == After(s)
  {
  }

  /** The size read from the front of s. */
  function Size(s: seq<Byte>): nat {
    Overlay(s[..Header(s)])
  }

  function End(s: seq<Byte>): (r: nat)
    ensures Header(s) <= r <= |s|
  {
    if Header(s) + Size(s) <= |s| then Header(s) + Size(s) else |s|
  }

  function Body(s: seq<Byte>): seq<Byte> {
    s[Header(s)..End(s)]
  }

  function After(s: seq<Byte>): seq<Byte> {
    s[End(s)..]
  }

  /** All messages read from s. */
  function Messages(s: seq<Byte>): seq<seq<Byte>>
    decreases |s|
  {
    if Size(s) == 0 then [] else [Body(s)] + Messages(After(s))
  }

  lemma {:induction false} NextMessage(messages: seq<seq<Byte>>, s: seq<Byte>)
    requires Size(s) != 0
    ensures messages + Messages(s) == messages + [Body(s)] + Messages(After(s))
    ensures |After(s)| < |s|
  {
    assert messages + ([Body(s)] + Messages(After(s))) == messages + [Body(s)] + Messages(After(s));
  }

  method DecodeAll(file: File) returns (messages: seq<seq<Byte>>)
    requires file.Valid()
    modifies file`pos
    ensures messages == Messages(old(file.Rest()))
  {
    messages := [];
    ghost var s := file.Rest();
    while true
      invariant file.Valid() && messages + Messages(file.Rest()) == Messages(s)
      decreases |file.Rest()|
    {
      ghost var t := file.Rest();
      var message := DecodeMessage(file);
      if message.None? {
        assert messages + [] == messages;
        return;
      }
      NextMessage(messages, t);
      messages := messages + [message.value];
    }
  }

  // ---- What is read back ----

  lemma {:induction false} HeaderOfEncode(v: nat, rest: seq<Byte>)
    ensures Header(Encoding(v) + rest) == |Encoding(v)|
  {
    EncodingIsCanonical(v);
    HeaderScan(Encoding(v) + rest, |Encoding(v)| - 1);
  }

  lemma {:induction false} SizeOfByte(v: Byte, rest: seq<Byte>)
    requires v < 128
    ensures Header([v] + rest) == 1 && Size([v] + rest) == v
  {
    var s := [v] + rest;
    assert s[..1] == [v] && [v][..0] == [];
    assert Overlay([v]) == Or(Overlay([]), v % 128);
  }

  /** Whatever follows, decoding takes exactly the bytes written for v, and the
      number it gives is v exactly if v fits one byte. */
  lemma {:induction false} DecodeOfEncode(v: nat, rest: seq<Byte>)
    ensures Header(Encoding(v) + rest) == |Encoding(v)|
    ensures Size(Encoding(v) + rest) == v <==> v < 128
    ensures Size(Encoding(v) + rest) < 128
  {
    HeaderOfEncode(v, rest);
    OverlayBound((Encoding(v) + rest)[..|Encoding(v)|]);
    if v < 128 {
      SizeOfByte(v, rest);
    }
  }

  function Encoded(ms: seq<seq<Byte>>): seq<Byte> {
    if ms == [] then [] else Encoding(|ms[0]|) + (ms[0] + Encoded(ms[1..]))
  }

  lemma {:induction false} ShortMessage(m: seq<Byte>, rest: seq<Byte>)
    requires 1 <= |m| < 128
    ensures var s := [|m|] + (m + rest); Size(s) != 0 && Body(s) == m && After(s) == rest
  {
    var s := [|m|] + (m + rest);
    SizeOfByte(|m|, m + rest);
    assert s[1..1 + |m|] == m && s[1 + |m|..] == rest;
  }

  lemma {:induction false} FirstMessage(m: seq<Byte>, rest: seq<Byte>)
    ensures var s := Encoding(|m|) + (m + rest);
            && (1 <= |m| < 128 ==> Size(s) != 0 && Body(s) == m && After(s) == rest)
            && (Size(s) != 0 && Body(s) == m ==> 1 <= |m| < 128)
  {
    DecodeOfEncode(|m|, m + rest);
    if 1 <= |m| < 128 {
      ShortMessage(m, rest);
    }
  }

  /** A stream of messages is read back as it was written exactly if every message
      has 1 to 127 bytes. */
  lemma {:induction false} StreamRoundTrip(ms: seq<seq<Byte>>)
    ensures Messages(Encoded(ms)) == ms <==> forall k :: 0 <= k < |ms| ==> 1 <= |ms[k]| < 128
  {
    if ms == [] {
      assert Header([]) == 0 && Overlay([]) == 0;
    } else {
      StreamRoundTrip(ms[1..]);
      var s := Encoded(ms);
      FirstMessage(ms[0], Encoded(ms[1..]));
      assert ms == [ms[0]] + ms[1..];
      if Messages(s) == ms {
        assert Size(s) != 0;
        assert Body(s) == Messages(s)[0] == ms[0];
        assert Messages(After(s)) == Messages(s)[1..];
        assert forall k :: 1 <= k < |ms| ==> ms[k] == ms[1..][k - 1];
      }
    }
  }
}
