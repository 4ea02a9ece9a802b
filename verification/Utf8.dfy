/**
 * UTF-8 as services/uploads.py uses it (section 3 of RFC 3629): encode a name, cut its bytes, decode
 * what is left while ignoring what cannot be read.
 */
module Utf8 {
  newtype byte = b: int | 0 <= b < 256

  function Width(c: char): (n: nat)
    ensures 1 <= n <= 4
  {
    if c < '\U{80}' then 1 else if c < '\U{800}' then 2 else if c < '\U{10000}' then 3 else 4
  }

  function EncodeChar(c: char): (bytes: seq<byte>)
    ensures |bytes| == Width(c)
  {
    var v := c as int;
    if c < '\U{80}' then [v as byte]
    else if c < '\U{800}' then [(0xC0 + v / 64) as byte, Continuation(v)]
    else if c < '\U{10000}' then [(0xE0 + v / 4096) as byte, Continuation(v / 64), Continuation(v)]
    else [(0xF0 + v / 262144) as byte, Continuation(v / 4096), Continuation(v / 64), Continuation(v)]
  }

  function Continuation(v: int): byte { (0x80 + v % 64) as byte }

  function Encode(s: string): seq<byte> {
    if s == "" then [] else EncodeChar(s[0]) + Encode(s[1..])
  }

  /** How many bytes a sequence with this first byte has; 0 if none begins with it. */
  function Need(b: byte): nat {
    if b < 0x80 then 1
    else if b < 0xC0 then 0
    else if b < 0xE0 then 2
    else if b < 0xF0 then 3
    else if b < 0xF8 then 4
    else 0
  }

  predicate Continues(b: byte) { 0x80 <= b < 0xC0 }

  function Payload(b: byte): int { b as int - 0x80 }

  /** The number a sequence spells, whether or not it may. */
  function Spelled(bytes: seq<byte>): int
    requires bytes != [] && |bytes| == Need(bytes[0])
  {
    var lead := bytes[0] as int;
    if |bytes| == 1 then lead
    else if |bytes| == 2 then (lead - 0xC0) * 64 + Payload(bytes[1])
    else if |bytes| == 3 then (lead - 0xE0) * 4096 + Payload(bytes[1]) * 64 + Payload(bytes[2])
    else (lead - 0xF0) * 262144 + Payload(bytes[1]) * 4096 + Payload(bytes[2]) * 64 + Payload(bytes[3])
  }

  predicate IsScalar(v: int) { 0 <= v < 0xD800 || 0xE000 <= v < 0x110000 }

  /** The bytes begin with a complete sequence: the shortest spelling of a scalar value. */
  predicate BeginsChar(bytes: seq<byte>) {
    && bytes != []
    && var n := Need(bytes[0]);
    && 1 <= n <= |bytes|
    && (forall i :: 1 <= i < n ==> Continues(bytes[i]))
    && IsScalar(Spelled(bytes[..n]))
    && Width(Spelled(bytes[..n]) as char) == n
  }

  /** `bytes.decode("utf-8", "ignore")`. */
  function DecodeIgnore(bytes: seq<byte>): string {
    if bytes == [] then ""
    else if BeginsChar(bytes) then
      var n := Need(bytes[0]);
      [Spelled(bytes[..n]) as char] + DecodeIgnore(bytes[n..])
    else DecodeIgnore(bytes[1..])
  }

  /** The longest beginning of `s` whose encoding fits in `k` bytes. */
  function WholeChars(s: string, k: nat): string {
    if s == "" || Width(s[0]) > k then "" else [s[0]] + WholeChars(s[1..], k - Width(s[0]))
  }

  lemma EncodedCharBegins(c: char, rest: seq<byte>)
    ensures var bytes := EncodeChar(c) + rest; var n := Width(c);
      BeginsChar(bytes) && Need(bytes[0]) == n && Spelled(bytes[..n]) == c as int && bytes[n..] == rest
  {
    var bytes := EncodeChar(c) + rest;
    var n := Width(c);
    assert bytes[..n] == EncodeChar(c) && bytes[n..] == rest;
    EncodedCharSpells(c);
    assert forall i :: 0 <= i < n ==> bytes[i] == EncodeChar(c)[i];
  }

  lemma EncodedCharSpells(c: char)
    ensures var bytes := EncodeChar(c);
      Need(bytes[0]) == |bytes| && (forall i :: 1 <= i < |bytes| ==> Continues(bytes[i])) && Spelled(bytes) == c as int
  {
    var v := c as int;
    assert v / 4096 == v / 64 / 64 && v / 262144 == v / 64 / 64 / 64;
  }

  /** Bytes that only continue a sequence are all ignored. */
  lemma {:induction false} ContinuationsAreIgnored(bytes: seq<byte>)
    requires forall i :: 0 <= i < |bytes| ==> Continues(bytes[i])
    ensures DecodeIgnore(bytes) == ""
  {
    if bytes != [] { ContinuationsAreIgnored(bytes[1..]); }
  }

  lemma CutCharIsIgnored(c: char, k: nat)
    requires k < Width(c)
    ensures DecodeIgnore(EncodeChar(c)[..k]) == ""
  {
    var bytes := EncodeChar(c)[..k];
    EncodedCharSpells(c);
    if k > 0 {
      assert bytes[0] == EncodeChar(c)[0];
      ContinuationsAreIgnored(bytes[1..]);
    }
  }

  /** Cutting a text's bytes anywhere and decoding what is left keeps exactly the characters that
      still fit whole: none is split, replaced or lost before the cut. */
  lemma {:induction false} CutKeepsWholeChars(s: string, k: nat)
    requires k <= |Encode(s)|
    ensures DecodeIgnore(Encode(s)[..k]) == WholeChars(s, k)
    decreases |s|
  {
    if s != "" {
      var n := Width(s[0]);
      if k < n {
        assert Encode(s)[..k] == EncodeChar(s[0])[..k];
        CutCharIsIgnored(s[0], k);
      } else {
        var rest := Encode(s[1..])[..k - n];
        assert Encode(s)[..k] == EncodeChar(s[0]) + rest;
        EncodedCharBegins(s[0], rest);
        CutKeepsWholeChars(s[1..], k - n);
      }
    }
  }

  lemma {:induction false} WholeCharsIsLongest(s: string, k: nat)
    ensures WholeChars(s, k) <= s && |Encode(WholeChars(s, k))| <= k
    ensures WholeChars(s, k) != s ==> k < |Encode(s[..|WholeChars(s, k)| + 1])|
    decreases |s|
  {
    if s != "" && Width(s[0]) <= k {
      WholeCharsIsLongest(s[1..], k - Width(s[0]));
      var w := WholeChars(s[1..], k - Width(s[0]));
      var r := WholeChars(s, k);
      assert r[1..] == w;
      assert s == [s[0]] + s[1..];
      if r != s { assert s[..|r| + 1] == [s[0]] + s[1..][..|w| + 1] && s[..|r| + 1][1..] == s[1..][..|w| + 1]; }
    } else if s != "" {
      assert s[..1][0] == s[0];
    }
  }

  lemma {:induction false} EncodeConcat(s: string, t: string)
    ensures Encode(s + t) == Encode(s) + Encode(t)
  {
    if s == "" {
      assert s + t == t;
    } else {
      EncodeConcat(s[1..], t);
      assert (s + t)[1..] == s[1..] + t;
    }
  }

  /** What was encoded decodes to itself. */
  lemma EncodedReadsBack(s: string)
    ensures DecodeIgnore(Encode(s)) == s
  {
    CutKeepsWholeChars(s, |Encode(s)|);
    WholeCharsIsLongest(s, |Encode(s)|);
    if WholeChars(s, |Encode(s)|) != s {
      var n := |WholeChars(s, |Encode(s)|)| + 1;
      assert s == s[..n] + s[n..];
      EncodeConcat(s[..n], s[n..]);
    }
    assert Encode(s)[..|Encode(s)|] == Encode(s);
  }
}
