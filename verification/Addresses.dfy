/**
  address.go: account addresses and their printed form. SHAKE256 is a parameter:
  any function from bytes to digests of the right length. Text is ASCII.
 */
module Addresses {
  import opened Sums

  type Byte = x: int | 0 <= x < 256
  type Digest4 = d: seq<Byte> | |d| == 4 witness [0, 0, 0, 0]
  type Digest20 = d: seq<Byte> | |d| == 20 witness seq(20, _ => 0)

  datatype Hasher = Hasher(checksum: seq<Byte> -> Digest4, shorten: seq<Byte> -> Digest20)

  const PERSONAL: Byte := 1
  const JOINT: Byte := 2

  datatype Address = Address(code: string, kind: Byte, hash: seq<Byte>)

  // ---- text ----

  function UpperChar(c: char): char {
    if 'a' <= c <= 'z' then (c as int - 32) as char else c
  }

  function LowerChar(c: char): char {
    if 'A' <= c <= 'Z' then (c as int + 32) as char else c
  }

  function ToUpper(s: string): (r: string)
    ensures |r| == |s|
  {
    seq(|s|, i requires 0 <= i < |s| => UpperChar(s[i]))
  }

  function ToLower(s: string): (r: string)
    ensures |r| == |s|
  {
    seq(|s|, i requires 0 <= i < |s| => LowerChar(s[i]))
  }

  function Bytes(s: string): seq<Byte> {
    seq(|s|, i requires 0 <= i < |s| => s[i] as int % 256)
  }

  predicate CodeChar(c: char) {
    'A' <= c <= 'Z' || '0' <= c <= '9'
  }

  // token.go ValidateTokenCode
  function ValidateTokenCode(code: string): Option<string> {
    var u := ToUpper(code);
    if 3 <= |u| <= 6 && forall i :: 0 <= i < |u| ==> CodeChar(u[i]) then Some(u) else None
  }

  // ---- hexadecimal ----

  function HexDigit(n: int, upper: bool): char
    requires 0 <= n < 16
  {
    if n < 10 then ('0' as int + n) as char
    else if upper then ('A' as int + n - 10) as char
    else ('a' as int + n - 10) as char
  }

  function HexValue(c: char): (r: Option<int>)
    ensures r.Some? ==> 0 <= r.value < 16
  {
    if '0' <= c <= '9' then Some(c as int - '0' as int)
    else if 'a' <= c <= 'f' then Some(c as int - 'a' as int + 10)
    else if 'A' <= c <= 'F' then Some(c as int - 'A' as int + 10)
    else None
  }

  function HexEncode(b: seq<Byte>, upper: bool): (s: string)
    ensures |s| == 2 * |b|
  {
    if b == [] then ""
    else [HexDigit(b[0] / 16, upper), HexDigit(b[0] % 16, upper)] + HexEncode(b[1..], upper)
  }

  function HexDecode(s: string): (r: Option<seq<Byte>>)
    ensures r.Some? ==> |s| == 2 * |r.value|
  {
    if s == [] then Some([])
    else if |s| == 1 then None
    else
      match (HexValue(s[0]), HexValue(s[1]), HexDecode(s[2..]))
      case (Some(hi), Some(lo), Some(rest)) => Some([hi * 16 + lo] + rest)
      case _ => None
  }

  lemma {:induction false} DecodeEncode(b: seq<Byte>, upper: bool)
    ensures HexDecode(HexEncode(b, upper)) == Some(b)
  {
    if b != [] {
      DecodeEncode(b[1..], upper);
      assert HexEncode(b, upper)[2..] == HexEncode(b[1..], upper);
      assert [b[0]] + b[1..] == b;
    }
  }

  lemma DigitOfValue(c: char)
    requires HexValue(c).Some?
    ensures HexDigit(HexValue(c).value, true) == UpperChar(c)
    ensures HexDigit(HexValue(c).value, false) == LowerChar(c)
  {
  }

  lemma EncodeFirst(hi: int, lo: int, rest: seq<Byte>, upper: bool)
    requires 0 <= hi < 16 && 0 <= lo < 16
    ensures HexEncode([hi * 16 + lo] + rest, upper)
         == [HexDigit(hi, upper), HexDigit(lo, upper)] + HexEncode(rest, upper)
  {
    var b: seq<Byte> := [hi * 16 + lo] + rest;
    assert b[0] / 16 == hi && b[0] % 16 == lo && b[1..] == rest;
  }

  lemma CaseOfPair(s: string)
    requires |s| >= 2
    ensures ToUpper(s) == [UpperChar(s[0]), UpperChar(s[1])] + ToUpper(s[2..])
    ensures ToLower(s) == [LowerChar(s[0]), LowerChar(s[1])] + ToLower(s[2..])
  {
  }

  lemma {:induction false} EncodeDecode(s: string)
    requires HexDecode(s).Some?
    ensures HexEncode(HexDecode(s).value, true) == ToUpper(s)
    ensures HexEncode(HexDecode(s).value, false) == ToLower(s)
  {
    if s != [] {
      var hi, lo, rest := HexValue(s[0]).value, HexValue(s[1]).value, HexDecode(s[2..]).value;
      EncodeDecode(s[2..]);
      EncodeFirst(hi, lo, rest, true);
      EncodeFirst(hi, lo, rest, false);
      DigitOfValue(s[0]);
      DigitOfValue(s[1]);
      CaseOfPair(s);
    }
  }

  lemma {:induction false} EncodeUpper(b: seq<Byte>)
    ensures ToUpper(HexEncode(b, true)) == HexEncode(b, true)
  {
    DecodeEncode(b, true);
    EncodeDecode(HexEncode(b, true));
  }

  lemma {:induction false} EncodeConcat(a: seq<Byte>, b: seq<Byte>, upper: bool)
    ensures HexEncode(a + b, upper) == HexEncode(a, upper) + HexEncode(b, upper)
  {
    if a == [] {
      assert a + b == b;
    } else {
      EncodeConcat(a[1..], b, upper);
      assert (a + b)[1..] == a[1..] + b;
    }
  }

  lemma {:induction false} DecodeIgnoresCase(s: string)
    ensures HexDecode(ToUpper(s)) == HexDecode(s)
  {
    if |s| > 1 {
      DecodeIgnoresCase(s[2..]);
      assert ToUpper(s)[2..] == ToUpper(s[2..]);
    }
  }

  // ---- addresses ----

  function Checksum(h: Hasher, code: string, kind: Byte, id: seq<Byte>): Digest4 {
    h.checksum(Bytes(code) + [kind] + id)
  }

  function NewAddress(h: Hasher, code: string, kind: Byte, id: string): Address {
    var decoded := HexDecode(id);
    var idh := if decoded.Some? && |decoded.value| == 20 then decoded.value else h.shorten(Bytes(id));
    Address(code, kind, idh + Checksum(h, code, kind, idh))
  }

  // The source slices the first twenty bytes, which every parsed address has.
  function ID(a: Address): string {
    if |a.hash| < 20 then "" else HexEncode(a.hash[..20], false)
  }

  function ToString(a: Address): string {
    a.code + HexEncode([a.kind] + a.hash, true)
  }

  predicate Validate(h: Hasher, a: Address)
    requires |a.hash| >= 20
  {
    && ValidateTokenCode(a.code).Some?
    && (a.kind == PERSONAL || a.kind == JOINT)
    && |a.hash| >= 4 && a.hash[|a.hash| - 4..] == Checksum(h, a.code, a.kind, a.hash[..20])
  }

  function ParseAddress(h: Hasher, s: string): Option<Address> {
    var u := ToUpper(s);
    if |u| < 50 then None
    else
      var i := |u| - 50;
      match HexDecode(u[i..])
      case None => None
      case Some(d) =>
        var a := Address(u[..i], d[0], d[1..]);
        if Validate(h, a) then Some(a) else None
  }

  function ParseCode(s: string): Option<string> {
    if |s| < 50 then None else Some(ToUpper(s[..|s| - 50]))
  }

  // account.go Holder, on the document id of a personal account.
  function HolderOfId(s: string): string
    requires |s| >= 48
  {
    var i := |s| - 48;
    ToLower(s[i..i + 40])
  }

  // What every address kept in the ledger satisfies.
  predicate WellFormed(h: Hasher, a: Address) {
    |a.hash| == 24 && Validate(h, a) && ToUpper(a.code) == a.code
  }

  lemma UpperTwice(s: string)
    ensures ToUpper(ToUpper(s)) == ToUpper(s)
  {
  }

  lemma UpperOfString(a: Address)
    ensures ToUpper(ToString(a)) == ToUpper(a.code) + HexEncode([a.kind] + a.hash, true)
  {
    var x := HexEncode([a.kind] + a.hash, true);
    EncodeUpper([a.kind] + a.hash);
    assert ToUpper(a.code + x) == ToUpper(a.code) + ToUpper(x);
  }

  // Parsing gives back exactly the well-formed addresses from their printed form.
  lemma ParseInvertsString(h: Hasher, a: Address)
    requires |a.hash| == 24
    ensures ParseAddress(h, ToString(a)) == Some(a) <==> WellFormed(h, a)
  {
    var x := HexEncode([a.kind] + a.hash, true);
    UpperOfString(a);
    DecodeEncode([a.kind] + a.hash, true);
    var u := ToUpper(ToString(a));
    assert u[..|u| - 50] == ToUpper(a.code) && u[|u| - 50..] == x;
    assert ([a.kind] + a.hash)[1..] == a.hash;
    UpperTwice(a.code);
  }

  // A parsed address is well formed, and prints as the upper-case input.
  lemma StringOfParsed(h: Hasher, s: string)
    requires ParseAddress(h, s).Some?
    ensures WellFormed(h, ParseAddress(h, s).value)
    ensures ToString(ParseAddress(h, s).value) == ToUpper(s)
  {
    var u := ToUpper(s);
    var i := |u| - 50;
    var d := HexDecode(u[i..]).value;
    EncodeDecode(u[i..]);
    UpperTwice(s);
    assert ToUpper(u[i..]) == ToUpper(u)[i..];
    assert ToUpper(u[..i]) == ToUpper(u)[..i];
    assert [d[0]] + d[1..] == d;
    assert u[..i] + u[i..] == u;
  }

  // Two addresses are equal exactly when their printed forms, the ledger keys, are.
  lemma EqualExactlyWhenStringsEqual(a: Address, b: Address)
    requires |a.hash| == 24 && |b.hash| == 24
    ensures a == b <==> ToString(a) == ToString(b)
  {
    if ToString(a) == ToString(b) {
      var s := ToString(a);
      var x, y := [a.kind] + a.hash, [b.kind] + b.hash;
      assert s[|s| - 50..] == HexEncode(x, true);
      assert ToString(b)[|s| - 50..] == HexEncode(y, true);
      assert a.code == s[..|s| - 50] && b.code == ToString(b)[..|s| - 50];
      DecodeEncode(x, true);
      DecodeEncode(y, true);
      assert x[0] == y[0] && x[1..] == y[1..];
    }
  }

  lemma NewAddressWellFormed(h: Hasher, code: string, kind: Byte, id: string)
    requires ValidateTokenCode(code) == Some(code) && (kind == PERSONAL || kind == JOINT)
    ensures WellFormed(h, NewAddress(h, code, kind, id))
  {
    var a := NewAddress(h, code, kind, id);
    assert a.hash[..20] + a.hash[20..] == a.hash;
  }

  predicate IsKid(kid: string) {
    |kid| == 40 && HexDecode(kid).Some? && ToLower(kid) == kid
  }

  lemma LowerOfHex(b: seq<Byte>)
    ensures ToLower(HexEncode(b, true)) == HexEncode(b, false)
    ensures ToLower(HexEncode(b, false)) == HexEncode(b, false)
  {
    DecodeEncode(b, true);
    EncodeDecode(HexEncode(b, true));
    DecodeEncode(b, false);
    EncodeDecode(HexEncode(b, false));
  }

  // The holder read from the stored id is the ID of the address, and the code parses back.
  lemma HolderIsID(a: Address)
    requires |a.hash| == 24
    ensures HolderOfId(ToString(a)) == ID(a)
    ensures ParseCode(ToString(a)) == Some(ToUpper(a.code))
  {
    var s := ToString(a);
    var x := HexEncode([a.kind] + a.hash, true);
    EncodeConcat([a.kind], a.hash, true);
    EncodeConcat(a.hash[..20], a.hash[20..], true);
    assert a.hash[..20] + a.hash[20..] == a.hash;
    assert s[|s| - 48..|s| - 8] == HexEncode(a.hash[..20], true);
    LowerOfHex(a.hash[..20]);
    assert s[..|s| - 50] == a.code;
  }

  // A personal account recognises its creator exactly when the creator's id is a
  // KID: forty lower-case hexadecimal digits.
  lemma HolderRecoversKid(h: Hasher, code: string, kid: string)
    ensures HolderOfId(ToString(NewAddress(h, code, PERSONAL, kid))) == kid <==> IsKid(kid)
  {
    var a := NewAddress(h, code, PERSONAL, kid);
    HolderIsID(a);
    DecodeEncode(a.hash[..20], false);
    LowerOfHex(a.hash[..20]);
    if IsKid(kid) {
      EncodeDecode(kid);
      assert a.hash[..20] == HexDecode(kid).value;
    }
  }
}
