/** MongoDB ObjectIds as the handlers receive them: strings of 24 hexadecimal
    characters naming a 96-bit identifier. The store itself only compares
    identifiers, so an identifier is the number the string denotes. */
module ObjectIds {
  import opened Wrappers

  /** The identifier of a stored document. */
  type Id = nat

  /** Number of hexadecimal characters in the text form of an ObjectId. */
  const HexIdLength: nat := 24

  function Pow16(k: nat): (r: nat)
    ensures r >= 1
  {
    if k == 0 then 1 else 16 * Pow16(k - 1)
  }

  predicate IsHexDigit(c: char) {
    ('0' <= c <= '9') || ('a' <= c <= 'f') || ('A' <= c <= 'F')
  }

  predicate AllHex(s: string) {
    forall i :: 0 <= i < |s| ==> IsHexDigit(s[i])
  }

  /** The regular expression `^[0-9a-fA-F]{24}$`: exactly 24 characters, each a
      hexadecimal digit of either case. */
  predicate IsHexId(s: string) {
    |s| == HexIdLength && AllHex(s)
  }

  function DigitValue(c: char): (d: nat)
    requires IsHexDigit(c)
    ensures d < 16
  {
    if '0' <= c <= '9' then c as int - '0' as int
    else if 'a' <= c <= 'f' then c as int - 'a' as int + 10
    else c as int - 'A' as int + 10
  }

  /** The number a string of hexadecimal digits denotes, most significant first. */
  function HexValue(s: string): (v: nat)
    requires AllHex(s)
    ensures v < Pow16(|s|)
  {
    if s == [] then 0
    else 16 * HexValue(s[..|s| - 1]) + DigitValue(s[|s| - 1])
  }

  /** Reading a request string as an ObjectId: the string is accepted exactly when
      it is 24 hexadecimal digits, and then names a 96-bit identifier. */
  function ParseObjectId(s: string): (r: Option<Id>)
    ensures r.Some? <==> IsHexId(s)
    ensures r.Some? ==> r.value < Pow16(HexIdLength)
  {
    if IsHexId(s) then Some(HexValue(s)) else None
  }

  function HexChar(d: nat): (c: char)
    requires d < 16
    ensures IsHexDigit(c) && DigitValue(c) == d
    ensures !('A' <= c <= 'F')
  {
    if d < 10 then ('0' as int + d) as char else ('a' as int + d - 10) as char
  }

  /** The last `k` lower-case hexadecimal digits of `n`. */
  function HexDigits(n: nat, k: nat): (s: string)
    ensures |s| == k && AllHex(s)
  {
    if k == 0 then [] else HexDigits(n / 16, k - 1) + [HexChar(n % 16)]
  }

  /** The text form of an identifier (`toHexString`), as it appears in the JSON
      the server sends, e.g. the `_id` of a listed cart row. */
  function HexString(id: Id): (s: string)
    requires id < Pow16(HexIdLength)
    ensures IsHexId(s)
  {
    HexDigits(id, HexIdLength)
  }

  lemma {:induction false} HexDigitsValue(n: nat, k: nat)
    requires n < Pow16(k)
    ensures HexValue(HexDigits(n, k)) == n
  {
    if k > 0 {
      var s := HexDigits(n, k);
      assert n / 16 < Pow16(k - 1);
      HexDigitsValue(n / 16, k - 1);
      assert s[..|s| - 1] == HexDigits(n / 16, k - 1);
    }
  }

  /** An identifier the server hands out as text is read back as the same
      identifier when a client sends that text in a path or body. */
  lemma ParseHexStringRoundTrip(id: Id)
    requires id < Pow16(HexIdLength)
    ensures ParseObjectId(HexString(id)) == Some(id)
  {
    HexDigitsValue(id, HexIdLength);
  }
}
