/** Pagination cursors: Base64 of the JSON object {"offset":n}. */
module Cursor {
  import opened Wrappers
  import Base64

  const MAX_INT := 0x7FFF_FFFF_FFFF_FFFF
  const MIN_INT := -0x8000_0000_0000_0000

  /** A Go int on the platforms the server runs on. */
  type int64 = n: int | MIN_INT <= n <= MAX_INT

  /** The bytes of {"offset": up to the number. */
  const PREFIX: seq<byte> := [123, 34, 111, 102, 102, 115, 101, 116, 34, 58]
  const CLOSE: byte := 125
  const MINUS: byte := 45

  function Digits(n: nat): (s: seq<byte>)
    ensures s != []
  {
    if n < 10 then [(48 + n) as byte] else Digits(n / 10) + [(48 + n % 10) as byte]
  }

  function ParseDigits(s: seq<byte>): Option<nat> {
    if s == [] then Some(0)
    else
      var last := s[|s| - 1];
      var rest := ParseDigits(s[..|s| - 1]);
      if rest.None? || !(48 <= last <= 57) then None
      else Some(rest.value * 10 + (last - 48) as int)
  }

  function Marshal(n: int): seq<byte> {
    PREFIX + (if n < 0 then [MINUS] + Digits(-n) else Digits(n)) + [CLOSE]
  }

  /** A JSON integer: no leading zeros, an optional minus, and it must fit the field. */
  function ParseInteger(s: seq<byte>): Option<int64> {
    var negative := s != [] && s[0] == MINUS;
    var digits := if negative then s[1..] else s;
    if digits == [] || (digits[0] == 48 && |digits| > 1) then None
    else
      var magnitude := ParseDigits(digits);
      if magnitude.None? then None
      else
        var m: int := magnitude.value;
        var n := if negative then -m else m;
        if MIN_INT <= n <= MAX_INT then Some(n) else None
  }

  function Unmarshal(data: seq<byte>): Option<int64> {
    if |data| > |PREFIX| && data[..|PREFIX|] == PREFIX && data[|data| - 1] == CLOSE
    then ParseInteger(data[|PREFIX|..|data| - 1])
    else None
  }

  function EncodeCursor(offset: int64): string {
    Base64.Encode(Marshal(offset))
  }

  function DecodeCursor(cursor: string): Option<int64> {
    var data := Base64.Decode(cursor);
    if data.None? then None else Unmarshal(data.value)
  }

  lemma {:induction false} DigitsRoundTrip(n: nat)
    ensures ParseDigits(Digits(n)) == Some(n)
    ensures Digits(n)[0] != MINUS
    ensures Digits(n)[0] == 48 ==> n == 0
    ensures n == 0 ==> |Digits(n)| == 1
  {
    if n < 10 {
      assert ParseDigits([]) == Some(0);
      assert Digits(n)[..0] == [];
    } else {
      DigitsRoundTrip(n / 10);
      assert Digits(n)[..|Digits(n)| - 1] == Digits(n / 10);
    }
  }

  lemma UnmarshalOfMarshal(n: int)
    requires MIN_INT <= n <= MAX_INT
    ensures Unmarshal(Marshal(n)) == Some(n)
  {
    var magnitude: nat := if n < 0 then -n else n;
    DigitsRoundTrip(magnitude);
    var text := if n < 0 then [MINUS] + Digits(magnitude) else Digits(magnitude);
    var data := Marshal(n);
    assert data == PREFIX + text + [CLOSE];
    assert data[..|PREFIX|] == PREFIX;
    assert data[|PREFIX|..|data| - 1] == text;
    if n < 0 {
      assert text[1..] == Digits(magnitude);
    }
    DigitsLeadingZero(magnitude);
  }

  lemma DigitsLeadingZero(n: nat)
    ensures Digits(n)[0] == 48 ==> |Digits(n)| == 1
  {
    DigitsRoundTrip(n);
  }

  /** Every cursor the server issues is read back as the offset it was issued for. */
  lemma CursorRoundTrip(offset: int64)
    ensures DecodeCursor(EncodeCursor(offset)) == Some(offset)
    ensures EncodeCursor(offset) != ""
  {
    Base64.RoundTrip(Marshal(offset));
    UnmarshalOfMarshal(offset);
    assert Base64.Encode([]) == "";
  }

  lemma EncodeCursorInjective(m: int64, n: int64)
    requires EncodeCursor(m) == EncodeCursor(n)
    ensures m == n
  {
    CursorRoundTrip(m);
    CursorRoundTrip(n);
  }
}
