/** Standard Base64 with padding (section 4 of RFC 4648), as the source's decoder reads it:
    line breaks are skipped, padding is required, and unused trailing bits are ignored. */
module Base64 {
  import opened Wrappers

  newtype sextet = x: int | 0 <= x < 64

  function Symbol(x: sextet): char {
    if x < 26 then 'A' + x as char
    else if x < 52 then 'a' + (x - 26) as char
    else if x < 62 then '0' + (x - 52) as char
    else if x == 62 then '+'
    else '/'
  }

  function Value(c: char): Option<sextet> {
    if 'A' <= c <= 'Z' then Some((c as int - 'A' as int) as sextet)
    else if 'a' <= c <= 'z' then Some((c as int - 'a' as int + 26) as sextet)
    else if '0' <= c <= '9' then Some((c as int - '0' as int + 52) as sextet)
    else if c == '+' then Some(62)
    else if c == '/' then Some(63)
    else None
  }

  lemma SymbolValue(x: sextet)
    ensures Value(Symbol(x)) == Some(x)
    ensures Symbol(x) != '=' && Symbol(x) != '\n' && Symbol(x) != '\r'
  {
  }

  // The four 6-bit groups of three bytes, and back.

  function S0(a: byte): sextet { (a as int / 4) as sextet }
  function S1(a: byte, b: byte): sextet { (a as int % 4 * 16 + b as int / 16) as sextet }
  function S2(b: byte, c: byte): sextet { (b as int % 16 * 4 + c as int / 64) as sextet }
  function S3(c: byte): sextet { (c as int % 64) as sextet }

  function B0(p: sextet, q: sextet): byte { (p as int * 4 + q as int / 16) as byte }
  function B1(q: sextet, r: sextet): byte { (q as int % 16 * 16 + r as int / 4) as byte }
  function B2(r: sextet, s: sextet): byte { (r as int % 4 * 64 + s as int) as byte }

  lemma GroupRoundTrip(a: byte, b: byte, c: byte)
    ensures B0(S0(a), S1(a, b)) == a && B1(S1(a, b), S2(b, c)) == b && B2(S2(b, c), S3(c)) == c
  {
  }

  function Encode(data: seq<byte>): string {
    if data == [] then ""
    else if |data| == 1 then
      [Symbol(S0(data[0])), Symbol(S1(data[0], 0)), '=', '=']
    else if |data| == 2 then
      [Symbol(S0(data[0])), Symbol(S1(data[0], data[1])), Symbol(S2(data[1], 0)), '=']
    else
      [Symbol(S0(data[0])), Symbol(S1(data[0], data[1])), Symbol(S2(data[1], data[2])), Symbol(S3(data[2]))]
      + Encode(data[3..])
  }

  function SkipNewlines(s: string): string {
    if s == "" then ""
    else if s[0] == '\n' || s[0] == '\r' then SkipNewlines(s[1..])
    else [s[0]] + SkipNewlines(s[1..])
  }

  function DecodeGroups(s: string): Option<seq<byte>> {
    if s == "" then Some([])
    else if |s| < 4 then None
    else
      var p, q, r, t := Value(s[0]), Value(s[1]), Value(s[2]), Value(s[3]);
      if p.None? || q.None? then None
      else if s[2] == '=' then
        if s[3] == '=' && |s| == 4 then Some([B0(p.value, q.value)]) else None
      else if r.None? then None
      else if s[3] == '=' then
        if |s| == 4 then Some([B0(p.value, q.value), B1(q.value, r.value)]) else None
      else if t.None? then None
      else
        var rest := DecodeGroups(s[4..]);
        if rest.None? then None
        else Some([B0(p.value, q.value), B1(q.value, r.value), B2(r.value, t.value)] + rest.value)
  }

  function Decode(s: string): Option<seq<byte>> {
    DecodeGroups(SkipNewlines(s))
  }

  ghost predicate NoNewlines(s: string) {
    '\n' !in s && '\r' !in s
  }

  lemma {:induction false} SkipNothing(s: string)
    requires NoNewlines(s)
    ensures SkipNewlines(s) == s
  {
    if s != "" {
      assert NoNewlines(s[1..]);
      SkipNothing(s[1..]);
    }
  }

  lemma FullGroup(a: byte, b: byte, c: byte, s: string)
    ensures var g := [Symbol(S0(a)), Symbol(S1(a, b)), Symbol(S2(b, c)), Symbol(S3(c))];
            && NoNewlines(g)
            && DecodeGroups(g + s) ==
                 if DecodeGroups(s).None? then None else Some([a, b, c] + DecodeGroups(s).value)
  {
    SymbolValue(S0(a));
    SymbolValue(S1(a, b));
    SymbolValue(S2(b, c));
    SymbolValue(S3(c));
    GroupRoundTrip(a, b, c);
    var g := [Symbol(S0(a)), Symbol(S1(a, b)), Symbol(S2(b, c)), Symbol(S3(c))];
    assert (g + s)[4..] == s;
  }

  lemma DoublePadding(p: sextet, q: sextet)
    ensures NoNewlines([Symbol(p), Symbol(q), '=', '='])
    ensures DecodeGroups([Symbol(p), Symbol(q), '=', '=']) == Some([B0(p, q)])
  {
    SymbolValue(p);
    SymbolValue(q);
  }

  lemma OneByte(a: byte)
    ensures NoNewlines(Encode([a]))
    ensures DecodeGroups(Encode([a])) == Some([a])
  {
    DoublePadding(S0(a), S1(a, 0));
    assert B0(S0(a), S1(a, 0)) == a;
  }

  lemma TwoBytes(a: byte, b: byte)
    ensures NoNewlines(Encode([a, b]))
    ensures DecodeGroups(Encode([a, b])) == Some([a, b])
  {
    SymbolValue(S0(a));
    SymbolValue(S1(a, b));
    SymbolValue(S2(b, 0));
    GroupRoundTrip(a, b, 0);
    assert Encode([a, b]) == [Symbol(S0(a)), Symbol(S1(a, b)), Symbol(S2(b, 0)), '='];
  }

  lemma {:induction false} GroupsRoundTrip(data: seq<byte>)
    ensures NoNewlines(Encode(data))
    ensures DecodeGroups(Encode(data)) == Some(data)
  {
    if data == [] {
    } else if |data| == 1 {
      OneByte(data[0]);
      assert data == [data[0]];
    } else if |data| == 2 {
      TwoBytes(data[0], data[1]);
      assert data == [data[0], data[1]];
    } else {
      GroupsRoundTrip(data[3..]);
      FullGroup(data[0], data[1], data[2], Encode(data[3..]));
      assert data == [data[0], data[1], data[2]] + data[3..];
    }
  }

  /** Decoding undoes encoding for every byte string. */
  lemma RoundTrip(data: seq<byte>)
    ensures Decode(Encode(data)) == Some(data)
  {
    GroupsRoundTrip(data);
    SkipNothing(Encode(data));
  }

  const UPPER := "ABCDEFGHIJKLMNOPQRSTUVWXYZ"
  const LOWER := "abcdefghijklmnopqrstuvwxyz"
  const ALPHABET := UPPER + LOWER + "0123456789+/"

  lemma UpperIs(x: nat)
    requires x < 26
    ensures |UPPER| == 26 && UPPER[x] == 'A' + x as char
  {
    assert UPPER[0] == 'A' && UPPER[25] == 'Z';
  }

  lemma LowerIs(x: nat)
    requires x < 26
    ensures |LOWER| == 26 && LOWER[x] == 'a' + x as char
  {
    assert LOWER[0] == 'a' && LOWER[25] == 'z';
  }

  lemma SymbolIs(x: sextet)
    ensures |ALPHABET| == 64 && Symbol(x) == ALPHABET[x]
  {
    var i := if x < 26 then x as nat else if x < 52 then (x - 26) as nat else 0;
    UpperIs(i);
    LowerIs(i);
    var rest := "0123456789+/";
    assert x >= 52 ==> ALPHABET[x] == rest[x - 52];
    assert rest[0] == '0' && rest[9] == '9' && rest[10] == '+' && rest[11] == '/';
    hide UPPER, LOWER;
  }

  lemma GroupNumber(a: byte, b: byte, c: byte)
    ensures a as int * 65536 + b as int * 256 + c as int
         == S0(a) as int * 262144 + S1(a, b) as int * 4096 + S2(b, c) as int * 64 + S3(c) as int
  {
  }

  /** Every three bytes become four characters of the alphabet, the digits of their number to
      base 64. */
  lemma {:induction false} GroupIs(data: seq<byte>, k: nat) returns (p: nat, q: nat, r: nat, t: nat)
    requires 3 * k + 3 <= |data|
    ensures p < 64 && q < 64 && r < 64 && t < 64
    ensures data[3 * k] as int * 65536 + data[3 * k + 1] as int * 256 + data[3 * k + 2] as int
         == p * 262144 + q * 4096 + r * 64 + t
    ensures 4 * k + 4 <= |Encode(data)| && |ALPHABET| == 64
    ensures Encode(data)[4 * k..4 * k + 4] == [ALPHABET[p], ALPHABET[q], ALPHABET[r], ALPHABET[t]]
  {
    hide Symbol, S0, S1, S2, S3, ALPHABET;
    if k > 0 {
      p, q, r, t := GroupIs(data[3..], k - 1);
      assert Encode(data)[4 * k..4 * k + 4] == Encode(data[3..])[4 * k - 4..4 * k];
    } else {
      var (a, b, c) := (data[0], data[1], data[2]);
      p, q, r, t := S0(a) as nat, S1(a, b) as nat, S2(b, c) as nat, S3(c) as nat;
      SymbolIs(S0(a));
      SymbolIs(S1(a, b));
      SymbolIs(S2(b, c));
      SymbolIs(S3(c));
      GroupNumber(a, b, c);
      assert Encode(data)[..4] == [Symbol(S0(a)), Symbol(S1(a, b)), Symbol(S2(b, c)), Symbol(S3(c))];
    }
  }
}
