/** Two-line element validation (NORAD two-line element format): the checksum loop and
    what a valid checksum protects a line against. Characters stand for bytes. */
module Tle {
  import opened Wrappers

  const ZERO: byte := 48
  const NINE: byte := 57
  const MINUS: byte := 45
  const SPACE: byte := 32
  const ONE: byte := 49
  const TWO: byte := 50
  /** 'U', 'C', 'S', 'T', 'B', 'D', '?' and ' '. */
  const CLASSIFICATIONS: set<byte> := {85, 67, 83, 84, 66, 68, 63, 32}

  datatype LineError =
    | BadLength
    | BadLineNumber
    | MissingSpace
    | BadClassification
    | BadEpoch
    | BadChecksumCharacter
    | ChecksumMismatch
    | BadMeanMotion
    | MeanMotionNotPositive

  datatype TleError = Line1(error: LineError) | Line2(error: LineError) | SatelliteMismatch

  /** The library's float parser and space trimmer, which are outside this model. */
  datatype Text = Text(parseFloat: seq<byte> -> Option<real>, trim: seq<byte> -> seq<byte>)

  predicate IsDigit(c: byte) { ZERO <= c <= NINE }

  function Weight(c: byte): (w: int)
    ensures 0 <= w <= 9
  {
    if IsDigit(c) then (c - ZERO) as int else if c == MINUS then 1 else 0
  }

  function Sum(line: seq<byte>): nat {
    if line == [] then 0 else Sum(line[..|line| - 1]) + Weight(line[|line| - 1])
  }

  method ComputeChecksum(line: seq<byte>) returns (sum: int)
    ensures sum == Sum(line) % 10
  {
    sum := 0;
    for i := 0 to |line|
      invariant sum == Sum(line[..i])
    {
      assert line[..i + 1][..i] == line[..i];
      if ZERO <= line[i] && line[i] <= NINE {
        sum := sum + (line[i] - ZERO) as int;
      } else if line[i] == MINUS {
        sum := sum + 1;
      }
    }
    assert line[..|line|] == line;
    sum := sum % 10;
  }

  /** Byte subtraction wraps around below zero. */
  function WrappingSub(a: byte, b: byte): (r: byte)
    ensures (r as int - (a as int - b as int)) % 256 == 0
  {
    ((a as int - b as int) % 256) as byte
  }

  function CheckLine(line: seq<byte>, lineNumber: byte, text: Text): Option<LineError> {
    if |line| != 69 then Some(BadLength)
    else if line[0] != lineNumber then Some(BadLineNumber)
    else if line[1] != SPACE then Some(MissingSpace)
    else if line[7] !in CLASSIFICATIONS then Some(BadClassification)
    else if lineNumber == ONE && text.parseFloat(line[18..32]).None? then Some(BadEpoch)
    else if WrappingSub(line[68], ZERO) > 9 then Some(BadChecksumCharacter)
    else if Sum(line[..68]) % 10 != WrappingSub(line[68], ZERO) as int then Some(ChecksumMismatch)
    else if lineNumber == TWO then
      match text.parseFloat(text.trim(line[52..63]))
      case None => Some(BadMeanMotion)
      case Some(motion) => if motion <= 0.0 then Some(MeanMotionNotPositive) else None
    else None
  }

  method ValidateLine(line: seq<byte>, lineNumber: byte, text: Text) returns (error: Option<LineError>)
    ensures error == CheckLine(line, lineNumber, text)
    ensures error.None? ==> |line| == 69 && IsDigit(line[68]) && Sum(line[..68]) % 10 == Weight(line[68])
  {
    if |line| != 69 { return Some(BadLength); }
    if line[0] != lineNumber { return Some(BadLineNumber); }
    if line[1] != SPACE { return Some(MissingSpace); }
    if line[7] !in CLASSIFICATIONS { return Some(BadClassification); }
    if lineNumber == ONE && text.parseFloat(line[18..32]).None? { return Some(BadEpoch); }
    var expected := WrappingSub(line[68], ZERO);
    if expected > 9 { return Some(BadChecksumCharacter); }
    ChecksumCharacter(line[68]);
    var computed := ComputeChecksum(line[..68]);
    if computed != expected as int { return Some(ChecksumMismatch); }
    if lineNumber == TWO {
      var motion := text.parseFloat(text.trim(line[52..63]));
      if motion.None? { return Some(BadMeanMotion); }
      if motion.value <= 0.0 { return Some(MeanMotionNotPositive); }
    }
    return None;
  }

  function Validate(line1: seq<byte>, line2: seq<byte>, text: Text): Option<TleError> {
    var e1 := CheckLine(line1, ONE, text);
    if e1.Some? then Some(Line1(e1.value)) else
      var e2 := CheckLine(line2, TWO, text);
      if e2.Some? then Some(Line2(e2.value))
      else if text.trim(line1[2..7]) != text.trim(line2[2..7]) then Some(SatelliteMismatch)
      else None
  }

  /** The checksum counts each digit for its value, each minus for one, and nothing else. */
  lemma {:induction false} SumMeaning(line: seq<byte>)
    ensures var m := multiset(line);
      Sum(line) == m[45] + m[49] + 2 * m[50] + 3 * m[51] + 4 * m[52] + 5 * m[53] + 6 * m[54] + 7 * m[55] + 8 * m[56] + 9 * m[57]
  {
    if line != [] {
      var n := |line| - 1;
      SumMeaning(line[..n]);
      assert line == line[..n] + [line[n]];
      assert multiset(line) == multiset(line[..n]) + multiset{line[n]};
    }
  }

  /** What a valid line is: its length, number, separator, classification and numbers are right,
      and its last character is the digit that the others sum to. */
  lemma AcceptedIff(line: seq<byte>, lineNumber: byte, text: Text)
    ensures CheckLine(line, lineNumber, text).None? <==>
      && |line| == 69 && line[0] == lineNumber && line[1] == 32
      && (line[7] == 85 || line[7] == 67 || line[7] == 83 || line[7] == 84 || line[7] == 66 || line[7] == 68
          || line[7] == 63 || line[7] == 32)
      && 48 <= line[68] <= 57 && Sum(line[..68]) % 10 == line[68] as int - 48
      && (lineNumber == 49 ==> text.parseFloat(line[18..32]).Some?)
      && (lineNumber == 50 ==>
            var motion := text.parseFloat(text.trim(line[52..63]));
            motion.Some? && motion.value > 0.0)
  {
    if |line| == 69 { ChecksumCharacter(line[68]); }
    hide Sum;
  }

  /** The wrapped subtraction accepts exactly the ten digits, also for characters below '0'. */
  lemma ChecksumCharacter(c: byte)
    ensures WrappingSub(c, ZERO) <= 9 <==> IsDigit(c)
    ensures IsDigit(c) ==> WrappingSub(c, ZERO) as int == Weight(c)
  {
  }

  lemma {:induction false} SumOfUpdate(line: seq<byte>, i: nat, c: byte)
    requires i < |line|
    ensures Sum(line[i := c]) == Sum(line) - Weight(line[i]) + Weight(c)
  {
    var last := |line| - 1;
    if i == last {
      assert line[i := c][..last] == line[..last];
    } else {
      assert line[i := c][..last] == line[..last][i := c];
      SumOfUpdate(line[..last], i, c);
    }
  }

  /** Exactly which single-character replacements the checksum cannot see. */
  lemma ReplacementUndetectedIff(line: seq<byte>, i: nat, c: byte)
    requires i < |line|
    ensures Sum(line[i := c]) % 10 == Sum(line) % 10 <==> Weight(c) == Weight(line[i])
  {
    SumOfUpdate(line, i, c);
    ModDiffers(Sum(line) - Weight(line[i]), Weight(line[i]), Weight(c));
  }

  lemma ModDiffers(n: int, a: int, b: int)
    requires 0 <= a <= 9 && 0 <= b <= 9
    ensures (n + b) % 10 == (n + a) % 10 <==> b == a
  {
    var q, r := n / 10, n % 10;
    assert n + a == 10 * q + (r + a) && n + b == 10 * q + (r + b);
  }

  /** Replacing one digit of an accepted line by another digit makes it rejected. */
  lemma SingleDigitErrorDetected(line: seq<byte>, lineNumber: byte, text: Text, i: nat, d: byte)
    requires lineNumber == ONE || lineNumber == TWO
    requires CheckLine(line, lineNumber, text).None?
    requires i < |line| && IsDigit(line[i]) && IsDigit(d) && d != line[i]
    ensures CheckLine(line[i := d], lineNumber, text).Some?
  {
    var bad := line[i := d];
    ChecksumCharacter(line[68]);
    ChecksumCharacter(bad[68]);
    if i == 68 {
      assert bad[..68] == line[..68];
    } else {
      assert bad[..68] == line[..68][i := d];
      ReplacementUndetectedIff(line[..68], i, d);
    }
  }

  /** A set is accepted when both lines are and both name the same satellite. */
  lemma SetAcceptedIff(line1: seq<byte>, line2: seq<byte>, text: Text)
    ensures Validate(line1, line2, text).None? <==>
      && CheckLine(line1, 49, text).None? && CheckLine(line2, 50, text).None?
      && text.trim(line1[2..7]) == text.trim(line2[2..7])
  {
    hide CheckLine;
    LineLength(line1, ONE, text);
    LineLength(line2, TWO, text);
  }

  lemma LineLength(line: seq<byte>, lineNumber: byte, text: Text)
    ensures CheckLine(line, lineNumber, text).None? ==> |line| == 69
  {
  }

  /** The same for a whole element set: a one-digit error in either line is rejected. */
  lemma SingleDigitErrorInSetDetected(line1: seq<byte>, line2: seq<byte>, text: Text, i: nat, d: byte)
    requires Validate(line1, line2, text).None?
    requires i < 69 && IsDigit(d)
    ensures IsDigit(line1[i]) && line1[i] != d ==> Validate(line1[i := d], line2, text).Some?
    ensures IsDigit(line2[i]) && line2[i] != d ==> Validate(line1, line2[i := d], text).Some?
  {
    if IsDigit(line1[i]) && line1[i] != d {
      SingleDigitErrorDetected(line1, ONE, text, i, d);
    }
    if IsDigit(line2[i]) && line2[i] != d {
      SingleDigitErrorDetected(line2, TWO, text, i, d);
    }
  }
}
