/** TwofacedPoker/Protocol/BetCommandParser.cpp: betting commands as text. Counts are read the way ISO C++
    section [charconv.from.chars] describes for a 32-bit int in base 10. */
module BetCommandParser {
  import opened Foundation

  const FRONT := "Front "
  const BACK := "Back "
  const BOTH := "Both "
  const DIE := "Die"
  const SPECIAL := "SPECIAL "

  const MAX_INT := 0x7FFF_FFFF
  const MIN_INT := -0x8000_0000

  predicate InInt(n: int) { MIN_INT <= n <= MAX_INT }

  predicate StartsWith(message: string, prefix: string) {
    |message| >= |prefix| && message[..|prefix|] == prefix
  }

  predicate IsDigit(c: char) { '0' <= c <= '9' }

  function Digit(c: char): nat
    requires IsDigit(c)
  {
    c as int - '0' as int
  }

  // ---- std::from_chars -----------------------------------------------------------------------

  // Where the digits stopped, what they amount to, and whether that exceeded the limit on the way.
  datatype Scanned = Scanned(end: nat, value: nat, overflow: bool)

  function ScanDigits(text: string, i: nat, acc: nat, overflow: bool, limit: nat): Scanned
    requires i <= |text|
    decreases |text| - i
  {
    if i == |text| || !IsDigit(text[i]) then Scanned(i, acc, overflow)
    else
      var more := acc * 10 + Digit(text[i]);
      if overflow || more > limit then ScanDigits(text, i + 1, acc, true, limit)
      else ScanDigits(text, i + 1, more, false, limit)
  }

  function ParseCount(text: string): Option<int> {
    if text == "" then None
    else
      var negative := text[0] == '-';
      var start := if negative then 1 else 0;
      var scan := ScanDigits(text, start, 0, false, if negative then -MIN_INT else MAX_INT);
      if scan.end == start || scan.overflow || scan.end != |text| then None
      else
        var value: int := scan.value;
        Some(if negative then -value else value)
  }

  // ---- numerals ------------------------------------------------------------------------------

  predicate AllDigits(s: string) { forall i :: 0 <= i < |s| ==> IsDigit(s[i]) }

  function Pow10(n: nat): nat { if n == 0 then 1 else 10 * Pow10(n - 1) }

  // The number that a string of digits denotes, by the places of its digits.
  function PlaceValue(s: string): nat
    requires AllDigits(s)
  {
    if s == "" then 0 else Digit(s[0]) * Pow10(|s| - 1) + PlaceValue(s[1..])
  }

  // text is a decimal numeral for n: an optional minus sign and at least one digit.
  predicate Denotes(text: string, n: int) {
    if StartsWith(text, "-") then |text| > 1 && AllDigits(text[1..]) && -n == PlaceValue(text[1..])
    else text != "" && AllDigits(text) && n == PlaceValue(text)
  }

  lemma Distribute(a: int, b: int, p: int)
    ensures a * (10 * p) + b * p == (a * 10 + b) * p
  {
    assert a * (10 * p) == (a * 10) * p;
  }

  lemma Grows(a: nat, p: nat)
    requires p >= 1
    ensures a * p >= a
  {
    assert a * p == a + a * (p - 1);
  }

  lemma {:induction false} ScanIsPlaceValue(text: string, i: nat, acc: nat, overflow: bool, limit: nat)
    requires i <= |text| && AllDigits(text[i..]) && acc <= limit
    ensures var scan, v := ScanDigits(text, i, acc, overflow, limit), acc * Pow10(|text| - i) + PlaceValue(text[i..]);
      && scan.end == |text|
      && (scan.overflow <==> overflow || v > limit)
      && (!scan.overflow ==> scan.value == v)
    decreases |text| - i
  {
    if i < |text| {
      assert text[i..][0] == text[i] && text[i..][1..] == text[i + 1..];
      var more, p := acc * 10 + Digit(text[i]), Pow10(|text| - i - 1);
      Distribute(acc, Digit(text[i]), p);
      assert acc * Pow10(|text| - i) + PlaceValue(text[i..]) == more * p + PlaceValue(text[i + 1..]);
      if overflow || more > limit {
        ScanIsPlaceValue(text, i + 1, acc, true, limit);
        PowIsPositive(|text| - i - 1);
        Grows(more, p);
      } else {
        ScanIsPlaceValue(text, i + 1, more, false, limit);
      }
    }
  }

  lemma {:induction false} PowIsPositive(n: nat)
    ensures Pow10(n) >= 1
  {
    if n > 0 { PowIsPositive(n - 1); }
  }

  // A character that is no digit stops the scan.
  lemma {:induction false} ScanStops(text: string, i: nat, acc: nat, overflow: bool, limit: nat)
    requires i <= |text|
    ensures i <= ScanDigits(text, i, acc, overflow, limit).end <= |text|
    ensures ScanDigits(text, i, acc, overflow, limit).end == |text| ==> AllDigits(text[i..])
    decreases |text| - i
  {
    if i < |text| && IsDigit(text[i]) {
      var more := acc * 10 + Digit(text[i]);
      ScanStops(text, i + 1, if overflow || more > limit then acc else more, overflow || more > limit, limit);
      assert forall k :: i < k < |text| ==> text[k] == text[i + 1..][k - i - 1];
    }
  }

  // A count is accepted exactly if the whole text is a numeral of a 32-bit number, and then it is that number.
  lemma CountIsNumeral(text: string, n: int)
    ensures ParseCount(text) == Some(n) <==> Denotes(text, n) && InInt(n)
  {
    if text != "" {
      var negative := text[0] == '-';
      var start := if negative then 1 else 0;
      var limit := if negative then -MIN_INT else MAX_INT;
      ScanStops(text, start, 0, false, limit);
      if AllDigits(text[start..]) {
        ScanIsPlaceValue(text, start, 0, false, limit);
        assert text[0..] == text;
      }
    }
  }

  // ---- printing ------------------------------------------------------------------------------

  function DigitsOf(n: nat): (s: string)
    ensures s != "" && AllDigits(s)
  {
    var last := ['0' + (n % 10) as char];
    if n < 10 then last else DigitsOf(n / 10) + last
  }

  // std::to_string
  function Print(n: int): string {
    if n < 0 then "-" + DigitsOf(-n) else DigitsOf(n)
  }

  lemma {:induction false} LastPlace(s: string, c: char)
    requires AllDigits(s) && IsDigit(c)
    ensures AllDigits(s + [c]) && PlaceValue(s + [c]) == 10 * PlaceValue(s) + Digit(c)
    decreases |s|
  {
    var t := s + [c];
    if s != "" {
      LastPlace(s[1..], c);
      assert t[0] == s[0] && t[1..] == s[1..] + [c];
      var p := Pow10(|s| - 1);
      assert Digit(s[0]) * (10 * p) == 10 * (Digit(s[0]) * p);
    } else {
      assert t[1..] == "";
    }
  }

  lemma {:induction false} DigitsDenote(n: nat)
    ensures PlaceValue(DigitsOf(n)) == n
    decreases n
  {
    var c := '0' + (n % 10) as char;
    if n >= 10 {
      DigitsDenote(n / 10);
      LastPlace(DigitsOf(n / 10), c);
    } else {
      LastPlace("", c);
      assert "" + [c] == [c];
    }
  }

  lemma PrintDenotes(n: int)
    ensures Denotes(Print(n), n)
  {
    DigitsDenote(if n < 0 then -n else n);
    if n < 0 {
      assert Print(n)[1..] == DigitsOf(-n);
    } else {
      assert IsDigit(Print(n)[0]);
    }
  }

  // ---- commands ------------------------------------------------------------------------------

  function ParseChipBet(message: string, prefix: string, kind: BetType): Option<Command> {
    if !StartsWith(message, prefix) then None
    else
      var count := ParseCount(message[|prefix|..]);
      if count.None? then None else Some(Command(kind, count.value))
  }

  function Parse(message: string): Option<Command> {
    if message == DIE then Some(Command(Die, 0))
    else if message == SPECIAL then Some(Command(Special, 0))
    else if StartsWith(message, FRONT) then ParseChipBet(message, FRONT, Front)
    else if StartsWith(message, BOTH) then ParseChipBet(message, BOTH, Both)
    else if StartsWith(message, BACK) then ParseChipBet(message, BACK, Back)
    else None
  }

  function PrefixOf(kind: BetType): string {
    match kind
    case Front => FRONT
    case Both => BOTH
    case Back => BACK
    case Die => DIE
    case Special => SPECIAL
    case Unset => ""
  }

  predicate IsChipBet(kind: BetType) { kind.Front? || kind.Both? || kind.Back? }

  // The texts of a command: a fixed word, or a face with any 32-bit numeral.
  predicate Spells(message: string, c: Command) {
    match c.kind
    case Front => StartsWith(message, "Front ") && Denotes(message[6..], c.count) && InInt(c.count)
    case Both => StartsWith(message, "Both ") && Denotes(message[5..], c.count) && InInt(c.count)
    case Back => StartsWith(message, "Back ") && Denotes(message[5..], c.count) && InInt(c.count)
    case Die => message == "Die" && c.count == 0
    case Special => message == "SPECIAL " && c.count == 0
    case Unset => false
  }

  lemma PrefixesDiffer(message: string)
    ensures StartsWith(message, FRONT) ==> message[0] == 'F'
    ensures StartsWith(message, BOTH) ==> message[..2] == "Bo"
    ensures StartsWith(message, BACK) ==> message[..2] == "Ba"
  {
    assert FRONT[0] == 'F' && BOTH[..2] == "Bo" && BACK[..2] == "Ba";
    if StartsWith(message, FRONT) { assert message[..|FRONT|][0] == message[0]; }
    if StartsWith(message, BOTH) { assert message[..|BOTH|][..2] == message[..2]; }
    if StartsWith(message, BACK) { assert message[..|BACK|][..2] == message[..2]; }
  }

  // What parse accepts, and as what.
  lemma ParseIsSpelling(message: string, c: Command)
    ensures Parse(message) == Some(c) <==> Spells(message, c)
  {
    hide ParseCount, Denotes;
    PrefixesDiffer(message);
    assert DIE[0] == 'D' && SPECIAL[0] == 'S' && "Bo"[1] == 'o' && "Ba"[1] == 'a';
    if StartsWith(message, FRONT) {
      CountIsNumeral(message[|FRONT|..], c.count);
    } else if StartsWith(message, BOTH) {
      CountIsNumeral(message[|BOTH|..], c.count);
    } else if StartsWith(message, BACK) {
      CountIsNumeral(message[|BACK|..], c.count);
    }
  }

  function Render(c: Command): string {
    PrefixOf(c.kind) + if IsChipBet(c.kind) then Print(c.count) else ""
  }

  // A command that carries a 32-bit count, or no count where none is sent.
  predicate Sendable(c: Command) {
    !c.kind.Unset? && if IsChipBet(c.kind) then InInt(c.count) else c.count == 0
  }

  lemma CommandRoundTrip(c: Command)
    requires Sendable(c)
    ensures Parse(Render(c)) == Some(c)
  {
    hide Parse, Denotes, Print;
    ParseIsSpelling(Render(c), c);
    PrintDenotes(c.count);
    var p := PrefixOf(c.kind);
    assert IsChipBet(c.kind) ==> (p + Print(c.count))[..|p|] == p && (p + Print(c.count))[|p|..] == Print(c.count);
    assert p + "" == p;
  }

  // Digits are read in the usual order.
  lemma NumeralsAreRead()
    ensures ParseCount("120") == Some(120) && ParseCount("-35") == Some(-35) && ParseCount("0") == Some(0)
    ensures ParseCount("") == None && ParseCount("-") == None && ParseCount("+1") == None && ParseCount("12 ") == None
  {
    assert "-35"[1] == '3' && "-35"[2] == '5';
  }

  // No text spells two commands.
  lemma SpellingIsUnique(message: string, c: Command, d: Command)
    requires Spells(message, c) && Spells(message, d)
    ensures c == d
  {
    hide Parse, Spells;
    ParseIsSpelling(message, c);
    ParseIsSpelling(message, d);
  }
}
