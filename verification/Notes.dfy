/**
 The confidence notes the janitor writes into `titan_notes`, and the two readers
 of such notes: the SQL expression of the next night's scan and the split of the
 audit sampler.
 */
module Notes {
  import opened Common

  // ---- Decimal text ----------------------------------------------------------------

  predicate IsDigit(c: char) {
    '0' <= c <= '9'
  }

  predicate AllDigits(s: string) {
    forall i :: 0 <= i < |s| ==> IsDigit(s[i])
  }

  function DigitChar(d: nat): (c: char)
    requires d < 10
    ensures IsDigit(c) && c as int - '0' as int == d
  {
    (d + '0' as int) as char
  }

  function NatText(n: nat): (s: string)
    ensures |s| > 0 && AllDigits(s)
  {
    if n < 10 then [DigitChar(n)] else NatText(n / 10) + [DigitChar(n % 10)]
  }

  function NatOf(s: string): nat
    requires AllDigits(s)
  {
    if s == [] then 0 else NatOf(s[..|s| - 1]) * 10 + (s[|s| - 1] as int - '0' as int)
  }

  lemma {:induction false} NatOfText(n: nat)
    ensures NatOf(NatText(n)) == n
  {
    var s := NatText(n);
    if n < 10 {
      assert s[..|s| - 1] == [];
    } else {
      NatOfText(n / 10);
      assert s[..|s| - 1] == NatText(n / 10);
    }
  }

  function Abs(c: real): real {
    if c < 0.0 then -c else c
  }

  /** A confidence in hundredths, rounded as the two-decimal format rounds it. */
  function Hundredths(c: real): int {
    var h := RoundHalfEven(Abs(c) * 100.0);
    if c < 0.0 then -h else h
  }

  lemma HundredthsSign(c: real)
    ensures RoundHalfEven(Abs(c) * 100.0) >= 0
  {
  }

  /** The two-decimal format of a finite number. */
  function Fixed2(c: real): string {
    HundredthsSign(c);
    var h: nat := RoundHalfEven(Abs(c) * 100.0);
    (if c < 0.0 then "-" else "") + NatText(h / 100) + "." + [DigitChar(h % 100 / 10), DigitChar(h % 10)]
  }

  // ---- Searching and splitting ------------------------------------------------------

  predicate StartsWith(s: string, prefix: string) {
    |prefix| <= |s| && s[..|prefix|] == prefix
  }

  /** Index of the first occurrence, if any. */
  function Find(s: string, what: string): (r: Option<nat>)
    ensures r.Some? ==> r.value + |what| <= |s|
  {
    if StartsWith(s, what) then Some(0)
    else if s == [] then None
    else
      var r := Find(s[1..], what);
      if r.None? then None else Some(r.value + 1)
  }

  /** PostgreSQL's SPLIT_PART: the n-th field, counting from 1. */
  function SplitPart(s: string, delim: string, n: nat): string
    requires delim != "" && n >= 1
    decreases n
  {
    var at := Find(s, delim);
    if n == 1 then (if at.Some? then s[..at.value] else s)
    else if at.Some? then SplitPart(s[at.value + |delim|..], delim, n - 1)
    else ""
  }

  /** Python's `replace` with the empty string. */
  function Remove(s: string, what: string): string
    requires what != ""
  {
    if s == [] then []
    else if StartsWith(s, what) then Remove(s[|what|..], what)
    else [s[0]] + Remove(s[1..], what)
  }

  // ---- Numbers as the database reads them ---------------------------------------------

  function Pow10(n: nat): (p: real)
    ensures p > 0.0
  {
    if n == 0 then 1.0 else 10.0 * Pow10(n - 1)
  }

  /** An unsigned plain decimal: digits, and possibly a point and more digits. */
  function ParseUnsigned(s: string): Option<real> {
    var dot := Find(s, ".");
    if dot.None? then (if s != [] && AllDigits(s) then Some(NatOf(s) as real) else None)
    else
      var whole, frac := s[..dot.value], s[dot.value + 1..];
      if whole != [] && frac != [] && AllDigits(whole) && AllDigits(frac)
      then Some(NatOf(whole) as real + NatOf(frac) as real / Pow10(|frac|)) else None
  }

  function ParseNumeric(s: string): Option<real> {
    if StartsWith(s, "-") then
      var r := ParseUnsigned(s[1..]);
      if r.Some? then Some(-r.value) else None
    else ParseUnsigned(s)
  }

  // ---- The note and its readers --------------------------------------------------------

  const KEY: string := "confidence="

  function Note(c: real, tail: string): string {
    KEY + Fixed2(c) + " | " + tail
  }

  /** What the scan's cast is applied to. */
  function ScanField(note: string): string {
    SplitPart(SplitPart(note, KEY, 2), " ", 1)
  }

  /** What a database's cast to NUMERIC makes of text that is no plain decimal: exponents,
      leading points, plus signs or words. `None` is an error. */
  type Cast = string -> Option<real>

  /** The cast: plain decimals are read as that number. */
  function CastNumeric(cast: Cast, s: string): Option<real> {
    if ParseNumeric(s).Some? then ParseNumeric(s) else cast(s)
  }

  /** The confidence the scan reads from a note that passes its LIKE. */
  function ScanConfidence(cast: Cast, note: string): Option<real> {
    CastNumeric(cast, ScanField(note))
  }

  /** The audit sampler's confidence and reasoning columns. */
  function AuditColumns(note: string): (string, string) {
    if Find(note, KEY).None? then ("", note)
    else
      var bar := Find(note, "|");
      var head := if bar.Some? then note[..bar.value] else note;
      var rest := if bar.Some? then note[bar.value + 1..] else "";
      (Remove(Strip(head), KEY), if bar.Some? then Strip(rest) else "")
  }

  // ---- Round trips ---------------------------------------------------------------------

  lemma {:induction false} FindAfter(a: string, b: string, c: char)
    requires forall i :: 0 <= i < |a| ==> a[i] != c
    ensures Find(a + [c] + b, [c]) == Some(|a|)
    ensures Find(a, [c]) == None
  {
    var s := a + [c] + b;
    if a == [] {
      assert s[..1] == [c];
    } else {
      assert s[0] == a[0] && s[1..] == a[1..] + [c] + b;
      assert s[..1] == [a[0]] && a[..1] == [a[0]];
      FindAfter(a[1..], b, c);
    }
  }

  predicate NumberChar(c: char) {
    IsDigit(c) || c == '.' || c == '-'
  }

  lemma Fixed2Chars(c: real)
    ensures forall i :: 0 <= i < |Fixed2(c)| ==> NumberChar(Fixed2(c)[i])
    ensures |Fixed2(c)| >= 4
  {
  }

  /** Reading back a two-decimal number gives the rounded value. */
  lemma Fixed2Parses(c: real)
    ensures ParseNumeric(Fixed2(c)) == Some(Hundredths(c) as real / 100.0)
  {
    hide ParseUnsigned, NatText, RoundHalfEven;
    HundredthsSign(c);
    var h: nat := RoundHalfEven(Abs(c) * 100.0);
    var whole, frac := NatText(h / 100), [DigitChar(h % 100 / 10), DigitChar(h % 10)];
    var u := whole + "." + frac;
    UnsignedParses(h);
    if c < 0.0 {
      assert Fixed2(c) == "-" + u;
      assert Fixed2(c)[..1] == "-" && Fixed2(c)[1..] == u;
    } else {
      assert Fixed2(c) == u;
      assert u[0] == whole[0] && u[..1] == [u[0]];
    }
  }

  lemma UnsignedParses(h: nat)
    ensures ParseUnsigned(NatText(h / 100) + "." + [DigitChar(h % 100 / 10), DigitChar(h % 10)])
         == Some(h as real / 100.0)
  {
    var whole, frac := NatText(h / 100), [DigitChar(h % 100 / 10), DigitChar(h % 10)];
    NatOfText(h / 100);
    TwoDigits(h);
    PointParses(whole, frac);
    HundredthsSplit(h);
  }

  lemma PointParses(whole: string, frac: string)
    requires whole != [] && AllDigits(whole) && AllDigits(frac) && |frac| == 2
    ensures ParseUnsigned(whole + "." + frac) == Some(NatOf(whole) as real + NatOf(frac) as real / 100.0)
  {
    hide NatOf, NatText, Find, AllDigits, Pow10;
    var u := whole + "." + frac;
    DigitsNoPoint(whole);
    FindAfter(whole, frac, '.');
    assert u[..|whole|] == whole && u[|whole| + 1..] == frac;
    Pow10Two();
  }

  lemma DigitsNoPoint(s: string)
    requires AllDigits(s)
    ensures forall i :: 0 <= i < |s| ==> s[i] != '.'
  {
  }

  lemma Pow10Two()
    ensures Pow10(2) == 100.0
  {
    assert Pow10(1) == 10.0;
  }

  lemma HundredthsSplit(h: nat)
    ensures (h / 100) as real + (h % 100) as real / 100.0 == h as real / 100.0
  {
    assert h == 100 * (h / 100) + h % 100;
  }

  lemma TwoDigits(h: nat)
    ensures NatOf([DigitChar(h % 100 / 10), DigitChar(h % 10)]) == h % 100
  {
    var s := [DigitChar(h % 100 / 10), DigitChar(h % 10)];
    assert s[..1] == [s[0]];
    assert s[..1][..0] == [];
    assert NatOf(s[..1]) == h % 100 / 10;
  }

  /** Whatever the reasoning contains, the scan reads back the confidence written,
      to two decimals. */
  lemma ScanReadsBack(cast: Cast, c: real, tail: string)
    ensures StartsWith(Note(c, tail), "confidence=")
    ensures ScanConfidence(cast, Note(c, tail)) == Some(Hundredths(c) as real / 100.0)
  {
    hide Fixed2, Hundredths, NumberChar, ParseNumeric;
    var number := Fixed2(c);
    var rest := number + " | " + tail;
    KeyIsFirst(rest);
    assert Note(c, tail) == KEY + rest;
    Fixed2Chars(c);
    FieldIsNumber(number, tail);
    Fixed2Parses(c);
  }

  lemma KeyIsFirst(rest: string)
    ensures StartsWith(KEY + rest, KEY) && SplitPart(KEY + rest, KEY, 2) == SplitPart(rest, KEY, 1)
  {
    var note := KEY + rest;
    assert note[..|KEY|] == KEY && note[|KEY|..] == rest;
    assert Find(note, KEY) == Some(0);
  }

  lemma FieldIsNumber(number: string, tail: string)
    requires forall i :: 0 <= i < |number| ==> NumberChar(number[i])
    ensures SplitPart(SplitPart(number + " | " + tail, KEY, 1), " ", 1) == number
  {
    var rest := number + " | " + tail;
    var field := SplitPart(rest, KEY, 1);
    NoKeyInside(number, " | " + tail);
    assert rest == number + (" | " + tail);
    assert field[..|number| + 1] == number + " ";
    var after := field[|number| + 1..];
    assert field == number + [' '] + after;
    FindAfter(number, after, ' ');
    assert field[..|number|] == number;
  }

  lemma KeyHead(s: string)
    ensures StartsWith(s, KEY) ==> s != [] && s[0] == 'c'
  {
    assert StartsWith(s, KEY) ==> s[..|KEY|][0] == 'c';
  }

  /** The key cannot start inside the number or at the blank behind it. */
  lemma {:induction false} NoKeyInside(number: string, after: string)
    requires forall i :: 0 <= i < |number| ==> NumberChar(number[i])
    requires |after| >= 1 && after[0] == ' '
    ensures var at := Find(number + after, KEY); at.Some? ==> at.value >= |number| + 1
  {
    var s := number + after;
    KeyHead(s);
    if number == [] {
      assert s == after;
    } else {
      assert s[1..] == number[1..] + after;
      NoKeyInside(number[1..], after);
    }
  }

  /** The audit sampler prints exactly the two-decimal text that was written. */
  lemma AuditReadsBack(c: real, tail: string)
    ensures AuditColumns(Note(c, tail)) == (Fixed2(c), Strip(" " + tail))
  {
    var note, number := Note(c, tail), Fixed2(c);
    Fixed2Chars(c);
    assert note[..|KEY|] == KEY;
    assert Find(note, KEY) == Some(0);
    var head := KEY + number + " ";
    assert note == head + ['|'] + (" " + tail);
    FindAfter(head, " " + tail, '|');
    assert note[..|head|] == head && note[|head| + 1..] == " " + tail;
    StripHead(number);
    RemoveKey(number);
  }

  lemma StripHead(number: string)
    requires number != [] && forall i :: 0 <= i < |number| ==> NumberChar(number[i])
    ensures Strip(KEY + number + " ") == KEY + number
  {
    var s := KEY + number + " ";
    assert !IsSpace(s[0]);
    assert StripLeft(s) == s;
    assert s[..|s| - 1] == KEY + number;
    var t := KEY + number;
    assert t[|t| - 1] == number[|number| - 1];
    assert StripRight(t) == t;
  }

  lemma RemoveKey(number: string)
    requires forall i :: 0 <= i < |number| ==> NumberChar(number[i])
    ensures Remove(KEY + number, KEY) == number
  {
    var s := KEY + number;
    assert s[..|KEY|] == KEY && s[|KEY|..] == number;
    RemoveNothing(number);
  }

  lemma {:induction false} RemoveNothing(number: string)
    requires forall i :: 0 <= i < |number| ==> NumberChar(number[i])
    ensures Remove(number, KEY) == number
  {
    if number != [] {
      KeyHead(number);
      RemoveNothing(number[1..]);
    }
  }
}
