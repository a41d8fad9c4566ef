/** Small shared vocabulary of the models. */
module Common {

  datatype Option<+T> = None | Some(value: T)

  function Min(a: int, b: int): int {
    if a <= b then a else b
  }

  function Max(a: int, b: int): int {
    if a >= b then a else b
  }

  /** No element occurs at two positions. */
  ghost predicate Distinct<T(!new)>(s: seq<T>) {
    forall i, j :: 0 <= i < j < |s| ==> s[i] != s[j]
  }

  /** Concatenation of a list of lists, in order. */
  function Flatten<T>(ss: seq<seq<T>>): seq<T> {
    if ss == [] then [] else Flatten(ss[..|ss| - 1]) + ss[|ss| - 1]
  }

  /** The characters Python's `str.strip` removes. */
  predicate IsSpace(c: char) {
    var n := c as int;
    9 <= n <= 13 || 28 <= n <= 32 || n == 0x85 || n == 0xA0 || n == 0x1680 || 0x2000 <= n <= 0x200A
    || n == 0x2028 || n == 0x2029 || n == 0x202F || n == 0x205F || n == 0x3000
  }

  function StripLeft(s: string): string {
    if s != [] && IsSpace(s[0]) then StripLeft(s[1..]) else s
  }

  function StripRight(s: string): string {
    if s != [] && IsSpace(s[|s| - 1]) then StripRight(s[..|s| - 1]) else s
  }

  /** Python's `str.strip`. */
  function Strip(s: string): string {
    StripRight(StripLeft(s))
  }

  /** What is left is the part between two runs of space characters, and it starts and ends
      with none. */
  ghost predicate IsStripped(part: string, s: string) {
    exists i, j :: 0 <= i <= j <= |s| && part == s[i..j]
                   && (forall k :: 0 <= k < i || j <= k < |s| ==> IsSpace(s[k]))
                   && (i < j ==> !IsSpace(s[i]) && !IsSpace(s[j - 1]))
  }

  lemma StripIs(s: string)
    ensures IsStripped(Strip(s), s)
  {
    var i := LeftAt(s);
    var t := s[i..];
    var n := RightAt(t);
    assert Strip(s) == s[i..i + n];
    assert forall k :: i + n <= k < |s| ==> s[k] == t[k - i];
  }

  lemma {:induction false} LeftAt(s: string) returns (i: nat)
    ensures i <= |s| && StripLeft(s) == s[i..]
    ensures (forall k :: 0 <= k < i ==> IsSpace(s[k])) && (i < |s| ==> !IsSpace(s[i]))
  {
    if s != [] && IsSpace(s[0]) {
      i := LeftAt(s[1..]);
      i := i + 1;
    } else {
      i := 0;
    }
  }

  lemma {:induction false} RightAt(s: string) returns (n: nat)
    ensures n <= |s| && StripRight(s) == s[..n]
    ensures (forall k :: n <= k < |s| ==> IsSpace(s[k])) && (n > 0 ==> !IsSpace(s[n - 1]))
  {
    if s != [] && IsSpace(s[|s| - 1]) {
      n := RightAt(s[..|s| - 1]);
    } else {
      n := |s|;
    }
  }

  /** To the nearest integer, ties to even. */
  function RoundHalfEven(x: real): int {
    var f := x.Floor;
    var rest := x - f as real;
    if rest < 0.5 then f else if rest > 0.5 then f + 1 else if f % 2 == 0 then f else f + 1
  }

  lemma RoundsToNearest(x: real)
    ensures -0.5 <= x - RoundHalfEven(x) as real <= 0.5
    ensures x - RoundHalfEven(x) as real == 0.5 || x - RoundHalfEven(x) as real == -0.5 ==> RoundHalfEven(x) % 2 == 0
  {
  }
}
