/** The two escaping functions of the storefront SEO worker. */
module Escaping {
  import opened Common

  // ---- escapeHtml: five replace-all passes ---------------------------------------------

  /** One pass: every occurrence of a character becomes its entity. */
  function ReplaceAll(s: string, c: char, entity: string): string {
    if s == [] then [] else (if s[0] == c then entity else [s[0]]) + ReplaceAll(s[1..], c, entity)
  }

  function EscapeHtml(s: string): string {
    var a := ReplaceAll(s, '&', "&amp;");
    var b := ReplaceAll(a, '<', "&lt;");
    var c := ReplaceAll(b, '>', "&gt;");
    var d := ReplaceAll(c, '\"', "&quot;");
    ReplaceAll(d, '\'', "&#39;")
  }

  /** The single map the passes amount to. */
  function Entity(c: char): string {
    match c
    case '&' => "&amp;"
    case '<' => "&lt;"
    case '>' => "&gt;"
    case '\"' => "&quot;"
    case '\'' => "&#39;"
    case _ => [c]
  }

  function MapEntities(s: string): string {
    if s == [] then [] else Entity(s[0]) + MapEntities(s[1..])
  }

  lemma {:induction false} ReplaceAllConcat(a: string, b: string, c: char, entity: string)
    ensures ReplaceAll(a + b, c, entity) == ReplaceAll(a, c, entity) + ReplaceAll(b, c, entity)
  {
    if a == [] {
      assert a + b == b;
    } else {
      assert (a + b)[1..] == a[1..] + b;
      ReplaceAllConcat(a[1..], b, c, entity);
    }
  }

  lemma {:induction false} ReplaceAllAbsent(s: string, c: char, entity: string)
    requires c !in s
    ensures ReplaceAll(s, c, entity) == s
  {
    if s != [] {
      ReplaceAllAbsent(s[1..], c, entity);
    }
  }

  lemma ReplaceAllOne(x: char, c: char, entity: string)
    ensures ReplaceAll([x], c, entity) == if x == c then entity else [x]
  {
    assert [x][1..] == [];
    assert ReplaceAll([], c, entity) == [];
  }

  lemma EscapeConcat(a: string, b: string)
    ensures EscapeHtml(a + b) == EscapeHtml(a) + EscapeHtml(b)
  {
    var a1, b1 := ReplaceAll(a, '&', "&amp;"), ReplaceAll(b, '&', "&amp;");
    var a2, b2 := ReplaceAll(a1, '<', "&lt;"), ReplaceAll(b1, '<', "&lt;");
    var a3, b3 := ReplaceAll(a2, '>', "&gt;"), ReplaceAll(b2, '>', "&gt;");
    var a4, b4 := ReplaceAll(a3, '\"', "&quot;"), ReplaceAll(b3, '\"', "&quot;");
    ReplaceAllConcat(a, b, '&', "&amp;");
    ReplaceAllConcat(a1, b1, '<', "&lt;");
    ReplaceAllConcat(a2, b2, '>', "&gt;");
    ReplaceAllConcat(a3, b3, '\"', "&quot;");
    ReplaceAllConcat(a4, b4, '\'', "&#39;");
  }

  /** An entity made by one pass is left alone by every later pass. */
  lemma EscapeOne(x: char)
    ensures EscapeHtml([x]) == Entity(x)
  {
    hide ReplaceAll;
    var s1 := if x == '&' then "&amp;" else [x];
    ReplaceAllOne(x, '&', "&amp;");
    var s2 := if x == '<' then "&lt;" else s1;
    if x == '&' { ReplaceAllAbsent(s1, '<', "&lt;"); } else { ReplaceAllOne(x, '<', "&lt;"); }
    var s3 := if x == '>' then "&gt;" else s2;
    if x in "&<" { ReplaceAllAbsent(s2, '>', "&gt;"); } else { ReplaceAllOne(x, '>', "&gt;"); }
    var s4 := if x == '\"' then "&quot;" else s3;
    if x in "&<>" { ReplaceAllAbsent(s3, '\"', "&quot;"); } else { ReplaceAllOne(x, '\"', "&quot;"); }
    if x in "&<>\"" { ReplaceAllAbsent(s4, '\'', "&#39;"); } else { ReplaceAllOne(x, '\'', "&#39;"); }
  }

  /** The sequential passes refine to one simultaneous substitution. */
  lemma {:induction false} EscapeIsMap(s: string)
    ensures EscapeHtml(s) == MapEntities(s)
  {
    if s == [] {
      assert ReplaceAll([], '&', "&amp;") == [];
    } else {
      assert s == [s[0]] + s[1..];
      EscapeConcat([s[0]], s[1..]);
      EscapeOne(s[0]);
      EscapeIsMap(s[1..]);
    }
  }

  /** Wherever it stands, each of the five characters becomes its own entity and any other stays. */
  lemma EscapeAt(a: string, c: char, b: string)
    ensures EscapeHtml(a + [c] + b)
         == EscapeHtml(a)
            + (if c == '&' then "&amp;" else if c == '<' then "&lt;" else if c == '>' then "&gt;"
               else if c == '\"' then "&quot;" else if c == '\'' then "&#39;" else [c])
            + EscapeHtml(b)
  {
    hide EscapeHtml;
    EscapeConcat(a + [c], b);
    EscapeConcat(a, [c]);
    EscapeOne(c);
  }

  /** The output holds no raw markup character. */
  lemma {:induction false} EscapeSafe(s: string)
    ensures forall c :: c in EscapeHtml(s) ==> c !in "<>\"'"
  {
    EscapeIsMap(s);
    MapSafe(s);
  }

  lemma {:induction false} MapSafe(s: string)
    ensures forall c :: c in MapEntities(s) ==> c !in "<>\"'"
  {
    if s != [] {
      MapSafe(s[1..]);
      assert forall c :: c in Entity(s[0]) ==> c !in "<>\"'";
    }
  }

  /** Reads one entity, or one ordinary character, off the front. */
  function Front(s: string): (char, nat)
    requires s != []
  {
    if "&amp;" <= s then ('&', 5)
    else if "&lt;" <= s then ('<', 4)
    else if "&gt;" <= s then ('>', 4)
    else if "&quot;" <= s then ('\"', 6)
    else if "&#39;" <= s then ('\'', 5)
    else (s[0], 1)
  }

  function Unescape(s: string): string
    decreases |s|
  {
    if s == [] then []
    else
      var (c, n) := Front(s);
      [c] + Unescape(s[n..])
  }

  lemma FrontOfEntity(c: char, rest: string)
    ensures Front(Entity(c) + rest) == (c, |Entity(c)|)
  {
    var s := Entity(c) + rest;
    assert s[0] == Entity(c)[0];
    assert s[..|Entity(c)|] == Entity(c);
    assert c in "&<>\"'" ==> s[1] == Entity(c)[1];
    assert c in "<>" ==> s[2] == Entity(c)[2];
  }

  /** Reading the entities back gives the original text, so escaping is injective. */
  lemma {:induction false} EscapeRoundTrip(s: string)
    ensures Unescape(EscapeHtml(s)) == s
  {
    EscapeIsMap(s);
    UnescapeMap(s);
  }

  lemma {:induction false} UnescapeMap(s: string)
    ensures Unescape(MapEntities(s)) == s
  {
    if s != [] {
      var rest := MapEntities(s[1..]);
      FrontOfEntity(s[0], rest);
      assert (Entity(s[0]) + rest)[|Entity(s[0])|..] == rest;
      UnescapeMap(s[1..]);
    }
  }

  lemma EscapeInjective(a: string, b: string)
    requires EscapeHtml(a) == EscapeHtml(b)
    ensures a == b
  {
    EscapeRoundTrip(a);
    EscapeRoundTrip(b);
  }

  // ---- escapeJsonForScript ----------------------------------------------------------

  const CLOSE: string := "</"

  /** Replaces every "</" of a serialized value by "<\/". */
  function EscapeClose(s: string): string
    decreases |s|
  {
    if s == [] then []
    else if CLOSE <= s then "<\\/" + EscapeClose(s[2..])
    else [s[0]] + EscapeClose(s[1..])
  }

  predicate Occurs(what: string, s: string) {
    exists i :: 0 <= i <= |s| && what <= s[i..]
  }

  /** Each "</" gets its backslash, whatever stands around it. */
  lemma {:induction false} CloseAt(a: string, b: string)
    ensures EscapeClose(a + "</" + b) == EscapeClose(a) + "<\\/" + EscapeClose(b)
    decreases |a|
  {
    var s := a + "</" + b;
    if a == [] {
      assert s == "</" + b;
      assert s[2..] == b;
      StartsClose(s);
    } else {
      StartsClose(s);
      StartsClose(a);
      if CLOSE <= a {
        assert s[2..] == a[2..] + "</" + b;
        CloseAt(a[2..], b);
      } else {
        assert s[1..] == a[1..] + "</" + b;
        CloseAt(a[1..], b);
      }
    }
  }

  /** Text without one is left alone. */
  lemma {:induction false} NothingToClose(s: string)
    requires !Occurs(CLOSE, s)
    ensures EscapeClose(s) == s
  {
    if s != [] {
      assert s[0..] == s;
      assert !Occurs(CLOSE, s[1..]) by {
        forall i | 0 <= i <= |s| - 1 ensures !(CLOSE <= s[1..][i..]) {
          assert s[1..][i..] == s[i + 1..];
        }
      }
      NothingToClose(s[1..]);
    }
  }

  /** No script can be closed from inside the output. */
  lemma {:induction false} NoCloseTag(s: string)
    ensures !Occurs(CLOSE, EscapeClose(s))
    decreases |s|
  {
    var t := EscapeClose(s);
    if s == [] {
    } else if CLOSE <= s {
      NoCloseTag(s[2..]);
      var r := EscapeClose(s[2..]);
      assert t == "<\\/" + r;
      forall i | 0 <= i <= |t| ensures !(CLOSE <= t[i..]) {
        if i >= 3 {
          assert t[i..] == r[i - 3..];
        } else {
          assert i == 0 ==> t[i..][1] == '\\';
          assert i > 0 ==> t[i..][0] != '<';
        }
      }
    } else {
      NoCloseTag(s[1..]);
      var r := EscapeClose(s[1..]);
      assert t == [s[0]] + r;
      NoSlashFirst(s[1..]);
      forall i | 0 <= i <= |t| ensures !(CLOSE <= t[i..]) {
        if i >= 1 {
          assert t[i..] == r[i - 1..];
        } else {
          assert t[i..] == t;
          StartsClose(t);
          StartsClose(s);
        }
      }
    }
  }

  lemma StartsClose(s: string)
    ensures CLOSE <= s <==> |s| >= 2 && s[0] == '<' && s[1] == '/'
  {
    if |s| >= 2 && s[0] == '<' && s[1] == '/' {
      assert s[..2] == CLOSE;
    }
  }

  lemma NoSlashFirst(s: string)
    ensures EscapeClose(s) != [] && EscapeClose(s)[0] == '/' ==> s != [] && s[0] == '/'
  {
  }

  // ---- The text as JSON readers see it (section 7 of RFC 8259) --------------------------

  /** What a reader gets: structural characters verbatim, and for each string its
      bounds and its code units after resolving escapes. */
  datatype Token = Plain(c: char) | Open | Unit(code: int) | Close

  datatype Mode = Outside | Inside | AfterBackslash | Hex(left: nat, value: int)

  predicate Structural(c: char) {
    c in "{}[]:,+-.eE0123456789 \t\n\r" || 'a' <= c <= 'z'
  }

  function HexDigit(c: char): Option<int> {
    if '0' <= c <= '9' then Some(c as int - '0' as int)
    else if 'a' <= c <= 'f' then Some(c as int - 'a' as int + 10)
    else if 'A' <= c <= 'F' then Some(c as int - 'A' as int + 10)
    else None
  }

  /** The code of a two-character escape. */
  function ShortEscape(c: char): Option<int> {
    match c
    case '\"' => Some(34)
    case '\\' => Some(92)
    case '/' => Some(47)
    case 'b' => Some(8)
    case 'f' => Some(12)
    case 'n' => Some(10)
    case 'r' => Some(13)
    case 't' => Some(9)
    case _ => None
  }

  /** One character's effect: the tokens it completes and the next mode, or `None`
      if no JSON text continues like this. */
  function Step(m: Mode, c: char): Option<(seq<Token>, Mode)> {
    match m
    case Outside =>
      if c == '\"' then Some(([Open], Inside)) else if Structural(c) then Some(([Plain(c)], Outside)) else None
    case Inside =>
      if c == '\"' then Some(([Close], Outside))
      else if c == '\\' then Some(([], AfterBackslash))
      else if c as int >= 32 then Some(([Unit(c as int)], Inside))
      else None
    case AfterBackslash =>
      if c == 'u' then Some(([], Hex(4, 0)))
      else if ShortEscape(c).Some? then Some(([Unit(ShortEscape(c).value)], Inside))
      else None
    case Hex(left, value) =>
      if HexDigit(c).None? then None
      else
        var v := value * 16 + HexDigit(c).value;
        if left <= 1 then Some(([Unit(v)], Inside)) else Some(([], Hex(left - 1, v)))
  }

  function Prepend(a: seq<Token>, tail: Option<seq<Token>>): Option<seq<Token>> {
    if tail.None? then None else Some(a + tail.value)
  }

  /** The tokens of a text read from a mode on, if it can be read to a complete end. */
  function Read(s: string, m: Mode): Option<seq<Token>> {
    if s == [] then (if m == Outside then Some([]) else None)
    else
      var step := Step(m, s[0]);
      if step.None? then None else Prepend(step.value.0, Read(s[1..], step.value.1))
  }

  /** Every text is read the same after escaping, and refused as before if a reader
      refuses it: the value the page's script gets is the value that was serialized. */
  lemma {:induction false} CloseEscapeReadsSame(s: string, m: Mode)
    ensures Read(EscapeClose(s), m) == Read(s, m)
    decreases |s|
  {
    if s != [] && Step(m, s[0]).Some? {
      if CLOSE <= s {
        StartsClose(s);
        CloseEscapeReadsSame(s[2..], Inside);
        EscapedPair(EscapeClose(s[2..]));
        PlainPair(s[2..], s);
      } else {
        CloseEscapeReadsSame(s[1..], Step(m, s[0]).value.1);
        var t := [s[0]] + EscapeClose(s[1..]);
        assert t[1..] == EscapeClose(s[1..]);
      }
    }
  }

  lemma PlainPair(r: string, s: string)
    requires |s| >= 2 && s[0] == '<' && s[1] == '/' && s[2..] == r
    ensures Read(s, Inside) == Prepend([Unit(60), Unit(47)], Read(r, Inside))
  {
    hide Read;
    assert [Unit(60)] + [Unit(47)] == [Unit(60), Unit(47)];
    ReadOne('<', s[1..], Inside);
    ReadOne('/', r, Inside);
    assert s == ['<'] + s[1..] && s[1..] == ['/'] + r;
    PrependTwice([Unit(60)], [Unit(47)], Read(r, Inside));
  }

  lemma EscapedPair(r: string)
    ensures Read("<\\/" + r, Inside) == Prepend([Unit(60), Unit(47)], Read(r, Inside))
  {
    hide Read;
    assert [Unit(60)] + [Unit(47)] == [Unit(60), Unit(47)];
    ReadOne('<', "\\/" + r, Inside);
    ReadOne('\\', "/" + r, Inside);
    ReadOne('/', r, AfterBackslash);
    assert "<\\/" + r == ['<'] + ("\\/" + r) && "\\/" + r == ['\\'] + ("/" + r);
    assert "/" + r == ['/'] + r && [] + [Unit(47)] == [Unit(47)];
    PrependTwice([], [Unit(47)], Read(r, Inside));
    PrependTwice([Unit(60)], [Unit(47)], Read(r, Inside));
  }

  lemma PrependTwice(a: seq<Token>, b: seq<Token>, tail: Option<seq<Token>>)
    ensures Prepend(a, Prepend(b, tail)) == Prepend(a + b, tail)
  {
    if tail.Some? {
      assert a + (b + tail.value) == (a + b) + tail.value;
    }
  }

  lemma ReadOne(c: char, r: string, m: Mode)
    ensures Read([c] + r, m)
         == var step := Step(m, c); if step.None? then None else Prepend(step.value.0, Read(r, step.value.1))
  {
    assert ([c] + r)[1..] == r;
  }
}
