/** The text and byte level of the wire format: the compact serialisation
    `json.dumps(obj, separators=(",", ":"))` produces (with the default
    `ensure_ascii`), the bytes it is sent as, and Python's `str.strip()`
    on the bytes that come back. */
module Encoding {
  import opened Values

  newtype byte = x: int | 0 <= x < 256

  /** Every character is printable ASCII (space through tilde). */
  predicate Printable(s: string)
  {
    forall i | 0 <= i < |s| :: ' ' <= s[i] <= '~'
  }

  /** The UTF-8 bytes of a printable ASCII text: one byte per character. */
  function Ascii(s: string): (b: seq<byte>)
    requires Printable(s)
    ensures |b| == |s|
    ensures forall i | 0 <= i < |s| :: b[i] as int == s[i] as int && 32 <= b[i] < 127
  {
    seq(|s|, i requires 0 <= i < |s| => s[i] as int as byte)
  }

  function HexDigit(d: nat): (c: char)
    requires d < 16
    ensures '0' <= c <= '9' || 'a' <= c <= 'f'
  {
    "0123456789abcdef"[d]
  }

  /** Four lower-case hexadecimal digits, as the encoder writes them after `\\u`. */
  function Hex4(n: nat): (s: string)
    requires n < 0x10000
    ensures |s| == 4 && Printable(s)
  {
    [HexDigit(n / 0x1000), HexDigit(n / 0x100 % 16), HexDigit(n / 16 % 16), HexDigit(n % 16)]
  }

  /** How the encoder writes one character of a string: the two-character
      escapes for quote, backslash and five control characters, printable
      ASCII as itself, everything else as `\uXXXX`, and characters beyond
      the Basic Multilingual Plane as a surrogate pair. */
  function Escape(c: char): (e: string)
    ensures Printable(e) && |e| > 0
    ensures ' ' in e ==> c == ' '
  {
    if c == '"' then "\\\""
    else if c == '\\' then "\\\\"
    else if c == '\n' then "\\n"
    else if c == '\r' then "\\r"
    else if c == '\t' then "\\t"
    else if c == '\U{8}' then "\\b"
    else if c == '\U{C}' then "\\f"
    else if ' ' <= c <= '~' then [c]
    else if c as int < 0x10000 then "\\u" + Hex4(c as int)
    else
      var n := c as int - 0x10000;
      "\\u" + Hex4(0xD800 + n / 0x400) + "\\u" + Hex4(0xDC00 + n % 0x400)
  }

  function EscapeAll(s: string): (e: string)
    ensures Printable(e)
    ensures ' ' in e ==> ' ' in s
  {
    if s == [] then "" else Escape(s[0]) + EscapeAll(s[1..])
  }

  /** A string literal. */
  function Quote(s: string): (q: string)
    ensures Printable(q) && |q| >= 2 && q[0] == '"' && q[|q| - 1] == '"'
    ensures ' ' in q ==> ' ' in s
  {
    "\"" + EscapeAll(s) + "\""
  }

  function NatText(n: nat): (s: string)
    ensures |s| > 0 && forall i | 0 <= i < |s| :: '0' <= s[i] <= '9'
  {
    if n < 10 then [HexDigit(n)] else NatText(n / 10) + [HexDigit(n % 10)]
  }

  /** `str(n)` for a Python integer. */
  function IntText(n: int): (s: string)
    ensures |s| > 0 && Printable(s) && ' ' !in s
  {
    if n < 0 then "-" + NatText(-n) else NatText(n)
  }

  /** `json.dumps(j, separators=(",", ":"))`: no whitespace is added
      around separators, and every character written is printable ASCII. */
  function Dumps(j: Json): (s: string)
    ensures Printable(s) && |s| > 0
  {
    match j
    case JNull => "null"
    case JBool(b) => if b then "true" else "false"
    case JInt(i) => IntText(i)
    case JStr(t) => Quote(t)
    case JArr(items) => "[" + DumpsItems(items) + "]"
    case JObj(ms) => "{" + DumpsMembers(ms) + "}"
  }

  function DumpsItems(items: seq<Json>): (s: string)
    ensures Printable(s)
  {
    if items == [] then ""
    else if |items| == 1 then Dumps(items[0])
    else Dumps(items[0]) + "," + DumpsItems(items[1..])
  }

  function DumpsMembers(ms: seq<Member>): (s: string)
    ensures Printable(s)
  {
    if ms == [] then ""
    else
      var first := Quote(ms[0].key) + ":" + Dumps(ms[0].value);
      if |ms| == 1 then first else first + "," + DumpsMembers(ms[1..])
  }

  /** Some string in `j`, key or value, contains a space. */
  predicate HasSpace(j: Json)
  {
    match j
    case JStr(t) => ' ' in t
    case JArr(items) => exists i | 0 <= i < |items| :: HasSpace(items[i])
    case JObj(ms) => exists i | 0 <= i < |ms| :: ' ' in ms[i].key || HasSpace(ms[i].value)
    case _ => false
  }

  /** JSON's insignificant whitespace. */
  predicate IsJsonSpace(c: char)
  {
    c == ' ' || c == '\t' || c == '\n' || c == '\r'
  }

  /** Compactness: the serialiser never writes whitespace of its own, so a
      value whose strings hold no space serialises without any whitespace. */
  lemma {:induction false} DumpsIsCompact(j: Json)
    requires !HasSpace(j)
    ensures forall i | 0 <= i < |Dumps(j)| :: !IsJsonSpace(Dumps(j)[i])
  {
    NoSpaceInDumps(j);
  }

  lemma {:induction false} NoSpaceInDumps(j: Json)
    requires !HasSpace(j)
    ensures ' ' !in Dumps(j)
  {
    match j
    case JArr(items) => NoSpaceInItems(items);
    case JObj(ms) => NoSpaceInMembers(ms);
    case _ =>
  }

  lemma {:induction false} NoSpaceInItems(items: seq<Json>)
    requires forall i | 0 <= i < |items| :: !HasSpace(items[i])
    ensures ' ' !in DumpsItems(items)
  {
    if items != [] {
      NoSpaceInDumps(items[0]);
      NoSpaceInItems(items[1..]);
    }
  }

  lemma {:induction false} NoSpaceInMembers(ms: seq<Member>)
    requires forall i | 0 <= i < |ms| :: ' ' !in ms[i].key && !HasSpace(ms[i].value)
    ensures ' ' !in DumpsMembers(ms)
  {
    if ms != [] {
      NoSpaceInDumps(ms[0].value);
      NoSpaceInMembers(ms[1..]);
    }
  }

  /** The serialisation never begins or ends with a space. */
  lemma DumpsEdges(j: Json)
    ensures Dumps(j)[0] != ' ' && Dumps(j)[|Dumps(j)| - 1] != ' '
  {
  }

  /** Python 2's `str.isspace()` on one byte: space, tab, newline, vertical
      tab, form feed, carriage return. */
  predicate IsSpace(b: byte)
  {
    b == 32 || 9 <= b <= 13
  }

  /** Python's `str.lstrip()`. */
  function StripLeft(b: seq<byte>): seq<byte>
  {
    if b != [] && IsSpace(b[0]) then StripLeft(b[1..]) else b
  }

  /** `lstrip` keeps a suffix that does not begin with whitespace, and all
      it drops is whitespace. */
  lemma {:induction false} StripLeftShape(b: seq<byte>)
    ensures var r := StripLeft(b);
      && |r| <= |b| && r == b[|b| - |r|..]
      && (r != [] ==> !IsSpace(r[0]))
      && forall i | 0 <= i < |b| - |r| :: IsSpace(b[i])
  {
    if b != [] && IsSpace(b[0]) {
      StripLeftShape(b[1..]);
      assert forall i | 1 <= i < |b| :: b[i] == b[1..][i - 1];
    }
  }

  /** Python's `str.rstrip()`. */
  function StripRight(b: seq<byte>): seq<byte>
  {
    if b != [] && IsSpace(b[|b| - 1]) then StripRight(b[..|b| - 1]) else b
  }

  /** `rstrip` keeps a prefix that does not end with whitespace, and all it
      drops is whitespace. */
  lemma {:induction false} StripRightShape(b: seq<byte>)
    ensures var r := StripRight(b);
      && |r| <= |b| && r == b[..|r|]
      && (r != [] ==> !IsSpace(r[|r| - 1]))
      && forall i | |r| <= i < |b| :: IsSpace(b[i])
  {
    if b != [] && IsSpace(b[|b| - 1]) {
      StripRightShape(b[..|b| - 1]);
    }
  }

  /** Python's `str.strip()`. */
  function Strip(b: seq<byte>): seq<byte>
  {
    StripRight(StripLeft(b))
  }

  /** What `strip` keeps is a contiguous part of its input with no
      whitespace at either end, and all it drops is whitespace. */
  lemma StripShape(b: seq<byte>)
    ensures |StripLeft(b)| <= |b|
    ensures var lo, r := |b| - |StripLeft(b)|, Strip(b);
      && lo + |r| <= |b| && r == b[lo..lo + |r|]
      && (r != [] ==> !IsSpace(r[0]) && !IsSpace(r[|r| - 1]))
      && (forall i | 0 <= i < lo :: IsSpace(b[i]))
      && (forall i | lo + |r| <= i < |b| :: IsSpace(b[i]))
  {
    var l := StripLeft(b);
    var r := StripRight(l);
    var lo := |b| - |l|;
    StripLeftShape(b);
    StripRightShape(l);
    assert r == b[lo..lo + |r|];
    if r != [] {
      assert r[0] == l[0];
    }
    forall i | lo + |r| <= i < |b|
      ensures IsSpace(b[i])
    {
      assert b[i] == l[i - lo];
    }
  }

  /** `strip` leaves a text alone that neither begins nor ends with whitespace. */
  lemma StripUnpadded(b: seq<byte>)
    requires b != [] && !IsSpace(b[0]) && !IsSpace(b[|b| - 1])
    ensures Strip(b) == b
  {
  }
}
