/** The dynamically typed values that the source stores in dicts and object
    attributes, and the string operations it applies to them. */
module PyValues {
  import opened Wrappers
  import opened Dicts

  /** A Python value of the kinds the source handles. A dict keeps its items
      in insertion order; an object is represented by its attribute dict. */
  datatype Value =
    | VNone
    | VBool(b: bool)
    | VInt(i: int)
    | VStr(s: string)
    | VList(items: seq<Value>)
    | VDict(entries: Dict<Value>)

  /** Python's truth value of `v` (`if v:`). */
  predicate Truthy(v: Value) {
    match v
    case VNone => false
    case VBool(b) => b
    case VInt(i) => i != 0
    case VStr(s) => s != ""
    case VList(xs) => xs != []
    case VDict(d) => d != []
  }

  /** `f"{s}"` for an optional string: Python renders None as `None`. */
  function OptStr(o: Option<string>): string {
    match o
    case Some(s) => s
    case None => "None"
  }

  /** The decimal digit of `d`. */
  function DigitChar(d: nat): (c: char)
    requires d < 10
    ensures '0' <= c <= '9' && c as int - '0' as int == d
  {
    ('0' as int + d) as char
  }

  /** Decimal digits of a natural number, most significant first. */
  function NatToString(n: nat): (s: string)
    ensures |s| >= 1
    ensures forall k :: 0 <= k < |s| ==> '0' <= s[k] <= '9'
    decreases n
  {
    if n < 10 then [DigitChar(n)] else NatToString(n / 10) + [DigitChar(n % 10)]
  }

  /** `str(i)` for an int. */
  function IntToString(i: int): string {
    if i < 0 then "-" + NatToString(-i) else NatToString(i)
  }

  /** `sep.join(parts)` */
  function JoinWith(sep: string, parts: seq<string>): string {
    if parts == [] then ""
    else if |parts| == 1 then parts[0]
    else parts[0] + sep + JoinWith(sep, parts[1..])
  }

  /** `str(v)`: `print`-style rendering. */
  function Str(v: Value): string
    decreases v, 1
  {
    match v
    case VStr(s) => s
    case _ => Repr(v)
  }

  /** `repr(v)`. Strings are quoted with single quotes and not escaped. */
  function Repr(v: Value): string
    decreases v, 0
  {
    match v
    case VNone => "None"
    case VBool(b) => if b then "True" else "False"
    case VInt(i) => IntToString(i)
    case VStr(s) => "'" + s + "'"
    case VList(xs) => "[" + JoinWith(", ", ReprAll(v, xs)) + "]"
    case VDict(d) => "{" + JoinWith(", ", ReprItems(v, d)) + "}"
  }

  function ReprAll(parent: Value, xs: seq<Value>): (r: seq<string>)
    requires forall x :: x in xs ==> x < parent
    ensures |r| == |xs|
    decreases parent, 0, |xs|
  {
    if xs == [] then []
    else
      assert xs[0] in xs;
      assert forall x :: x in xs[1..] ==> x in xs;
      [Repr(xs[0])] + ReprAll(parent, xs[1..])
  }

  function ReprItems(parent: Value, d: Dict<Value>): (r: seq<string>)
    requires forall p :: p in d ==> p.1 < parent
    ensures |r| == |d|
    decreases parent, 0, |d|
  {
    if d == [] then []
    else
      assert d[0] in d;
      assert forall p :: p in d[1..] ==> p in d;
      ["'" + d[0].0 + "': " + Repr(d[0].1)] + ReprItems(parent, d[1..])
  }

  /** `s.replace(c, r)` for a one-character pattern. */
  function ReplaceChar(s: string, c: char, r: string): (t: string)
    ensures c !in s ==> t == s
  {
    if s == [] then []
    else (if s[0] == c then r else [s[0]]) + ReplaceChar(s[1..], c, r)
  }

  lemma {:induction false} ReplaceCharAppend(a: string, b: string, c: char, r: string)
    ensures ReplaceChar(a + b, c, r) == ReplaceChar(a, c, r) + ReplaceChar(b, c, r)
  {
    if a == [] {
      assert a + b == b;
    } else {
      assert (a + b)[0] == a[0] && (a + b)[1..] == a[1..] + b;
      ReplaceCharAppend(a[1..], b, c, r);
    }
  }

  function UpperChar(c: char): char {
    if 'a' <= c <= 'z' then (c as int - 'a' as int + 'A' as int) as char else c
  }

  /** `s.upper()` on ASCII letters. */
  function Upper(s: string): (t: string)
    ensures |t| == |s|
  {
    seq(|s|, k requires 0 <= k < |s| => UpperChar(s[k]))
  }

  /** `c.isspace()` for an ASCII character: blank, tab, the line and page
      breaks, and the four separators 0x1C-0x1F. */
  predicate IsSpace(c: char) {
    c == ' ' || ('\t' <= c <= '\r') || ('\U{001C}' <= c <= '\U{001F}')
  }

  /** `s.strip()` on ASCII whitespace. */
  function Strip(s: string): (t: string)
    ensures t != [] ==> !IsSpace(t[0]) && !IsSpace(t[|t| - 1])
    ensures |t| <= |s|
  {
    StripRight(StripLeft(s))
  }

  function StripLeft(s: string): (t: string)
    ensures t != [] ==> !IsSpace(t[0])
    ensures |t| <= |s|
    ensures t == s[|s| - |t|..]
  {
    if s != [] && IsSpace(s[0]) then StripLeft(s[1..]) else s
  }

  function StripRight(s: string): (t: string)
    ensures t != [] ==> !IsSpace(t[|t| - 1])
    ensures |t| <= |s|
    ensures t == s[..|t|]
    ensures s != [] && !IsSpace(s[0]) ==> t != [] && t[0] == s[0]
  {
    if s != [] && IsSpace(s[|s| - 1]) then StripRight(s[..|s| - 1]) else s
  }

  /** A list of strings as a Python list value. */
  function StrList(xs: seq<string>): (v: Value)
    ensures v.VList? && |v.items| == |xs|
  {
    VList(seq(|xs|, k requires 0 <= k < |xs| => VStr(xs[k])))
  }
}
