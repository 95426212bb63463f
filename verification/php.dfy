/**
  The parts of the PHP runtime that the modelled code leans on: values,
  `empty()`, array union, string conversion, loose comparison against a
  plain literal, `trim`, `explode` and ASCII upper-casing.
*/
module Php {

  datatype Option<+T> = None | Some(value: T)

  /**
    A PHP value as the modelled code sees it. `Arr` is an array with string
    keys (integer keys are written as their decimal text, which is how PHP
    normalises them); `List` is an array built by appending (`$a[] = $v`).
    Floats are not modelled.
  */
  datatype Value =
    | Null
    | Bool(b: bool)
    | Int(i: int)
    | Str(s: string)
    | Arr(entries: map<string, Value>)
    | List(items: seq<Value>)

  /** PHP's `empty()`. */
  predicate Empty(v: Value) {
    match v
    case Null => true
    case Bool(b) => !b
    case Int(i) => i == 0
    case Str(s) => s == "" || s == "0"
    case Arr(m) => |m| == 0
    case List(xs) => |xs| == 0
  }

  /** The value PHP's `if ($v)` takes. */
  predicate Truthy(v: Value) {
    !Empty(v)
  }

  /** `$a[$k]`: NULL (with a notice) when the key is missing. */
  function Lookup(a: map<string, Value>, k: string): Value {
    if k in a then a[k] else Null
  }

  /** `isset($a[$k])`: the key is there and its value is not NULL. */
  predicate IsSet(a: map<string, Value>, k: string) {
    k in a && a[k] != Null
  }

  /** The entries of a value used as an array; anything that is not an array has none. */
  function EntriesOf(v: Value): map<string, Value> {
    if v.Arr? then v.entries else map[]
  }

  /** PHP's array union `$left + $right`: every key of either side, the left value winning. */
  function Union<K, V>(left: map<K, V>, right: map<K, V>): (r: map<K, V>)
    ensures r.Keys == left.Keys + right.Keys
    ensures forall k :: k in left ==> r[k] == left[k]
    ensures forall k :: k in right && k !in left ==> r[k] == right[k]
  {
    right + left
  }

  /** `(a + b) + c` and `a + (b + c)` are the same array, so a chain of unions reads left to right. */
  lemma UnionAssociative<K, V>(a: map<K, V>, b: map<K, V>, c: map<K, V>)
    ensures Union(Union(a, b), c) == Union(a, Union(b, c))
  {
  }

  function DigitChar(d: nat): char
    requires d < 10
  {
    "0123456789"[d]
  }

  function NatDigits(n: nat): (s: string)
    ensures |s| >= 1
    ensures forall c :: c in s ==> '0' <= c <= '9'
    decreases n
  {
    if n < 10 then [DigitChar(n)] else NatDigits(n / 10) + [DigitChar(n % 10)]
  }

  /** The decimal text of an integer, as `(string) $i` writes it. */
  function DecimalString(i: int): string {
    if i < 0 then "-" + NatDigits(-i) else NatDigits(i)
  }

  /** `(string) $v` for the values the model carries. */
  function ToPhpString(v: Value): string {
    match v
    case Null => ""
    case Bool(b) => if b then "1" else ""
    case Int(i) => DecimalString(i)
    case Str(s) => s
    case Arr(_) => "Array"
    case List(_) => "Array"
  }

  /** The key `$a[$v]` reads: NULL is "", booleans are 0 and 1, an array is an illegal offset. */
  function ArrayKey(v: Value): Option<string> {
    match v
    case Null => Some("")
    case Bool(b) => Some(if b then "1" else "0")
    case Int(i) => Some(DecimalString(i))
    case Str(s) => Some(s)
    case Arr(_) => None
    case List(_) => None
  }

  /**
    A non-empty string literal that starts with a letter, `[` or `_`: PHP
    never reads it as a number, and `(int)` of it is 0.
  */
  predicate PlainLiteral(lit: string) {
    |lit| > 0 && (('a' <= lit[0] <= 'z') || ('A' <= lit[0] <= 'Z') || lit[0] == '[' || lit[0] == '_')
  }

  /**
    `$v == 'lit'` under PHP 7's loose comparison, for a plain literal: a
    string is compared as a string, NULL as "", a boolean against the
    literal's truth value, an integer against `(int) 'lit'` which is 0, and
    an array is never equal.
  */
  predicate LooseEqualsLiteral(v: Value, lit: string)
    requires PlainLiteral(lit)
  {
    match v
    case Null => false
    case Bool(b) => b
    case Int(i) => i == 0
    case Str(s) => s == lit
    case Arr(_) => false
    case List(_) => false
  }

  /** A string compares loosely equal to a plain literal exactly when it is that literal. */
  lemma LooseEqualsLiteralOnStrings(s: string, lit: string)
    requires PlainLiteral(lit)
    ensures LooseEqualsLiteral(Str(s), lit) <==> s == lit
  {
  }

  /** The characters PHP's `trim` removes by default: space, tab, newline, carriage return, NUL, vertical tab. */
  predicate TrimmedChar(c: char) {
    c == ' ' || c == '\t' || c == '\n' || c == '\r' || c == 0 as char || c == 11 as char
  }

  function TrimLeft(s: string): (r: string)
    ensures |r| <= |s| && r == s[|s| - |r|..]
    ensures |r| > 0 ==> !TrimmedChar(r[0])
    ensures forall k :: 0 <= k < |s| - |r| ==> TrimmedChar(s[k])
    decreases |s|
  {
    if |s| > 0 && TrimmedChar(s[0]) then TrimLeft(s[1..]) else s
  }

  function TrimRight(s: string): (r: string)
    ensures |r| <= |s| && r == s[..|r|]
    ensures |r| > 0 ==> !TrimmedChar(r[|r| - 1])
    ensures forall k :: |r| <= k < |s| ==> TrimmedChar(s[k])
    decreases |s|
  {
    if |s| > 0 && TrimmedChar(s[|s| - 1]) then TrimRight(s[..|s| - 1]) else s
  }

  /**
    PHP's `trim($s)`: the slice of `s` left after removing the trimmed
    characters at both ends, and only those.
  */
  function Trim(s: string): (r: string)
    ensures |r| > 0 ==> !TrimmedChar(r[0]) && !TrimmedChar(r[|r| - 1])
    ensures exists i, j ::
      (0 <= i <= j <= |s| && r == s[i..j] &&
       (forall k :: 0 <= k < i ==> TrimmedChar(s[k])) &&
       (forall k :: j <= k < |s| ==> TrimmedChar(s[k])))
  {
    var l := TrimLeft(s);
    var r := TrimRight(l);
    var i := |s| - |l|;
    var j := i + |r|;
    assert l == s[i..] && r == l[..|r|];
    forall k | j <= k < |s|
      ensures TrimmedChar(s[k])
    {
      assert s[k] == l[k - i];
    }
    assert r == s[i..j];
    r
  }

  lemma TrimLeftNoop(s: string)
    requires |s| == 0 || !TrimmedChar(s[0])
    ensures TrimLeft(s) == s
  {
  }

  lemma TrimRightNoop(s: string)
    requires |s| == 0 || !TrimmedChar(s[|s| - 1])
    ensures TrimRight(s) == s
  {
  }

  /** Trimming a trimmed string changes nothing. */
  lemma TrimIdempotent(s: string)
    ensures Trim(Trim(s)) == Trim(s)
  {
    var t := Trim(s);
    TrimLeftNoop(t);
    TrimRightNoop(t);
  }

  /** PHP's `explode($sep, $s)` for a one-character separator. */
  function Explode(sep: char, s: string): (parts: seq<string>)
    ensures |parts| >= 1
    ensures forall i :: 0 <= i < |parts| ==> sep !in parts[i]
    decreases |s|
  {
    if |s| == 0 then [""]
    else
      var rest := Explode(sep, s[1..]);
      if s[0] == sep then [""] + rest
      else [[s[0]] + rest[0]] + rest[1..]
  }

  /** A string without the separator explodes into itself alone. */
  lemma {:induction false} ExplodeNoSeparator(sep: char, a: string)
    requires sep !in a
    ensures Explode(sep, a) == [a]
    decreases |a|
  {
    if |a| > 0 {
      ExplodeNoSeparator(sep, a[1..]);
      assert [a[0]] + a[1..] == a;
    }
  }

  /** The part before the first separator comes first, then the explosion of the rest. */
  lemma {:induction false} ExplodeAfterFirst(sep: char, a: string, t: string)
    requires sep !in a
    ensures Explode(sep, a + [sep] + t) == [a] + Explode(sep, t)
    decreases |a|
  {
    var s := a + [sep] + t;
    if |a| == 0 {
      assert s[1..] == t;
    } else {
      assert s[1..] == a[1..] + [sep] + t;
      ExplodeAfterFirst(sep, a[1..], t);
      assert [a[0]] + a[1..] == a;
    }
  }

  /** `explode(':', $a . ':' . $b)` gives back `[$a, $b]` when neither contains ':'. */
  lemma ExplodeJoined(sep: char, a: string, b: string)
    requires sep !in a && sep !in b
    ensures Explode(sep, a + [sep] + b) == [a, b]
  {
    ExplodeAfterFirst(sep, a, b);
    ExplodeNoSeparator(sep, b);
  }

  function UpperChar(c: char): char {
    if 'a' <= c <= 'z' then (c as int - 32) as char else c
  }

  /** Upper-casing of the ASCII letters of a string (the case mapping of the other letters is not modelled). */
  function AsciiUpper(s: string): (r: string)
    ensures |r| == |s|
    ensures forall i :: 0 <= i < |s| ==> r[i] == UpperChar(s[i])
  {
    seq(|s|, i requires 0 <= i < |s| => UpperChar(s[i]))
  }

  /** `strtoupper($a) == strtoupper($b)`: equal ignoring the case of ASCII letters. */
  predicate EqualsIgnoringCase(a: string, b: string) {
    AsciiUpper(a) == AsciiUpper(b)
  }

  /** Case-insensitive comparison is an equivalence that ignores upper-casing either side. */
  lemma EqualsIgnoringCaseProperties(a: string, b: string)
    ensures EqualsIgnoringCase(a, a)
    ensures EqualsIgnoringCase(a, b) <==> EqualsIgnoringCase(b, a)
    ensures EqualsIgnoringCase(AsciiUpper(a), a)
  {
    assert AsciiUpper(AsciiUpper(a)) == AsciiUpper(a);
  }
}
