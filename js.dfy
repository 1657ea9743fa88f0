/** The few pieces of JavaScript runtime behaviour the application relies on:
    truthiness, String() conversion, String.prototype.trim, split and
    toUpperCase, and a JSON value type. Clause numbers refer to ECMA-262. */
module Js {

  datatype Option<T> = None | Some(value: T)

  /** A value as JSON.parse produces it; numbers are restricted to integers. */
  datatype Json =
    | Null
    | Bool(b: bool)
    | Num(n: int)
    | Str(s: string)
    | Arr(items: seq<Json>)
    | Obj(members: map<string, Json>)

  /** ToBoolean (clause 7.1.2): what `if (v)` and `v || w` test. */
  predicate Truthy(v: Json) {
    match v
    case Null => false
    case Bool(b) => b
    case Num(n) => n != 0
    case Str(s) => s != ""
    case Arr(_) => true
    case Obj(_) => true
  }

  /** Truthiness of an optional string member: present and non-empty. */
  predicate Filled(s: Option<string>) {
    s.Some? && s.value != ""
  }

  /** `v.key` on a parsed value that is not null: the member if `v` is an object
      having it, `undefined` (None) otherwise. */
  function Member(v: Json, key: string): (r: Option<Json>)
    requires !v.Null?
    ensures r.Some? <==> v.Obj? && key in v.members
  {
    if v.Obj? && key in v.members then Some(v.members[key]) else None
  }

  // ---------------------------------------------------------------- numbers

  predicate IsDigit(c: char) {
    '0' <= c <= '9'
  }

  predicate AllDigits(s: string) {
    forall i :: 0 <= i < |s| ==> IsDigit(s[i])
  }

  /** The value of a string of decimal digits. */
  function DecimalValue(s: string): nat
    requires AllDigits(s)
  {
    if s == [] then 0 else 10 * DecimalValue(s[..|s| - 1]) + (s[|s| - 1] - '0') as nat
  }

  /** Number::toString (clause 6.1.6.1.20) on a non-negative integer. */
  function NatToString(n: nat): (r: string)
    ensures |r| >= 1 && AllDigits(r)
    ensures r[0] == '0' ==> n == 0
    ensures DecimalValue(r) == n
  {
    if n < 10 then
      [('0' as int + n) as char]
    else
      var r := NatToString(n / 10) + [('0' as int + n % 10) as char];
      assert r[..|r| - 1] == NatToString(n / 10);
      r
  }

  /** Number::toString on any integer: a minus sign, then the digits. */
  function IntToString(n: int): (r: string)
    ensures n >= 0 ==> AllDigits(r) && DecimalValue(r) == n
    ensures n < 0 ==> |r| >= 2 && r[0] == '-' && AllDigits(r[1..]) && DecimalValue(r[1..]) == -n
  {
    if n >= 0 then NatToString(n) else "-" + NatToString(-n)
  }

  /** The remainder is determined by any quotient that leaves it in range. */
  lemma RemainderOf(a: int, m: int, q: int, r: int)
    requires m > 0 && a == q * m + r && 0 <= r < m
    ensures a % m == r
  {
    var d := q - a / m;
    assert d * m == a % m - r;
    assert d >= 1 ==> d * m >= m;
    assert d <= -1 ==> d * m <= -m;
  }

  // ---------------------------------------------------------------- String()

  /** ToString (clause 7.1.17) of a JSON value, as `new Error(v)` and template
      literals apply it; arrays follow Array.prototype.join, which writes
      null elements as empty strings. */
  function Show(v: Json): string
  {
    match v
    case Null => "null"
    case Bool(b) => if b then "true" else "false"
    case Num(n) => IntToString(n)
    case Str(s) => s
    case Arr(items) =>
      JoinWithCommas(seq(|items|, i requires 0 <= i < |items| =>
        if items[i].Null? then "" else Show(items[i])))
    case Obj(_) => "[object Object]"
  }

  function JoinWithCommas(parts: seq<string>): string
  {
    if |parts| == 0 then ""
    else if |parts| == 1 then parts[0]
    else parts[0] + "," + JoinWithCommas(parts[1..])
  }

  // ---------------------------------------------------------------- whitespace and trim

  /** WhiteSpace and LineTerminator code points (clauses 12.2 and 12.3): what
      String.prototype.trim removes and what `\s` matches in a regular expression. */
  predicate IsSpace(c: char) {
    || c == '\t' || c == '\n' || c == '\U{000B}' || c == '\U{000C}' || c == '\r'
    || c == ' ' || c == '\U{00A0}' || c == '\U{1680}' || ('\U{2000}' <= c <= '\U{200A}')
    || c == '\U{2028}' || c == '\U{2029}' || c == '\U{202F}' || c == '\U{205F}'
    || c == '\U{3000}' || c == '\U{FEFF}'
  }

  predicate AllSpace(s: string) {
    forall i :: 0 <= i < |s| ==> IsSpace(s[i])
  }

  predicate NoSpace(s: string) {
    forall i :: 0 <= i < |s| ==> !IsSpace(s[i])
  }

  /** A string already bounded by non-whitespace trims to itself. */
  lemma TrimUnchanged(s: string)
    requires s != [] && !IsSpace(s[0]) && !IsSpace(s[|s| - 1])
    ensures Trim(s) == s
  {
    assert TrimStart(s) == s;
  }

  /** The index of the first non-whitespace character at or after `i`, or |s|. */
  function SkipSpace(s: string, i: nat): (k: nat)
    requires i <= |s|
    ensures i <= k <= |s|
    ensures forall j :: i <= j < k ==> IsSpace(s[j])
    ensures k < |s| ==> !IsSpace(s[k])
    decreases |s| - i
  {
    if i < |s| && IsSpace(s[i]) then SkipSpace(s, i + 1) else i
  }

  /** One past the last non-whitespace character before `j`, or 0. */
  function SkipSpaceBack(s: string, j: nat): (k: nat)
    requires j <= |s|
    ensures k <= j
    ensures forall i :: k <= i < j ==> IsSpace(s[i])
    ensures k > 0 ==> !IsSpace(s[k - 1])
  {
    if j > 0 && IsSpace(s[j - 1]) then SkipSpaceBack(s, j - 1) else j
  }

  /** Drops the leading whitespace. */
  function TrimStart(s: string): (r: string)
    ensures |r| <= |s| && r == s[|s| - |r|..]
    ensures AllSpace(s[..|s| - |r|])
    ensures r != [] ==> !IsSpace(r[0])
  {
    s[SkipSpace(s, 0)..]
  }

  /** Drops the trailing whitespace. */
  function TrimEnd(s: string): (r: string)
    ensures |r| <= |s| && r == s[..|r|]
    ensures AllSpace(s[|r|..])
    ensures r != [] ==> !IsSpace(r[|r| - 1])
  {
    s[..SkipSpaceBack(s, |s|)]
  }

  /** String.prototype.trim (clause 22.1.3.32). */
  function Trim(s: string): (r: string)
  {
    TrimEnd(TrimStart(s))
  }

  /** What trim keeps: a contiguous part of the string, bounded by
      non-whitespace at both ends, and nothing but whitespace is dropped. */
  lemma TrimIsCore(s: string)
    ensures exists a, b :: 0 <= a <= b <= |s| && Trim(s) == s[a..b]
                           && AllSpace(s[..a]) && AllSpace(s[b..])
    ensures Trim(s) != [] ==> !IsSpace(Trim(s)[0]) && !IsSpace(Trim(s)[|Trim(s)| - 1])
  {
    var t := TrimStart(s);
    var a := |s| - |t|;
    var r := TrimEnd(t);
    var b := a + |r|;
    assert r == t[..|r|];
    assert s[a..b] == r;
    assert s[b..] == t[|r|..];
    if r != [] {
      assert r[0] == t[0];
    }
  }

  /** `!s.trim()` holds exactly for the strings made of whitespace only. */
  lemma {:induction false} TrimEmptyIffBlank(s: string)
    ensures Trim(s) == "" <==> AllSpace(s)
  {
    var t := TrimStart(s);
    var a := |s| - |t|;
    if AllSpace(s) {
      assert t == [];
    }
    if Trim(s) == "" {
      assert t == [];
      assert s[..a] == s;
    }
  }

  // ---------------------------------------------------------------- split

  predicate StartsWith(s: string, prefix: string) {
    |prefix| <= |s| && s[..|prefix|] == prefix
  }

  /** The inverse of String.prototype.split: the parts glued with the separator. */
  function Join(parts: seq<string>, sep: char): string
    requires |parts| >= 1
  {
    if |parts| == 1 then parts[0] else parts[0] + [sep] + Join(parts[1..], sep)
  }

  /** String.prototype.split with a one-character separator (clause 22.1.3.23):
      the maximal separator-free pieces, in order; the empty string gives [""]. */
  function Split(s: string, sep: char): (parts: seq<string>)
    ensures |parts| >= 1
    ensures forall i :: 0 <= i < |parts| ==> sep !in parts[i]
    ensures Join(parts, sep) == s
  {
    if s == [] then [""]
    else
      var rest := Split(s[1..], sep);
      if s[0] == sep then
        assert [sep] + Join(rest, sep) == s;
        [""] + rest
      else
        var parts := [[s[0]] + rest[0]] + rest[1..];
        assert parts[1..] == rest[1..];
        assert Join(parts, sep) == [s[0]] + Join(rest, sep);
        parts
  }

  /** A string without the separator is its own single piece. */
  lemma {:induction false} SplitWithoutSeparator(s: string, sep: char)
    requires sep !in s
    ensures Split(s, sep) == [s]
  {
    if s != [] {
      SplitWithoutSeparator(s[1..], sep);
    }
  }

  /** A separator-free head followed by the separator is split off as the first piece. */
  lemma {:induction false} SplitAtFirst(head: string, sep: char, tail: string)
    requires sep !in head
    ensures Split(head + [sep] + tail, sep) == [head] + Split(tail, sep)
  {
    var s := head + [sep] + tail;
    if head == [] {
      assert s[1..] == tail;
    } else {
      assert s[1..] == head[1..] + [sep] + tail;
      SplitAtFirst(head[1..], sep, tail);
      assert [head[0]] + head[1..] == head;
    }
  }

  // ---------------------------------------------------------------- upper case

  /** String.prototype.toUpperCase on one character, for the characters of
      Basic Latin and Latin-1 whose upper-case form is a single character. */
  function UpperChar(c: char): (u: char)
    ensures 'a' <= c <= 'z' ==> u as int == c as int - 32
    ensures c == '\U{00B5}' ==> u == '\U{039C}'
    ensures '\U{00E0}' <= c <= '\U{00FE}' && c != '\U{00F7}' ==> u as int == c as int - 32
    ensures c == '\U{00F7}' ==> u == c
    ensures c == '\U{00FF}' ==> u == '\U{0178}'
    ensures !('a' <= c <= 'z') && !('\U{00E0}' <= c <= '\U{00FF}') && c != '\U{00B5}' ==> u == c
  {
    if 'a' <= c <= 'z' then (c as int - 32) as char
    else if c == '\U{00B5}' then '\U{039C}'
    else if '\U{00E0}' <= c <= '\U{00FE}' && c != '\U{00F7}' then (c as int - 32) as char
    else if c == '\U{00FF}' then '\U{0178}'
    else c
  }

  function Upper(s: string): (r: string)
    ensures |r| == |s|
    ensures forall i :: 0 <= i < |s| ==> r[i] == UpperChar(s[i])
  {
    seq(|s|, i requires 0 <= i < |s| => UpperChar(s[i]))
  }

  /** Upper-casing is idempotent; it moves 'a' to 'z' onto 'A' to 'Z' and
      leaves upper-case letters and digits alone. */
  lemma UpperIdempotent(s: string)
    ensures Upper(Upper(s)) == Upper(s)
    ensures forall i :: 0 <= i < |s| && 'a' <= s[i] <= 'z' ==> 'A' <= Upper(s)[i] <= 'Z'
    ensures forall i :: 0 <= i < |s| && ('A' <= s[i] <= 'Z' || IsDigit(s[i])) ==> Upper(s)[i] == s[i]
  {
    var u := Upper(s);
    forall i | 0 <= i < |s|
      ensures UpperChar(u[i]) == u[i]
    {
    }
  }
}
