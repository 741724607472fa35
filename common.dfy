/**
 * Shared vocabulary for the license-evaluation model: optional values,
 * the millisecond length of a day, ceiling division, decimal rendering of
 * integers, substring search, and the string utilities (join, split, ASCII
 * case mapping) the source programs call.
 */
module Common {

  datatype Option<T> = None | Some(value: T) {
    function GetOr(default: T): T {
      match this
      case Some(v) => v
      case None => default
    }
  }

  /** JavaScript truthiness of an optional string: present and non-empty. */
  predicate Truthy(o: Option<string>) {
    o.Some? && o.value != ""
  }

  /** Result of parsing a `YYYY-MM-DD` text into a day number. */
  datatype DateParse = Date(day: int) | BadDate(error: string)

  /** 1000 * 3600 * 24, the divisor every JavaScript day computation uses. */
  const DayMs: int := 86400000

  /** Math.ceil(a / b) for a positive divisor, on unbounded integers. */
  function CeilDiv(a: int, b: int): (q: int)
    requires b > 0
    ensures (q - 1) * b < a <= q * b
  {
    var f := (-a) / b;
    var r := (-a) % b;
    assert -a == b * f + r && 0 <= r < b;
    assert a == (-f) * b - r;
    -f
  }

  /** The first instant of the UTC day that holds `t`: the date `toISOString().split('T')[0]`
      keeps, read back as midnight. */
  function DayStart(t: int): (d: int)
    ensures d <= t < d + DayMs
  {
    var q, r := t / DayMs, t % DayMs;
    assert t == q * DayMs + r && 0 <= r < DayMs;
    q * DayMs
  }

  /** The ceiling is at most n exactly when the dividend is at most n * b. */
  lemma CeilDivAtMost(a: int, b: int, n: int)
    requires b > 0
    ensures CeilDiv(a, b) <= n <==> a <= n * b
  {
    var q := CeilDiv(a, b);
    if q <= n {
      assert q * b <= n * b by { MulMonotone(q, n, b); }
    } else {
      assert n <= q - 1;
      assert n * b <= (q - 1) * b by { MulMonotone(n, q - 1, b); }
    }
  }

  lemma MulMonotone(x: int, y: int, b: int)
    requires x <= y && b > 0
    ensures x * b <= y * b
  {
    assert y * b - x * b == (y - x) * b;
  }

  /** A non-negative dividend has a non-negative ceiling. */
  lemma CeilDivNonNegative(a: int, b: int)
    requires b > 0 && a >= 0
    ensures CeilDiv(a, b) >= 0
  {
    var q := CeilDiv(a, b);
    if q < 0 {
      assert q <= -1;
      MulMonotone(q, -1, b);
    }
  }

  predicate IsDigit(c: char) {
    '0' <= c <= '9'
  }

  function DigitChar(d: int): (c: char)
    requires 0 <= d < 10
    ensures IsDigit(c)
  {
    (48 + d) as char
  }

  /** Decimal text of a natural number, as Python's str() and JavaScript's template literals print it. */
  function NatToString(n: nat): (s: string)
    ensures |s| >= 1
    ensures forall i :: 0 <= i < |s| ==> IsDigit(s[i])
    decreases n
  {
    if n < 10 then [DigitChar(n)] else NatToString(n / 10) + [DigitChar(n % 10)]
  }

  /** Decimal text of any integer, with a leading '-' for negative values. */
  function IntToString(i: int): (s: string)
    ensures forall k :: 0 <= k < |s| ==> IsDigit(s[k]) || s[k] == '-'
    ensures i >= 0 ==> forall k :: 0 <= k < |s| ==> IsDigit(s[k])
  {
    if i < 0 then "-" + NatToString(-i) else NatToString(i)
  }

  /** `xs.find(x => key(x) === id)`, as the index of the first element with that key. */
  function FindBy<T>(xs: seq<T>, key: T -> string, id: string): (k: Option<nat>)
    ensures k.Some? ==> k.value < |xs| && key(xs[k.value]) == id && forall j :: 0 <= j < k.value ==> key(xs[j]) != id
    ensures k.None? ==> forall j :: 0 <= j < |xs| ==> key(xs[j]) != id
  {
    if |xs| == 0 then None
    else if key(xs[0]) == id then Some(0)
    else match FindBy(xs[1..], key, id)
      case None => None
      case Some(j) => Some(j + 1)
  }

  /** A JavaScript value read where a number is expected: a number, `null` (a NULL column) or
      `undefined` (a field that was never set). */
  datatype JsNumber = Undefined | Null | Number(n: int)

  /** `Number(v)`: null converts to 0 and undefined to NaN, written None. */
  function ToNumber(v: JsNumber): (r: Option<int>)
    ensures r.None? <==> v.Undefined?
    ensures v.Null? ==> r == Some(0)
    ensures v.Number? ==> r == Some(v.n)
  {
    match v
    case Undefined => None
    case Null => Some(0)
    case Number(n) => Some(n)
  }

  /** `a >= b` on two such values: false as soon as either side converts to NaN. */
  predicate AtLeast(a: JsNumber, b: JsNumber) {
    ToNumber(a).Some? && ToNumber(b).Some? && ToNumber(a).value >= ToNumber(b).value
  }

  /** The text `${v}` gives the value. */
  function JsText(v: JsNumber): string {
    match v
    case Undefined => "undefined"
    case Null => "null"
    case Number(n) => IntToString(n)
  }

  /** A nullable integer column as the database driver hands it over: NULL becomes null. */
  function FromColumn(c: Option<int>): (v: JsNumber)
    ensures v.Null? <==> c.None?
    ensures c.Some? ==> v == Number(c.value)
  {
    if c.Some? then Number(c.value) else Null
  }

  /** `sub in s` in Python, `s.includes(sub)` in JavaScript. */
  predicate ContainsSub(s: string, sub: string)
    decreases |s|
  {
    |sub| <= |s| && (s[..|sub|] == sub || ContainsSub(s[1..], sub))
  }

  /** A text containing none of some character of `sub` cannot contain `sub`. */
  lemma {:induction false} MissingCharNotContained(s: string, sub: string, c: char)
    requires c in sub && c !in s
    ensures !ContainsSub(s, sub)
    decreases |s|
  {
    if |sub| <= |s| {
      assert s[..|sub|] != sub by {
        assert c !in s[..|sub|];
      }
      MissingCharNotContained(s[1..], sub, c);
    }
  }

  /** Whatever surrounds it, a text that literally holds `sub` contains it. */
  lemma {:induction false} ContainsInMiddle(a: string, sub: string, b: string)
    ensures ContainsSub(a + sub + b, sub)
    decreases |a|
  {
    var s := a + sub + b;
    if |a| == 0 {
      assert s[..|sub|] == sub;
    } else {
      assert s[1..] == a[1..] + sub + b;
      ContainsInMiddle(a[1..], sub, b);
    }
  }

  /** A text holding `sub` at position i contains it. */
  lemma {:induction false} ContainsAt(s: string, sub: string, i: nat)
    requires i + |sub| <= |s| && s[i..i + |sub|] == sub
    ensures ContainsSub(s, sub)
    decreases i
  {
    if i == 0 {
      assert s[..|sub|] == s[0..|sub|];
    } else {
      assert s[1..][i - 1..i - 1 + |sub|] == s[i..i + |sub|];
      ContainsAt(s[1..], sub, i - 1);
    }
  }

  /** Appending text keeps what a text contains. */
  lemma {:induction false} ContainsInPrefix(a: string, b: string, sub: string)
    requires ContainsSub(a, sub)
    ensures ContainsSub(a + b, sub)
    decreases |a|
  {
    var s := a + b;
    if a[..|sub|] == sub {
      assert s[..|sub|] == a[..|sub|];
    } else {
      assert s[1..] == a[1..] + b;
      ContainsInPrefix(a[1..], b, sub);
    }
  }

  /** `sep.join(xs)` in Python, `xs.join(sep)` in JavaScript. */
  function Join(xs: seq<string>, sep: string): string
    decreases |xs|
  {
    if |xs| == 0 then "" else if |xs| == 1 then xs[0] else xs[0] + sep + Join(xs[1..], sep)
  }

  /** JavaScript's `s.split(sep)` for a one-character separator. */
  function Split(s: string, sep: char): (parts: seq<string>)
    ensures |parts| >= 1
    ensures forall i :: 0 <= i < |parts| ==> sep !in parts[i]
    decreases |s|
  {
    if |s| == 0 then [""]
    else if s[0] == sep then [""] + Split(s[1..], sep)
    else
      var rest := Split(s[1..], sep);
      [[s[0]] + rest[0]] + rest[1..]
  }

  lemma {:induction false} SplitNoSeparator(a: string, sep: char)
    requires sep !in a
    ensures Split(a, sep) == [a]
    decreases |a|
  {
    if |a| > 0 {
      SplitNoSeparator(a[1..], sep);
      assert [a[0]] + a[1..] == a;
    }
  }

  lemma {:induction false} SplitAtFirst(a: string, sep: char, b: string)
    requires sep !in a
    ensures Split(a + [sep] + b, sep) == [a] + Split(b, sep)
    decreases |a|
  {
    var s := a + [sep] + b;
    if |a| == 0 {
      assert s[0] == sep && s[1..] == b;
    } else {
      assert s[0] == a[0] && s[1..] == a[1..] + [sep] + b;
      SplitAtFirst(a[1..], sep, b);
      assert [a[0]] + a[1..] == a;
    }
  }

  /** Splitting a comma-joined list of comma-free items gives the list back. */
  lemma {:induction false} SplitJoin(xs: seq<string>, sep: char)
    requires |xs| >= 1
    requires forall i :: 0 <= i < |xs| ==> sep !in xs[i]
    ensures Split(Join(xs, [sep]), sep) == xs
    decreases |xs|
  {
    if |xs| == 1 {
      SplitNoSeparator(xs[0], sep);
    } else {
      SplitJoin(xs[1..], sep);
      SplitAtFirst(xs[0], sep, Join(xs[1..], [sep]));
      assert xs == [xs[0]] + xs[1..];
    }
  }

  function UpperChar(c: char): char {
    if 'a' <= c <= 'z' then (c as int - 32) as char else c
  }

  function LowerChar(c: char): char {
    if 'A' <= c <= 'Z' then (c as int + 32) as char else c
  }

  /** Python's str.upper() on ASCII text. */
  function Upper(s: string): (r: string)
    ensures |r| == |s|
    ensures forall i :: 0 <= i < |s| ==> r[i] == UpperChar(s[i])
  {
    seq(|s|, i requires 0 <= i < |s| => UpperChar(s[i]))
  }

  /** Python's str.lower() on ASCII text. */
  function Lower(s: string): (r: string)
    ensures |r| == |s|
    ensures forall i :: 0 <= i < |s| ==> r[i] == LowerChar(s[i])
  {
    seq(|s|, i requires 0 <= i < |s| => LowerChar(s[i]))
  }

  /** `[m.upper() for m in xs]`. */
  function UpperAll(xs: seq<string>): (r: seq<string>)
    ensures |r| == |xs|
    ensures forall i :: 0 <= i < |xs| ==> r[i] == Upper(xs[i])
  {
    seq(|xs|, i requires 0 <= i < |xs| => Upper(xs[i]))
  }

  lemma UpperAllMember(xs: seq<string>, m: string)
    ensures m in UpperAll(xs) <==> exists a :: a in xs && Upper(a) == m
  {
    var r := UpperAll(xs);
    if m in r {
      var i :| 0 <= i < |r| && r[i] == m;
      assert xs[i] in xs;
    }
    if exists a :: a in xs && Upper(a) == m {
      var a :| a in xs && Upper(a) == m;
      var i :| 0 <= i < |xs| && xs[i] == a;
      assert r[i] == m;
    }
  }
}
