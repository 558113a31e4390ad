/**
 * The fragment of Python's runtime that the gateway code relies on: the values
 * a JSON body decodes to, the exceptions the code raises or catches, and the
 * few built-ins whose behaviour shows up in results (truthiness, `dict.get`,
 * `len`, `str` of an int, `repr` of a string, `sorted` of strings).
 */
module Python {

  datatype Option<+T> = None | Some(value: T)

  /** The exceptions that the modelled code raises, propagates or catches. */
  datatype Exception =
    | TypeError
    | AttributeError
    | KeyError
    | ValueError
    | HTTPError
    | ConnectionError
    | Timeout
    | JSONDecodeError(message: string)
    | RequestException(message: string)
    /** pydantic's `ValidationError` (a `ValueError`): a model field given a value of the wrong type. */
    | ValidationError

  /** How a Python call ends: with a value, or by raising. */
  datatype Outcome<+T> = Returned(value: T) | Raised(exc: Exception)

  /** A Python value as produced by decoding JSON (floats are kept as reals). */
  datatype Json =
    | JNull
    | JBool(b: bool)
    | JInt(i: int)
    | JFloat(r: real)
    | JStr(s: string)
    | JList(items: seq<Json>)
    | JDict(fields: map<string, Json>)

  /** Python truthiness (`bool(v)`). */
  predicate Truthy(v: Json)
  {
    match v
    case JNull => false
    case JBool(b) => b
    case JInt(i) => i != 0
    case JFloat(r) => r != 0.0
    case JStr(s) => s != ""
    case JList(xs) => xs != []
    case JDict(m) => m != map[]
  }

  /** `d.get(key, default)` on the entries `m` of a dict. */
  function DictGet(m: map<string, Json>, key: string, default: Json): (r: Json)
    ensures key in m ==> r == m[key]
    ensures key !in m ==> r == default
  {
    if key in m then m[key] else default
  }

  /** `v.get(key, default)`: only a dict has `get`. */
  function Get(v: Json, key: string, default: Json): (r: Outcome<Json>)
    ensures r.Raised? <==> !v.JDict?
    ensures r.Raised? ==> r.exc == AttributeError
    ensures v.JDict? && key in v.fields ==> r == Returned(v.fields[key])
    ensures v.JDict? && key !in v.fields ==> r == Returned(default)
  {
    match v
    case JDict(m) => Returned(DictGet(m, key, default))
    case _ => Raised(AttributeError)
  }

  /** `len(v)`: defined on strings, lists and dicts. */
  function Len(v: Json): (r: Outcome<nat>)
    ensures r.Raised? <==> !(v.JStr? || v.JList? || v.JDict?)
    ensures v.JList? ==> r == Returned(|v.items|)
  {
    match v
    case JStr(s) => Returned(|s|)
    case JList(xs) => Returned(|xs|)
    case JDict(m) => Returned(|m|)
    case _ => Raised(TypeError)
  }

  function FloatList(xs: seq<real>): (r: Json)
    ensures r.JList? && |r.items| == |xs|
    ensures forall i :: 0 <= i < |xs| ==> r.items[i] == JFloat(xs[i])
  {
    JList(seq(|xs|, i requires 0 <= i < |xs| => JFloat(xs[i])))
  }

  function IntList(xs: seq<int>): (r: Json)
    ensures r.JList? && |r.items| == |xs|
    ensures forall i :: 0 <= i < |xs| ==> r.items[i] == JInt(xs[i])
  {
    JList(seq(|xs|, i requires 0 <= i < |xs| => JInt(xs[i])))
  }

  // ---------------------------------------------------------------------------
  // `str` of an int: decimal digits, with a leading '-' when negative

  function DigitChar(d: nat): char
    requires d < 10
  {
    "0123456789"[d]
  }

  function DigitValue(c: char): int
  {
    c as int - '0' as int
  }

  function NatDigits(n: nat): (s: string)
    ensures |s| > 0
    ensures forall i :: 0 <= i < |s| ==> '0' <= s[i] <= '9'
    decreases n
  {
    if n < 10 then [DigitChar(n)] else NatDigits(n / 10) + [DigitChar(n % 10)]
  }

  function DecimalString(i: int): string
  {
    if i < 0 then "-" + NatDigits(-i) else NatDigits(i)
  }

  /** Reads a string of decimal digits back as a number (most significant first). */
  function ParseDigits(s: string): int
  {
    if s == [] then 0 else 10 * ParseDigits(s[..|s| - 1]) + DigitValue(s[|s| - 1])
  }

  /** Reads a decimal string with an optional leading '-'. */
  function ParseDecimal(s: string): int
  {
    if |s| > 0 && s[0] == '-' then -ParseDigits(s[1..]) else ParseDigits(s)
  }

  lemma {:induction false} NatDigitsRoundTrip(n: nat)
    ensures ParseDigits(NatDigits(n)) == n
    decreases n
  {
    if n >= 10 {
      NatDigitsRoundTrip(n / 10);
      var s := NatDigits(n / 10) + [DigitChar(n % 10)];
      assert s[..|s| - 1] == NatDigits(n / 10);
    }
  }

  /** `str(i)` reads back as `i`, so a message that embeds it names `i` exactly. */
  lemma DecimalStringRoundTrip(i: int)
    ensures ParseDecimal(DecimalString(i)) == i
  {
    if i < 0 {
      NegativeRoundTrip(i);
    } else {
      NatDigitsRoundTrip(i);
      NatDigitsUnsigned(i);
    }
  }

  lemma NatDigitsUnsigned(n: nat)
    ensures NatDigits(n)[0] != '-'
  {
    var d := NatDigits(n);
    assert '0' <= d[0] <= '9';
  }

  lemma NegativeRoundTrip(i: int)
    requires i < 0
    ensures ParseDecimal(DecimalString(i)) == i
  {
    var n: nat := -i;
    var d := NatDigits(n);
    assert DecimalString(i) == "-" + d;
    ParseNegated(d);
    NatDigitsRoundTrip(n);
  }

  /** A leading '-' negates what the digits read as. */
  lemma ParseNegated(d: string)
    ensures ParseDecimal("-" + d) == -ParseDigits(d)
  {
    var s := "-" + d;
    assert s[0] == '-' && s[1..] == d;
  }

  // ---------------------------------------------------------------------------
  // Python's ordering of strings and `sorted` on a list of strings

  /** `a <= b` on Python strings: lexicographic by code point. */
  predicate LexLeq(a: string, b: string)
  {
    a == [] || (b != [] && (a[0] < b[0] || (a[0] == b[0] && LexLeq(a[1..], b[1..]))))
  }

  lemma {:induction false} LexLeqReflexive(a: string)
    ensures LexLeq(a, a)
  {
    if a != [] { LexLeqReflexive(a[1..]); }
  }

  lemma {:induction false} LexLeqTotal(a: string, b: string)
    ensures LexLeq(a, b) || LexLeq(b, a)
  {
    if a != [] && b != [] && a[0] == b[0] {
      LexLeqTotal(a[1..], b[1..]);
    }
  }

  lemma {:induction false} LexLeqAntisymmetric(a: string, b: string)
    requires LexLeq(a, b) && LexLeq(b, a)
    ensures a == b
  {
    if a != [] && b != [] {
      LexLeqAntisymmetric(a[1..], b[1..]);
      assert a == [a[0]] + a[1..] && b == [b[0]] + b[1..];
    }
  }

  lemma {:induction false} LexLeqTransitive(a: string, b: string, c: string)
    requires LexLeq(a, b) && LexLeq(b, c)
    ensures LexLeq(a, c)
  {
    if a != [] && b != [] && c != [] && a[0] == b[0] && b[0] == c[0] {
      LexLeqTransitive(a[1..], b[1..], c[1..]);
    }
  }

  ghost predicate Sorted(xs: seq<string>)
  {
    forall i, j :: 0 <= i < j < |xs| ==> LexLeq(xs[i], xs[j])
  }

  function Insert(x: string, xs: seq<string>): (r: seq<string>)
    ensures multiset(r) == multiset{x} + multiset(xs)
    ensures |r| == |xs| + 1
  {
    if xs == [] then [x]
    else if LexLeq(x, xs[0]) then [x] + xs
    else
      assert xs == [xs[0]] + xs[1..];
      [xs[0]] + Insert(x, xs[1..])
  }

  /** `sorted(xs)` on a list of strings (insertion sort; stable). */
  function Sort(xs: seq<string>): (r: seq<string>)
    ensures multiset(r) == multiset(xs)
    ensures |r| == |xs|
  {
    if xs == [] then []
    else
      assert xs == [xs[0]] + xs[1..];
      Insert(xs[0], Sort(xs[1..]))
  }

  lemma {:induction false} InsertSorted(x: string, xs: seq<string>)
    requires Sorted(xs)
    ensures Sorted(Insert(x, xs))
  {
    if xs != [] && !LexLeq(x, xs[0]) {
      LexLeqTotal(x, xs[0]);
      SortedTail(xs);
      InsertSorted(x, xs[1..]);
      forall k | 0 <= k < |xs[1..]| ensures LexLeq(xs[0], xs[1..][k]) {
        assert xs[1..][k] == xs[k + 1];
      }
      InsertKeepsLowerBound(xs[0], x, xs[1..]);
      ConsSorted(xs[0], Insert(x, xs[1..]));
    } else if xs != [] {
      forall j | 0 <= j < |xs| ensures LexLeq(x, xs[j]) {
        if j > 0 { LexLeqTransitive(x, xs[0], xs[j]); }
      }
      ConsSorted(x, xs);
    }
  }

  /** A lower bound of a sorted list can go in front of it. */
  lemma ConsSorted(h: string, t: seq<string>)
    requires Sorted(t) && forall k :: 0 <= k < |t| ==> LexLeq(h, t[k])
    ensures Sorted([h] + t)
  {
    var s := [h] + t;
    forall i, j | 0 <= i < j < |s| ensures LexLeq(s[i], s[j]) {
      assert s[j] == t[j - 1];
      if i > 0 { assert s[i] == t[i - 1]; }
    }
  }

  /** A lower bound of `x` and of `xs` bounds `Insert(x, xs)`. */
  lemma InsertKeepsLowerBound(y: string, x: string, xs: seq<string>)
    requires LexLeq(y, x) && forall k :: 0 <= k < |xs| ==> LexLeq(y, xs[k])
    ensures forall k :: 0 <= k < |Insert(x, xs)| ==> LexLeq(y, Insert(x, xs)[k])
  {
    var r := Insert(x, xs);
    forall k | 0 <= k < |r| ensures LexLeq(y, r[k]) {
      assert r[k] in multiset(r);
      if r[k] != x {
        assert r[k] in multiset(xs);
        var m :| 0 <= m < |xs| && xs[m] == r[k];
      }
    }
  }

  /** `sorted` returns the same strings, in ascending order. */
  lemma {:induction false} SortSorted(xs: seq<string>)
    ensures Sorted(Sort(xs))
    ensures multiset(Sort(xs)) == multiset(xs)
  {
    if xs != [] {
      SortSorted(xs[1..]);
      InsertSorted(xs[0], Sort(xs[1..]));
    }
  }

  /** The head of an ascending list is below everything it holds. */
  lemma SortedHeadLeast(a: seq<string>, x: string)
    requires Sorted(a) && x in multiset(a)
    ensures LexLeq(a[0], x)
  {
    var k :| 0 <= k < |a| && a[k] == x;
    if k == 0 { LexLeqReflexive(x); }
  }

  lemma SortedTail(a: seq<string>)
    requires Sorted(a) && a != []
    ensures Sorted(a[1..])
  {
    forall i, j | 0 <= i < j < |a| - 1 ensures LexLeq(a[1..][i], a[1..][j]) {
      assert a[1..][i] == a[i + 1] && a[1..][j] == a[j + 1];
    }
  }

  lemma TailMultiset(a: seq<string>)
    requires a != []
    ensures multiset(a[1..]) == multiset(a) - multiset{a[0]}
  {
    assert a == [a[0]] + a[1..];
  }

  /** Two ascending lists holding the same strings start with the same string. */
  lemma SortedHeadsEqual(a: seq<string>, b: seq<string>)
    requires Sorted(a) && Sorted(b) && multiset(a) == multiset(b) && a != []
    ensures b != [] && a[0] == b[0]
  {
    assert a[0] in multiset(a);
    assert b != [] && b[0] in multiset(b);
    SortedHeadLeast(b, a[0]);
    SortedHeadLeast(a, b[0]);
    LexLeqAntisymmetric(a[0], b[0]);
  }

  /** Two ascending lists holding the same strings are the same list. */
  lemma {:induction false} SortedUnique(a: seq<string>, b: seq<string>)
    requires Sorted(a) && Sorted(b) && multiset(a) == multiset(b)
    ensures a == b
    decreases |a|
  {
    if a == [] {
      assert |b| == |multiset(b)| == 0;
    } else {
      SortedHeadsEqual(a, b);
      TailMultiset(a);
      TailMultiset(b);
      SortedTail(a);
      SortedTail(b);
      SortedUnique(a[1..], b[1..]);
      assert a == [a[0]] + a[1..] && b == [b[0]] + b[1..];
    }
  }

  /** The result of `sorted` depends only on which strings (with repeats) are given. */
  lemma SortDeterministic(a: seq<string>, b: seq<string>)
    requires multiset(a) == multiset(b)
    ensures Sort(a) == Sort(b)
  {
    SortSorted(a);
    SortSorted(b);
    SortedUnique(Sort(a), Sort(b));
  }

  /** `sorted(xs)` is the one ascending arrangement of `xs`. */
  lemma SortOfPermutation(xs: seq<string>, ys: seq<string>)
    requires multiset(xs) == multiset(ys) && Sorted(ys)
    ensures Sort(xs) == ys
  {
    SortSorted(xs);
    SortedUnique(Sort(xs), ys);
  }

  // ---------------------------------------------------------------------------
  // `repr` of a string and `str` of a list of strings

  /** The body of `repr(s)` once the quote character is chosen. */
  function EscapeChars(s: string, quote: char): string
  {
    if s == [] then ""
    else
      var c := s[0];
      var e :=
        if c == '\\' then "\\\\"
        else if c == '\n' then "\\n"
        else if c == '\r' then "\\r"
        else if c == '\t' then "\\t"
        else if c == quote then ['\\', c]
        else [c];
      e + EscapeChars(s[1..], quote)
  }

  /** Printable ASCII characters other than the quotes and the backslash: `repr` writes them unchanged. */
  predicate PlainChar(c: char)
  {
    ' ' <= c <= '~' && c != '\\' && c != '\'' && c != '"'
  }

  lemma {:induction false} EscapePlain(s: string, q: char)
    requires forall i :: 0 <= i < |s| ==> PlainChar(s[i]) && s[i] != q
    ensures EscapeChars(s, q) == s
  {
    if s != [] {
      EscapePlain(s[1..], q);
      assert s == [s[0]] + s[1..];
    }
  }

  /** A string of printable ASCII without quotes or backslashes is shown as itself in single quotes. */
  lemma PlainRepr(s: string)
    requires forall i :: 0 <= i < |s| ==> PlainChar(s[i])
    ensures Repr(s) == "'" + s + "'"
  {
    assert '\'' !in s;
    EscapePlain(s, '\'');
  }

  /** `repr(s)`: single quotes unless the string holds a single quote and no double quote. */
  function Repr(s: string): string
  {
    var q := if '\'' in s && '"' !in s then '"' else '\'';
    [q] + EscapeChars(s, q) + [q]
  }

  function JoinReprs(xs: seq<string>): string
  {
    if xs == [] then ""
    else if |xs| == 1 then Repr(xs[0])
    else Repr(xs[0]) + ", " + JoinReprs(xs[1..])
  }

  /** `str(xs)` for a list of strings: `['a', 'b']`. */
  function ListStr(xs: seq<string>): string
  {
    "[" + JoinReprs(xs) + "]"
  }
}
