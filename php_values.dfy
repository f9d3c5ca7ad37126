/**
 * The PHP semantics that api/products.php leans on: the values
 * `json_decode($body, true)` produces, `empty`, `isset`, the `(int)` cast,
 * `strtolower`, `pathinfo(..., PATHINFO_EXTENSION)`, `implode` and `explode`.
 */
module PhpValues {
  import opened Sequences

  /**
   * A decoded request value. JSON arrays and objects both become PHP
   * arrays; only their elements are kept here, not their keys.
   */
  datatype Json =
    | JNull
    | JBool(b: bool)
    | JInt(i: int)
    | JFloat(x: real)
    | JString(s: string)
    | JArray(elems: seq<Json>)

  /** `empty($v)` for a value that is there. */
  predicate IsEmpty(v: Json)
  {
    match v
    case JNull => true
    case JBool(b) => !b
    case JInt(i) => i == 0
    case JFloat(x) => x == 0.0
    case JString(s) => s == "" || s == "0"
    case JArray(e) => e == []
  }

  /** `empty($a[$k])`: a missing key is empty too. */
  predicate EmptyAt(a: map<string, Json>, k: string)
  {
    k !in a || IsEmpty(a[k])
  }

  /** `isset($a[$k])`: the key is there and its value is not null. */
  predicate IsSet(a: map<string, Json>, k: string)
  {
    k in a && a[k] != JNull
  }

  /** `$a[$k]`, with PHP's null for a missing key. */
  function At(a: map<string, Json>, k: string): Json
  {
    if k in a then a[k] else JNull
  }

  predicate IsDigit(c: char)
  {
    '0' <= c <= '9'
  }

  predicate AllDigits(s: string)
  {
    forall k :: 0 <= k < |s| ==> IsDigit(s[k])
  }

  /** The white space PHP skips before a number in a string. */
  predicate IsNumericSpace(c: char)
  {
    c == ' ' || c == '\t' || c == '\n' || c == '\r' || c == '\U{B}' || c == '\U{C}'
  }

  /** `s` without its leading white space. */
  function SkipSpace(s: string): (r: string)
    ensures |r| <= |s| && r == s[|s| - |r|..]
    ensures r == [] || !IsNumericSpace(r[0])
  {
    if s != [] && IsNumericSpace(s[0]) then SkipSpace(s[1..]) else s
  }

  /** The longest prefix of `s` made of decimal digits. */
  function DigitRun(s: string): (r: string)
    ensures |r| <= |s| && r == s[..|r|] && AllDigits(r)
    ensures |r| < |s| ==> !IsDigit(s[|r|])
  {
    if s != [] && IsDigit(s[0]) then [s[0]] + DigitRun(s[1..]) else []
  }

  /** The number a string of decimal digits denotes. */
  function DecimalValue(d: string): nat
    requires AllDigits(d)
  {
    if d == [] then 0 else 10 * DecimalValue(d[..|d| - 1]) + (d[|d| - 1] as int - '0' as int)
  }

  /**
   * `(int)$s`: leading white space, an optional sign and the digits that
   * follow; a string with no leading digits gives 0.
   */
  function StringToInt(s: string): int
  {
    var t := SkipSpace(s);
    if t != [] && t[0] == '-' then -(DecimalValue(DigitRun(t[1..])) as int)
    else if t != [] && t[0] == '+' then DecimalValue(DigitRun(t[1..]))
    else DecimalValue(DigitRun(t))
  }

  /** `(int)$x` for a float: truncation towards zero. */
  function Truncate(x: real): int
  {
    if x >= 0.0 then x.Floor else -((-x).Floor)
  }

  /** `(int)$v`. */
  function ToInt(v: Json): int
  {
    match v
    case JNull => 0
    case JBool(b) => if b then 1 else 0
    case JInt(i) => i
    case JFloat(x) => Truncate(x)
    case JString(s) => StringToInt(s)
    case JArray(e) => if e == [] then 0 else 1
  }

  /** Every value `empty` accepts casts to 0. */
  lemma EmptyCastsToZero(v: Json)
    ensures IsEmpty(v) ==> ToInt(v) == 0
  {
    if v == JString("0") {
      assert DigitRun("0") == "0";
      assert "0"[..0] == [];
    }
  }

  /** A string that starts with neither white space, a sign nor a digit casts to 0. */
  lemma NonNumericCastsToZero(s: string)
    requires s != [] && !IsNumericSpace(s[0]) && !IsDigit(s[0]) && s[0] != '-' && s[0] != '+'
    ensures StringToInt(s) == 0
  {
    assert SkipSpace(s) == s;
    assert DigitRun(s) == [];
  }

  /** The converse fails: a non-empty string such as "abc" also casts to 0. */
  lemma NonEmptyMayCastToZero()
    ensures !IsEmpty(JString("abc")) && ToInt(JString("abc")) == 0
  {
    NonNumericCastsToZero("abc");
  }

  /** The decimal digit for `d`. */
  function DigitChar(d: nat): (c: char)
    requires d < 10
    ensures IsDigit(c)
  {
    ('0' as int + d) as char
  }

  /** The decimal text of `n` without sign or leading zeros. */
  function DecimalString(n: nat): (s: string)
    ensures |s| > 0 && AllDigits(s)
  {
    if n < 10 then [DigitChar(n)] else DecimalString(n / 10) + [DigitChar(n % 10)]
  }

  lemma {:induction false} DecimalValueOfString(n: nat)
    ensures DecimalValue(DecimalString(n)) == n
  {
    if n >= 10 {
      var s := DecimalString(n);
      assert s[..|s| - 1] == DecimalString(n / 10);
      DecimalValueOfString(n / 10);
    }
  }

  lemma DigitRunOfDigits(s: string)
    requires AllDigits(s)
    ensures DigitRun(s) == s
  {
    if s != [] {
      DigitRunOfDigits(s[1..]);
    }
  }

  /** A string of digits casts to the number it denotes. */
  lemma StringToIntOfDigits(s: string)
    requires s != [] && AllDigits(s)
    ensures StringToInt(s) == DecimalValue(s)
  {
    var c := s[0];
    assert IsDigit(c);
    assert !IsNumericSpace(c) && c != '-' && c != '+';
    assert SkipSpace(s) == s;
    DigitRunOfDigits(s);
  }

  /** Casting the decimal text of a number gives the number back. */
  lemma StringToIntOfDecimal(n: nat)
    ensures StringToInt(DecimalString(n)) == n
  {
    StringToIntOfDigits(DecimalString(n));
    DecimalValueOfString(n);
  }

  /** With a minus sign in front, the cast gives the negated number. */
  lemma StringToIntOfNegatedDecimal(n: nat)
    ensures StringToInt("-" + DecimalString(n)) == -(n as int)
  {
    var s := DecimalString(n);
    var t := "-" + s;
    assert SkipSpace(t) == t;
    assert t[1..] == s;
    DigitRunOfDigits(s);
    DecimalValueOfString(n);
  }

  /** `strtolower` on one character: only ASCII capitals change. */
  function LowerChar(c: char): char
  {
    if 'A' <= c <= 'Z' then (c as int + 32) as char else c
  }

  /** `strtolower($s)`. */
  function Lower(s: string): (r: string)
    ensures |r| == |s|
    ensures forall k :: 0 <= k < |s| ==> r[k] == LowerChar(s[k])
    ensures forall k :: 0 <= k < |r| ==> !('A' <= r[k] <= 'Z')
  {
    if s == [] then [] else [LowerChar(s[0])] + Lower(s[1..])
  }

  /** Lowering twice is lowering once. */
  lemma LowerIdempotent(s: string)
    ensures Lower(Lower(s)) == Lower(s)
  {
    assert forall k :: 0 <= k < |s| ==> Lower(Lower(s))[k] == Lower(s)[k];
  }

  /**
   * `pathinfo($path, PATHINFO_EXTENSION)`: the text after the last `.` of
   * the last path component, or "" when that component has no `.`. The
   * last `.` of the component is the last `.` of the whole path when that
   * one lies after the last `/`; otherwise the component has none.
   */
  function Extension(path: string): (ext: string)
    ensures '.' !in ext && '/' !in ext
    ensures ext != [] ==> |ext| < |path| && path[|path| - |ext| - 1..] == "." + ext
  {
    var slash := LastIndexOf(path, '/');
    var dot := LastIndexOf(path, '.');
    if dot <= slash then ""
    else
      assert path[dot..] == [path[dot]] + path[dot + 1..];
      path[dot + 1..]
  }

  /**
   * The extension is empty only when the last path component has no `.`,
   * or when the path ends in a `.`.
   */
  lemma ExtensionEmpty(path: string)
    ensures Extension(path) == [] ==>
      (forall k :: LastIndexOf(path, '/') < k < |path| ==> path[k] != '.')
      || (|path| > 0 && path[|path| - 1] == '.')
  {
    var slash := LastIndexOf(path, '/');
    var dot := LastIndexOf(path, '.');
    if dot > slash && Extension(path) == [] {
      assert |path| - 1 == dot;
    }
  }

  /** A trailing `.` gives an empty extension although the component holds a `.` before it. */
  lemma ExtensionOfTrailingDot()
    ensures Extension("a.b.") == [] && "a.b."[1] == '.'
  {
    assert LastIndexOf("a.b.", '.') == 3;
  }

  /** A name built as `stem . "." . ext` has extension `ext`, whatever the stem. */
  lemma ExtensionOfSuffixed(stem: string, ext: string)
    requires ext != [] && '.' !in ext && '/' !in ext
    ensures Extension(stem + "." + ext) == ext
  {
    var path := stem + "." + ext;
    LastIndexOfBefore(stem, '.', ext, '/');
    LastIndexOfSeparator(stem, '.', ext);
    assert path[|stem| + 1..] == ext;
  }

  /** `implode($sep, $xs)`. */
  function Join(sep: string, xs: seq<string>): string
  {
    if xs == [] then "" else if |xs| == 1 then xs[0] else xs[0] + sep + Join(sep, xs[1..])
  }

  /** `explode($sep, $s)` for a one-character separator. */
  function Split(s: string, sep: char): (parts: seq<string>)
    ensures |parts| > 0
    decreases |s|
  {
    var i := IndexOf(s, sep);
    if i == |s| then [s] else [s[..i]] + Split(s[i + 1..], sep)
  }

  /** Splitting a joined list gives the list back when no entry holds the separator. */
  lemma {:induction false} SplitJoin(xs: seq<string>, sep: char)
    requires xs != []
    requires forall k :: 0 <= k < |xs| ==> sep !in xs[k]
    ensures Split(Join([sep], xs), sep) == xs
  {
    var s := Join([sep], xs);
    if |xs| == 1 {
      assert IndexOf(s, sep) == |s|;
    } else {
      var head := xs[0];
      assert s == head + [sep] + Join([sep], xs[1..]);
      assert forall k :: 0 <= k < |head| ==> s[k] == head[k];
      assert s[|head|] == sep;
      assert IndexOf(s, sep) == |head|;
      assert s[..|head|] == head;
      assert s[|head| + 1..] == Join([sep], xs[1..]);
      SplitJoin(xs[1..], sep);
    }
  }
}
