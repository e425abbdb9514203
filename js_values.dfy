/** The slice of JavaScript value semantics that the form widgets rely on:
    what a bound field's `value` can hold, when it is truthy, how a property is
    read from it, how a template literal turns it into text, and how
    `String.prototype.trim` treats white space. */
module JsValues {

  datatype Option<+T> = None | Some(value: T)

  /** A JavaScript value as far as form fields use it. Numbers are integral
      (no fractions, no NaN, no infinities). */
  datatype Value =
    | Undefined
    | Null
    | Bool(b: bool)
    | Num(n: int)
    | Str(s: string)
    | Arr(items: seq<Value>)
    | Obj(props: map<string, Value>)

  predicate Nullish(v: Value) {
    v.Undefined? || v.Null?
  }

  /** JavaScript truthiness: `if (v)` takes the branch exactly for these. */
  predicate Truthy(v: Value)
    ensures Truthy(v) ==> !Nullish(v)
    ensures v.Arr? || v.Obj? ==> Truthy(v)
    ensures v.Str? ==> (Truthy(v) <==> v.s != "")
    ensures v.Num? ==> (Truthy(v) <==> v.n != 0)
    ensures v.Bool? ==> (Truthy(v) <==> v.b)
  {
    match v
    case Undefined => false
    case Null => false
    case Bool(b) => b
    case Num(n) => n != 0
    case Str(s) => s != ""
    case Arr(_) => true
    case Obj(_) => true
  }

  /** `v.key` on a value that is not null or undefined (reading a property of
      those throws). Only own properties of plain objects are modelled; the
      keys the widgets read (`name`, `id`, `firstName`, `lastName`) are not
      properties of primitives or arrays, so those give `undefined`. */
  function Get(v: Value, key: string): (r: Value)
    requires !Nullish(v)
    ensures v.Obj? && key in v.props ==> r == v.props[key]
    ensures v.Obj? && key !in v.props ==> r == Undefined
    ensures !v.Obj? ==> r == Undefined
  {
    match v
    case Obj(props) => if key in props then props[key] else Undefined
    case _ => Undefined
  }

  /** Truthiness of an optional string property: absent and empty are falsy. */
  predicate Present(s: Option<string>) {
    s.Some? && s.value != ""
  }

  /** `a || b` for an optional string. */
  function OrElse(s: Option<string>, fallback: string): (r: string)
    ensures Present(s) ==> r == s.value
    ensures !Present(s) ==> r == fallback
  {
    if Present(s) then s.value else fallback
  }

  // ---------------------------------------------------------------------------
  // Number to decimal text

  function DigitChar(d: nat): (c: char)
    requires d < 10
    ensures '0' <= c <= '9'
  {
    "0123456789"[d]
  }

  function DigitValue(c: char): nat
    requires '0' <= c <= '9'
  {
    (c as int - '0' as int) as nat
  }

  /** Decimal digits of `n`, most significant first, without leading zeros. */
  function NatToString(n: nat): (s: string)
    ensures |s| >= 1
    ensures forall i :: 0 <= i < |s| ==> '0' <= s[i] <= '9'
    ensures |s| > 1 ==> s[0] != '0'
    ensures n > 0 ==> s[0] != '0'
    decreases n
  {
    if n < 10 then [DigitChar(n)] else NatToString(n / 10) + [DigitChar(n % 10)]
  }

  /** The number a string of decimal digits denotes: the inverse of
      NatToString. */
  function ParseDigits(s: string): nat
    requires forall i :: 0 <= i < |s| ==> '0' <= s[i] <= '9'
  {
    if s == [] then 0 else 10 * ParseDigits(s[..|s| - 1]) + DigitValue(s[|s| - 1])
  }

  lemma DigitRoundTrip(d: nat)
    requires d < 10
    ensures DigitValue(DigitChar(d)) == d
  {
  }

  /** Reading back the digits a number prints as gives the number. */
  lemma {:induction false} NatToStringRoundTrip(n: nat)
    ensures ParseDigits(NatToString(n)) == n
    decreases n
  {
    var s := NatToString(n);
    if n < 10 {
      DigitRoundTrip(n);
      assert s[..|s| - 1] == [];
    } else {
      NatToStringRoundTrip(n / 10);
      DigitRoundTrip(n % 10);
      assert s[..|s| - 1] == NatToString(n / 10);
    }
  }

  /** An integer's decimal text, with a minus sign when negative: the digits
      after the sign read back as the magnitude. */
  function IntToString(n: int): (r: string)
    ensures n >= 0 ==> |r| >= 1 && (|r| > 1 ==> r[0] != '0')
    ensures n >= 0 ==> (forall i :: 0 <= i < |r| ==> '0' <= r[i] <= '9') && ParseDigits(r) == n
    ensures n < 0 ==> |r| >= 2 && r[1] != '0'
    ensures n < 0 ==>
      |r| >= 2 && r[0] == '-' && (forall i :: 1 <= i < |r| ==> '0' <= r[i] <= '9')
      && ParseDigits(r[1..]) == -n
  {
    if n < 0 then
      NatToStringRoundTrip(-n);
      var r := "-" + NatToString(-n);
      assert r[1..] == NatToString(-n);
      r
    else
      NatToStringRoundTrip(n);
      NatToString(n)
  }

  // ---------------------------------------------------------------------------
  // Template-literal conversion

  function Join(parts: seq<string>, sep: string): (r: string)
    ensures parts == [] ==> r == ""
    ensures |parts| == 1 ==> r == parts[0]
  {
    if parts == [] then ""
    else if |parts| == 1 then parts[0]
    else Join(parts[..|parts| - 1], sep) + sep + parts[|parts| - 1]
  }

  /** `${v}`: the string conversion a template literal applies. Arrays join
      their elements with commas, null and undefined elements contributing
      nothing; plain objects print as "[object Object]". */
  function ToString(v: Value): (r: string)
    ensures v.Str? ==> r == v.s
    ensures v.Num? ==> r == IntToString(v.n)
    decreases v
  {
    match v
    case Undefined => "undefined"
    case Null => "null"
    case Bool(b) => if b then "true" else "false"
    case Num(n) => IntToString(n)
    case Str(s) => s
    case Arr(items) =>
      Join(seq(|items|, i requires 0 <= i < |items| =>
        if Nullish(items[i]) then "" else ToString(items[i])), ",")
    case Obj(_) => "[object Object]"
  }

  // ---------------------------------------------------------------------------
  // String.prototype.trim

  /** The characters `trim` removes: ECMAScript WhiteSpace (tab, vertical tab,
      form feed, space, no-break space, byte-order mark and the Unicode space
      separators) and LineTerminator (LF, CR, LS, PS). */
  predicate IsWhitespace(c: char) {
    || c == ' ' || c == '\t' || c == '\n' || c == '\r'
    || c == '\U{000B}' || c == '\U{000C}'
    || c == '\U{00A0}' || c == '\U{1680}'
    || ('\U{2000}' <= c <= '\U{200A}')
    || c == '\U{2028}' || c == '\U{2029}'
    || c == '\U{202F}' || c == '\U{205F}' || c == '\U{3000}'
    || c == '\U{FEFF}'
  }

  /** Neither end of `s` is white space (vacuously true of ""). */
  predicate Unpadded(s: string) {
    s == [] || (!IsWhitespace(s[0]) && !IsWhitespace(s[|s| - 1]))
  }

  /** The end of the run of white space that starts at `i`. */
  function WhitespaceRunEnd(s: string, i: nat): (j: nat)
    requires i <= |s|
    ensures i <= j <= |s|
    ensures forall k :: i <= k < j ==> IsWhitespace(s[k])
    ensures j == |s| || !IsWhitespace(s[j])
    decreases |s| - i
  {
    if i < |s| && IsWhitespace(s[i]) then WhitespaceRunEnd(s, i + 1) else i
  }

  /** The start of the run of white space that ends at `j`. */
  function WhitespaceRunStart(s: string, j: nat): (i: nat)
    requires j <= |s|
    ensures i <= j
    ensures forall k :: i <= k < j ==> IsWhitespace(s[k])
    ensures i == 0 || !IsWhitespace(s[i - 1])
  {
    if j > 0 && IsWhitespace(s[j - 1]) then WhitespaceRunStart(s, j - 1) else j
  }

  /** Drops the leading white space: the result is a suffix of `s` that does
      not start with white space, and everything dropped is white space. */
  function TrimStart(s: string): (r: string)
    ensures |r| <= |s| && r == s[|s| - |r|..]
    ensures r == [] || !IsWhitespace(r[0])
    ensures forall i :: 0 <= i < |s| - |r| ==> IsWhitespace(s[i])
  {
    s[WhitespaceRunEnd(s, 0)..]
  }

  /** Drops the trailing white space: the result is a prefix of `s` that does
      not end with white space, and everything dropped is white space. */
  function TrimEnd(s: string): (r: string)
    ensures |r| <= |s| && r == s[..|r|]
    ensures r == [] || !IsWhitespace(r[|r| - 1])
    ensures forall i :: |r| <= i < |s| ==> IsWhitespace(s[i])
  {
    s[..WhitespaceRunStart(s, |s|)]
  }

  /** `s.trim()`: the slice of `s` between its leading and its trailing white
      space. */
  function Trim(s: string): (r: string)
    ensures Unpadded(r)
    ensures exists a, b :: 0 <= a <= b <= |s| && r == s[a..b]
  {
    SliceOfSlice(s, TrimStart(s), TrimEnd(TrimStart(s)));
    TrimEnd(TrimStart(s))
  }

  /** A prefix of a suffix of `s` is a slice of `s`. */
  lemma SliceOfSlice(s: string, t: string, r: string)
    requires |t| <= |s| && t == s[|s| - |t|..]
    requires |r| <= |t| && r == t[..|r|]
    ensures |s| - |t| + |r| <= |s| && r == s[|s| - |t|..|s| - |t| + |r|]
  {
  }

  /** A text whose leading white space leaves `t` and whose trailing white
      space leaves `r` is white space, then `r`, then white space. */
  lemma {:induction false} Decompose(s: string, t: string, r: string)
    requires |t| <= |s| && t == s[|s| - |t|..]
    requires |r| <= |t| && r == t[..|r|]
    requires forall i :: 0 <= i < |s| - |t| ==> IsWhitespace(s[i])
    requires forall i :: |r| <= i < |t| ==> IsWhitespace(t[i])
    ensures var a := |s| - |t|;
      && a + |r| <= |s|
      && s[a..a + |r|] == r
      && (forall i :: 0 <= i < a ==> IsWhitespace(s[i]))
      && (forall i :: a + |r| <= i < |s| ==> IsWhitespace(s[i]))
  {
    var a := |s| - |t|;
    forall i | a + |r| <= i < |s| ensures IsWhitespace(s[i]) {
      assert s[i] == t[i - a];
    }
  }

  /** Trim removes white space and only white space, from both ends: `s` is
      the trimmed text with white space on either side; the leading part is
      what TrimStart drops. */
  lemma {:induction false} TrimDecomposes(s: string)
    ensures |s| - |TrimStart(s)| + |Trim(s)| <= |s|
    ensures s[|s| - |TrimStart(s)|..|s| - |TrimStart(s)| + |Trim(s)|] == Trim(s)
    ensures forall i :: 0 <= i < |s| - |TrimStart(s)| ==> IsWhitespace(s[i])
    ensures forall i :: |s| - |TrimStart(s)| + |Trim(s)| <= i < |s| ==> IsWhitespace(s[i])
  {
    Decompose(s, TrimStart(s), Trim(s));
  }

  /** Text that has no white space at either end is left as it is. */
  lemma TrimUnpadded(s: string)
    requires Unpadded(s)
    ensures Trim(s) == s
  {
  }

  /** Trimming twice is trimming once. */
  lemma TrimIdempotent(s: string)
    ensures Trim(Trim(s)) == Trim(s)
  {
  }

  /** Appending white space does not change what `trim` gives. */
  lemma TrimIgnoresTrailing(s: string, w: string)
    requires forall i :: 0 <= i < |w| ==> IsWhitespace(w[i])
    ensures Trim(s + w) == Trim(s)
  {
    if exists i :: 0 <= i < |s| && !IsWhitespace(s[i]) {
      TrimStartAppend(s, w);
      TrimEndAppend(TrimStart(s), w);
    } else {
      AllWhitespaceTrimsToEmpty(s);
      AllWhitespaceTrimsToEmpty(s + w);
    }
  }

  /** The white-space run before `j` does not look past `j`. */
  lemma {:induction false} RunStartPrefix(x: string, w: string, j: nat)
    requires j <= |x|
    ensures WhitespaceRunStart(x + w, j) == WhitespaceRunStart(x, j)
    decreases j
  {
    if j > 0 {
      assert (x + w)[j - 1] == x[j - 1];
      RunStartPrefix(x, w, j - 1);
    }
  }

  /** White space appended after `x` extends the run that ends `x`. */
  lemma {:induction false} RunStartTail(x: string, w: string, j: nat)
    requires forall i :: 0 <= i < |w| ==> IsWhitespace(w[i])
    requires |x| <= j <= |x + w|
    ensures WhitespaceRunStart(x + w, j) == WhitespaceRunStart(x + w, |x|)
    decreases j
  {
    if j > |x| {
      assert (x + w)[j - 1] == w[j - 1 - |x|];
      RunStartTail(x, w, j - 1);
    }
  }

  lemma TrimEndAppend(x: string, w: string)
    requires forall i :: 0 <= i < |w| ==> IsWhitespace(w[i])
    ensures TrimEnd(x + w) == TrimEnd(x)
  {
    RunStartTail(x, w, |x + w|);
    RunStartPrefix(x, w, |x|);
    var n := WhitespaceRunStart(x, |x|);
    assert (x + w)[..n] == x[..n];
  }

  /** The white-space run from `i` stops at the same place once text is
      appended, when `s` has a non-white-space character at or after `i`. */
  lemma {:induction false} RunEndAppend(s: string, w: string, i: nat, k: nat)
    requires i <= k < |s| && !IsWhitespace(s[k])
    ensures WhitespaceRunEnd(s + w, i) == WhitespaceRunEnd(s, i)
    decreases k - i
  {
    assert (s + w)[i] == s[i];
    if i < k && IsWhitespace(s[i]) {
      RunEndAppend(s, w, i + 1, k);
    }
  }

  lemma TrimStartAppend(s: string, w: string)
    requires exists i :: 0 <= i < |s| && !IsWhitespace(s[i])
    ensures TrimStart(s + w) == TrimStart(s) + w
  {
    var k :| 0 <= k < |s| && !IsWhitespace(s[k]);
    RunEndAppend(s, w, 0, k);
    var n := WhitespaceRunEnd(s, 0);
    assert (s + w)[n..] == s[n..] + w;
  }

  lemma AllWhitespaceTrimsToEmpty(s: string)
    requires forall i :: 0 <= i < |s| ==> IsWhitespace(s[i])
    ensures Trim(s) == []
  {
  }
}
