/**
 * The JavaScript string operations the page uses: `String.prototype.trim`,
 * `Array.prototype.join`, decimal rendering of integers and the string a
 * template literal `${x}` produces for an arbitrary value.
 */
module JsText {
  import opened Wrappers
  import opened Json

  /** WhiteSpace and LineTerminator code points of ECMAScript, which `trim` strips. */
  predicate IsJsSpace(c: char) {
    c in JS_SPACES
  }

  const JS_SPACES: set<char> := {'\t', '\n', '\U{000B}', '\U{000C}', '\r', ' ', '\U{00A0}', '\U{1680}',
    '\U{2000}', '\U{2001}', '\U{2002}', '\U{2003}', '\U{2004}', '\U{2005}', '\U{2006}', '\U{2007}', '\U{2008}', '\U{2009}', '\U{200A}',
    '\U{2028}', '\U{2029}', '\U{202F}', '\U{205F}', '\U{3000}', '\U{FEFF}'}

  /** True when every character of `s` is white space (so `s.trim()` is empty). */
  predicate IsBlank(s: string) {
    forall k :: 0 <= k < |s| ==> IsJsSpace(s[k])
  }

  /** Where the leading white space of `s[lo..]` ends. */
  function TrimStartIndex(s: string, lo: nat): (i: nat)
    requires lo <= |s|
    ensures lo <= i <= |s|
    ensures i == |s| || !IsJsSpace(s[i])
    ensures forall k :: lo <= k < i ==> IsJsSpace(s[k])
    decreases |s| - lo
  {
    if lo == |s| || !IsJsSpace(s[lo]) then lo else TrimStartIndex(s, lo + 1)
  }

  /** Where the trailing white space of `s[lo..hi]` starts. */
  function TrimEndIndex(s: string, lo: nat, hi: nat): (j: nat)
    requires lo <= hi <= |s|
    ensures lo <= j <= hi
    ensures j == lo || !IsJsSpace(s[j - 1])
    ensures forall k :: j <= k < hi ==> IsJsSpace(s[k])
    decreases hi
  {
    if hi == lo || !IsJsSpace(s[hi - 1]) then hi else TrimEndIndex(s, lo, hi - 1)
  }

  /** `r` is `s` with a blank prefix `s[..i]` and a blank suffix `s[j..]` cut off. */
  predicate StripsTo(s: string, r: string, i: int, j: int) {
    0 <= i <= j <= |s| && r == s[i..j] && IsBlank(s[..i]) && IsBlank(s[j..])
  }

  /**
   * `s.trim()`: `s` with only white space removed, and only at its two ends;
   * what remains has neither leading nor trailing white space and is empty
   * exactly when `s` is blank.
   */
  function Trim(s: string): (r: string)
    ensures r == [] || (!IsJsSpace(r[0]) && !IsJsSpace(r[|r| - 1]))
    ensures exists i, j :: StripsTo(s, r, i, j)
    ensures Contains(s, r)
    ensures r == [] <==> IsBlank(s)
  {
    var i := TrimStartIndex(s, 0);
    var j := TrimEndIndex(s, i, |s|);
    TrimBounds(s, i, j);
    s[i..j]
  }

  /** What `Trim` needs of the two positions it cuts at. */
  lemma TrimBounds(s: string, i: nat, j: nat)
    requires i == TrimStartIndex(s, 0) && j == TrimEndIndex(s, i, |s|)
    ensures StripsTo(s, s[i..j], i, j)
    ensures Contains(s, s[i..j])
    ensures s[i..j] == [] <==> IsBlank(s)
  {
    assert OccursAt(s, s[i..j], i);
    assert forall k :: 0 <= k < i ==> s[..i][k] == s[k];
    assert forall k :: 0 <= k < |s| - j ==> s[j..][k] == s[j + k];
  }

  /**
   * `trim` is the only way to cut white space off the two ends that leaves none
   * at either end: any such piece is `Trim(s)`.
   */
  lemma TrimUnique(s: string, r: string, i: int, j: int)
    requires StripsTo(s, r, i, j)
    requires r == [] || (!IsJsSpace(r[0]) && !IsJsSpace(r[|r| - 1]))
    ensures r == Trim(s)
  {
    BlankEnds(s, i, j);
    if r == [] {
      assert IsBlank(s);
    } else {
      assert s[i] == r[0] && s[j - 1] == r[|r| - 1];
      StartIndexAt(s, i);
      EndIndexAt(s, i, j);
    }
  }

  /** The blank prefix and suffix of `StripsTo`, position by position. */
  lemma BlankEnds(s: string, i: int, j: int)
    requires 0 <= i <= j <= |s| && IsBlank(s[..i]) && IsBlank(s[j..])
    ensures forall k :: 0 <= k < i ==> IsJsSpace(s[k])
    ensures forall k :: j <= k < |s| ==> IsJsSpace(s[k])
  {
    forall k | 0 <= k < i ensures IsJsSpace(s[k]) { assert s[..i][k] == s[k]; }
    forall k | j <= k < |s| ensures IsJsSpace(s[k]) { assert s[j..][k - j] == s[k]; }
  }

  /** The leading white space ends at the first position that is not white space. */
  lemma StartIndexAt(s: string, i: nat)
    requires i < |s| && !IsJsSpace(s[i])
    requires forall k :: 0 <= k < i ==> IsJsSpace(s[k])
    ensures TrimStartIndex(s, 0) == i
  {
  }

  /** The trailing white space starts after the last position that is not white space. */
  lemma EndIndexAt(s: string, i: nat, j: nat)
    requires i < j <= |s| && !IsJsSpace(s[j - 1])
    requires forall k :: j <= k < |s| ==> IsJsSpace(s[k])
    ensures TrimEndIndex(s, i, |s|) == j
  {
  }

  /** `xs.join(sep)` for an array of strings. */
  function Join(xs: seq<string>, sep: string): (r: string)
    ensures xs == [] ==> r == ""
    ensures |xs| == 1 ==> r == xs[0]
  {
    if xs == [] then "" else if |xs| == 1 then xs[0] else xs[0] + sep + Join(xs[1..], sep)
  }

  /** `w` occurs in `t` starting at position `i`. */
  predicate OccursAt(t: string, w: string, i: int) {
    0 <= i && i + |w| <= |t| && t[i..i + |w|] == w
  }

  /** `t.includes(w)`. */
  ghost predicate Contains(t: string, w: string) {
    exists i :: OccursAt(t, w, i)
  }

  lemma ContainsLeft(t: string, w: string, rest: string)
    requires Contains(t, w)
    ensures Contains(t + rest, w)
  {
    var i :| OccursAt(t, w, i);
    assert (t + rest)[i..i + |w|] == t[i..i + |w|];
    assert OccursAt(t + rest, w, i);
  }

  lemma ContainsRight(pre: string, t: string, w: string)
    requires Contains(t, w)
    ensures Contains(pre + t, w)
  {
    var i :| OccursAt(t, w, i);
    assert (pre + t)[|pre| + i..|pre| + i + |w|] == t[i..i + |w|];
    assert OccursAt(pre + t, w, |pre| + i);
  }

  lemma ContainsSelf(w: string)
    ensures Contains(w, w)
  {
    assert OccursAt(w, w, 0);
  }

  /** Every element of an array appears in its `join`. */
  lemma {:induction false} JoinMentions(xs: seq<string>, sep: string, k: nat)
    requires k < |xs|
    ensures Contains(Join(xs, sep), xs[k])
  {
    if |xs| == 1 {
      ContainsSelf(xs[0]);
    } else if k == 0 {
      ContainsSelf(xs[0]);
      ContainsLeft(xs[0], xs[0], sep + Join(xs[1..], sep));
      assert xs[0] + (sep + Join(xs[1..], sep)) == Join(xs, sep);
    } else {
      JoinMentions(xs[1..], sep, k - 1);
      ContainsRight(xs[0] + sep, Join(xs[1..], sep), xs[k]);
    }
  }

  function DigitChar(d: nat): (c: char)
    requires d < 10
    ensures '0' <= c <= '9'
    ensures c as int - '0' as int == d
  {
    ('0' as int + d) as char
  }

  /** The decimal numeral of `n`, without leading zeros. */
  function NatToString(n: nat): (r: string)
    ensures r != []
    ensures forall k :: 0 <= k < |r| ==> '0' <= r[k] <= '9'
    ensures n > 0 ==> r[0] != '0'
    decreases n
  {
    if n < 10 then [DigitChar(n)] else NatToString(n / 10) + [DigitChar(n % 10)]
  }

  /** Different numbers have different numerals. */
  lemma {:induction false} NatToStringInjective(n: nat, m: nat)
    requires NatToString(n) == NatToString(m)
    ensures n == m
    decreases n
  {
    var a, b := NatToString(n), NatToString(m);
    if n < 10 && m < 10 {
      assert a[0] == b[0];
    } else if n >= 10 && m >= 10 {
      assert a[|a| - 1] == b[|b| - 1];
      assert a[..|a| - 1] == NatToString(n / 10);
      assert b[..|b| - 1] == NatToString(m / 10);
      NatToStringInjective(n / 10, m / 10);
    }
  }

  /** `String(n)` for an integer. */
  function IntToString(n: int): (r: string)
    ensures r != []
    ensures n < 0 <==> r[0] == '-'
  {
    if n < 0 then "-" + NatToString(-n) else NatToString(n)
  }

  /**
   * Converting `j` to a string throws a `TypeError`: `j` is an object with an own
   * `toString` key, or an array with such an element (arrays convert through
   * `join`). A parsed JSON value is never callable, so that `toString` is passed
   * over, `valueOf` yields the object itself, and no primitive is reached.
   */
  predicate ToStringThrows(j: Json)
    decreases j
  {
    match j
    case JObj(fields) => "toString" in fields
    case JArr(items) => exists k :: 0 <= k < |items| && ToStringThrows(items[k])
    case _ => false
  }

  /** `${o}` (or `${o || default}`) throws. */
  predicate TemplateThrows(o: Option<Json>) {
    o.Some? && ToStringThrows(o.value)
  }

  /** Only objects and arrays can throw, and they are truthy, so `${o || default}` throws exactly when `${o}` does. */
  lemma ThrowingValuesAreTruthy(o: Option<Json>)
    requires TemplateThrows(o)
    ensures Present(o) && (o.value.JObj? || o.value.JArr?)
  {
  }

  /**
   * `String(j)`, the text a template literal inserts for `j`: arrays render their
   * elements joined by commas with `null` elements as empty text, objects render
   * as `[object Object]`. Its value matters only where `ToStringThrows(j)` is false;
   * where that is true the conversion throws instead.
   */
  function ToJsString(j: Json): string {
    match j
    case JNull => "null"
    case JBool(b) => if b then "true" else "false"
    case JNum(n) => IntToString(n)
    case JStr(s) => s
    case JArr(items) =>
      Join(seq(|items|, i requires 0 <= i < |items| => if items[i].JNull? then "" else ToJsString(items[i])), ",")
    case JObj(_) => "[object Object]"
  }

  /** `${o}` for a value that may be `undefined`. */
  function Template(o: Option<Json>): (r: string)
    ensures o.None? ==> r == "undefined"
    ensures o.Some? && o.value.JStr? ==> r == o.value.s
  {
    match o
    case None => "undefined"
    case Some(j) => ToJsString(j)
  }

  /** `${o || default}`: the value's text when it is truthy, otherwise `default`. */
  function TemplateOr(o: Option<Json>, default: string): (r: string)
    ensures !Present(o) ==> r == default
    ensures Present(o) && o.value.JStr? ==> r == o.value.s
  {
    if Present(o) then ToJsString(o.value) else default
  }

  /** `${s || default}` for a string. */
  function TextOr(s: string, default: string): (r: string)
    ensures s == "" ==> r == default
    ensures s != "" ==> r == s
  {
    if s == "" then default else s
  }
}
