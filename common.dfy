/** Shared vocabulary of the model: optional values, the exceptions the
    services raise, HTTP replies, JSON values, and the few Java string
    operations the core relies on (ASCII case folding, `isBlank`,
    `indexOf`, `contains`, decimal rendering of integers). */
module Common {

  /** Java's `null` versus a present value. */
  datatype Option<+T> = None | Some(value: T)

  /** The exception classes the core throws or lets through. */
  datatype ErrorKind =
    | NotFound          // jakarta.persistence.EntityNotFoundException
    | IllegalArgument   // IllegalArgumentException
    | NullPointer       // NullPointerException (unboxing null, Map.of with null)
    | ClassCast         // ClassCastException from an unchecked cast
    | Runtime           // RuntimeException raised with a message
    | HttpStatus        // WebClientResponseException raised by retrieve()
    | IncorrectResultSize // IncorrectResultSizeDataAccessException from a single-result finder

  /** An exception: its class and the part of its message the source writes. */
  datatype Error = Error(kind: ErrorKind, message: string)

  /** A value or the exception that replaced it. */
  datatype Result<+T> = Ok(value: T) | Err(error: Error)

  /** The outcome of a `void` operation. */
  datatype Outcome = Pass | Fail(error: Error)

  /** A decoded JSON value, as Jackson hands it to the services. */
  datatype Json =
    | JNull
    | JBool(b: bool)
    | JNumber(n: int)
    | JString(s: string)
    | JArray(items: seq<Json>)
    | JObject(fields: map<string, Json>)

  /** One HTTP exchange as WebClient sees it: the status code, the raw body
      text (read by the error handlers) and the decoded body (a success). */
  datatype Http<T> = Http(status: int, text: string, body: T)

  /** `is4xxClientError() || is5xxServerError()`. */
  predicate IsErrorStatus(status: int) {
    400 <= status <= 599
  }

  /** `map.get(key)`: Java answers null both for a missing key and for a JSON null. */
  function Get(m: map<string, Json>, key: string): (r: Json)
    ensures r != JNull ==> key in m && m[key] == r
    ensures key !in m ==> r == JNull
  {
    if key in m then m[key] else JNull
  }

  /** An optional string as the JSON value Jackson writes for it. */
  function OptString(s: Option<string>): (j: Json)
    ensures s.None? <==> j == JNull
    ensures s.Some? ==> j == JString(s.value)
  {
    match s
    case None => JNull
    case Some(v) => JString(v)
  }

  /** An optional integer as the JSON value Jackson writes for it. */
  function OptNumber(n: Option<int>): (j: Json)
    ensures n.None? <==> j == JNull
    ensures n.Some? ==> j == JNumber(n.value)
  {
    match n
    case None => JNull
    case Some(v) => JNumber(v)
  }

  // ---------------------------------------------------------------------
  // Sequences

  /** The elements of `s` that satisfy `p`, in their original order. */
  function Filter<T(!new)>(s: seq<T>, p: T -> bool): (r: seq<T>)
    ensures |r| <= |s|
    ensures forall i :: 0 <= i < |r| ==> r[i] in s && p(r[i])
    ensures forall i :: 0 <= i < |s| && p(s[i]) ==> s[i] in r
  {
    if s == [] then [] else (if p(s[0]) then [s[0]] else []) + Filter(s[1..], p)
  }

  /** Filtering keeps every satisfying element as many times as it occurs in
      `s`, and drops every other one. */
  lemma {:induction false} FilterCounts<T(!new)>(s: seq<T>, p: T -> bool)
    ensures forall x :: multiset(Filter(s, p))[x] == if p(x) then multiset(s)[x] else 0
  {
    if s != [] {
      FilterCounts(s[1..], p);
      assert s == [s[0]] + s[1..];
    }
  }

  /** Filtering keeps a key that tells the elements of `s` apart distinct:
      the kept elements still have pairwise different keys. */
  lemma {:induction false} FilterKeepsDistinct<T(!new), K>(s: seq<T>, p: T -> bool, key: T -> K)
    requires forall i, j :: 0 <= i < j < |s| ==> key(s[i]) != key(s[j])
    ensures forall i, j :: 0 <= i < j < |Filter(s, p)| ==> key(Filter(s, p)[i]) != key(Filter(s, p)[j])
  {
    if s != [] {
      var t := Filter(s[1..], p);
      forall i, j | 0 <= i < j < |s[1..]| ensures key(s[1..][i]) != key(s[1..][j]) {
        assert s[1..][i] == s[i + 1] && s[1..][j] == s[j + 1];
      }
      FilterKeepsDistinct(s[1..], p, key);
      if !p(s[0]) {
        assert Filter(s, p) == t;
      } else {
        var r := Filter(s, p);
        assert r == [s[0]] + t;
        forall i, j | 0 <= i < j < |r| ensures key(r[i]) != key(r[j]) {
          if i == 0 {
            assert t[j - 1] in s[1..];
            var k :| 0 <= k < |s[1..]| && s[1..][k] == t[j - 1];
            assert s[k + 1] == r[j];
          } else {
            var a, b := i - 1, j - 1;
            assert 0 <= a < b < |t|;
            assert key(t[a]) != key(t[b]);
            assert r[i] == t[a] && r[j] == t[b];
          }
        }
      }
    }
  }

  /** The first element of `s` that satisfies `p`, if any. */
  function Find<T(==)>(s: seq<T>, p: T -> bool): (r: Option<T>)
    ensures r.Some? ==> r.value in s && p(r.value)
    ensures r.None? <==> forall i :: 0 <= i < |s| ==> !p(s[i])
    ensures r.Some? ==> exists i :: 0 <= i < |s| && s[i] == r.value && forall j :: 0 <= j < i ==> !p(s[j])
  {
    if s == [] then None
    else if p(s[0]) then Some(s[0])
    else
      var r := Find(s[1..], p);
      if r.Some? then
        var i :| 0 <= i < |s[1..]| && s[1..][i] == r.value && forall j :: 0 <= j < i ==> !p(s[1..][j]);
        assert s[i + 1] == r.value && forall j :: 0 <= j < i + 1 ==> !p(s[j]);
        r
      else r
  }

  /** A Spring Data finder declared to return one `Optional` row: empty when
      no element of `s` satisfies `p`, that element when exactly one does, and
      `IncorrectResultSizeDataAccessException` when two or more do. */
  function SingleResult<T(==)>(s: seq<T>, p: T -> bool): (r: Result<Option<T>>)
    ensures r == Ok(None) <==> forall i :: 0 <= i < |s| ==> !p(s[i])
    ensures r.Err? <==> exists i, j :: 0 <= i < j < |s| && p(s[i]) && p(s[j])
    ensures r.Err? ==> r.error == Error(IncorrectResultSize, "")
    ensures r.Ok? && r.value.Some? ==> exists i :: 0 <= i < |s| && s[i] == r.value.value && p(s[i])
    ensures r.Ok? ==> forall i :: 0 <= i < |s| && p(s[i]) ==> r.value == Some(s[i])
  {
    if s == [] then Ok(None)
    else
      var rest := SingleResult(s[1..], p);
      assert forall i :: 0 < i < |s| ==> s[i] == s[1..][i - 1];
      if !p(s[0]) then
        if rest.Err? then
          var i, j :| 0 <= i < j < |s[1..]| && p(s[1..][i]) && p(s[1..][j]);
          assert p(s[i + 1]) && p(s[j + 1]);
          rest
        else if rest.value.Some? then
          var i :| 0 <= i < |s[1..]| && s[1..][i] == rest.value.value && p(s[1..][i]);
          assert s[i + 1] == rest.value.value;
          rest
        else rest
      else if rest == Ok(None) then
        Ok(Some(s[0]))
      else
        var k :| 0 <= k < |s[1..]| && p(s[1..][k]);
        assert p(s[0]) && p(s[k + 1]);
        Err(Error(IncorrectResultSize, ""))
  }

  /** An unchecked `(String)` cast of a JSON value: null stays null, any
      other non-string value is a `ClassCastException`. */
  function CastString(j: Json): (r: Result<Option<string>>)
    ensures r.Ok? <==> j.JNull? || j.JString?
    ensures r.Ok? ==> (r.value.None? <==> j.JNull?)
    ensures j.JString? ==> r == Ok(Some(j.s))
    ensures r.Err? ==> r.error.kind == ClassCast
  {
    match j
    case JNull => Ok(None)
    case JString(v) => Ok(Some(v))
    case _ => Err(Error(ClassCast, ""))
  }

  /** `list.stream().map(f).toList()`. */
  function MapSeq<A, B>(s: seq<A>, f: A -> B): (r: seq<B>)
    ensures |r| == |s|
    ensures forall i :: 0 <= i < |s| ==> r[i] == f(s[i])
  {
    if s == [] then [] else [f(s[0])] + MapSeq(s[1..], f)
  }

  // ---------------------------------------------------------------------
  // Strings

  /** `w` occurs in `s` starting at index `i`. */
  predicate OccursAt(s: string, w: string, i: int) {
    0 <= i && i + |w| <= |s| && s[i..i + |w|] == w
  }

  /** `s.contains(w)`. */
  predicate Contains(s: string, w: string) {
    exists i :: 0 <= i <= |s| - |w| && OccursAt(s, w, i)
  }

  /** `s` begins with `w`. */
  predicate StartsWith(s: string, w: string) {
    |w| <= |s| && s[..|w|] == w
  }

  /** `s.indexOf(c)`: the first index of `c`, or -1. */
  function IndexOf(s: string, c: char): (r: int)
    ensures -1 <= r < |s|
    ensures r == -1 <==> c !in s
    ensures 0 <= r ==> s[r] == c && c !in s[..r]
  {
    if |s| == 0 then -1
    else if s[0] == c then 0
    else
      var k := IndexOf(s[1..], c);
      if k == -1 then -1
      else
        assert s[..k + 1] == [s[0]] + s[1..][..k];
        k + 1
  }

  /** The first `c` in `x + [c] + y` is the one after `x` when `x` has none. */
  lemma IndexOfFirst(x: string, c: char, y: string)
    requires c !in x
    ensures IndexOf(x + [c] + y, c) == |x|
  {
    var s := x + [c] + y;
    assert s[..|x|] == x && s[|x|] == c;
  }

  /** Text split at the first `c` after a common head splits the same way. */
  lemma SplitAtFirst(h: string, x: string, c: char, y: string, x': string, y': string)
    requires h + (x + [c] + y) == h + (x' + [c] + y')
    requires c !in x && c !in x'
    ensures x == x' && y == y'
  {
    var t, t' := x + [c] + y, x' + [c] + y';
    assert t == (h + t)[|h|..] && t' == (h + t')[|h|..];
    IndexOfFirst(x, c, y);
    IndexOfFirst(x', c, y');
    assert x == t[..|x|] && x' == t'[..|x'|];
    assert y == t[|x| + 1..] && y' == t'[|x'| + 1..];
  }

  /** `Character.isWhitespace`: the space, line and paragraph separators other
      than the non-breaking ones, and the controls U+0009..U+000D, U+001C..U+001F. */
  predicate IsWhitespace(c: char) {
    || c == ' ' || ('\t' <= c <= '\r') || ('\U{1C}' <= c <= '\U{1F}')
    || c == '\U{1680}' || ('\U{2000}' <= c <= '\U{2006}') || ('\U{2008}' <= c <= '\U{200A}')
    || c == '\U{2028}' || c == '\U{2029}' || c == '\U{205F}' || c == '\U{3000}'
  }

  /** `s.isBlank()`: empty or whitespace only. */
  predicate IsBlank(s: string) {
    forall i :: 0 <= i < |s| ==> IsWhitespace(s[i])
  }

  /** A Java `String` argument that is neither null nor blank. */
  predicate HasText(s: Option<string>) {
    s.Some? && !IsBlank(s.value)
  }

  /** ASCII upper-casing of one character. */
  function UpperChar(c: char): (u: char)
    ensures 'a' <= c <= 'z' ==> u as int == c as int - 32
    ensures !('a' <= c <= 'z') ==> u == c
  {
    if 'a' <= c <= 'z' then (c as int - 32) as char else c
  }

  /** `s.toUpperCase()`, restricted to ASCII letters. */
  function ToUpper(s: string): (u: string)
    ensures |u| == |s|
    ensures forall i :: 0 <= i < |s| ==> u[i] == UpperChar(s[i])
  {
    seq(|s|, i requires 0 <= i < |s| => UpperChar(s[i]))
  }

  /** `a.equalsIgnoreCase(b)`, restricted to ASCII letters. */
  predicate EqualsIgnoreCase(a: string, b: string) {
    |a| == |b| && forall i :: 0 <= i < |a| ==> UpperChar(a[i]) == UpperChar(b[i])
  }

  /** The characters Java uses to print an integer. */
  predicate IsNumeral(c: char) {
    c == '-' || '0' <= c <= '9'
  }

  function DigitChar(d: nat): (c: char)
    requires d < 10
    ensures '0' <= c <= '9'
  {
    ('0' as int + d) as char
  }

  /** Decimal text of a natural number. */
  function NatText(n: nat): (s: string)
    ensures |s| >= 1
    ensures |s| == 1 <==> n < 10
    ensures forall i :: 0 <= i < |s| ==> '0' <= s[i] <= '9'
  {
    if n < 10 then [DigitChar(n)] else NatText(n / 10) + [DigitChar(n % 10)]
  }

  /** `String.valueOf(n)` for an `Integer`. */
  function IntText(n: int): (s: string)
    ensures |s| >= 1
    ensures forall i :: 0 <= i < |s| ==> IsNumeral(s[i])
  {
    if n < 0 then "-" + NatText(-n) else NatText(n)
  }

  /** Different natural numbers print differently. */
  lemma {:induction false} NatTextInjective(a: nat, b: nat)
    requires NatText(a) == NatText(b)
    ensures a == b
  {
    if a >= 10 && b >= 10 {
      var sa, sb := NatText(a / 10), NatText(b / 10);
      assert NatText(a) == sa + [DigitChar(a % 10)];
      assert NatText(b) == sb + [DigitChar(b % 10)];
      assert |sa| == |sb|;
      assert sa == NatText(a)[..|sa|] && sb == NatText(b)[..|sb|];
      NatTextInjective(a / 10, b / 10);
      assert NatText(a)[|sa|] == DigitChar(a % 10) && NatText(b)[|sb|] == DigitChar(b % 10);
    }
  }

  /** Different integers print differently, so a message that ends in an
      integer's text names that integer. */
  lemma IntTextInjective(a: int, b: int)
    requires IntText(a) == IntText(b)
    ensures a == b
  {
    IntTextSign(a);
    IntTextSign(b);
    if a < 0 && b < 0 {
      assert NatText(-a) == IntText(a)[1..] && NatText(-b) == IntText(b)[1..];
      NatTextInjective(-a, -b);
    } else if a >= 0 && b >= 0 {
      NatTextInjective(a, b);
    }
  }

  /** Only a negative number prints with a leading minus sign. */
  lemma IntTextSign(n: int)
    ensures IntText(n)[0] == '-' <==> n < 0
  {
    if n >= 0 {
      assert '0' <= NatText(n)[0] <= '9';
    }
  }

  /** The same prefix followed by different integers gives different texts. */
  lemma PrefixedIntTextInjective(prefix: string, a: int, b: int)
    requires prefix + IntText(a) == prefix + IntText(b)
    ensures a == b
  {
    assert IntText(a) == (prefix + IntText(a))[|prefix|..];
    assert IntText(b) == (prefix + IntText(b))[|prefix|..];
    IntTextInjective(a, b);
  }

  /** `toString()` of a decoded JSON value. Nested arrays and objects print as
      Java collections; only their brackets are modelled. */
  function JsonText(j: Json): (s: string)
    ensures j.JString? ==> s == j.s
    ensures j.JNumber? ==> s == IntText(j.n)
    ensures j == JNull ==> s == "null"
    ensures j.JBool? ==> s == (if j.b then "true" else "false")
    ensures !j.JString? ==> |s| > 0 && (IsNumeral(s[0]) || s[0] in "tfn[{")
  {
    match j
    case JNull => "null"
    case JBool(b) => if b then "true" else "false"
    case JNumber(n) => IntText(n)
    case JString(v) => v
    case JArray(_) => "[…]"
    case JObject(_) => "{…}"
  }

  /** A claim whose text is "admin" in any letter case. */
  predicate IsAdminText(s: string) {
    EqualsIgnoreCase(s, "admin")
  }

  /** Only a JSON string can read as "admin": numbers, booleans, null and
      collections print with a first character that is not a letter of "admin". */
  lemma AdminTextIsString(j: Json)
    requires IsAdminText(JsonText(j))
    ensures j.JString?
  {
  }

  /** Upper-casing yields "ADMIN" exactly when the text is "admin" in some case. */
  lemma {:induction false} UpperIsAdmin(s: string)
    ensures ToUpper(s) == "ADMIN" <==> IsAdminText(s)
  {
    if IsAdminText(s) {
      forall i | 0 <= i < 5 ensures ToUpper(s)[i] == "ADMIN"[i] {
        assert UpperChar(s[i]) == UpperChar("admin"[i]);
      }
    }
    if ToUpper(s) == "ADMIN" {
      forall i | 0 <= i < |s| ensures UpperChar(s[i]) == UpperChar("admin"[i]) {
        assert ToUpper(s)[i] == "ADMIN"[i];
      }
    }
  }
}
