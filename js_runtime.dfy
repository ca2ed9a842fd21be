/**
 * The parts of the JavaScript runtime that the report pipeline relies on:
 * the values `JSON.parse` can produce, truthiness, reading a property,
 * `.length`, `String.prototype.replace` with a global literal pattern and an
 * empty replacement, and `String.prototype.trim`.
 */
module JsRuntime {
  import opened Wrappers

  /** A value produced by `JSON.parse`. Numbers are exact reals. */
  datatype Json =
    | JNull
    | JBool(b: bool)
    | JNumber(n: real)
    | JString(s: string)
    | JArray(elems: seq<Json>)
    | JObject(members: map<string, Json>)

  /** Truthiness of a value read from a property; `None` stands for `undefined`. */
  predicate Truthy(v: Option<Json>)
  {
    match v
    case None => false
    case Some(JNull) => false
    case Some(JBool(b)) => b
    case Some(JNumber(n)) => n != 0.0
    case Some(JString(s)) => s != ""
    case Some(_) => true
  }

  /** The TypeError raised by reading a property of `null`. */
  datatype TypeError = CannotReadPropertyOfNull(property: string)

  /** The property names the pipeline reads; none is `length` or an array index. */
  const PipelineKeys: set<string> := {"tests_raw", "summary", "explanations"}

  /** `v[key]`: a member of an object, `undefined` on any other non-null value, a TypeError on `null`. */
  function ReadProperty(v: Json, key: string): Result<Option<Json>, TypeError>
    requires key in PipelineKeys
  {
    match v
    case JNull => Failure(CannotReadPropertyOfNull(key))
    case JObject(members) => Success(if key in members then Some(members[key]) else None)
    case _ => Success(None)
  }

  /**
   * `v.length` when it is a number: the element count of an array, the
   * character count of a string, or an object's own numeric `length`
   * member. `None` is `undefined` or a non-number. Not defined on `null`.
   */
  function LengthOf(v: Json): Option<real>
  {
    match v
    case JArray(elems) => Some(|elems| as real)
    case JString(s) => Some(|s| as real)
    case JObject(members) =>
      if "length" in members && members["length"].JNumber? then Some(members["length"].n) else None
    case _ => None
  }

  // ---------------------------------------------------------------------
  // Strings
  // ---------------------------------------------------------------------

  /** `p` occurs in `s` starting at index `i`. */
  predicate OccursAt(s: string, p: string, i: nat)
  {
    i + |p| <= |s| && s[i..i + |p|] == p
  }

  /** `s.includes(p)`. */
  predicate Contains(s: string, p: string)
  {
    exists i: nat :: i <= |s| && OccursAt(s, p, i)
  }

  /** An occurrence of `p` in a suffix of `s` is an occurrence in `s`. */
  lemma OccursInSuffix(s: string, p: string, k: nat, i: nat)
    requires k <= |s| && OccursAt(s[k..], p, i)
    ensures OccursAt(s, p, k + i)
  {
    assert s[k..][i..i + |p|] == s[k + i..k + i + |p|];
  }

  /**
   * `s.replace(/p/g, "")` for a non-empty literal pattern `p`: the
   * occurrences of `p` are found left to right without overlap and deleted;
   * the text that results is not scanned again.
   */
  function RemoveAll(s: string, p: string): (r: string)
    requires p != ""
    ensures |r| <= |s|
    decreases |s|
  {
    if |s| < |p| then s
    else if s[..|p|] == p then
      RemoveAll(s[|p|..], p)
    else
      [s[0]] + RemoveAll(s[1..], p)
  }

  /** Removing a pattern that does not occur leaves the string unchanged. */
  lemma {:induction false} RemoveAllAbsent(s: string, p: string)
    requires p != "" && !Contains(s, p)
    ensures RemoveAll(s, p) == s
    decreases |s|
  {
    if |s| < |p| {
    } else {
      assert !OccursAt(s, p, 0);
      forall i: nat | i <= |s[1..]| && OccursAt(s[1..], p, i) ensures false {
        OccursInSuffix(s, p, 1, i);
      }
      RemoveAllAbsent(s[1..], p);
      assert s == [s[0]] + s[1..];
    }
  }

  /** A prefix that cannot start the pattern passes through the removal unchanged. */
  lemma {:induction false} RemoveAllKeepsPrefix(x: string, y: string, p: string)
    requires p != "" && forall i :: 0 <= i < |x| ==> x[i] != p[0]
    ensures RemoveAll(x + y, p) == x + RemoveAll(y, p)
    decreases |x|
  {
    if x == [] {
      assert x + y == y;
    } else {
      var s := x + y;
      if |s| < |p| {
        assert RemoveAll(y, p) == y;
      } else {
        assert s[..|p|][0] == x[0];
        assert s[..|p|] != p;
        assert RemoveAll(s, p) == [x[0]] + RemoveAll(s[1..], p);
        assert s[1..] == x[1..] + y;
        RemoveAllKeepsPrefix(x[1..], y, p);
        assert x == [x[0]] + x[1..];
      }
    }
  }

  /** The characters `String.prototype.trim` removes: white space and line terminators. */
  predicate IsJsWhitespace(c: char)
  {
    c == '\t' || c == '\n' || c == '\U{000B}' || c == '\U{000C}' || c == '\r' || c == ' '
    || c == '\U{00A0}' || c == '\U{1680}' || ('\U{2000}' <= c <= '\U{200A}')
    || c == '\U{2028}' || c == '\U{2029}' || c == '\U{202F}' || c == '\U{205F}'
    || c == '\U{3000}' || c == '\U{FEFF}'
  }

  /** Every character of `s` is whitespace. */
  predicate AllWhitespace(s: string)
  {
    forall i :: 0 <= i < |s| ==> IsJsWhitespace(s[i])
  }

  /** Drops the longest all-whitespace prefix. */
  function TrimStart(s: string): (r: string)
    ensures |r| <= |s| && r == s[|s| - |r|..]
    ensures AllWhitespace(s[..|s| - |r|])
    ensures r == [] || !IsJsWhitespace(r[0])
  {
    if |s| > 0 && IsJsWhitespace(s[0]) then
      var r := TrimStart(s[1..]);
      assert s[..|s| - |r|] == [s[0]] + s[1..][..|s| - 1 - |r|];
      r
    else s
  }

  /** Drops the longest all-whitespace suffix. */
  function TrimEnd(s: string): (r: string)
    ensures |r| <= |s| && r == s[..|r|]
    ensures AllWhitespace(s[|r|..])
    ensures r == [] || !IsJsWhitespace(r[|r| - 1])
  {
    if |s| > 0 && IsJsWhitespace(s[|s| - 1]) then
      var r := TrimEnd(s[..|s| - 1]);
      assert s[|r|..] == s[..|s| - 1][|r|..] + [s[|s| - 1]];
      r
    else s
  }

  /** `s.trim()`: what remains has whitespace at neither end. */
  function Trim(s: string): (r: string)
    ensures |r| <= |s|
    ensures r == [] || (!IsJsWhitespace(r[0]) && !IsJsWhitespace(r[|r| - 1]))
  {
    TrimEnd(TrimStart(s))
  }

  /** The trimmed string is a slice of the original, with only whitespace cut on either side. */
  lemma TrimIsSlice(s: string) returns (lo: nat)
    ensures lo + |Trim(s)| <= |s| && Trim(s) == s[lo..lo + |Trim(s)|]
    ensures AllWhitespace(s[..lo]) && AllWhitespace(s[lo + |Trim(s)|..])
  {
    var t := TrimStart(s);
    lo := |s| - |t|;
    var r := TrimEnd(t);
    assert r == Trim(s);
    assert r == t[..|r|] && t == s[lo..];
    assert s[lo..][..|r|] == s[lo..lo + |r|];
    assert t[|r|..] == s[lo + |r|..];
  }

  /** Trimming cannot create an occurrence of a pattern. */
  lemma TrimKeepsAbsence(s: string, p: string)
    requires !Contains(s, p)
    ensures !Contains(Trim(s), p)
  {
    var lo := TrimIsSlice(s);
    SliceKeepsAbsence(s, lo, |Trim(s)|, p);
  }

  /** A slice of a string without the pattern does not contain it either. */
  lemma SliceKeepsAbsence(s: string, lo: nat, n: nat, p: string)
    requires lo + n <= |s| && !Contains(s, p)
    ensures !Contains(s[lo..lo + n], p)
  {
    var r := s[lo..lo + n];
    forall i: nat | i <= |r| && OccursAt(r, p, i) ensures false {
      SliceOfSlice(s, lo, n, i, |p|);
      assert s[lo + i..lo + i + |p|] == p;
      assert lo + i <= |s| && OccursAt(s, p, lo + i);
    }
  }

  /** A slice of a slice is a slice of the original. */
  lemma SliceOfSlice(s: string, lo: nat, n: nat, i: nat, k: nat)
    requires lo + n <= |s| && i + k <= n
    ensures s[lo..lo + n][i..i + k] == s[lo + i..lo + i + k]
  {
    var a, b := s[lo..lo + n][i..i + k], s[lo + i..lo + i + k];
    forall j | 0 <= j < k ensures a[j] == b[j] {
    }
  }

  /** Trimming is idempotent. */
  lemma TrimIdempotent(s: string)
    ensures Trim(Trim(s)) == Trim(s)
  {
    var r := Trim(s);
    assert TrimStart(r) == r;
    assert TrimEnd(r) == r;
  }
}
