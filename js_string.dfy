/**
 * The two pieces of JavaScript string semantics the contact form relies on:
 * the whitespace class (what `String.prototype.trim` strips and what the
 * regular-expression class `\s` matches; `\S` is its complement), and `trim`
 * itself. Both use the same set of code points, so a single predicate serves
 * for both.
 */
module JsString {

  /** ECMAScript WhiteSpace and LineTerminator code points. */
  predicate IsWhitespace(c: char) {
    var n := c as int;
    n == 0x09 || n == 0x0A || n == 0x0B || n == 0x0C || n == 0x0D || n == 0x20 ||
    n == 0xA0 || n == 0x1680 || (0x2000 <= n <= 0x200A) ||
    n == 0x2028 || n == 0x2029 || n == 0x202F || n == 0x205F || n == 0x3000 || n == 0xFEFF
  }

  /** Every character is whitespace (the empty string included). */
  predicate IsBlank(s: string) {
    forall k :: 0 <= k < |s| ==> IsWhitespace(s[k])
  }

  /**
   * `s.trim()`: whitespace characters are removed from either end until
   * both ends are non-whitespace or nothing is left. The result is empty
   * exactly when `s` is blank.
   */
  function Trim(s: string): (r: string)
    ensures |r| <= |s|
    ensures r == [] <==> IsBlank(s)
    ensures r != [] ==> !IsWhitespace(r[0]) && !IsWhitespace(r[|r| - 1])
    decreases |s|
  {
    if s != [] && IsWhitespace(s[0]) then
      assert IsBlank(s) <==> IsBlank(s[1..]) by {
        assert forall k :: 0 < k < |s| ==> s[k] == s[1..][k - 1];
      }
      Trim(s[1..])
    else if s != [] && IsWhitespace(s[|s| - 1]) then
      assert IsBlank(s) <==> IsBlank(s[..|s| - 1]) by {
        assert forall k :: 0 <= k < |s| - 1 ==> s[k] == s[..|s| - 1][k];
      }
      Trim(s[..|s| - 1])
    else
      s
  }

  /**
   * What `trim` cuts off: the result is the slice `s[i..i + |Trim(s)|]`, and
   * everything before and after it is whitespace.
   */
  lemma {:induction false} TrimIsSlice(s: string) returns (i: nat, j: nat)
    ensures i <= j <= |s| && Trim(s) == s[i..j]
    ensures IsBlank(s[..i]) && IsBlank(s[j..])
    decreases |s|
  {
    if s != [] && IsWhitespace(s[0]) {
      TrimDropsLeadingSpace(s);
      var i', j' := TrimIsSlice(s[1..]);
      i, j := SliceAfterLeadingSpace(s, i', j');
    } else if s != [] && IsWhitespace(s[|s| - 1]) {
      TrimDropsTrailingSpace(s);
      i, j := TrimIsSlice(s[..|s| - 1]);
      SliceBeforeTrailingSpace(s, i, j);
    } else {
      i, j := 0, |s|;
    }
  }

  /** One step of `trim` at the front. */
  lemma TrimDropsLeadingSpace(s: string)
    requires s != [] && IsWhitespace(s[0])
    ensures Trim(s) == Trim(s[1..])
  {
  }

  /** One step of `trim` at the back. */
  lemma TrimDropsTrailingSpace(s: string)
    requires s != [] && !IsWhitespace(s[0]) && IsWhitespace(s[|s| - 1])
    ensures Trim(s) == Trim(s[..|s| - 1])
  {
  }

  /** A slice of `s[1..]` with blank surroundings, seen in `s` whose first character is whitespace. */
  lemma SliceAfterLeadingSpace(s: string, i': nat, j': nat) returns (i: nat, j: nat)
    requires s != [] && IsWhitespace(s[0])
    requires i' <= j' <= |s| - 1 && IsBlank(s[1..][..i']) && IsBlank(s[1..][j'..])
    ensures i == i' + 1 && j == j' + 1 && s[1..][i'..j'] == s[i..j]
    ensures IsBlank(s[..i]) && IsBlank(s[j..])
  {
    i, j := i' + 1, j' + 1;
    var t := s[1..];
    assert s[j..] == t[j'..];
    forall k | 0 < k < i ensures IsWhitespace(s[k]) {
      assert s[k] == t[..i'][k - 1];
    }
    assert forall k :: 0 <= k < i ==> s[..i][k] == s[k];
  }

  /** A slice of `s[..|s| - 1]` with blank surroundings, seen in `s` whose last character is whitespace. */
  lemma SliceBeforeTrailingSpace(s: string, i: nat, j: nat)
    requires s != [] && IsWhitespace(s[|s| - 1])
    requires i <= j <= |s| - 1 && IsBlank(s[..|s| - 1][..i]) && IsBlank(s[..|s| - 1][j..])
    ensures s[..|s| - 1][i..j] == s[i..j]
    ensures IsBlank(s[..i]) && IsBlank(s[j..])
  {
    var t := s[..|s| - 1];
    assert s[..i] == t[..i];
    forall k | j <= k < |s| - 1 ensures IsWhitespace(s[k]) {
      assert s[k] == t[j..][k - j];
    }
    var rest := s[j..];
    assert forall k :: 0 <= k < |rest| ==> rest[k] == s[j + k];
  }

  /** A string that neither starts nor ends with whitespace is its own trim. */
  lemma TrimUnpadded(s: string)
    requires s != [] && !IsWhitespace(s[0]) && !IsWhitespace(s[|s| - 1])
    ensures Trim(s) == s
  {
  }

  /** Trimming is idempotent. */
  lemma {:induction false} TrimIdempotent(s: string)
    ensures Trim(Trim(s)) == Trim(s)
  {
    var r := Trim(s);
    if r != [] {
      TrimUnpadded(r);
    }
  }
}
