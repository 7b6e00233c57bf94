/**
 * The three JavaScript string operations the search relies on:
 * `String.prototype.toLowerCase` (restricted to ASCII letters),
 * `String.prototype.trim` (with the ECMAScript white-space and
 * line-terminator code points) and `String.prototype.includes`.
 */
module Text {

  /** ECMAScript WhiteSpace and LineTerminator code points, the set `trim` removes. */
  predicate IsSpace(c: char)
  {
    c == '\t' || c == '\n' || c == '\U{000B}' || c == '\U{000C}' || c == '\r' || c == ' '
    || c == '\U{00A0}' || c == '\U{1680}' || ('\U{2000}' <= c <= '\U{200A}')
    || c == '\U{2028}' || c == '\U{2029}' || c == '\U{202F}' || c == '\U{205F}'
    || c == '\U{3000}' || c == '\U{FEFF}'
  }

  predicate AllSpace(s: string)
  {
    forall i :: 0 <= i < |s| ==> IsSpace(s[i])
  }

  /** `toLowerCase` on one character: ASCII upper-case letters only. */
  function LowerChar(c: char): (r: char)
    ensures 'A' <= c <= 'Z' ==> r != c && 'a' <= r <= 'z' && r as int - 'a' as int == c as int - 'A' as int
    ensures !('A' <= c <= 'Z') ==> r == c
    ensures !('A' <= r <= 'Z')
    ensures IsSpace(r) <==> IsSpace(c)
  {
    if 'A' <= c <= 'Z' then (c as int - 'A' as int + 'a' as int) as char else c
  }

  /** `s.toLowerCase()`, character by character. */
  function Lower(s: string): (r: string)
    ensures |r| == |s|
    ensures forall i :: 0 <= i < |s| ==> r[i] == LowerChar(s[i])
  {
    seq(|s|, i requires 0 <= i < |s| => LowerChar(s[i]))
  }

  function TrimStart(s: string): (r: string)
    ensures |r| <= |s| && r == s[|s| - |r|..]
    ensures AllSpace(s[..|s| - |r|])
    ensures r != [] ==> !IsSpace(r[0])
  {
    if |s| > 0 && IsSpace(s[0]) then TrimStart(s[1..]) else s
  }

  function TrimEnd(s: string): (r: string)
    ensures |r| <= |s| && r == s[..|r|]
    ensures AllSpace(s[|r|..])
    ensures r != [] ==> !IsSpace(r[|r| - 1])
  {
    if |s| > 0 && IsSpace(s[|s| - 1]) then TrimEnd(s[..|s| - 1]) else s
  }

  /** `s.trim()`: the slice of `s` left after removing white space at both ends. */
  function Trim(s: string): (r: string)
    ensures |r| <= |s|
    ensures exists k :: TrimmedAt(s, r, k)
    ensures r != [] ==> !IsSpace(r[0]) && !IsSpace(r[|r| - 1])
  {
    var t := TrimStart(s);
    var r := TrimEnd(t);
    TrimmedAtParts(s, t, r);
    r
  }

  /** White space cut from the front of `s` to give `t`, then from the back of `t` to give `r`. */
  lemma TrimmedAtParts(s: string, t: string, r: string)
    requires |t| <= |s| && t == s[|s| - |t|..] && AllSpace(s[..|s| - |t|])
    requires |r| <= |t| && r == t[..|r|] && AllSpace(t[|r|..])
    ensures TrimmedAt(s, r, |s| - |t|)
  {
    var k := |s| - |t|;
    assert s[k..][..|r|] == s[k..k + |r|];
    assert s[k..][|r|..] == s[k + |r|..];
  }

  /** `r` is `s[k..k + |r|]`, and everything of `s` around it is white space. */
  ghost predicate TrimmedAt(s: string, r: string, k: int)
  {
    0 <= k && k + |r| <= |s| && s[k..k + |r|] == r
    && AllSpace(s[..k]) && AllSpace(s[k + |r|..])
  }

  /** A string trims to the empty string exactly when it is all white space. */
  lemma TrimEmptyIffAllSpace(s: string)
    ensures Trim(s) == [] <==> AllSpace(s)
  {
    var r := Trim(s);
    var k :| TrimmedAt(s, r, k);
    if r == [] {
      forall i | 0 <= i < |s| ensures IsSpace(s[i]) {
        if i < k { assert s[..k][i] == s[i]; } else { assert s[k..][i - k] == s[i]; }
      }
    } else {
      assert s[k] == r[0];
    }
  }

  lemma {:induction false} TrimStartLower(s: string)
    ensures TrimStart(Lower(s)) == Lower(TrimStart(s))
  {
    if |s| > 0 {
      assert Lower(s)[1..] == Lower(s[1..]);
      if IsSpace(s[0]) { TrimStartLower(s[1..]); }
    }
  }

  lemma {:induction false} TrimEndLower(s: string)
    ensures TrimEnd(Lower(s)) == Lower(TrimEnd(s))
  {
    if |s| > 0 {
      assert Lower(s)[..|s| - 1] == Lower(s[..|s| - 1]);
      if IsSpace(s[|s| - 1]) { TrimEndLower(s[..|s| - 1]); }
    }
  }

  /** Lower-casing and trimming commute, so `toLowerCase().trim()` equals `trim().toLowerCase()`. */
  lemma TrimLowerCommute(s: string)
    ensures Trim(Lower(s)) == Lower(Trim(s))
  {
    TrimStartLower(s);
    TrimEndLower(TrimStart(s));
  }

  lemma {:induction false} TrimStartIdempotent(s: string)
    ensures TrimStart(TrimStart(s)) == TrimStart(s)
  {
  }

  /** A string without white space at either end is its own trim. */
  lemma TrimOfTrimmed(s: string)
    requires s != [] && !IsSpace(s[0]) && !IsSpace(s[|s| - 1])
    ensures Trim(s) == s
  {
  }

  lemma {:induction false} TrimStartPadded(a: string, m: string)
    requires AllSpace(a) && (m == [] || !IsSpace(m[0]))
    ensures TrimStart(a + m) == m
  {
    if a != [] {
      assert (a + m)[1..] == a[1..] + m;
      TrimStartPadded(a[1..], m);
    }
  }

  lemma {:induction false} TrimEndPadded(m: string, b: string)
    requires AllSpace(b) && (m == [] || !IsSpace(m[|m| - 1]))
    ensures TrimEnd(m + b) == m
  {
    if b != [] {
      assert (m + b)[..|m + b| - 1] == m + b[..|b| - 1];
      TrimEndPadded(m, b[..|b| - 1]);
    }
  }

  /** White space around a text with non-space ends is exactly what `trim` removes. */
  lemma TrimPadded(a: string, m: string, b: string)
    requires AllSpace(a) && AllSpace(b)
    requires m != [] && !IsSpace(m[0]) && !IsSpace(m[|m| - 1])
    ensures Trim(a + m + b) == m
  {
    assert a + m + b == a + (m + b);
    TrimStartPadded(a, m + b);
    TrimEndPadded(m, b);
  }

  /** Trimming twice is trimming once. */
  lemma TrimIdempotent(s: string)
    ensures Trim(Trim(s)) == Trim(s)
  {
    var t := TrimEnd(TrimStart(s));
    assert TrimStart(t) == t;
    if t != [] {
      assert TrimEnd(t) == t;
    }
  }

  /** `s.includes(q)` by scanning start positions from left to right. */
  function Includes(s: string, q: string): bool
    ensures q == [] ==> Includes(s, q)
    ensures Includes(s, q) ==> |q| <= |s|
  {
    q <= s || (|s| > 0 && Includes(s[1..], q))
  }

  /** `includes` holds exactly when `q` occurs somewhere in `s`. */
  lemma {:induction false} IncludesIff(s: string, q: string)
    ensures Includes(s, q) <==> exists i :: OccursAt(s, q, i)
  {
    if q <= s {
      assert s[0..|q|] == q;
      assert OccursAt(s, q, 0);
    } else if |s| > 0 {
      IncludesIff(s[1..], q);
      if Includes(s[1..], q) {
        var i :| OccursAt(s[1..], q, i);
        OccursInTail(s, q, i);
      } else {
        forall i | OccursAt(s, q, i) ensures false {
          if i > 0 {
            OccursInTail(s, q, i - 1);
          }
        }
      }
    } else {
      forall i | OccursAt(s, q, i) ensures false {
      }
    }
  }

  /** An occurrence in the tail of `s` is an occurrence in `s` one position later. */
  lemma OccursInTail(s: string, q: string, i: int)
    requires |s| > 0 && 0 <= i
    ensures OccursAt(s[1..], q, i) <==> OccursAt(s, q, i + 1)
  {
    if i + |q| <= |s| - 1 {
      assert s[1..][i..i + |q|] == s[i + 1..i + 1 + |q|];
    }
  }

  /** The independent reading of `includes`: `q` occurs in `s` at position `i`. */
  ghost predicate OccursAt(s: string, q: string, i: int)
  {
    0 <= i && i + |q| <= |s| && s[i..i + |q|] == q
  }

  /** `q` matches the lower-cased `field`, as `field.toLowerCase().includes(q)` does. */
  predicate MatchesLower(field: string, q: string)
  {
    Includes(Lower(field), q)
  }

  /** The query normalisation of the search: `query.toLowerCase().trim()`. */
  function Normalize(query: string): (r: string)
    ensures |r| <= |query|
    ensures forall i :: 0 <= i < |r| ==> !('A' <= r[i] <= 'Z')
    ensures r != [] ==> !IsSpace(r[0]) && !IsSpace(r[|r| - 1])
  {
    Trim(Lower(query))
  }

  lemma LowerAppend(a: string, b: string)
    ensures Lower(a + b) == Lower(a) + Lower(b)
  {
  }

  /** A query occurs in a text that contains, somewhere, a piece lower-casing to the query. */
  lemma MatchesInside(a: string, m: string, b: string, q: string)
    requires Lower(m) == q
    ensures MatchesLower(a + m + b, q)
  {
    LowerAppend(a + m, b);
    LowerAppend(a, m);
    var s := Lower(a + m + b);
    assert s[|a|..|a| + |q|] == q;
    assert OccursAt(s, q, |a|);
    IncludesIff(s, q);
  }

  /**
   * A query whose first character is not an ASCII lower-case letter cannot match a
   * text that lacks that character: lower-casing creates only ASCII lower-case letters.
   */
  lemma NoMatchWithoutFirstChar(s: string, q: string)
    requires q != [] && !('a' <= q[0] <= 'z') && q[0] !in s
    ensures !MatchesLower(s, q)
  {
    IncludesIff(Lower(s), q);
  }

  /** Every text matches its own normalisation: the trimmed, lower-cased text is a slice of the lower-cased text. */
  lemma MatchesOwnNormalization(s: string)
    ensures MatchesLower(s, Normalize(s))
  {
    var r := Normalize(s);
    var k :| TrimmedAt(Lower(s), r, k);
    assert OccursAt(Lower(s), r, k);
    IncludesIff(Lower(s), r);
  }

  lemma LowerIdempotent(s: string)
    ensures Lower(Lower(s)) == Lower(s)
  {
  }

  /** The normalised query is empty exactly when the raw query is blank (`!query.trim()`). */
  lemma NormalizeEmptyIffBlank(query: string)
    ensures Normalize(query) == [] <==> Trim(query) == []
  {
    TrimLowerCommute(query);
  }

  /**
   * Normalisation ignores case and surrounding white space: a query, its lower-cased
   * form and its trimmed form normalise alike, and normalising is idempotent.
   */
  lemma NormalizeInsensitive(query: string)
    ensures Normalize(Lower(query)) == Normalize(query)
    ensures Normalize(Trim(query)) == Normalize(query)
    ensures Normalize(Normalize(query)) == Normalize(query)
  {
    NormalizeOfLower(query);
    NormalizeOfTrim(query);
    NormalizeOfNormalized(query);
  }

  lemma NormalizeOfLower(query: string)
    ensures Normalize(Lower(query)) == Normalize(query)
  {
    LowerIdempotent(query);
  }

  lemma NormalizeOfTrim(query: string)
    ensures Normalize(Trim(query)) == Normalize(query)
  {
    TrimLowerCommute(Trim(query));
    TrimIdempotent(query);
    TrimLowerCommute(query);
  }

  lemma NormalizeOfNormalized(query: string)
    ensures Normalize(Normalize(query)) == Normalize(query)
  {
    var n := Normalize(query);
    TrimLowerCommute(query);
    assert n == Lower(Trim(query));
    LowerIdempotent(Trim(query));
    assert Lower(n) == n;
    TrimIdempotent(Lower(query));
  }
}
