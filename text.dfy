/** The string operations the views' searches and date filters use:
    `toLowerCase`, `includes`, the `[A-Z]` character class, and JavaScript's
    code-unit order on strings. */
module Text {

  /** Membership in the regular-expression class `[A-Z]`. */
  predicate IsUpper(c: char) {
    'A' <= c <= 'Z'
  }

  function LowerChar(c: char): char {
    if IsUpper(c) then (c as int + 32) as char else c
  }

  /** `s.toLowerCase()`, restricted to the ASCII letters. */
  function ToLower(s: string): (r: string)
    ensures |r| == |s|
    ensures forall i :: 0 <= i < |r| ==> !IsUpper(r[i])
    ensures forall i :: 0 <= i < |s| && !IsUpper(s[i]) ==> r[i] == s[i]
    ensures forall i :: 0 <= i < |s| && IsUpper(s[i]) ==> r[i] == (s[i] as int + 32) as char && 'a' <= r[i] <= 'z'
  {
    seq(|s|, i requires 0 <= i < |s| => LowerChar(s[i]))
  }

  predicate StartsWith(s: string, prefix: string) {
    |prefix| <= |s| && s[..|prefix|] == prefix
  }

  /** `s.includes(t)`: `t` occurs in `s` at some offset. */
  predicate Includes(s: string, t: string)
    decreases |s|
  {
    StartsWith(s, t) || (s != [] && Includes(s[1..], t))
  }

  /** `t` occurs in `s` starting at offset `i`. */
  predicate OccursAt(s: string, t: string, i: int) {
    0 <= i <= |s| - |t| && s[i..i + |t|] == t
  }

  /** `Includes` holds exactly when `t` occurs in `s` at some offset. */
  lemma {:induction false} IncludesIffOccurs(s: string, t: string)
    ensures Includes(s, t) <==> exists i :: OccursAt(s, t, i)
  {
    if StartsWith(s, t) {
      assert OccursAt(s, t, 0);
    } else if s == [] {
    } else {
      IncludesIffOccurs(s[1..], t);
      if Includes(s[1..], t) {
        var j :| OccursAt(s[1..], t, j);
        assert s[j + 1..j + 1 + |t|] == s[1..][j..j + |t|];
        assert OccursAt(s, t, j + 1);
      }
      if i :| OccursAt(s, t, i) {
        assert i != 0;
        assert s[1..][i - 1..i - 1 + |t|] == s[i..i + |t|];
        assert OccursAt(s[1..], t, i - 1);
      }
    }
  }

  /** The empty search term is included in every string. */
  lemma IncludesEmpty(s: string)
    ensures Includes(s, "")
  {
    assert StartsWith(s, "");
  }

  /** The case-insensitive search `s.toLowerCase().includes(t.toLowerCase())`. */
  predicate IncludesIgnoringCase(s: string, t: string) {
    Includes(ToLower(s), ToLower(t))
  }

  /** Lower-casing twice is lower-casing once. */
  lemma ToLowerIdempotent(s: string)
    ensures ToLower(ToLower(s)) == ToLower(s)
  {
  }

  /** The empty search term matches every string, ignoring case or not. */
  lemma IncludesEmptyIgnoringCase(s: string)
    ensures IncludesIgnoringCase(s, "")
  {
    assert ToLower("") == "";
    IncludesEmpty(ToLower(s));
  }

  /** `a <= b` on JavaScript strings: lexicographic order of the characters. */
  predicate LexLessOrEqual(a: string, b: string) {
    a == [] || (b != [] && (a[0] < b[0] || (a[0] == b[0] && LexLessOrEqual(a[1..], b[1..]))))
  }

  /** The order is total, so every date is on one side of a cut-off or the other. */
  lemma {:induction false} LexTotal(a: string, b: string)
    ensures LexLessOrEqual(a, b) || LexLessOrEqual(b, a)
  {
    if a != [] && b != [] && a[0] == b[0] {
      LexTotal(a[1..], b[1..]);
    }
  }

  /** The order is transitive. */
  lemma {:induction false} LexTransitive(a: string, b: string, c: string)
    requires LexLessOrEqual(a, b) && LexLessOrEqual(b, c)
    ensures LexLessOrEqual(a, c)
  {
    if a != [] && b != [] && c != [] && a[0] == b[0] && b[0] == c[0] {
      LexTransitive(a[1..], b[1..], c[1..]);
    }
  }

  /** A common prefix does not change the order: dates of one month compare
      by their day. */
  lemma {:induction false} LexCommonPrefix(p: string, a: string, b: string)
    requires LexLessOrEqual(a, b)
    ensures LexLessOrEqual(p + a, p + b)
  {
    if p != [] {
      LexCommonPrefix(p[1..], a, b);
      assert (p + a)[1..] == p[1..] + a;
      assert (p + b)[1..] == p[1..] + b;
    } else {
      assert p + a == a && p + b == b;
    }
  }
}
