/** String operations the integration relies on: ASCII lower-casing,
    substring containment (Python's `in` on strings), Python's `s[-n:]`
    suffix slice and decimal rendering of a status code. */
module Text {

  function LowerChar(c: char): (r: char)
    ensures 'A' <= c <= 'Z' ==> r as int == c as int + 32
    ensures !('A' <= c <= 'Z') ==> r == c
  {
    if 'A' <= c <= 'Z' then (c as int + 32) as char else c
  }

  /** `str.lower()` restricted to ASCII letters. */
  function Lower(s: string): (r: string)
    ensures |r| == |s|
    ensures forall i :: 0 <= i < |s| ==> r[i] == LowerChar(s[i])
  {
    seq(|s|, i requires 0 <= i < |s| => LowerChar(s[i]))
  }

  predicate IsLowerAscii(s: string) {
    forall i :: 0 <= i < |s| ==> !('A' <= s[i] <= 'Z')
  }

  lemma LowerAppend(a: string, b: string)
    ensures Lower(a + b) == Lower(a) + Lower(b)
  {
    var l, r := Lower(a + b), Lower(a) + Lower(b);
    assert |l| == |r|;
    forall i | 0 <= i < |l| ensures l[i] == r[i] {
      if i < |a| { assert (a + b)[i] == a[i]; } else { assert (a + b)[i] == b[i - |a|]; }
    }
  }

  /** Lower-casing a capitalised word only touches its first letter. */
  lemma LowerCapitalised(c: char, t: string)
    requires IsLowerAscii(t)
    ensures Lower([c] + t) == [LowerChar(c)] + t
  {
    LowerAppend([c], t);
  }

  lemma LowerOfLower(s: string)
    requires IsLowerAscii(s)
    ensures Lower(s) == s
  {
  }

  lemma LowerIsLower(s: string)
    ensures IsLowerAscii(Lower(s))
  {
  }

  /** `p` occurs in `s` at index `i`. */
  predicate OccursAt(s: string, p: string, i: nat) {
    i + |p| <= |s| && s[i..i + |p|] == p
  }

  /** Python's `p in s` for strings. */
  predicate Contains(s: string, p: string) {
    |p| <= |s| && (s[..|p|] == p || Contains(s[1..], p))
  }

  lemma {:induction false} ContainsIffOccurs(s: string, p: string)
    ensures Contains(s, p) <==> exists i: nat :: OccursAt(s, p, i)
  {
    if |p| <= |s| {
      if s[..|p|] == p {
        assert OccursAt(s, p, 0);
      } else {
        ContainsIffOccurs(s[1..], p);
        if Contains(s[1..], p) {
          var i: nat :| OccursAt(s[1..], p, i);
          assert s[i + 1..i + 1 + |p|] == s[1..][i..i + |p|];
          assert OccursAt(s, p, i + 1);
        } else {
          forall i: nat | OccursAt(s, p, i) ensures false {
            if i > 0 {
              assert s[1..][i - 1..i - 1 + |p|] == s[i..i + |p|];
              assert OccursAt(s[1..], p, i - 1);
            }
          }
        }
      }
    }
  }

  /** A window of `s` that lower-cases to `p` makes `p` occur in `Lower(s)`. */
  lemma OccursLowered(s: string, p: string, i: nat)
    requires i + |p| <= |s| && Lower(s[i..i + |p|]) == p
    ensures Contains(Lower(s), p)
  {
    var l := Lower(s);
    assert l[i..i + |p|] == Lower(s[i..i + |p|]);
    assert OccursAt(l, p, i);
    ContainsIffOccurs(l, p);
  }

  /** `s` has no `c`, and no upper-case form of `c` when `c` is a
      lower-case letter. */
  predicate Lacks(s: string, c: char) {
    forall i :: 0 <= i < |s| ==> s[i] != c && s[i] != UpperChar(c)
  }

  function UpperChar(c: char): (r: char)
    ensures 'a' <= c <= 'z' ==> r as int == c as int - 32
    ensures !('a' <= c <= 'z') ==> r == c
  {
    if 'a' <= c <= 'z' then (c as int - 32) as char else c
  }

  /** A character that is not an upper-case letter, and that `s` lacks in
      either case, is absent from `Lower(s)`. */
  lemma LowerKeepsAbsent(s: string, c: char)
    requires !('A' <= c <= 'Z') && Lacks(s, c)
    ensures c !in Lower(s)
  {
    forall i | 0 <= i < |s| ensures Lower(s)[i] != c {
      assert s[i] != c;
    }
  }

  /** A pattern holding a character (at index `k`) that `s` lacks in
      either case never occurs in `Lower(s)`. */
  lemma AbsentLowered(s: string, p: string, k: nat)
    requires k < |p| && !('A' <= p[k] <= 'Z') && Lacks(s, p[k])
    ensures !Contains(Lower(s), p)
  {
    LowerKeepsAbsent(s, p[k]);
    ContainsIffOccurs(Lower(s), p);
  }

  /** Behind a prefix that lacks the pattern's first character, the
      pattern occurs only in what follows. */
  lemma {:induction false} ContainsAfter(a: string, d: string, p: string)
    requires |p| > 0 && p[0] !in a
    ensures Contains(a + d, p) <==> Contains(d, p)
  {
    if |a| > 0 {
      assert (a + d)[1..] == a[1..] + d;
      assert (a + d)[0] == a[0];
      ContainsAfter(a[1..], d, p);
    } else {
      assert a + d == d;
    }
  }

  /** Python's `s[-n:]`: the last `n` characters, or all of `s` when it is shorter. */
  function Suffix(s: string, n: nat): (r: string)
    ensures |r| == if |s| <= n then |s| else n
    ensures s == s[..|s| - |r|] + r
  {
    if |s| <= n then s else s[|s| - n..]
  }

  function DigitChar(d: nat): (c: char)
    requires d < 10
    ensures '0' <= c <= '9'
  {
    ('0' as int + d) as char
  }

  /** Decimal rendering of a natural number, as Python's `str(n)`. */
  function Decimal(n: nat): (r: string)
    ensures |r| > 0
    ensures forall i :: 0 <= i < |r| ==> '0' <= r[i] <= '9'
  {
    if n < 10 then [DigitChar(n)] else Decimal(n / 10) + [DigitChar(n % 10)]
  }
}
