/** Global, literal string replacement as done by `String.prototype.replace`
    with a `g`-flagged regular expression that has no special characters:
    the input is scanned left to right, every non-overlapping occurrence of
    the pattern is replaced, and replaced text is never scanned again.

    The reference description is the split/join identity
    `s.replace(/p/g, r) == s.split(p).join(r)`: `Split` cuts the input at
    every occurrence, `Join` glues the pieces back with a separator. */
module Text {

  /** `p` occurs in `s` at position `i`. */
  predicate OccursAt(s: string, p: string, i: nat)
  {
    i + |p| <= |s| && s[i..i + |p|] == p
  }

  /** `p` occurs somewhere in `s`. */
  predicate Occurs(s: string, p: string)
  {
    exists i: nat :: i <= |s| && OccursAt(s, p, i)
  }

  predicate StartsWith(s: string, p: string)
  {
    OccursAt(s, p, 0)
  }

  /** No character appears in both strings. */
  predicate NoSharedChar(a: string, b: string)
  {
    forall c :: c in a ==> c !in b
  }

  /** Replace every non-overlapping occurrence of `p` in `s`, left to right. */
  function ReplaceAll(s: string, p: string, r: string): string
    requires |p| > 0
    decreases |s|
  {
    if |s| == 0 then s
    else if StartsWith(s, p) then r + ReplaceAll(s[|p|..], p, r)
    else [s[0]] + ReplaceAll(s[1..], p, r)
  }

  /** The pieces of `s` between the occurrences of `p` (there is always one more
      piece than there are occurrences). */
  function Split(s: string, p: string): (parts: seq<string>)
    requires |p| > 0
    ensures |parts| > 0
    decreases |s|
  {
    if |s| == 0 then [[]]
    else if StartsWith(s, p) then [[]] + Split(s[|p|..], p)
    else
      var rest := Split(s[1..], p);
      [[s[0]] + rest[0]] + rest[1..]
  }

  /** The pieces glued together with `sep` between consecutive ones. */
  function Join(parts: seq<string>, sep: string): string
    requires |parts| > 0
    decreases |parts|
  {
    if |parts| == 1 then parts[0] else parts[0] + sep + Join(parts[1..], sep)
  }

  lemma JoinConsHead(c: char, x: string, xs: seq<string>, sep: string)
    ensures Join([[c] + x] + xs, sep) == [c] + Join([x] + xs, sep)
  {
    if |xs| > 0 {
      assert ([[c] + x] + xs)[1..] == xs;
      assert ([x] + xs)[1..] == xs;
    }
  }

  /** Splitting at `p` and joining with `p` gives the input back. */
  lemma {:induction false} JoinSplit(s: string, p: string)
    requires |p| > 0
    ensures Join(Split(s, p), p) == s
    decreases |s|
  {
    if |s| == 0 {
    } else if StartsWith(s, p) {
      var tail := s[|p|..];
      var rest := Split(tail, p);
      assert Split(s, p) == [[]] + rest;
      JoinSplit(tail, p);
      assert ([[]] + rest)[1..] == rest;
      assert Join([[]] + rest, p) == [] + p + Join(rest, p);
      assert s == p + tail;
    } else {
      var tail := s[1..];
      var rest := Split(tail, p);
      assert Split(s, p) == [[s[0]] + rest[0]] + rest[1..];
      JoinSplit(tail, p);
      JoinConsHead(s[0], rest[0], rest[1..], p);
      assert [rest[0]] + rest[1..] == rest;
      assert s == [s[0]] + tail;
    }
  }

  /** Replacing all occurrences is the same as splitting at the pattern and
      joining with the replacement: every occurrence becomes `r`, and the text
      between occurrences is carried over unchanged. */
  lemma {:induction false} ReplaceAllIsSplitJoin(s: string, p: string, r: string)
    requires |p| > 0
    ensures ReplaceAll(s, p, r) == Join(Split(s, p), r)
    decreases |s|
  {
    if |s| == 0 {
    } else if StartsWith(s, p) {
      var rest := Split(s[|p|..], p);
      ReplaceAllIsSplitJoin(s[|p|..], p, r);
      assert ([[]] + rest)[1..] == rest;
    } else {
      var rest := Split(s[1..], p);
      ReplaceAllIsSplitJoin(s[1..], p, r);
      JoinConsHead(s[0], rest[0], rest[1..], r);
      assert [rest[0]] + rest[1..] == rest;
    }
  }

  /** The first piece of a split is a prefix of the input. */
  lemma {:induction false} SplitHeadIsPrefix(s: string, p: string)
    requires |p| > 0
    ensures |Split(s, p)[0]| <= |s| && s[..|Split(s, p)[0]|] == Split(s, p)[0]
    decreases |s|
  {
    if |s| == 0 {
    } else if StartsWith(s, p) {
    } else {
      SplitHeadIsPrefix(s[1..], p);
    }
  }

  /** An occurrence in the tail of a string is an occurrence in the string. */
  lemma OccursInSuffix(s: string, p: string, k: nat, i: nat)
    requires k <= |s| && OccursAt(s[k..], p, i)
    ensures OccursAt(s, p, k + i)
  {
    assert s[k..][i..i + |p|] == s[k + i..k + i + |p|];
  }

  /** An occurrence in the second half of a concatenation is one in that half. */
  lemma OccursInSecondPart(a: string, b: string, q: string, i: nat)
    requires |a| <= i
    ensures OccursAt(a + b, q, i) ==> OccursAt(b, q, i - |a|)
  {
    if OccursAt(a + b, q, i) {
      assert (a + b)[i..i + |q|] == b[i - |a|..i - |a| + |q|];
    }
  }

  /** An occurrence cannot start inside a part that shares no character with it. */
  lemma NoOccurrenceStartingIn(a: string, b: string, q: string, i: nat)
    requires |q| > 0 && i < |a| && NoSharedChar(a, q)
    ensures !OccursAt(a + b, q, i)
  {
    assert a[i] in a;
    if i + |q| <= |a + b| {
      assert (a + b)[i..i + |q|][0] == a[i];
    }
  }

  /** No piece produced by `Split` contains the pattern. */
  lemma {:induction false} SplitPartsAvoidPattern(s: string, p: string, k: nat)
    requires |p| > 0
    requires k < |Split(s, p)|
    ensures !Occurs(Split(s, p)[k], p)
    decreases |s|
  {
    if |s| > 0 && StartsWith(s, p) && k > 0 {
      SplitPartsAvoidPattern(s[|p|..], p, k - 1);
    } else if |s| > 0 && !StartsWith(s, p) {
      var rest := Split(s[1..], p);
      SplitPartsAvoidPattern(s[1..], p, if k > 0 then k else 0);
      if k == 0 {
        var head := [s[0]] + rest[0];
        SplitHeadIsPrefix(s[1..], p);
        assert head == s[..|head|];
        forall i: nat
          ensures !OccursAt(head, p, i)
        {
          if i == 0 {
            if |p| <= |head| {
              assert head[..|p|] == s[..|p|];
            }
          } else {
            OccursInSecondPart([s[0]], rest[0], p, i);
          }
        }
      }
    }
  }

  /** If the first `k` characters of a replaced string all come from `cs`, and
      the replacement does not start with a character of `cs`, then no
      replacement happened among them: they are the first characters of the
      input. */
  lemma {:induction false} LeadingCharsFromSource(s: string, p: string, r: string, cs: string, k: nat)
    requires |p| > 0 && |r| > 0 && r[0] !in cs
    requires k <= |ReplaceAll(s, p, r)|
    ensures (forall j :: 0 <= j < k ==> ReplaceAll(s, p, r)[j] in cs) ==>
              k <= |s| && ReplaceAll(s, p, r)[..k] == s[..k]
    decreases |s|
  {
    var out := ReplaceAll(s, p, r);
    if k > 0 {
      if StartsWith(s, p) {
        assert out[0] == r[0];
      } else {
        var rest := ReplaceAll(s[1..], p, r);
        assert out == [s[0]] + rest;
        LeadingCharsFromSource(s[1..], p, r, cs, k - 1);
        if forall j :: 0 <= j < k ==> out[j] in cs {
          forall j | 0 <= j < k - 1
            ensures rest[j] in cs
          {
            assert rest[j] == out[j + 1];
          }
          assert s[..k] == [s[0]] + s[1..][..k - 1];
        }
      }
    }
  }

  /** Where no replacement starts, an occurrence of `q` at the front of the
      output is one at the front of the input, provided the replacement does
      not start with a character of `q`. */
  lemma HeadOccurrenceFromSource(s: string, p: string, r: string, q: string)
    requires |p| > 0 && |r| > 0 && |q| > 0 && r[0] !in q
    requires |s| > 0 && !StartsWith(s, p)
    ensures OccursAt(ReplaceAll(s, p, r), q, 0) ==> OccursAt(s, q, 0)
  {
    var tail := s[1..];
    var rest := ReplaceAll(tail, p, r);
    var out := [s[0]] + rest;
    assert ReplaceAll(s, p, r) == out;
    if OccursAt(out, q, 0) {
      var n := |q| - 1;
      assert forall j :: 0 <= j < n ==> rest[j] in q by {
        forall j | 0 <= j < n
          ensures rest[j] in q
        {
          assert out[..|q|][j + 1] == q[j + 1];
        }
      }
      LeadingCharsFromSource(tail, p, r, q, n);
      assert s[..|q|] == q by {
        forall j | 0 <= j < |q|
          ensures s[j] == q[j]
        {
          assert out[..|q|][j] == q[j];
          if j > 0 {
            assert rest[..n][j - 1] == tail[..n][j - 1];
          }
        }
      }
    }
  }

  /** When the replacement shares no character with the pattern, no occurrence
      of the pattern is left after replacing all of them. */
  lemma {:induction false} NoOccurrenceAfterReplaceAll(s: string, p: string, r: string)
    requires |p| > 0 && |r| > 0 && NoSharedChar(r, p)
    ensures !Occurs(ReplaceAll(s, p, r), p)
    decreases |s|
  {
    var out := ReplaceAll(s, p, r);
    if |s| > 0 && StartsWith(s, p) {
      var rest := ReplaceAll(s[|p|..], p, r);
      NoOccurrenceAfterReplaceAll(s[|p|..], p, r);
      forall i: nat
        ensures !OccursAt(out, p, i)
      {
        if i < |r| {
          NoOccurrenceStartingIn(r, rest, p, i);
        } else {
          OccursInSecondPart(r, rest, p, i);
        }
      }
    } else if |s| > 0 {
      var rest := ReplaceAll(s[1..], p, r);
      NoOccurrenceAfterReplaceAll(s[1..], p, r);
      assert r[0] in r;
      HeadOccurrenceFromSource(s, p, r, p);
      forall i: nat
        ensures !OccursAt(out, p, i)
      {
        if i > 0 {
          OccursInSecondPart([s[0]], rest, p, i);
        }
      }
    }
  }

  /** Replacing one pattern does not create an occurrence of another pattern
      `q` that was absent, when the replacement shares no character with `q`. */
  lemma {:induction false} AbsenceKeptByReplaceAll(s: string, p: string, r: string, q: string)
    requires |p| > 0 && |r| > 0 && |q| > 0 && NoSharedChar(r, q)
    requires !Occurs(s, q)
    ensures !Occurs(ReplaceAll(s, p, r), q)
    decreases |s|
  {
    var out := ReplaceAll(s, p, r);
    if |s| > 0 {
      var k := if StartsWith(s, p) then |p| else 1;
      forall i: nat
        ensures !OccursAt(s[k..], q, i)
      {
        if OccursAt(s[k..], q, i) {
          OccursInSuffix(s, q, k, i);
        }
      }
      AbsenceKeptByReplaceAll(s[k..], p, r, q);
      var rest := ReplaceAll(s[k..], p, r);
      if StartsWith(s, p) {
        forall i: nat
          ensures !OccursAt(out, q, i)
        {
          if i < |r| {
            NoOccurrenceStartingIn(r, rest, q, i);
          } else {
            OccursInSecondPart(r, rest, q, i);
          }
        }
      } else {
        assert r[0] in r;
        HeadOccurrenceFromSource(s, p, r, q);
        forall i: nat
          ensures !OccursAt(out, q, i)
        {
          if i > 0 {
            OccursInSecondPart([s[0]], rest, q, i);
          }
        }
      }
    }
  }

  /** A string without the pattern is left as it is. */
  lemma {:induction false} ReplaceAllWithoutOccurrence(s: string, p: string, r: string)
    requires |p| > 0 && !Occurs(s, p)
    ensures ReplaceAll(s, p, r) == s
    decreases |s|
  {
    if |s| > 0 {
      assert !OccursAt(s, p, 0);
      forall i: nat | OccursAt(s[1..], p, i)
        ensures false
      {
        OccursInSuffix(s, p, 1, i);
      }
      ReplaceAllWithoutOccurrence(s[1..], p, r);
    }
  }
}
