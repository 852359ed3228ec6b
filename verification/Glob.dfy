/**
 * Wildcard matching of scope arguments (internal/pkg/glob/glob.go): the iterative
 * matcher with one remembered star, against the meaning of the two wildcards.
 * Texts are sequences of runes.
 */
module Globs {

  /** '*' stands for any text, '?' for one rune, everything else for itself. */
  ghost predicate Matches(pattern: string, s: string) {
    if pattern == "" then s == ""
    else if pattern[0] == '*' then exists k :: 0 <= k <= |s| && Matches(pattern[1..], s[k..])
    else s != "" && Fits(pattern[0], s[0]) && Matches(pattern[1..], s[1..])
  }

  predicate Fits(p: char, c: char) {
    p == '?' || p == c
  }

  /** The rest of a pattern after a star matches the rest of the text from `from` or some later position. */
  ghost predicate MatchesFrom(pattern: string, s: string, from: nat)
    requires from <= |s|
  {
    exists k :: from <= k <= |s| && Matches(pattern, s[k..])
  }

  /** The runes every match of the pattern consumes at least. */
  ghost function Needed(pattern: string): nat {
    if pattern == "" then 0 else (if pattern[0] == '*' then 0 else 1) + Needed(pattern[1..])
  }

  lemma {:induction false} MatchIsLongEnough(pattern: string, s: string)
    requires Matches(pattern, s)
    ensures Needed(pattern) <= |s|
    decreases |pattern|
  {
    if pattern != "" {
      if pattern[0] == '*' {
        var k :| 0 <= k <= |s| && Matches(pattern[1..], s[k..]);
        MatchIsLongEnough(pattern[1..], s[k..]);
      } else {
        MatchIsLongEnough(pattern[1..], s[1..]);
      }
    }
  }

  lemma {:induction false} NeedsNothing(pattern: string)
    ensures Matches(pattern, "") <==> Needed(pattern) == 0
    decreases |pattern|
  {
    if pattern != "" {
      NeedsNothing(pattern[1..]);
      if pattern[0] == '*' {
        var none := "";
        assert none[0..] == none;
      }
    }
  }

  /** A text matches two patterns in a row exactly when it can be cut into a match of each. */
  lemma {:induction false} MatchesConcat(p: string, q: string, s: string)
    ensures Matches(p + q, s) <==> exists k :: 0 <= k <= |s| && Matches(p, s[..k]) && Matches(q, s[k..])
    decreases |p|
  {
    if p == "" {
      assert p + q == q && s[0..] == s;
      assert Matches(q, s) ==> Matches(p, s[..0]) && Matches(q, s[0..]);
    } else {
      assert (p + q)[1..] == p[1..] + q;
      if Matches(p + q, s) {
        var k := CutMatch(p, q, s);
      }
      forall k | 0 <= k <= |s| && Matches(p, s[..k]) && Matches(q, s[k..])
        ensures Matches(p + q, s)
      {
        JoinMatch(p, q, s, k);
      }
    }
  }

  lemma {:induction false} CutMatch(p: string, q: string, s: string) returns (k: nat)
    requires Matches(p + q, s)
    ensures k <= |s| && Matches(p, s[..k]) && Matches(q, s[k..])
    decreases |p|
  {
    if p == "" {
      assert p + q == q && s[0..] == s;
      k := 0;
    } else {
      assert (p + q)[1..] == p[1..] + q;
      var a := FirstMatch(p + q, s);
      var b := CutMatch(p[1..], q, s[a..]);
      k := a + b;
      assert s[..k][a..] == s[a..][..b] && s[k..] == s[a..][b..];
      FirstMatches(p, s[..k], a);
    }
  }

  /** How much of the text the first rune of the pattern takes. */
  lemma FirstMatch(p: string, s: string) returns (a: nat)
    requires p != "" && Matches(p, s)
    ensures a <= |s| && Matches(p[1..], s[a..]) && (p[0] != '*' ==> a == 1 && (p[0] == '?' || p[0] == s[0]))
  {
    if p[0] == '*' {
      a :| 0 <= a <= |s| && Matches(p[1..], s[a..]);
    } else {
      a := 1;
    }
  }

  lemma FirstMatches(p: string, s: string, a: nat)
    requires p != "" && a <= |s| && Matches(p[1..], s[a..])
    requires p[0] != '*' ==> a == 1 && (p[0] == '?' || p[0] == s[0])
    ensures Matches(p, s)
  {
  }

  lemma {:induction false} JoinMatch(p: string, q: string, s: string, k: nat)
    requires k <= |s| && Matches(p, s[..k]) && Matches(q, s[k..])
    ensures Matches(p + q, s)
    decreases |p|
  {
    if p == "" {
      assert p + q == q && s[0..] == s;
    } else {
      assert (p + q)[1..] == p[1..] + q;
      var a := FirstMatch(p, s[..k]);
      assert s[..k][a..] == s[a..][..k - a] && s[k..] == s[a..][k - a..];
      JoinMatch(p[1..], q, s[a..], k - a);
      FirstMatches(p + q, s, a);
    }
  }

  /** The one-rune patterns: '*' matches every text, '?' every single rune, any other rune itself. */
  lemma SingleRunes(c: char, s: string)
    ensures Matches([c], s) <==> c == '*' || (|s| == 1 && (c == '?' || s == [c]))
  {
    assert [c][1..] == "";
    assert s[|s|..] == "";
    if |s| == 1 {
      assert s == [s[0]] && s[1..] == "";
    }
  }

  /** A star in front is the same as matching the rest from some position on. */
  lemma StarIsFrom(pattern: string, s: string, p: nat, i: nat)
    requires p < |pattern| && pattern[p] == '*' && i <= |s|
    ensures Matches(pattern[p..], s[i..]) <==> MatchesFrom(pattern[p + 1..], s, i)
  {
    var t := s[i..];
    assert pattern[p..][1..] == pattern[p + 1..];
    if Matches(pattern[p..], t) {
      var k :| 0 <= k <= |t| && Matches(pattern[p + 1..], t[k..]);
      assert t[k..] == s[i + k..];
    }
    if MatchesFrom(pattern[p + 1..], s, i) {
      var k :| i <= k <= |s| && Matches(pattern[p + 1..], s[k..]);
      assert t[k - i..] == s[k..];
    }
  }

  /** The patterns between positions a and b hold no star. */
  predicate Plain(pattern: string, a: nat, b: nat) {
    a <= b <= |pattern| && forall i :: a <= i < b ==> pattern[i] != '*'
  }

  /** Without a star, a match uses up one rune per pattern rune. */
  lemma {:induction false} PlainPrefix(pattern: string, s: string, a: nat, b: nat, k: nat)
    requires Plain(pattern, a, b) && k <= |s| && Matches(pattern[a..], s[k..])
    ensures k + (b - a) <= |s| && Matches(pattern[b..], s[k + (b - a)..])
    decreases b - a
  {
    if a < b {
      assert pattern[a..][1..] == pattern[a + 1..] && s[k..][1..] == s[k + 1..];
      PlainPrefix(pattern, s, a + 1, b, k + 1);
    }
  }

  lemma {:induction false} NeededSplit(pattern: string, a: nat, b: nat)
    requires Plain(pattern, a, b)
    ensures Needed(pattern[a..]) == (b - a) + Needed(pattern[b..])
    decreases b - a
  {
    if a < b {
      assert pattern[a..][1..] == pattern[a + 1..];
      NeededSplit(pattern, a + 1, b);
    }
  }

  /**
   * What the matcher knows: with no star seen, the question is whether the rests match.
   * With a star, it is whether the rest after the star matches from starSi or later, and
   * the attempt at starSi comes down to the rests.
   */
  ghost predicate Progress(pattern: string, s: string, pi: nat, si: nat, starPi: int, starSi: int) {
    && pi <= |pattern| && si <= |s|
    && if starPi < 0 then Matches(pattern, s) <==> Matches(pattern[pi..], s[si..])
       else && 0 < starPi <= pi && 0 <= starSi && si - starSi == pi - starPi
            && Plain(pattern, starPi, pi)
            && (Matches(pattern, s) <==> MatchesFrom(pattern[starPi..], s, starSi))
            && (Matches(pattern[starPi..], s[starSi..]) <==> Matches(pattern[pi..], s[si..]))
  }

  /** A new star: the earlier one need not be moved any more. */
  lemma NewStar(pattern: string, s: string, pi: nat, si: nat, starPi: int, starSi: int)
    requires Progress(pattern, s, pi, si, starPi, starSi) && pi < |pattern| && pattern[pi] == '*'
    ensures Progress(pattern, s, pi + 1, si, pi + 1, si)
  {
    StarIsFrom(pattern, s, pi, si);
    if starPi >= 0 && MatchesFrom(pattern[starPi..], s, starSi) {
      var k :| starSi <= k <= |s| && Matches(pattern[starPi..], s[k..]);
      PlainPrefix(pattern, s, starPi, pi, k);
      var m := k + (pi - starPi);
      StarIsFrom(pattern, s, pi, m);
      var n :| m <= n <= |s| && Matches(pattern[pi + 1..], s[n..]);
      assert MatchesFrom(pattern[pi + 1..], s, si);
    }
  }

  /** One pattern rune meets one rune of the text. */
  lemma Advance(pattern: string, s: string, pi: nat, si: nat, starPi: int, starSi: int)
    requires Progress(pattern, s, pi, si, starPi, starSi) && pi < |pattern| && si < |s|
    requires pattern[pi] != '*' && Fits(pattern[pi], s[si])
    ensures Progress(pattern, s, pi + 1, si + 1, starPi, starSi)
  {
    assert pattern[pi..][1..] == pattern[pi + 1..] && s[si..][1..] == s[si + 1..];
  }

  /** The rests do not match: the star takes one rune more. */
  lemma Backtrack(pattern: string, s: string, pi: nat, si: nat, starPi: int, starSi: int)
    requires Progress(pattern, s, pi, si, starPi, starSi) && si < |s| && starPi >= 0
    requires pi == |pattern| || (pattern[pi] != '*' && !Fits(pattern[pi], s[si]))
    ensures Progress(pattern, s, starPi, starSi + 1, starPi, starSi + 1)
  {
    assert !Matches(pattern[pi..], s[si..]);
    if MatchesFrom(pattern[starPi..], s, starSi) {
      var k :| starSi <= k <= |s| && Matches(pattern[starPi..], s[k..]);
      assert k != starSi;
    }
  }

  /** The rests do not match and there is no star to move: nothing matches. */
  lemma Stuck(pattern: string, s: string, pi: nat, si: nat, starPi: int, starSi: int)
    requires Progress(pattern, s, pi, si, starPi, starSi) && si < |s| && starPi < 0
    requires pi == |pattern| || (pattern[pi] != '*' && !Fits(pattern[pi], s[si]))
    ensures !Matches(pattern, s)
  {
    assert !Matches(pattern[pi..], s[si..]);
  }

  /** The text is used up: only stars may be left. */
  lemma Exhausted(pattern: string, s: string, pi: nat, starPi: int, starSi: int)
    requires Progress(pattern, s, pi, |s|, starPi, starSi)
    ensures Matches(pattern, s) <==> Needed(pattern[pi..]) == 0
  {
    assert s[|s|..] == "";
    NeedsNothing(pattern[pi..]);
    if starPi >= 0 && MatchesFrom(pattern[starPi..], s, starSi) {
      var k :| starSi <= k <= |s| && Matches(pattern[starPi..], s[k..]);
      MatchIsLongEnough(pattern[starPi..], s[k..]);
      NeededSplit(pattern, starPi, pi);
    }
  }

  /** Every turn but a backtrack moves on in the pattern; after a backtrack it may be gone through again. */
  ghost predicate Paid(steps: nat, backtracks: nat, m: nat, pi: nat) {
    steps <= backtracks * (m + 1) + pi
  }

  lemma PaidBacktrack(steps: nat, backtracks: nat, m: nat, pi: nat, starPi: nat)
    requires Paid(steps, backtracks, m, pi) && pi <= m
    ensures Paid(steps + 1, backtracks + 1, m, starPi)
  {
    assert (backtracks + 1) * (m + 1) == backtracks * (m + 1) + m + 1;
  }

  lemma PaidInAll(steps: nat, backtracks: nat, n: nat, m: nat)
    requires Paid(steps, backtracks, m, m + 1) && backtracks <= n
    ensures steps <= (n + 1) * (m + 1)
  {
    assert backtracks * (m + 1) <= n * (m + 1);
    assert (n + 1) * (m + 1) == n * (m + 1) + m + 1;
  }

  /** The last loop: skips stars and says whether the pattern ends there. */
  method OnlyStars(pattern: string, from: nat) returns (ok: bool, ghost steps: nat)
    requires from <= |pattern|
    ensures ok <==> Needed(pattern[from..]) == 0
    ensures steps <= |pattern| - from
  {
    var pi := from;
    steps := 0;
    while pi < |pattern| && pattern[pi] == '*'
      invariant from <= pi <= |pattern| && steps == pi - from
      invariant Needed(pattern[from..]) == Needed(pattern[pi..])
    {
      assert pattern[pi..][1..] == pattern[pi + 1..];
      pi, steps := pi + 1, steps + 1;
    }
    ok := pi == |pattern|;
  }

  /** The variables of the matching loop; starPi is -1 while no star was seen. */
  datatype Cursor = Cursor(pi: nat, si: nat, starPi: int, starSi: int)

  ghost predicate At(pattern: string, s: string, c: Cursor) {
    Progress(pattern, s, c.pi, c.si, c.starPi, c.starSi)
  }

  /** How far the star has got. */
  function Reached(c: Cursor): int {
    if c.starPi < 0 then 0 else c.starSi
  }

  lemma ReachedBounds(pattern: string, s: string, c: Cursor)
    requires At(pattern, s, c)
    ensures 0 <= Reached(c) <= c.si
  {
  }

  /** One turn of the matching loop. */
  method Turn(pattern: string, s: string, c: Cursor) returns (stuck: bool, n: Cursor, ghost back: bool)
    requires At(pattern, s, c) && c.si < |s|
    ensures stuck ==> n == c && !Matches(pattern, s)
    ensures !stuck ==> At(pattern, s, n)
    ensures !stuck && !back ==> n.pi == c.pi + 1 && Reached(c) <= Reached(n)
    ensures !stuck && back ==> Reached(n) == Reached(c) + 1
  {
    var pi, si, starPi, starSi := c.pi, c.si, c.starPi, c.starSi;
    ReachedBounds(pattern, s, c);
    if pi < |pattern| && pattern[pi] == '*' {
      NewStar(pattern, s, pi, si, starPi, starSi);
      return false, Cursor(pi + 1, si, pi + 1, si), false;
    }
    if pi < |pattern| && (pattern[pi] == '?' || pattern[pi] == s[si]) {
      Advance(pattern, s, pi, si, starPi, starSi);
      return false, Cursor(pi + 1, si + 1, starPi, starSi), false;
    }
    if starPi < 0 {
      Stuck(pattern, s, pi, si, starPi, starSi);
      return true, c, false;
    }
    Backtrack(pattern, s, pi, si, starPi, starSi);
    return false, Cursor(starPi, starSi + 1, starPi, starSi + 1), true;
  }

  /** The matcher, with its turns and backtracks counted. */
  method Search(pattern: string, s: string) returns (ok: bool, ghost steps: nat, ghost backtracks: nat)
    ensures ok <==> Matches(pattern, s)
    ensures Paid(steps, backtracks, |pattern|, |pattern| + 1) && backtracks <= |s|
  {
    var c := Cursor(0, 0, -1, -1);
    steps, backtracks := 0, 0;
    assert pattern[0..] == pattern && s[0..] == s;
    while c.si < |s|
      invariant At(pattern, s, c)
      invariant Paid(steps, backtracks, |pattern|, c.pi) && backtracks <= Reached(c)
      decreases |s| - Reached(c), |pattern| - c.pi
    {
      ghost var pi := c.pi;
      var stuck;
      ghost var back;
      stuck, c, back := Turn(pattern, s, c);
      if stuck {
        return false, steps + 1, backtracks;
      }
      if back {
        PaidBacktrack(steps, backtracks, |pattern|, pi, c.pi);
        backtracks := backtracks + 1;
      }
      steps := steps + 1;
    }
    Exhausted(pattern, s, c.pi, c.starPi, c.starSi);
    ghost var more;
    ok, more := OnlyStars(pattern, c.pi);
    steps := steps + more;
  }

  /** The matcher answers for the meaning of the pattern within (|s| + 1) * (|pattern| + 1) turns. */
  method Match(pattern: string, s: string) returns (ok: bool, ghost steps: nat)
    ensures ok <==> Matches(pattern, s)
    ensures steps <= (|s| + 1) * (|pattern| + 1)
  {
    ghost var backtracks;
    ok, steps, backtracks := Search(pattern, s);
    PaidInAll(steps, backtracks, |s|, |pattern|);
  }
}
