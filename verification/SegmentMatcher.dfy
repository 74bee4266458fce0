/**
  The greedy matcher for one path component (agent/src/backupExclusions.ts:47-68)
  against the declarative relation. Strings are sequences of code points, as the
  source's spread of a string is.
 */
module SegmentMatcher {
  import opened Wildcards

  predicate IsStar(token: char) { token == '*' }

  predicate OneChar(token: char, c: char) { token == '?' || token == c }

  /** `*` is any run of characters, `?` any one, every other token itself. */
  ghost predicate Glob(pattern: string, value: string) {
    Matches(IsStar, OneChar, pattern, value)
  }

  /** What the scan computes from one loop state on. `star` is the index of the last
      star taken, or -1, and `retry` the position its run last ended at. */
  function Greedy(tokens: string, chars: string, p: nat, v: nat, star: int, retry: nat): bool
    requires p <= |tokens| && retry <= v <= |chars| && -1 <= star < p
    decreases |chars| - retry, |chars| - v, |tokens| - p
  {
    if v == |chars| then forall i :: p <= i < |tokens| ==> tokens[i] == '*'
    else if p < |tokens| && (tokens[p] == '?' || tokens[p] == chars[v]) then
      Greedy(tokens, chars, p + 1, v + 1, star, retry)
    else if p < |tokens| && tokens[p] == '*' then
      Greedy(tokens, chars, p + 1, v, p, v)
    else if star >= 0 then
      Greedy(tokens, chars, star + 1, retry + 1, star, retry + 1)
    else false
  }

  function Accepts(pattern: string, value: string): bool {
    Greedy(pattern, value, 0, 0, -1, 0)
  }

  /** How many turns the loop takes from one state on. */
  ghost function Turns(tokens: string, chars: string, p: nat, v: nat, star: int, retry: nat): nat
    requires p <= |tokens| && retry <= v <= |chars| && -1 <= star < p
    decreases |chars| - retry, |chars| - v, |tokens| - p
  {
    if v == |chars| then 0
    else if p < |tokens| && (tokens[p] == '?' || tokens[p] == chars[v]) then
      1 + Turns(tokens, chars, p + 1, v + 1, star, retry)
    else if p < |tokens| && tokens[p] == '*' then
      1 + Turns(tokens, chars, p + 1, v, p, v)
    else if star >= 0 then
      1 + Turns(tokens, chars, star + 1, retry + 1, star, retry + 1)
    else 0
  }

  /** The loop as written. `turns` counts its iterations: quadratic, so no pattern can
      make the scan backtrack exponentially. */
  method SegmentMatches(pattern: string, value: string) returns (matched: bool, ghost turns: nat)
    ensures matched == Accepts(pattern, value)
    ensures matched ==> Glob(pattern, value)
    ensures '*' !in value ==> (matched <==> Glob(pattern, value))
    ensures turns <= (|value| + 1) * (|pattern| + |value| + 1)
  {
    var p, v, star, retry := 0, 0, -1, 0;
    turns := 0;
    while v < |value|
      invariant 0 <= p <= |pattern| && 0 <= retry <= v <= |value| && -1 <= star < p
      invariant Greedy(pattern, value, p, v, star, retry) == Accepts(pattern, value)
      invariant turns + Turns(pattern, value, p, v, star, retry) == Turns(pattern, value, 0, 0, -1, 0)
      decreases |value| - retry, |value| - v, |pattern| - p
    {
      if p < |pattern| && (pattern[p] == '?' || pattern[p] == value[v]) {
        p, v := p + 1, v + 1;
      } else if p < |pattern| && pattern[p] == '*' {
        star, p := p, p + 1;
        retry := v;
      } else if star >= 0 {
        retry := retry + 1;
        p, v := star + 1, retry;
      } else {
        Meaning(pattern, value);
        return false, turns;
      }
      turns := turns + 1;
    }
    ghost var from := p;
    while p < |pattern| && pattern[p] == '*'
      invariant from <= p <= |pattern|
      invariant forall i :: from <= i < p ==> pattern[i] == '*'
    {
      p := p + 1;
    }
    Meaning(pattern, value);
    return p == |pattern|, turns;
  }

  lemma Meaning(pattern: string, value: string)
    ensures Accepts(pattern, value) ==> Glob(pattern, value)
    ensures '*' !in value ==> (Accepts(pattern, value) <==> Glob(pattern, value))
    ensures Turns(pattern, value, 0, 0, -1, 0) <= (|value| + 1) * (|pattern| + |value| + 1)
  {
    AcceptsIsSound(pattern, value);
    if '*' !in value {
      AcceptsIsComplete(pattern, value);
    }
    TurnsAreQuadratic(pattern, value, 0, 0, -1, 0, |pattern| + |value| + 1);
    RoundsAre(|value| + 1, |pattern| + |value| + 1);
  }

  ghost function Rounds(n: nat, size: nat): nat { if n == 0 then 0 else Rounds(n - 1, size) + size }

  lemma {:induction false} RoundsGrow(a: nat, b: nat, size: nat)
    requires a <= b
    ensures Rounds(a, size) <= Rounds(b, size)
  {
    if a < b {
      RoundsGrow(a, b - 1, size);
    }
  }

  lemma {:induction false} RoundsAre(n: nat, size: nat)
    ensures Rounds(n, size) == n * size
  {
    if n > 0 {
      RoundsAre(n - 1, size);
      assert n * size == (n - 1) * size + size;
    }
  }

  /** A turn either moves forward, or moves the end of the last star's run, and that
      end only ever grows. */
  lemma {:induction false} TurnsAreQuadratic(
    tokens: string, chars: string, p: nat, v: nat, star: int, retry: nat, round: nat)
    requires p <= |tokens| && retry <= v <= |chars| && -1 <= star < p
    requires round == |tokens| + |chars| + 1
    ensures Turns(tokens, chars, p, v, star, retry) + p + v <= Rounds(|chars| - retry + 1, round)
    decreases |chars| - retry, |chars| - v, |tokens| - p
  {
    if v == |chars| {
    } else if p < |tokens| && (tokens[p] == '?' || tokens[p] == chars[v]) {
      TurnsAreQuadratic(tokens, chars, p + 1, v + 1, star, retry, round);
    } else if p < |tokens| && tokens[p] == '*' {
      TurnsAreQuadratic(tokens, chars, p + 1, v, p, v, round);
      RoundsGrow(|chars| - v + 1, |chars| - retry + 1, round);
    } else if star >= 0 {
      TurnsAreQuadratic(tokens, chars, star + 1, retry + 1, star, retry + 1, round);
    }
  }

  // ---- every accepted value matches ----

  /** The run a star stands for may always take one more character. */
  lemma LongerRun(tokens: string, chars: string, star: nat, retry: nat)
    requires star < |tokens| && retry < |chars| && tokens[star] == '*'
    requires Glob(tokens[..star + 1], chars[..retry])
    ensures Glob(tokens[..star + 1], chars[..retry + 1])
  {
    assert tokens[..star + 1] == tokens[..star] + ['*'];
    var cut := Cut(IsStar, OneChar, tokens[..star], ['*'], chars[..retry]);
    StarAlone(IsStar, OneChar, '*', chars[cut..retry + 1]);
    Append(IsStar, OneChar, tokens[..star], ['*'], chars[..retry][..cut], chars[cut..retry + 1]);
    assert chars[..retry][..cut] + chars[cut..retry + 1] == chars[..retry + 1];
  }

  lemma {:induction false} GreedySound(tokens: string, chars: string, p: nat, v: nat, star: int, retry: nat)
    requires p <= |tokens| && retry <= v <= |chars| && -1 <= star < p
    requires Glob(tokens[..p], chars[..v])
    requires star >= 0 ==> tokens[star] == '*' && Glob(tokens[..star + 1], chars[..retry])
    requires Greedy(tokens, chars, p, v, star, retry)
    ensures Glob(tokens, chars)
    decreases |chars| - retry, |chars| - v, |tokens| - p
  {
    if v == |chars| {
      MatchesEmpty<char, char>(IsStar, OneChar, tokens[p..]);
      Append(IsStar, OneChar, tokens[..p], tokens[p..], chars[..v], []);
      assert tokens[..p] + tokens[p..] == tokens && chars[..v] + [] == chars;
    } else if p < |tokens| && (tokens[p] == '?' || tokens[p] == chars[v]) {
      if tokens[p] == '*' {
        StarAlone(IsStar, OneChar, '*', [chars[v]]);
      } else {
        OneAlone(IsStar, OneChar, tokens[p], [chars[v]]);
      }
      Append(IsStar, OneChar, tokens[..p], [tokens[p]], chars[..v], [chars[v]]);
      assert tokens[..p + 1] == tokens[..p] + [tokens[p]] && chars[..v + 1] == chars[..v] + [chars[v]];
      GreedySound(tokens, chars, p + 1, v + 1, star, retry);
    } else if p < |tokens| && tokens[p] == '*' {
      StarAlone<char, char>(IsStar, OneChar, '*', []);
      Append(IsStar, OneChar, tokens[..p], ['*'], chars[..v], []);
      assert tokens[..p + 1] == tokens[..p] + ['*'] && chars[..v] + [] == chars[..v];
      GreedySound(tokens, chars, p + 1, v, p, v);
    } else {
      LongerRun(tokens, chars, star, retry);
      GreedySound(tokens, chars, star + 1, retry + 1, star, retry + 1);
    }
  }

  /** Whatever the value, an accepted value is one the pattern describes. */
  lemma AcceptsIsSound(pattern: string, value: string)
    ensures Accepts(pattern, value) ==> Glob(pattern, value)
  {
    assert pattern[..0] == [] && value[..0] == [];
    if Accepts(pattern, value) {
      GreedySound(pattern, value, 0, 0, -1, 0);
    }
  }

  // ---- every matching value without a star is accepted ----

  /** A match is still within reach: the present alignment completes, or a later end
      of the last star's run does. */
  ghost predicate Live(tokens: string, chars: string, p: nat, v: nat, star: int, retry: nat)
    requires p <= |tokens| && v <= |chars| && -1 <= star < p
  {
    || Glob(tokens[p..], chars[v..])
    || (star >= 0 && exists k :: retry < k <= |chars| && Glob(tokens[star + 1..], chars[k..]))
  }

  /** Retrying the last star alone is enough: a later end of an earlier star's run
      is also a later start for everything behind the newer star. */
  lemma EarlierStarIsCovered(tokens: string, chars: string, p: nat, v: nat, star: nat, k: nat, retry: nat)
    requires star < p < |tokens| && tokens[p] == '*' && retry < k <= |chars|
    requires forall i :: star < i < p ==> tokens[i] != '*'
    requires v == retry + (p - star - 1) <= |chars|
    requires Glob(tokens[star + 1..], chars[k..])
    ensures exists m :: v <= m <= |chars| && Glob(tokens[p + 1..], chars[m..])
  {
    var segment := tokens[star + 1..p];
    assert tokens[star + 1..] == segment + tokens[p..];
    var cut := Cut(IsStar, OneChar, segment, tokens[p..], chars[k..]);
    PlainLength(IsStar, OneChar, segment, chars[k..][..cut]);
    var rest := chars[k..][cut..];
    assert tokens[p..][1..] == tokens[p + 1..];
    var j :| 0 <= j <= |rest| && Glob(tokens[p + 1..], rest[j..]);
    assert rest[j..] == chars[k + cut + j..];
  }

  lemma RunStartsHere(tokens: string, chars: string, p: nat, v: nat)
    requires p < |tokens| && v <= |chars| && tokens[p] == '*'
    requires Glob(tokens[p..], chars[v..])
    ensures exists m :: v <= m <= |chars| && Glob(tokens[p + 1..], chars[m..])
  {
    assert tokens[p..][1..] == tokens[p + 1..];
    var j :| 0 <= j <= |chars[v..]| && Glob(tokens[p + 1..], chars[v..][j..]);
    assert chars[v..][j..] == chars[v + j..];
  }

  /** At the end of the value no later end of the last run can help: the tokens taken
      since would need more characters than are left. */
  lemma NoLaterEnd(tokens: string, chars: string, p: nat, star: nat, k: nat, retry: nat)
    requires star < p <= |tokens| && retry < k <= |chars|
    requires forall i :: star < i < p ==> tokens[i] != '*'
    requires |chars| == retry + (p - star - 1)
    ensures !Glob(tokens[star + 1..], chars[k..])
  {
    if Glob(tokens[star + 1..], chars[k..]) {
      var segment := tokens[star + 1..p];
      assert tokens[star + 1..] == segment + tokens[p..];
      var cut := Cut(IsStar, OneChar, segment, tokens[p..], chars[k..]);
      PlainLength(IsStar, OneChar, segment, chars[k..][..cut]);
      assert false;
    }
  }

  lemma OnlyStarsLeft(tokens: string, chars: string, p: nat, star: int, retry: nat)
    requires p <= |tokens| && retry <= |chars| && -1 <= star < p
    requires forall i :: star < i < p ==> tokens[i] != '*'
    requires star >= 0 ==> |chars| == retry + (p - star - 1)
    requires Live(tokens, chars, p, |chars|, star, retry)
    ensures forall i :: p <= i < |tokens| ==> tokens[i] == '*'
  {
    var rest := tokens[p..];
    if !Glob(rest, chars[|chars|..]) {
      var k :| retry < k <= |chars| && Glob(tokens[star + 1..], chars[k..]);
      NoLaterEnd(tokens, chars, p, star, k, retry);
    }
    MatchesEmpty<char, char>(IsStar, OneChar, rest);
    assert forall i :: p <= i < |tokens| ==> tokens[i] == rest[i - p] && rest[i - p] in rest;
  }

  lemma LiveAfterOne(tokens: string, chars: string, p: nat, v: nat, star: int, retry: nat)
    requires p < |tokens| && retry <= v < |chars| && -1 <= star < p
    requires tokens[p] != '*' && (tokens[p] == '?' || tokens[p] == chars[v])
    requires Live(tokens, chars, p, v, star, retry)
    ensures Live(tokens, chars, p + 1, v + 1, star, retry)
  {
    assert tokens[p..][1..] == tokens[p + 1..] && chars[v..][1..] == chars[v + 1..];
  }

  lemma LiveAfterStar(tokens: string, chars: string, p: nat, v: nat, star: int, retry: nat)
    requires p < |tokens| && retry <= v <= |chars| && -1 <= star < p && tokens[p] == '*'
    requires forall i :: star < i < p ==> tokens[i] != '*'
    requires star >= 0 ==> v == retry + (p - star - 1)
    requires Live(tokens, chars, p, v, star, retry)
    ensures Live(tokens, chars, p + 1, v, p, v)
  {
    if Glob(tokens[p..], chars[v..]) {
      RunStartsHere(tokens, chars, p, v);
    } else {
      var k :| retry < k <= |chars| && Glob(tokens[star + 1..], chars[k..]);
      EarlierStarIsCovered(tokens, chars, p, v, star, k, retry);
    }
  }

  lemma LiveAfterFallback(tokens: string, chars: string, p: nat, v: nat, star: int, retry: nat)
    requires p <= |tokens| && retry <= v < |chars| && -1 <= star < p
    requires p < |tokens| ==> tokens[p] != '?' && tokens[p] != chars[v] && tokens[p] != '*'
    requires Live(tokens, chars, p, v, star, retry)
    ensures star >= 0 && Live(tokens, chars, star + 1, retry + 1, star, retry + 1)
  {
    assert !Glob(tokens[p..], chars[v..]);
  }

  lemma {:induction false} GreedyComplete(tokens: string, chars: string, p: nat, v: nat, star: int, retry: nat)
    requires p <= |tokens| && retry <= v <= |chars| && -1 <= star < p
    requires '*' !in chars || '*' !in tokens
    requires forall i :: star < i < p ==> tokens[i] != '*'
    requires star >= 0 ==> v == retry + (p - star - 1)
    requires Live(tokens, chars, p, v, star, retry)
    ensures Greedy(tokens, chars, p, v, star, retry)
    decreases |chars| - retry, |chars| - v, |tokens| - p
  {
    hide Live;
    if v == |chars| {
      OnlyStarsLeft(tokens, chars, p, star, retry);
    } else if p < |tokens| && (tokens[p] == '?' || tokens[p] == chars[v]) {
      assert tokens[p] in tokens && chars[v] in chars;
      LiveAfterOne(tokens, chars, p, v, star, retry);
      GreedyComplete(tokens, chars, p + 1, v + 1, star, retry);
    } else if p < |tokens| && tokens[p] == '*' {
      LiveAfterStar(tokens, chars, p, v, star, retry);
      GreedyComplete(tokens, chars, p + 1, v, p, v);
    } else {
      LiveAfterFallback(tokens, chars, p, v, star, retry);
      GreedyComplete(tokens, chars, star + 1, retry + 1, star, retry + 1);
    }
  }

  /** Nor is one missed by a pattern without a star. */
  lemma AcceptsIsComplete(pattern: string, value: string)
    requires '*' !in value || '*' !in pattern
    ensures Glob(pattern, value) ==> Accepts(pattern, value)
  {
    if Glob(pattern, value) {
      assert pattern[0..] == pattern && value[0..] == value;
      GreedyComplete(pattern, value, 0, 0, -1, 0);
    }
  }

  // ---- and no value with one is safe ----

  lemma {:induction false} QuestionMarks(n: nat, rest: string, value: string, from: nat)
    requires from <= n <= |value|
    ensures |seq(n, _ => '?') + rest| == n + |rest|
    ensures Greedy(seq(n, _ => '?') + rest, value, from, from, -1, 0)
         == Greedy(seq(n, _ => '?') + rest, value, n, n, -1, 0)
    decreases n - from
  {
    if from < n {
      QuestionMarks(n, rest, value, from + 1);
    }
  }

  lemma {:induction false} QuestionMarksMatch(n: nat, value: string)
    requires |value| == n
    ensures Glob(seq(n, _ => '?'), value)
  {
    if n > 0 {
      QuestionMarksMatch(n - 1, value[1..]);
      assert seq(n, _ => '?')[1..] == seq(n - 1, _ => '?');
    }
  }

  /** Question marks up to the star at i, and a star for what follows. */
  function Missing(value: string, i: nat): string
    requires i < |value|
  {
    seq(i, _ => '?') + if i + 1 < |value| then "*" else "*?"
  }

  /** A pattern on which a value holding a star is decided wrongly: the comparison of
      literals comes first, so a star in the value uses up the star in the pattern. */
  lemma StarInValueIsMissed(value: string, i: nat) returns (pattern: string)
    requires i < |value| && value[i] == '*'
    ensures pattern == Missing(value, i)
    ensures Glob(pattern, value) && !Accepts(pattern, value)
  {
    var marks := seq(i, _ => '?');
    var rest := if i + 1 < |value| then "*" else "*?";
    pattern := Missing(value, i);
    assert pattern == marks + rest;
    QuestionMarksMatch(i, value[..i]);
    if i + 1 < |value| {
      StarAlone(IsStar, OneChar, '*', value[i..]);
    } else {
      OneAlone(IsStar, OneChar, '?', ['*']);
      StarAlone<char, char>(IsStar, OneChar, '*', []);
      Append(IsStar, OneChar, "*", "?", [], ['*']);
      var none: string := [];
      assert none + ['*'] == value[i..] && "*" + "?" == "*?";
    }
    Append(IsStar, OneChar, marks, rest, value[..i], value[i..]);
    assert value[..i] + value[i..] == value;
    QuestionMarks(i, rest, value, 0);
    assert pattern[i] == '*' && value[i] == '*' && i < |pattern|;
    assert Greedy(pattern, value, i, i, -1, 0) == Greedy(pattern, value, i + 1, i + 1, -1, 0);
    if i + 1 == |value| {
      assert pattern[i + 1] == '?';
    } else {
      assert |pattern| == i + 1;
    }
  }

  /** The matcher decides every pattern correctly on exactly the values without a star. */
  lemma ExactOnStarFreeValues(value: string)
    ensures (forall pattern :: Accepts(pattern, value) <==> Glob(pattern, value)) <==> '*' !in value
  {
    if '*' in value {
      var i :| 0 <= i < |value| && value[i] == '*';
      var pattern := StarInValueIsMissed(value, i);
    } else {
      forall pattern ensures Accepts(pattern, value) <==> Glob(pattern, value) {
        AcceptsIsSound(pattern, value);
        AcceptsIsComplete(pattern, value);
      }
    }
  }

  /** The shortest instance: `*` does not exclude a file called `*a`. */
  lemma StarPatternMissesStarFile()
    ensures Glob("*", "*a") && !Accepts("*", "*a")
  {
    StarAlone(IsStar, OneChar, '*', "*a");
  }
}
