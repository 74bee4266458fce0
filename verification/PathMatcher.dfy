/**
  The set-of-states matcher for whole paths (agent/src/backupExclusions.ts:70-91):
  `**` stands for zero or more components, and a matched ancestor prunes its subtree.
 */
module PathMatcher {
  import opened Text
  import opened Wildcards
  import opened SegmentMatcher

  predicate IsDoubleStar(token: string) { token == "**" }

  /** A component as the scan decides it, and as the pattern describes it. */
  predicate OneAccepted(token: string, part: string) { token != "" && Accepts(token, part) }

  ghost predicate OneDescribed(token: string, part: string) { token != "" && Glob(token, part) }

  ghost predicate Accepted(tokens: seq<string>, parts: seq<string>) {
    Matches(IsDoubleStar, OneAccepted, tokens, parts)
  }

  ghost predicate Described(tokens: seq<string>, parts: seq<string>) {
    Matches(IsDoubleStar, OneDescribed, tokens, parts)
  }

  /** Some non-empty prefix of the path's components, the path itself or an ancestor,
      is accepted. */
  ghost predicate Prunes(tokens: seq<string>, parts: seq<string>) {
    exists k :: 1 <= k <= |parts| && Accepted(tokens, parts[..k])
  }

  ghost predicate PruneDescribed(tokens: seq<string>, parts: seq<string>) {
    exists k :: 1 <= k <= |parts| && Described(tokens, parts[..k])
  }

  predicate StarAt(tokens: seq<string>, j: nat) { j < |tokens| && tokens[j] == "**" }

  /** State j after some components: the tokens before j have consumed them, where a
      `**` at j may already have consumed some itself. */
  ghost predicate Reached(tokens: seq<string>, j: nat, parts: seq<string>)
    requires j <= |tokens|
  {
    Accepted(tokens[..if StarAt(tokens, j) then j + 1 else j], parts)
  }

  lemma ReachedInitially(tokens: seq<string>, j: nat)
    requires j <= |tokens|
    ensures Reached(tokens, j, []) <==> j == 0 || (StarAt(tokens, j - 1) && Reached(tokens, j - 1, []))
  {
    var here := tokens[..if StarAt(tokens, j) then j + 1 else j];
    MatchesEmpty<string, string>(IsDoubleStar, OneAccepted, here);
    if j > 0 {
      var before := tokens[..if StarAt(tokens, j - 1) then j else j - 1];
      MatchesEmpty<string, string>(IsDoubleStar, OneAccepted, before);
      assert tokens[j - 1] in here;
      assert forall token <- before :: token in here;
      assert forall i :: 0 <= i < |here| ==> here[i] == tokens[i];
      assert forall i :: 0 <= i < j - 1 ==> tokens[i] == before[i] && before[i] in before;
    } else {
      assert forall token <- here :: token == tokens[0];
    }
  }

  /** One more component: a `**` absorbs it, a plain token accepts it, or a `**` just
      passed stands for nothing. */
  lemma ReachedNext(tokens: seq<string>, j: nat, parts: seq<string>, part: string)
    requires j <= |tokens|
    ensures Reached(tokens, j, parts + [part]) <==>
              || (StarAt(tokens, j) && Reached(tokens, j, parts))
              || (j > 0 && !StarAt(tokens, j - 1) && OneAccepted(tokens[j - 1], part) && Reached(tokens, j - 1, parts))
              || (j > 0 && StarAt(tokens, j - 1) && Reached(tokens, j - 1, parts + [part]))
  {
    var longer := parts + [part];
    if StarAt(tokens, j) {
      AbsorbOne(tokens, j, parts, part);
    }
    if j == 0 {
      assert tokens[..0] == [];
    } else {
      assert tokens[..j] == tokens[..j - 1] + [tokens[j - 1]];
      LastToken(IsDoubleStar, OneAccepted, tokens[..j - 1], tokens[j - 1], longer);
      assert longer[..|longer| - 1] == parts;
    }
  }

  lemma AbsorbOne(tokens: seq<string>, j: nat, parts: seq<string>, part: string)
    requires StarAt(tokens, j)
    ensures Accepted(tokens[..j + 1], parts + [part]) <==>
              Accepted(tokens[..j + 1], parts) || Accepted(tokens[..j], parts + [part])
  {
    var longer := parts + [part];
    assert tokens[..j + 1] == tokens[..j] + ["**"];
    LastToken(IsDoubleStar, OneAccepted, tokens[..j], "**", longer);
    LastToken(IsDoubleStar, OneAccepted, tokens[..j], "**", parts);
    assert longer[..|longer|] == longer;
    assert forall k :: 0 <= k <= |parts| ==> longer[..k] == parts[..k];
  }

  /** Once no state is left none comes back, so giving up early is sound. */
  lemma {:induction false} NoStateStays(tokens: seq<string>, parts: seq<string>, more: seq<string>, j: nat)
    requires j <= |tokens|
    requires forall i: nat :: i <= |tokens| ==> !Reached(tokens, i, parts)
    ensures !Reached(tokens, j, parts + more)
    decreases |more|, j
  {
    if more == [] {
      assert parts + more == parts;
    } else {
      var init := more[..|more| - 1];
      assert parts + more == (parts + init) + [more[|more| - 1]];
      ReachedNext(tokens, j, parts + init, more[|more| - 1]);
      NoStateStays(tokens, parts, init, j);
      if j > 0 {
        NoStateStays(tokens, parts, init, j - 1);
        NoStateStays(tokens, parts, more, j - 1);
      }
    }
  }

  ghost predicate IsStateSet(states: set<nat>, tokens: seq<string>, parts: seq<string>) {
    forall j: nat :: j in states <==> j <= |tokens| && Reached(tokens, j, parts)
  }

  /** Passing over `**` tokens: iterating a set that grows meanwhile visits what was
      added, so the result is closed. */
  method Expand(tokens: seq<string>, positions: set<nat>) returns (closed: set<nat>)
    requires forall j <- positions :: j <= |tokens|
    ensures forall j <- closed :: j <= |tokens|
    ensures positions <= closed
    ensures forall j <- closed :: j in positions || (j > 0 && StarAt(tokens, j - 1) && j - 1 in closed)
    ensures forall j <- closed :: StarAt(tokens, j) ==> j + 1 in closed
  {
    closed := positions;
    var todo := positions;
    while todo != {}
      invariant positions <= closed && todo <= closed
      invariant forall j <- closed :: j <= |tokens|
      invariant forall j <- closed :: j in positions || (j > 0 && StarAt(tokens, j - 1) && j - 1 in closed)
      invariant forall j <- closed :: j in todo || (StarAt(tokens, j) ==> j + 1 in closed)
      decreases |tokens| + 1 - |closed|, |todo|
    {
      var index :| index in todo;
      todo := todo - {index};
      if index < |tokens| && tokens[index] == "**" && index + 1 !in closed {
        closed := closed + {index + 1};
        todo := todo + {index + 1};
        SmallNumbers(closed, |tokens|);
      }
    }
  }

  lemma {:induction false} SmallNumbers(numbers: set<nat>, n: nat)
    requires forall j <- numbers :: j <= n
    ensures |numbers| <= n + 1
  {
    if n == 0 {
      assert numbers <= {0};
      assert |numbers - {0}| == 0;
    } else {
      SmallNumbers(numbers - {n}, n - 1);
    }
  }

  lemma {:induction false} ClosedIsInitial(tokens: seq<string>, closed: set<nat>, j: nat)
    requires j <= |tokens| && 0 in closed
    requires forall i <- closed :: i <= |tokens|
    requires forall i <- closed :: i == 0 || (i > 0 && StarAt(tokens, i - 1) && i - 1 in closed)
    requires forall i <- closed :: StarAt(tokens, i) ==> i + 1 in closed
    ensures j in closed <==> Reached(tokens, j, [])
  {
    ReachedInitially(tokens, j);
    if j > 0 {
      ClosedIsInitial(tokens, closed, j - 1);
    }
  }

  lemma {:induction false} ClosedIsNext(
    tokens: seq<string>, parts: seq<string>, part: string, states: set<nat>, next: set<nat>, closed: set<nat>, j: nat)
    requires j <= |tokens| && IsStateSet(states, tokens, parts)
    requires forall i: nat :: i in next <==> Steps(tokens, states, part, i)
    requires next <= closed
    requires forall i <- closed :: i in next || (i > 0 && StarAt(tokens, i - 1) && i - 1 in closed)
    requires forall i <- closed :: StarAt(tokens, i) ==> i + 1 in closed
    ensures j in closed <==> Reached(tokens, j, parts + [part])
  {
    ReachedNext(tokens, j, parts, part);
    if j > 0 {
      ClosedIsNext(tokens, parts, part, states, next, closed, j - 1);
    }
  }

  /** The states one component leads to, before passing over `**`. */
  predicate Steps(tokens: seq<string>, states: set<nat>, part: string, i: nat) {
    || (i in states && StarAt(tokens, i))
    || (0 < i <= |tokens| && i - 1 in states && !StarAt(tokens, i - 1) && OneAccepted(tokens[i - 1], part))
  }

  method Advance(tokens: seq<string>, states: set<nat>, part: string) returns (next: set<nat>)
    requires forall j <- states :: j <= |tokens|
    ensures forall i: nat :: i in next <==> Steps(tokens, states, part, i)
  {
    next := {};
    var todo := states;
    while todo != {}
      invariant todo <= states
      invariant forall i: nat :: i in next <==> Steps(tokens, states - todo, part, i)
      decreases todo
    {
      var index :| index in todo;
      todo := todo - {index};
      if index < |tokens| && tokens[index] == "**" {
        next := next + {index};
      } else if index < |tokens| && tokens[index] != "" {
        var matched, _ := SegmentMatches(tokens[index], part);
        if matched {
          next := next + {index + 1};
        }
      }
    }
    assert states - todo == states;
  }

  method NextStates(tokens: seq<string>, states: set<nat>, part: string, ghost done: seq<string>)
    returns (closed: set<nat>)
    requires IsStateSet(states, tokens, done)
    ensures IsStateSet(closed, tokens, done + [part])
  {
    var next := Advance(tokens, states, part);
    closed := Expand(tokens, next);
    forall j: nat | j <= |tokens| ensures j in closed <==> Reached(tokens, j, done + [part]) {
      ClosedIsNext(tokens, done, part, states, next, closed, j);
    }
  }

  lemma GivingUpIsSound(tokens: seq<string>, parts: seq<string>, n: nat)
    requires n <= |parts| && IsStateSet({}, tokens, parts[..n])
    ensures forall k :: n < k <= |parts| ==> !Accepted(tokens, parts[..k])
  {
    forall i: nat | i <= |tokens| ensures !Reached(tokens, i, parts[..n]) {
      assert i !in {};
    }
    forall k | n < k <= |parts| ensures !Accepted(tokens, parts[..k]) {
      NoStateStays(tokens, parts[..n], parts[n..k], |tokens|);
      assert parts[..n] + parts[n..k] == parts[..k] && tokens[..|tokens|] == tokens;
    }
  }

  /** The scan's verdict is exactly that the path or one of its ancestors matches. */
  method PathMatches(pattern: string, relative: string) returns (matched: bool)
    ensures matched <==> Prunes(Split(pattern, '/'), Split(relative, '/'))
    ensures matched ==> PruneDescribed(Split(pattern, '/'), Split(relative, '/'))
    ensures StarsApart(Split(pattern, '/'), Split(relative, '/')) ==>
              (matched <==> PruneDescribed(Split(pattern, '/'), Split(relative, '/')))
  {
    var tokens, parts := Split(pattern, '/'), Split(relative, '/');
    PrunesIsDescribed(tokens, parts);
    hide PruneDescribed, StarsApart;
    var states := Expand(tokens, {0});
    forall j: nat | j <= |tokens| ensures j in states <==> Reached(tokens, j, []) {
      ClosedIsInitial(tokens, states, j);
    }
    assert parts[..0] == [];
    var n := 0;
    while n < |parts|
      invariant 0 <= n <= |parts|
      invariant IsStateSet(states, tokens, parts[..n])
      invariant forall k :: 1 <= k <= n ==> !Accepted(tokens, parts[..k])
    {
      states := NextStates(tokens, states, parts[n], parts[..n]);
      assert parts[..n + 1] == parts[..n] + [parts[n]] && tokens[..|tokens|] == tokens;
      n := n + 1;
      if |tokens| in states {
        return true;
      }
      if states == {} {
        GivingUpIsSound(tokens, parts, n);
        return false;
      }
    }
    return false;
  }

  // ---- the verdict against what the pattern describes ----

  /** No name holds a star that a star in the pattern would have to match. */
  predicate StarsApart(tokens: seq<string>, parts: seq<string>) {
    (forall part <- parts :: '*' !in part) || (forall token <- tokens :: token == "**" || '*' !in token)
  }

  /** The scan never excludes a path the pattern does not describe; on a path whose
      names hold no star, or by a pattern without one, it excludes all of them. */
  lemma PrunesIsDescribed(tokens: seq<string>, parts: seq<string>)
    ensures Prunes(tokens, parts) ==> PruneDescribed(tokens, parts)
    ensures StarsApart(tokens, parts) ==> (Prunes(tokens, parts) <==> PruneDescribed(tokens, parts))
  {
    forall token, part ensures OneAccepted(token, part) ==> OneDescribed(token, part) {
      AcceptsIsSound(token, part);
    }
    if Prunes(tokens, parts) {
      var k :| 1 <= k <= |parts| && Accepted(tokens, parts[..k]);
      Widen(IsDoubleStar, OneAccepted, OneDescribed, tokens, parts[..k]);
    }
    if StarsApart(tokens, parts) && PruneDescribed(tokens, parts) {
      var k :| 1 <= k <= |parts| && Described(tokens, parts[..k]);
      forall token <- tokens, part <- parts[..k] | !IsDoubleStar(token)
        ensures OneDescribed(token, part) ==> OneAccepted(token, part)
      {
        AcceptsIsComplete(token, part);
      }
      Widen(IsDoubleStar, OneDescribed, OneAccepted, tokens, parts[..k]);
    }
  }

  /** What excludes an entry excludes everything below it. */
  lemma DescendantsArePruned(tokens: seq<string>, parts: seq<string>, below: seq<string>)
    requires Prunes(tokens, parts)
    ensures Prunes(tokens, parts + below)
  {
    var k :| 1 <= k <= |parts| && Accepted(tokens, parts[..k]);
    assert (parts + below)[..k] == parts[..k];
  }
}
