/**
  The declarative wildcard relation. One definition serves both levels of an
  exclusion pattern: characters of one path component, where `*` is any run and
  `?` any one character, and components of a path, where `**` is any run.
 */
module Wildcards {

  /** Tokens match items when every star token stands for some run of items and
      every other token for one item that `one` relates to it. */
  ghost predicate Matches<P(!new), V(!new)>(
    star: P -> bool, one: (P, V) -> bool, tokens: seq<P>, items: seq<V>)
  {
    if tokens == [] then items == []
    else if star(tokens[0]) then
      exists k :: 0 <= k <= |items| && Matches(star, one, tokens[1..], items[k..])
    else
      items != [] && one(tokens[0], items[0]) && Matches(star, one, tokens[1..], items[1..])
  }

  lemma {:induction false} Append<P(!new), V(!new)>(
    star: P -> bool, one: (P, V) -> bool, t: seq<P>, u: seq<P>, x: seq<V>, y: seq<V>)
    requires Matches(star, one, t, x) && Matches(star, one, u, y)
    ensures Matches(star, one, t + u, x + y)
    decreases |t|
  {
    if t == [] {
      assert t + u == u && x + y == y;
    } else {
      assert (t + u)[1..] == t[1..] + u;
      var k := 1;
      if star(t[0]) {
        k :| 0 <= k <= |x| && Matches(star, one, t[1..], x[k..]);
      }
      Append(star, one, t[1..], u, x[k..], y);
      assert (x + y)[k..] == x[k..] + y;
    }
  }

  lemma {:induction false} Cut<P(!new), V(!new)>(
    star: P -> bool, one: (P, V) -> bool, t: seq<P>, u: seq<P>, x: seq<V>) returns (cut: nat)
    requires Matches(star, one, t + u, x)
    ensures cut <= |x|
    ensures Matches(star, one, t, x[..cut]) && Matches(star, one, u, x[cut..])
    decreases |t|
  {
    if t == [] {
      assert t + u == u && x[0..] == x;
      return 0;
    }
    var skip := 1;
    assert (t + u)[1..] == t[1..] + u;
    if star(t[0]) {
      skip :| 0 <= skip <= |x| && Matches(star, one, (t + u)[1..], x[skip..]);
    }
    var rest := Cut(star, one, t[1..], u, x[skip..]);
    cut := skip + rest;
    assert x[..cut][skip..] == x[skip..][..rest];
    assert x[cut..] == x[skip..][rest..];
    if !star(t[0]) {
      assert x[..cut][0] == x[0];
    }
  }

  /** Tokens without a star consume exactly one item each. */
  /** Without a star, token by token. */
  lemma {:induction false} PlainPairs<P(!new), V(!new)>(
    star: P -> bool, one: (P, V) -> bool, tokens: seq<P>, items: seq<V>)
    requires forall token <- tokens :: !star(token)
    ensures Matches(star, one, tokens, items)
       <==> |tokens| == |items| && forall i :: 0 <= i < |tokens| ==> one(tokens[i], items[i])
  {
    if tokens != [] {
      assert tokens[0] in tokens && tokens == [tokens[0]] + tokens[1..];
      if items != [] {
        assert items == [items[0]] + items[1..];
        PlainPairs(star, one, tokens[1..], items[1..]);
        assert forall i :: 1 <= i < |tokens| ==> tokens[i] == tokens[1..][i - 1];
        assert forall i :: 1 <= i < |items| ==> items[i] == items[1..][i - 1];
      }
    }
  }

  lemma {:induction false} PlainLength<P(!new), V(!new)>(
    star: P -> bool, one: (P, V) -> bool, t: seq<P>, x: seq<V>)
    requires forall token <- t :: !star(token)
    requires Matches(star, one, t, x)
    ensures |t| == |x|
  {
    if t != [] {
      PlainLength(star, one, t[1..], x[1..]);
    }
  }

  lemma StarAlone<P(!new), V(!new)>(star: P -> bool, one: (P, V) -> bool, token: P, x: seq<V>)
    requires star(token)
    ensures Matches(star, one, [token], x)
  {
    assert x[|x|..] == [] && Matches(star, one, [token][1..], x[|x|..]);
  }

  lemma OneAlone<P(!new), V(!new)>(star: P -> bool, one: (P, V) -> bool, token: P, x: seq<V>)
    requires !star(token)
    ensures Matches(star, one, [token], x) <==> |x| == 1 && one(token, x[0])
  {
    if |x| > 0 {
      assert Matches(star, one, [token][1..], x[1..]) <==> x[1..] == [];
    }
  }

  /** Reading a pattern from its end: the step the state automaton takes. */
  lemma LastToken<P(!new), V(!new)>(
    star: P -> bool, one: (P, V) -> bool, t: seq<P>, last: P, x: seq<V>)
    ensures !star(last) ==>
              (Matches(star, one, t + [last], x) <==>
               x != [] && one(last, x[|x| - 1]) && Matches(star, one, t, x[..|x| - 1]))
    ensures star(last) ==>
              (Matches(star, one, t + [last], x) <==>
               exists k :: 0 <= k <= |x| && Matches(star, one, t, x[..k]))
  {
    if Matches(star, one, t + [last], x) {
      var cut := Cut(star, one, t, [last], x);
      if !star(last) {
        OneAlone(star, one, last, x[cut..]);
      }
    }
    if star(last) {
      forall k | 0 <= k <= |x| && Matches(star, one, t, x[..k])
        ensures Matches(star, one, t + [last], x)
      {
        StarAlone(star, one, last, x[k..]);
        Append(star, one, t, [last], x[..k], x[k..]);
        assert x[..k] + x[k..] == x;
      }
    } else if x != [] && one(last, x[|x| - 1]) && Matches(star, one, t, x[..|x| - 1]) {
      OneAlone(star, one, last, x[|x| - 1..]);
      Append(star, one, t, [last], x[..|x| - 1], x[|x| - 1..]);
      assert x[..|x| - 1] + x[|x| - 1..] == x;
    }
  }

  /** A pattern made of stars alone matches the empty sequence, and only such a pattern does. */
  lemma {:induction false} MatchesEmpty<P(!new), V(!new)>(star: P -> bool, one: (P, V) -> bool, t: seq<P>)
    ensures Matches(star, one, t, []) <==> forall token <- t :: star(token)
  {
    if t != [] {
      MatchesEmpty(star, one, t[1..]);
      var none: seq<V> := [];
      assert none[0..] == none;
    }
  }

  /** Widening the single-item relation keeps every match. */
  lemma {:induction false} Widen<P(!new), V(!new)>(
    star: P -> bool, narrow: (P, V) -> bool, wide: (P, V) -> bool, t: seq<P>, x: seq<V>)
    requires forall token <- t, item <- x :: !star(token) && narrow(token, item) ==> wide(token, item)
    requires Matches(star, narrow, t, x)
    ensures Matches(star, wide, t, x)
    decreases |t|
  {
    if t != [] {
      var k := 1;
      if star(t[0]) {
        k :| 0 <= k <= |x| && Matches(star, narrow, t[1..], x[k..]);
      }
      Widen(star, narrow, wide, t[1..], x[k..]);
    }
  }
}
