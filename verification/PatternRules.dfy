/**
  Which exclusion lists are accepted, told without the parser's own checks
  (agent/src/backupExclusions.ts:3-45).
 */
module PatternRules {
  import opened Text
  import opened Exclusions

  predicate Control(c: char) { c as int <= 31 || c as int == 127 }

  predicate Usable(letter: char -> bool, c: char) { letter(c) || c in {'.', '_', ' ', '*', '?', '+', '-'} }

  predicate StarsAt(part: string, i: int) { 0 <= i <= |part| - 2 && part[i..i + 2] == "**" }

  /** A relative pattern of at most 512 code units, no component of which is empty or dotted,
      in which two stars in a row are a component of their own, and in which after a second
      such component there is nothing else. */
  ghost predicate Describes(letter: char -> bool, pattern: string) {
    var parts := Split(pattern, '/');
    && Units(pattern) <= 512 && (forall c <- pattern :: c == '/' || Usable(letter, c))
    && "" !in parts && "." !in parts && ".." !in parts
    && (forall part <- parts, i :: StarsAt(part, i) ==> part == "**")
    && (forall j, k, m :: 0 <= j < k < m < |parts| && parts[j] == "**" && parts[k] == "**" ==> parts[m] == "**")
  }

  lemma {:induction false} CharsOfParts(s: string, good: char -> bool)
    ensures (forall part <- Split(s, '/'), c <- part :: good(c)) <==> forall c <- s :: c == '/' || good(c)
  {
    if s != "" {
      var rest := Split(s[1..], '/');
      CharsOfParts(s[1..], good);
      assert s == [s[0]] + s[1..];
      if s[0] == '/' {
        assert Split(s, '/') == [""] + rest;
        assert forall part <- rest :: part in Split(s, '/');
      } else {
        assert Split(s, '/') == [[s[0]] + rest[0]] + rest[1..];
        assert rest == [rest[0]] + rest[1..];
        assert Split(s, '/')[0] in Split(s, '/') && s[0] in Split(s, '/')[0];
        assert forall c <- rest[0] :: c in Split(s, '/')[0];
        assert forall part <- rest[1..] :: part in Split(s, '/');
      }
    }
  }

  lemma AlphabetIsUsable(letter: char -> bool, c: char)
    ensures Usable(letter, c) <==> letter(c) || c in "._ *?+-"
  {
    assert c in "._ *?+-" <==> c in {'.', '_', ' ', '*', '?', '+', '-'};
  }

  lemma DoubleStarInside(part: string)
    ensures HasDoubleStar(part) <==> exists i :: StarsAt(part, i)
  {
    forall i | 0 <= i <= |part| - 2 ensures StarsAt(part, i) <==> part[i] == '*' && part[i + 1] == '*' {
      assert part[i..i + 2] == [part[i], part[i + 1]];
    }
    if i :| 0 <= i < |part| - 1 && part[i] == '*' && part[i + 1] == '*' {
      assert StarsAt(part, i);
    }
    if i :| StarsAt(part, i) {
      assert part[i] == '*' && part[i + 1] == '*';
    }
  }

  /** Good parts are those without anything the source refuses. */
  lemma GoodPartIs(letter: char -> bool, part: string)
    ensures GoodPart(letter, part)
       <==> && part != "" && part != "." && part != ".." && (forall c <- part :: Usable(letter, c))
            && forall i :: StarsAt(part, i) ==> part == "**"
  {
    DoubleStarInside(part);
    forall c <- part ensures Usable(letter, c) <==> letter(c) || c in "._ *?+-" {
      AlphabetIsUsable(letter, c);
    }
    hide Usable, HasDoubleStar, StarsAt;
  }

  /** After a second `**` only others follow, exactly when without the trailing ones there is
      at most one. */
  lemma OneDoubleStar(parts: seq<string>)
    ensures DoubleStars(WithoutTail(parts)) <= 1
       <==> forall j, k, m :: 0 <= j < k < m < |parts| && parts[j] == "**" && parts[k] == "**" ==> parts[m] == "**"
  {
    var short := WithoutTail(parts);
    AtMostOneDoubleStar(short);
    hide WithoutTail, DoubleStars;
    assert forall i :: 0 <= i < |short| ==> short[i] == parts[i];
    if j, k :| 0 <= j < k < |short| && short[j] == "**" && short[k] == "**" {
      assert short[|short| - 1] != "**" && k < |short| - 1;
      assert parts[j] == "**" && parts[k] == "**" && parts[|short| - 1] != "**";
    }
  }

  lemma {:induction false} GoodIsDescribed(letter: char -> bool, pattern: string)
    ensures GoodPattern(letter, pattern) <==> Describes(letter, pattern)
  {
    var parts := Split(pattern, '/');
    CharsOfParts(pattern, c => Usable(letter, c));
    OneDoubleStar(parts);
    forall part <- parts
      ensures GoodPart(letter, part)
         <==> && part != "" && part != "." && part != ".." && (forall c <- part :: Usable(letter, c))
              && forall i :: StarsAt(part, i) ==> part == "**"
    {
      GoodPartIs(letter, part);
    }
    assert pattern == "" ==> parts == [""] && "" in parts;
    hide GoodPart, Usable, Split, WithoutTail, DoubleStars, Units;
  }

  /** A list is accepted exactly when it has at most a hundred items, at most 16384 code units
      once normalized, no control character, and describes a pattern at each item. */
  lemma AcceptedExactly(letter: char -> bool, items: seq<string>)
    ensures Parse(letter, items).Patterns?
       <==> && |items| <= 100 && UnitsUpTo(items, |items|) <= 16384
            && forall item <- items :: (forall c <- item :: !Control(c)) && Describes(letter, Normal(item))
  {
    ParsedExactly(letter, items);
    forall item <- items
      ensures UnsafeControls(item) <==> exists c <- item :: Control(c)
      ensures GoodPattern(letter, Normal(item)) <==> Describes(letter, Normal(item))
    {
      GoodIsDescribed(letter, Normal(item));
    }
    hide Parse, UnsafeControls, GoodPattern, Describes, Normal, Control, UnitsUpTo;
  }
}
