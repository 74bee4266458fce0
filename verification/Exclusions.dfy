/**
  The exclusion contract (agent/src/backupExclusions.ts): what is accepted, what the
  bounded scan excludes, and what the anchored Restic arguments exclude.
  `letter` stands for the Unicode letters and digits of the pattern alphabet.
 */
module Exclusions {
  import opened Text
  import opened Wildcards
  import opened SegmentMatcher
  import opened PathMatcher

  datatype Parsed = Refused | Patterns(list: seq<string>)

  const MAX_PATTERNS := 100
  const MAX_PATTERN := 512
  const MAX_UNITS := 16384

  predicate UnsafeControls(s: string) { exists c <- s :: c as int < 32 || c as int == 127 }

  /** White space as `String.trim` sees it, control characters aside. */
  predicate Blank(c: char) {
    var code := c as int;
    code in {0x20, 0xA0, 0x1680, 0x2028, 0x2029, 0x202F, 0x205F, 0x3000, 0xFEFF} || 0x2000 <= code <= 0x200A
  }

  function TrimStart(s: string): (t: string)
    ensures t == "" || !Blank(t[0])
    ensures |t| <= |s| && t == s[|s| - |t|..] && forall c <- s[..|s| - |t|] :: Blank(c)
  {
    if s != "" && Blank(s[0]) then TrimStart(s[1..]) else s
  }

  function TrimEnd(s: string): (t: string)
    ensures t == "" || !Blank(t[|t| - 1])
    ensures t <= s && forall c <- s[|t|..] :: Blank(c)
  {
    if s != "" && Blank(s[|s| - 1]) then TrimEnd(s[..|s| - 1]) else s
  }

  function StripSlash(s: string): string {
    if s != "" && s[|s| - 1] == '/' then s[..|s| - 1] else s
  }

  function Normal(item: string): string { StripSlash(TrimEnd(TrimStart(item))) }

  /** Trailing `**` components dropped, the first component kept. */
  function WithoutTail(tokens: seq<string>): (short: seq<string>)
    ensures short <= tokens
    ensures tokens != [] ==> short != []
    ensures |short| > 1 ==> short[|short| - 1] != "**"
    ensures forall i :: |short| <= i < |tokens| ==> tokens[i] == "**"
  {
    if |tokens| > 1 && tokens[|tokens| - 1] == "**" then WithoutTail(tokens[..|tokens| - 1]) else tokens
  }

  function DoubleStars(tokens: seq<string>): nat {
    if tokens == [] then 0 else (if tokens[0] == "**" then 1 else 0) + DoubleStars(tokens[1..])
  }

  predicate HasDoubleStar(part: string) { exists i :: 0 <= i < |part| - 1 && part[i] == '*' && part[i + 1] == '*' }

  predicate GoodPart(letter: char -> bool, part: string) {
    && part != "" && part != "." && part != ".."
    && (forall c <- part :: letter(c) || c in "._ *?+-")
    && (HasDoubleStar(part) ==> part == "**")
  }

  predicate GoodPattern(letter: char -> bool, pattern: string) {
    && pattern != "" && Units(pattern) <= MAX_PATTERN
    && DoubleStars(WithoutTail(Split(pattern, '/'))) <= 1
    && forall part <- Split(pattern, '/') :: GoodPart(letter, part)
  }

  function AddNew(list: seq<string>, pattern: string): (longer: seq<string>)
    ensures forall p :: p in longer <==> p in list || p == pattern
  {
    if pattern in list then list else list + [pattern]
  }

  /** The first n items, accepted one by one and listed once each. */
  function ParsedUpTo(letter: char -> bool, items: seq<string>, n: nat): Parsed
    requires n <= |items|
  {
    if n == 0 then Patterns([])
    else
      var before := ParsedUpTo(letter, items, n - 1);
      var pattern := Normal(items[n - 1]);
      if before.Refused? || !Acceptable(letter, items, n - 1) then Refused
      else Patterns(AddNew(before.list, pattern))
  }

  predicate Acceptable(letter: char -> bool, items: seq<string>, n: nat)
    requires n < |items|
  {
    !UnsafeControls(items[n]) && GoodPattern(letter, Normal(items[n])) && UnitsUpTo(items, n + 1) <= MAX_UNITS
  }

  function UnitsUpTo(items: seq<string>, n: nat): nat
    requires n <= |items|
  {
    if n == 0 then 0 else UnitsUpTo(items, n - 1) + Units(Normal(items[n - 1]))
  }

  function Parse(letter: char -> bool, items: seq<string>): Parsed {
    if |items| > MAX_PATTERNS then Refused else ParsedUpTo(letter, items, |items|)
  }

  method DropTail(tokens: seq<string>) returns (short: seq<string>)
    ensures short == WithoutTail(tokens)
  {
    short := tokens;
    while |short| > 1 && short[|short| - 1] == "**"
      invariant WithoutTail(short) == WithoutTail(tokens)
    {
      short := short[..|short| - 1];
    }
  }

  /** Accepts or refuses as a whole; what it returns is in order and without repetition. */
  method ParseBackupExclusions(letter: char -> bool, items: seq<string>) returns (parsed: Parsed)
    ensures parsed == Parse(letter, items)
    ensures parsed.Patterns? ==> forall i, j :: 0 <= i < j < |parsed.list| ==> parsed.list[i] != parsed.list[j]
  {
    hide Normal, Units, GoodPattern, UnsafeControls;
    if |items| > MAX_PATTERNS {
      return Refused;
    }
    var units, n, list: seq<string> := 0, 0, [];
    while n < |items|
      invariant 0 <= n <= |items|
      invariant units == UnitsUpTo(items, n)
      invariant ParsedUpTo(letter, items, n) == Patterns(list)
      invariant forall i, j :: 0 <= i < j < |list| ==> list[i] != list[j]
    {
      var pattern := Normal(items[n]);
      units := units + Units(pattern);
      var good := CheckPattern(letter, pattern);
      n := n + 1;
      if UnsafeControls(items[n - 1]) || units > MAX_UNITS || !good {
        RefusedStays(letter, items, n, |items|);
        return Refused;
      }
      list := AddNew(list, pattern);
    }
    return Patterns(list);
  }

  method CheckPattern(letter: char -> bool, pattern: string) returns (good: bool)
    ensures good == GoodPattern(letter, pattern)
  {
    hide GoodPart, Units, DoubleStars;
    var parts := Split(pattern, '/');
    var effective := DropTail(parts);
    good := pattern != "" && Units(pattern) <= MAX_PATTERN && DoubleStars(effective) <= 1
            && forall part <- parts :: GoodPart(letter, part);
  }

  lemma {:induction false} RefusedStays(letter: char -> bool, items: seq<string>, n: nat, m: nat)
    requires n <= m <= |items| && ParsedUpTo(letter, items, n).Refused?
    ensures ParsedUpTo(letter, items, m).Refused?
    decreases m
  {
    hide Acceptable, Normal;
    if n < m {
      RefusedStays(letter, items, n, m - 1);
    }
  }

  lemma {:induction false} ParsedAreGood(letter: char -> bool, items: seq<string>, n: nat, pattern: string)
    requires n <= |items| && ParsedUpTo(letter, items, n).Patterns?
    requires pattern in ParsedUpTo(letter, items, n).list
    ensures GoodPattern(letter, pattern)
  {
    hide GoodPattern, Normal;
    if pattern != Normal(items[n - 1]) {
      ParsedAreGood(letter, items, n - 1, pattern);
    }
  }

  /** A list is accepted exactly when it is short enough, all of it together is, and each
      item is acceptable once normalized; the result names each normalized item. */
  lemma ParsedExactly(letter: char -> bool, items: seq<string>)
    ensures Parse(letter, items).Patterns?
       <==> && |items| <= MAX_PATTERNS && UnitsUpTo(items, |items|) <= MAX_UNITS
            && forall item <- items :: !UnsafeControls(item) && GoodPattern(letter, Normal(item))
    ensures Parse(letter, items).Patterns? ==>
              forall pattern ::
                pattern in Parse(letter, items).list <==> exists item <- items :: Normal(item) == pattern
  {
    ParsedUpToExactly(letter, items, |items|);
    assert items[..|items|] == items;
    hide ParsedUpTo, UnsafeControls, GoodPattern, Normal;
  }

  lemma {:induction false} ParsedUpToExactly(letter: char -> bool, items: seq<string>, n: nat)
    requires n <= |items|
    ensures var parsed := ParsedUpTo(letter, items, n);
            && (parsed.Patterns?
                <==> && UnitsUpTo(items, n) <= MAX_UNITS
                     && forall item <- items[..n] :: !UnsafeControls(item) && GoodPattern(letter, Normal(item)))
            && (parsed.Patterns? ==>
                  forall pattern :: pattern in parsed.list <==> exists item <- items[..n] :: Normal(item) == pattern)
  {
    hide UnsafeControls, GoodPattern, Normal, Units;
    if n > 0 {
      ParsedUpToExactly(letter, items, n - 1);
      assert items[..n] == items[..n - 1] + [items[n - 1]];
    }
  }

  /** Where a pattern is first named. */
  function FirstAt(items: seq<string>, pattern: string): nat {
    if items == [] || Normal(items[0]) == pattern then 0 else 1 + FirstAt(items[1..], pattern)
  }

  lemma {:induction false} FirstAtOfPrefix(items: seq<string>, n: nat, pattern: string)
    requires n <= |items|
    ensures FirstAt(items, pattern) <= |items|
    ensures (exists item <- items[..n] :: Normal(item) == pattern) <==> FirstAt(items, pattern) < n
  {
    hide Normal;
    if items != [] {
      assert items == [items[0]] + items[1..];
      FirstAtOfPrefix(items[1..], if n > 0 then n - 1 else 0, pattern);
      assert n > 0 ==> items[..n] == [items[0]] + items[1..][..n - 1];
    }
  }

  lemma NewComesLater(items: seq<string>, n: nat, former: string, latter: string)
    requires n < |items|
    requires exists item <- items[..n] :: Normal(item) == former
    requires Normal(items[n]) == latter && !exists item <- items[..n] :: Normal(item) == latter
    ensures FirstAt(items, former) < FirstAt(items, latter) < n + 1
  {
    hide Normal, FirstAt;
    FirstAtOfPrefix(items, n, former);
    FirstAtOfPrefix(items, n, latter);
    FirstAtOfPrefix(items, n + 1, latter);
    assert items[n] in items[..n + 1];
  }

  /** The result lists the patterns in the order in which they are first named. */
  lemma {:induction false} ParsedInOrder(letter: char -> bool, items: seq<string>, n: nat, i: nat, j: nat)
    requires n <= |items| && ParsedUpTo(letter, items, n).Patterns?
    requires i < j < |ParsedUpTo(letter, items, n).list|
    ensures var list := ParsedUpTo(letter, items, n).list;
            FirstAt(items, list[i]) < FirstAt(items, list[j]) < n
  {
    hide *;
    var before, list := ParsedStep(letter, items, n);
    if j < |before| {
      assert before[i] == list[i] && before[j] == list[j];
      ParsedInOrder(letter, items, n - 1, i, j);
    } else {
      assert before[i] == list[i] && list[i] in before && list[j] !in before && list[j] == Normal(items[n - 1]);
      NamedBefore(letter, items, n - 1, list[i]);
      NamedBefore(letter, items, n - 1, list[j]);
      NewComesLater(items, n - 1, list[i], list[j]);
    }
  }

  lemma NamedBefore(letter: char -> bool, items: seq<string>, n: nat, pattern: string)
    requires n <= |items| && ParsedUpTo(letter, items, n).Patterns?
    ensures pattern in ParsedUpTo(letter, items, n).list <==> exists item <- items[..n] :: Normal(item) == pattern
  {
    ParsedUpToExactly(letter, items, n);
    hide *;
  }

  lemma ParsedStep(letter: char -> bool, items: seq<string>, n: nat) returns (before: seq<string>, list: seq<string>)
    requires n <= |items| && ParsedUpTo(letter, items, n).Patterns? && ParsedUpTo(letter, items, n).list != []
    ensures n > 0 && ParsedUpTo(letter, items, n - 1) == Patterns(before)
    ensures ParsedUpTo(letter, items, n) == Patterns(list)
    ensures before <= list && |list| <= |before| + 1
    ensures |before| < |list| ==> list[|before|] == Normal(items[n - 1]) && list[|before|] !in before
  {
    hide Acceptable, Normal;
    before, list := ParsedUpTo(letter, items, n - 1).list, ParsedUpTo(letter, items, n).list;
  }

  /** Trailing ones aside, a pattern has at most one `**`. */
  lemma {:induction false} AtMostOneDoubleStar(tokens: seq<string>)
    ensures DoubleStars(tokens) == 0 <==> "**" !in tokens
    ensures DoubleStars(tokens) <= 1
       <==> forall i, j :: 0 <= i < j < |tokens| ==> tokens[i] != "**" || tokens[j] != "**"
  {
    if tokens != [] {
      AtMostOneDoubleStar(tokens[1..]);
      assert tokens == [tokens[0]] + tokens[1..];
      assert forall i :: 0 < i < |tokens| ==> tokens[i] == tokens[1..][i - 1];
      assert forall i :: 0 <= i < |tokens| - 1 ==> tokens[1..][i] == tokens[i + 1];
    }
  }

  lemma Slices(item: string, start: string, core: string, a: nat)
    requires a <= |item| && start == item[a..] && core <= start
    ensures a + |core| <= |item| && item[a..a + |core|] == core && start[|core|..] == item[a + |core|..]
  {
  }

  lemma TrimmedAround(item: string) returns (a: nat, b: nat)
    ensures a <= b <= |item| && item[a..b] == TrimEnd(TrimStart(item))
    ensures (forall c <- item[..a] :: Blank(c)) && forall c <- item[b..] :: Blank(c)
  {
    hide *;
    var start, core := TrimStart(item), TrimEnd(TrimStart(item));
    a := |item| - |start|;
    b := a + |core|;
    Slices(item, start, core, a);
  }

  /** Normalizing takes white space away at both ends, all of it, and then one slash. */
  lemma NormalIsTrimmed(item: string) returns (a: nat, b: nat)
    ensures a <= b <= |item| && (forall c <- item[..a] :: Blank(c)) && (forall c <- item[b..] :: Blank(c))
    ensures a < b ==> !Blank(item[a]) && !Blank(item[b - 1])
    ensures Normal(item) == if a < b && item[b - 1] == '/' then item[a..b - 1] else item[a..b]
  {
    a, b := TrimmedAround(item);
    CoreEnds(item);
    hide Blank, TrimStart, TrimEnd;
    var core := item[a..b];
    if a < b {
      assert core[0] == item[a] && core[|core| - 1] == item[b - 1] && core[..|core| - 1] == item[a..b - 1];
    }
  }

  lemma CoreEnds(item: string)
    ensures var core := TrimEnd(TrimStart(item));
            core != "" ==> !Blank(core[0]) && !Blank(core[|core| - 1])
  {
    hide Blank, TrimStart, TrimEnd;
    var start, core := TrimStart(item), TrimEnd(TrimStart(item));
    assert core != "" ==> core[0] == start[0];
  }

  lemma TrailingSlash(s: string)
    requires s != "" && s[|s| - 1] == '/'
    ensures "" in Split(s, '/')
  {
    var head := s[..|s| - 1];
    assert s == head + ['/'] + "";
    SplitOfConcat(head, "", '/');
    assert Split("", '/')[0] == "";
  }

  lemma NoTrailingSlash(letter: char -> bool, pattern: string)
    requires GoodPattern(letter, pattern)
    ensures pattern != "" && pattern[|pattern| - 1] != '/'
  {
    if pattern[|pattern| - 1] == '/' {
      TrailingSlash(pattern);
    }
  }

  lemma NothingToTrim(s: string)
    requires s != "" && !Blank(s[0])
    ensures TrimStart(s) == s
    ensures !Blank(s[|s| - 1]) ==> TrimEnd(s) == s
    ensures TrimEnd(s + " ") == TrimEnd(s)
  {
    assert (s + " ")[..|s|] == s;
  }

  lemma NormalStarts(item: string)
    requires Normal(item) != ""
    ensures !Blank(Normal(item)[0])
  {
    hide Blank, TrimStart, TrimEnd;
    assert Normal(item)[0] == TrimEnd(TrimStart(item))[0] == TrimStart(item)[0];
  }

  lemma NormalAgain(pattern: string)
    requires pattern != "" && !Blank(pattern[0]) && pattern[|pattern| - 1] != '/'
    ensures Normal(pattern) == pattern <==> !Blank(pattern[|pattern| - 1])
  {
    NothingToTrim(pattern);
    hide Blank, TrimStart, TrimEnd;
    assert TrimEnd(pattern) == pattern || |TrimEnd(pattern)| < |pattern|;
  }

  /** Parsing an accepted pattern again keeps it exactly when it does not end in a
      blank; dropping the slash of `foo /` leaves one. */
  lemma ParsedAgain(letter: char -> bool, item: string)
    requires GoodPattern(letter, Normal(item))
    ensures Normal(Normal(item)) == Normal(item) <==> !Blank(Normal(item)[|Normal(item)| - 1])
  {
    hide *;
    NoTrailingSlash(letter, Normal(item));
    NormalStarts(item);
    NormalAgain(Normal(item));
  }

  /** A name, a blank and a slash: each parse takes one more character away. */
  lemma ParsingIsNotIdempotent(name: string)
    requires name != "" && !Blank(name[0]) && !Blank(name[|name| - 1]) && name[|name| - 1] != '/'
    ensures Normal(name + " /") == name + " " && Normal(name + " ") == name
  {
    hide Blank, TrimStart, TrimEnd;
    var slashed, blank := name + " /", name + " ";
    assert slashed[|slashed| - 1] == '/' && slashed[0] == name[0] == blank[0] && slashed[..|slashed| - 1] == blank;
    assert !Blank('/') by { SlashIsNotBlank(); }
    NothingToTrim(slashed);
    NothingToTrim(name);
    NothingToTrim(blank);
  }

  lemma SlashIsNotBlank()
    ensures !Blank('/')
  {
  }

  // ---- the scan's filter ----

  /** A bare name matches at any depth. */
  function Scoped(pattern: string): string { if '/' in pattern then pattern else "**/" + pattern }

  predicate Relative(path: string) {
    path != "" && path[0] != '/' && ".." !in Split(path, '/')
  }

  ghost predicate ScanExcludes(list: seq<string>, relative: string) {
    Relative(relative) &&
    exists pattern <- list :: Prunes(Split(Scoped(pattern), '/'), Split(relative, '/'))
  }

  method CompiledExclusions(list: seq<string>, relative: string) returns (excluded: bool)
    ensures excluded <==> ScanExcludes(list, relative)
    ensures excluded ==> relative != "" && relative[0] != '/' && ".." !in Split(relative, '/')
  {
    hide Prunes, Scoped;
    if relative == "" || relative[0] == '/' || ".." in Split(relative, '/') {
      return false;
    }
    for n := 0 to |list|
      invariant forall i :: 0 <= i < n ==> !Prunes(Split(Scoped(list[i]), '/'), Split(relative, '/'))
    {
      var matched := PathMatches(Scoped(list[n]), relative);
      if matched {
        return true;
      }
    }
    return false;
  }

  /** What the scan excludes it excludes with everything below. */
  lemma ExclusionCoversSubtree(list: seq<string>, relative: string, below: string)
    requires ScanExcludes(list, relative) && ".." !in Split(below, '/')
    ensures ScanExcludes(list, relative + "/" + below)
  {
    SplitOfConcat(relative, below, '/');
    var pattern :| pattern in list && Prunes(Split(Scoped(pattern), '/'), Split(relative, '/'));
    DescendantsArePruned(Split(Scoped(pattern), '/'), Split(relative, '/'), Split(below, '/'));
  }

  lemma BareNameMatchesAnyDepth(pattern: string, relative: string)
    requires '/' !in pattern && pattern != "**" && Relative(relative)
    ensures ScanExcludes([pattern], relative) <==> exists part <- Split(relative, '/') :: OneAccepted(pattern, part)
  {
    var parts := Split(relative, '/');
    SplitOfConcat("**", pattern, '/');
    SplitOfPlain("**", '/');
    SplitOfPlain(pattern, '/');
    assert "**" + ['/'] + pattern == Scoped(pattern);
    assert Split(Scoped(pattern), '/') == ["**"] + [pattern];
    forall k | 1 <= k <= |parts|
      ensures Accepted(["**"] + [pattern], parts[..k]) <==> OneAccepted(pattern, parts[k - 1])
    {
      LastToken(IsDoubleStar, OneAccepted, ["**"], pattern, parts[..k]);
      StarAlone(IsDoubleStar, OneAccepted, "**", parts[..k][..k - 1]);
    }
    if part :| part in parts && OneAccepted(pattern, part) {
      var i :| 0 <= i < |parts| && parts[i] == part;
      assert Accepted(["**"] + [pattern], parts[..i + 1]);
    }
    assert forall p <- [pattern] :: p == pattern;
    assert pattern in [pattern];
  }

  /** A pattern with a slash starts at the selected source. */
  lemma SlashPatternStartsAtSource(pattern: string, relative: string)
    requires '/' in pattern && Relative(relative)
    ensures ScanExcludes([pattern], relative) <==> Prunes(Split(pattern, '/'), Split(relative, '/'))
  {
    hide Prunes;
    assert pattern in [pattern] && forall other <- [pattern] :: other == pattern;
  }

  /** So without `**` it excludes exactly what begins with as many components, each of which
      its own token matches: `build/cache` leaves `src/build/cache` alone. */
  lemma SlashPatternMatchesInPlace(pattern: string, relative: string)
    requires '/' in pattern && Relative(relative) && "**" !in Split(pattern, '/')
    ensures var tokens, parts := Split(pattern, '/'), Split(relative, '/');
            ScanExcludes([pattern], relative)
            <==> |tokens| <= |parts| && forall i :: 0 <= i < |tokens| ==> OneAccepted(tokens[i], parts[i])
  {
    var tokens, parts := Split(pattern, '/'), Split(relative, '/');
    SlashPatternStartsAtSource(pattern, relative);
    hide ScanExcludes, OneAccepted, Relative, Split;
    forall k | 1 <= k <= |parts|
      ensures Accepted(tokens, parts[..k])
         <==> |tokens| == k && forall i :: 0 <= i < k ==> OneAccepted(tokens[i], parts[i])
    {
      PlainPairs(IsDoubleStar, OneAccepted, tokens, parts[..k]);
    }
    assert |tokens| <= |parts| ==> (Accepted(tokens, parts[..|tokens|])
             <==> forall i :: 0 <= i < |tokens| ==> OneAccepted(tokens[i], parts[i]));
  }

  // ---- the arguments handed to Restic ----

  predicate Anchorable(source: string) {
    && source != "" && source[0] == '/' && !UnsafeControls(source)
    && (forall c <- "*?[]\\" :: c !in source)
    && ".." !in Split(source, '/')
  }

  function Anchored(source: string, pattern: string): string {
    StripSlash(source) + "/" + Join(WithoutTail(Split(Scoped(pattern), '/')), '/')
  }

  lemma AnchorableIs(source: string)
    ensures Anchorable(source)
       <==> && source != "" && source[0] == '/' && ".." !in Split(source, '/')
            && !exists c <- source :: c as int < 32 || c as int == 127 || c in {'*', '?', '[', ']', '\\'}
  {
    assert forall c: char :: c in "*?[]\\" <==> c in {'*', '?', '[', ']', '\\'};
    hide Split;
  }

  method SourceResticExclusions(letter: char -> bool, source: string, items: seq<string>)
    returns (refused: bool, arguments: seq<string>)
    ensures refused <==> || source == "" || source[0] != '/' || ".." in Split(source, '/')
                         || (exists c <- source :: c as int < 32 || c as int == 127 || c in {'*', '?', '[', ']', '\\'})
                         || Parse(letter, items).Refused?
    ensures !refused ==> var list := Parse(letter, items).list;
                         && |arguments| == |list|
                         && forall i :: 0 <= i < |list| ==> arguments[i] == Anchored(source, list[i])
  {
    AnchorableIs(source);
    hide Parse, Scoped, Anchorable;
    arguments := [];
    var parsed := ParseBackupExclusions(letter, items);
    if !Anchorable(source) || parsed.Refused? {
      return true, [];
    }
    for n := 0 to |parsed.list|
      invariant |arguments| == n
      invariant forall i :: 0 <= i < n ==> arguments[i] == Anchored(source, parsed.list[i])
    {
      var parts := DropTail(Split(Scoped(parsed.list[n]), '/'));
      arguments := arguments + [StripSlash(source) + "/" + Join(parts, '/')];
    }
    return false, arguments;
  }

  ghost predicate OneLiteral(token: string, part: string) { Glob(token, part) }

  /** One anchored argument, read under the same wildcard relation: it excludes a path
      when it matches the path or one of its ancestors. */
  ghost predicate ArgumentExcludes(argument: string, path: string) {
    exists k :: 0 <= k <= |Split(path, '/')|
             && Matches(IsDoubleStar, OneLiteral, Split(argument, '/'), Split(path, '/')[..k])
  }

  lemma {:induction false} LiteralGlob(name: string, value: string)
    requires '*' !in name && '?' !in name
    ensures Glob(name, value) <==> name == value
  {
    if name != "" {
      assert name[0] in name && forall c <- name[1..] :: c in name;
      if value != "" {
        LiteralGlob(name[1..], value[1..]);
        assert name == [name[0]] + name[1..] && value == [value[0]] + value[1..];
      }
    }
  }

  lemma {:induction false} LiteralTokens(names: seq<string>, parts: seq<string>)
    requires forall name <- names :: '*' !in name && '?' !in name
    ensures Matches(IsDoubleStar, OneLiteral, names, parts) <==> names == parts
  {
    if names != [] {
      assert names[0] in names && names[0] != "**" by { assert "**"[0] == '*'; }
      if parts != [] {
        LiteralGlob(names[0], parts[0]);
        LiteralTokens(names[1..], parts[1..]);
        assert names == [names[0]] + names[1..] && parts == [parts[0]] + parts[1..];
      }
    }
  }

  lemma {:induction false} PlainParts(s: string, c: char)
    requires c !in s
    ensures forall part <- Split(s, '/') :: c !in part
  {
    if s != "" {
      assert s[0] in s && forall d <- s[1..] :: d in s;
      PlainParts(s[1..], c);
    }
  }

  /** Anchoring at a literal directory shifts the pattern below it and does no more. */
  lemma AnchorShifts(base: seq<string>, tokens: seq<string>, parts: seq<string>)
    requires forall name <- base :: '*' !in name && '?' !in name
    ensures (exists k :: 0 <= k <= |base + parts|
                         && Matches(IsDoubleStar, OneLiteral, base + tokens, (base + parts)[..k]))
       <==> (exists m :: 0 <= m <= |parts| && Matches(IsDoubleStar, OneLiteral, tokens, parts[..m]))
  {
    if k :| 0 <= k <= |base + parts| && Matches(IsDoubleStar, OneLiteral, base + tokens, (base + parts)[..k]) {
      var x := (base + parts)[..k];
      var cut := Cut(IsDoubleStar, OneLiteral, base, tokens, x);
      LiteralTokens(base, x[..cut]);
      assert x[cut..] == parts[..k - cut];
    }
    if m :| 0 <= m <= |parts| && Matches(IsDoubleStar, OneLiteral, tokens, parts[..m]) {
      LiteralTokens(base, base);
      Append(IsDoubleStar, OneLiteral, base, tokens, base, parts[..m]);
      assert base + parts[..m] == (base + parts)[..|base| + m];
    }
  }

  lemma ShorterMatches(tokens: seq<string>, short: seq<string>, tail: seq<string>, parts: seq<string>)
    requires tokens == short + tail && PruneDescribed(tokens, parts)
    ensures exists m :: 0 <= m <= |parts| && Matches(IsDoubleStar, OneLiteral, short, parts[..m])
  {
    var k :| 1 <= k <= |parts| && Described(tokens, parts[..k]);
    var cut := Cut(IsDoubleStar, OneDescribed, short, tail, parts[..k]);
    assert parts[..k][..cut] == parts[..cut];
    Widen(IsDoubleStar, OneDescribed, OneLiteral, short, parts[..cut]);
  }

  lemma LongerMatches(tokens: seq<string>, short: seq<string>, tail: seq<string>, parts: seq<string>, m: nat)
    requires tokens == short + tail && m <= |parts| && parts != [] && short != []
    requires (forall token <- short :: token != "") && (forall token <- tail :: token == "**")
    requires |short| > 1 ==> short[|short| - 1] != "**"
    requires Matches(IsDoubleStar, OneLiteral, short, parts[..m])
    ensures PruneDescribed(tokens, parts)
  {
    Widen(IsDoubleStar, OneLiteral, OneDescribed, short, parts[..m]);
    var more: seq<string> := [];
    if m == 0 {
      MatchesEmpty<string, string>(IsDoubleStar, OneDescribed, short);
      assert parts[..0] == [];
      assert short[|short| - 1] in short && |short| == 1 && short == ["**"];
      StarAlone(IsDoubleStar, OneDescribed, "**", parts[..1]);
    }
    var n := if m == 0 then 1 else m;
    MatchesEmpty<string, string>(IsDoubleStar, OneDescribed, tail);
    Append(IsDoubleStar, OneDescribed, short, tail, parts[..n], more);
    assert parts[..n] + more == parts[..n];
  }

  /** Dropping trailing `**` components never changes what is pruned. */
  lemma TailDoesNotMatter(tokens: seq<string>, parts: seq<string>)
    requires tokens != [] && parts != []
    requires forall token <- tokens :: token != ""
    ensures PruneDescribed(tokens, parts) <==>
            exists m :: 0 <= m <= |parts| && Matches(IsDoubleStar, OneLiteral, WithoutTail(tokens), parts[..m])
  {
    var short := WithoutTail(tokens);
    var tail := tokens[|short|..];
    assert tokens == short + tail;
    assert forall token <- short :: token in tokens;
    hide WithoutTail, PruneDescribed;
    if PruneDescribed(tokens, parts) {
      ShorterMatches(tokens, short, tail, parts);
    }
    if m :| 0 <= m <= |parts| && Matches(IsDoubleStar, OneLiteral, short, parts[..m]) {
      LongerMatches(tokens, short, tail, parts, m);
    }
  }

  lemma ScopedParts(letter: char -> bool, pattern: string)
    requires GoodPattern(letter, pattern)
    ensures forall token <- Split(Scoped(pattern), '/') :: token != ""
  {
    if '/' !in pattern {
      SplitOfConcat("**", pattern, '/');
      SplitOfPlain("**", '/');
      SplitOfPlain(pattern, '/');
      assert "**" + ['/'] + pattern == Scoped(pattern);
    }
  }

  lemma ArgumentAgrees(letter: char -> bool, source: string, pattern: string, relative: string)
    requires Anchorable(source) && GoodPattern(letter, pattern)
    ensures ArgumentExcludes(Anchored(source, pattern), StripSlash(source) + "/" + relative)
       <==> PruneDescribed(Split(Scoped(pattern), '/'), Split(relative, '/'))
  {
    var base := StripSlash(source);
    var tokens, parts := Split(Scoped(pattern), '/'), Split(relative, '/');
    var short := WithoutTail(tokens);
    assert forall token <- short :: token in tokens;
    SplitOfJoin(short, '/');
    SplitOfConcat(base, Join(short, '/'), '/');
    SplitOfConcat(base, relative, '/');
    assert forall c <- base :: c in source;
    assert '*' in "*?[]\\" && '?' in "*?[]\\";
    PlainParts(base, '*');
    PlainParts(base, '?');
    ScopedParts(letter, pattern);
    AnchorShifts(Split(base, '/'), short, parts);
    TailDoesNotMatter(tokens, parts);
    assert Anchored(source, pattern) == base + ['/'] + Join(short, '/');
    assert base + "/" + relative == base + ['/'] + relative;
  }

  /** The same for Restic, which starts a pattern with a slash at the source. */
  lemma SlashArgumentStartsAtSource(letter: char -> bool, source: string, pattern: string, relative: string)
    requires Anchorable(source) && GoodPattern(letter, pattern) && '/' in pattern
    ensures ArgumentExcludes(Anchored(source, pattern), StripSlash(source) + "/" + relative)
       <==> PruneDescribed(Split(pattern, '/'), Split(relative, '/'))
  {
    ArgumentAgrees(letter, source, pattern, relative);
  }

  /** And matches a bare name at any depth. */
  lemma BareArgumentMatchesAnyDepth(letter: char -> bool, source: string, pattern: string, relative: string)
    requires Anchorable(source) && GoodPattern(letter, pattern) && '/' !in pattern && pattern != "**"
    ensures ArgumentExcludes(Anchored(source, pattern), StripSlash(source) + "/" + relative)
       <==> exists part <- Split(relative, '/') :: OneDescribed(pattern, part)
  {
    ArgumentAgrees(letter, source, pattern, relative);
    ScopedBareName(pattern);
    BareNameDescribes(pattern, Split(relative, '/'));
    hide ArgumentExcludes, Anchored, Scoped, PruneDescribed, OneDescribed;
  }

  lemma ScopedBareName(pattern: string)
    requires '/' !in pattern
    ensures Split(Scoped(pattern), '/') == ["**", pattern]
  {
    SplitOfConcat("**", pattern, '/');
    SplitOfPlain("**", '/');
    SplitOfPlain(pattern, '/');
    assert "**" + ['/'] + pattern == Scoped(pattern);
  }

  lemma BareNameDescribes(pattern: string, parts: seq<string>)
    requires pattern != "**"
    ensures PruneDescribed(["**", pattern], parts) <==> exists part <- parts :: OneDescribed(pattern, part)
  {
    hide OneDescribed;
    assert ["**", pattern] == ["**"] + [pattern];
    forall k | 1 <= k <= |parts|
      ensures Described(["**"] + [pattern], parts[..k]) <==> OneDescribed(pattern, parts[k - 1])
    {
      LastToken(IsDoubleStar, OneDescribed, ["**"], pattern, parts[..k]);
      StarAlone(IsDoubleStar, OneDescribed, "**", parts[..k][..k - 1]);
    }
    if part :| part in parts && OneDescribed(pattern, part) {
      var i :| 0 <= i < |parts| && parts[i] == part;
      assert Described(["**"] + [pattern], parts[..i + 1]);
    }
  }

  /** Components that are `**` or hold no star. */
  predicate Starless(pattern: string) { forall part <- Split(pattern, '/') :: part == "**" || '*' !in part }

  lemma ScopedIsStarless(pattern: string)
    requires Starless(pattern)
    ensures Starless(Scoped(pattern))
  {
    if '/' !in pattern {
      SplitOfConcat("**", pattern, '/');
      SplitOfPlain("**", '/');
      assert "**" + ['/'] + pattern == Scoped(pattern);
    }
  }

  /** What Restic leaves out of a source by the arguments made from a list. */
  ghost predicate ResticExcludes(source: string, list: seq<string>, relative: string) {
    exists pattern <- list :: ArgumentExcludes(Anchored(source, pattern), StripSlash(source) + "/" + relative)
  }

  /** Both consumers of one list of patterns: whatever the scan leaves out Restic leaves
      out too, and below names without a star, or by patterns without one, Restic leaves
      out nothing else. */
  lemma ScanAndResticAgree(letter: char -> bool, items: seq<string>, source: string, relative: string)
    requires Parse(letter, items).Patterns? && Anchorable(source) && Relative(relative)
    ensures var list := Parse(letter, items).list;
            && (ScanExcludes(list, relative) ==> ResticExcludes(source, list, relative))
            && ('*' !in relative || (forall pattern <- list :: Starless(pattern)) ==>
                  (ScanExcludes(list, relative) <==> ResticExcludes(source, list, relative)))
  {
    var list := Parse(letter, items).list;
    forall p <- list
      ensures Prunes(Split(Scoped(p), '/'), Split(relative, '/'))
          ==> ArgumentExcludes(Anchored(source, p), StripSlash(source) + "/" + relative)
      ensures ('*' !in relative || Starless(p))
              && ArgumentExcludes(Anchored(source, p), StripSlash(source) + "/" + relative)
          ==> Prunes(Split(Scoped(p), '/'), Split(relative, '/'))
    {
      ParsedAreGood(letter, items, |items|, p);
      OneAgrees(letter, source, p, relative);
    }
  }

  lemma OneAgrees(letter: char -> bool, source: string, pattern: string, relative: string)
    requires GoodPattern(letter, pattern) && Anchorable(source)
    ensures Prunes(Split(Scoped(pattern), '/'), Split(relative, '/'))
        ==> ArgumentExcludes(Anchored(source, pattern), StripSlash(source) + "/" + relative)
    ensures ('*' !in relative || Starless(pattern))
            && ArgumentExcludes(Anchored(source, pattern), StripSlash(source) + "/" + relative)
        ==> Prunes(Split(Scoped(pattern), '/'), Split(relative, '/'))
  {
    hide ArgumentExcludes, Anchored, Scoped, Prunes, GoodPattern, Anchorable;
    if '*' !in relative {
      PlainParts(relative, '*');
    } else if Starless(pattern) {
      ScopedIsStarless(pattern);
    }
    ArgumentAgrees(letter, source, pattern, relative);
    PrunesIsDescribed(Split(Scoped(pattern), '/'), Split(relative, '/'));
  }
}
