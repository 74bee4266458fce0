/**
  Where the scan and Restic part: on every path with a `*` in a name, for some accepted
  pattern (agent/src/backupExclusions.ts:55-60, 95-144).
 */
module StarredNames {
  import opened Text
  import opened Wildcards
  import opened SegmentMatcher
  import opened PathMatcher
  import opened Exclusions

  /** A path as a walk reports it: names with something in them. */
  predicate Walked(relative: string) {
    Relative(relative) && forall part <- Split(relative, '/') :: part != ""
  }

  /** Both leave the path out, or neither does. */
  ghost predicate Agrees(letter: char -> bool, items: seq<string>, source: string, relative: string) {
    var parsed := Parse(letter, items);
    parsed.Patterns? ==> (ScanExcludes(parsed.list, relative) <==> ResticExcludes(source, parsed.list, relative))
  }

  /** As many question marks as a name has characters. */
  function Marks(name: string): string { seq(|name|, _ => '?') }

  function AllMarks(names: seq<string>): seq<string> {
    seq(|names|, i requires 0 <= i < |names| => Marks(names[i]))
  }

  /** The names above the starred one by their lengths, the starred one as the scan misses
      it, and everything below: a pattern with a slash, so it is not moved to any depth. */
  function Tokens(parts: seq<string>, i: nat, k: nat): seq<string>
    requires i < |parts| && k < |parts[i]|
  {
    AllMarks(parts[..i]) + [Missing(parts[i], k)] + ["**"]
  }

  function Witness(parts: seq<string>, i: nat, k: nat): string
    requires i < |parts| && k < |parts[i]|
  {
    Join(Tokens(parts, i, k), '/')
  }

  // ---- the witness is an accepted pattern ----

  /** Question marks, at most one star among or after them. */
  predicate Wild(token: string) {
    && token != "" && (forall c <- token :: c == '?' || c == '*')
    && forall i, j :: 0 <= i < j < |token| ==> token[i] != '*' || token[j] != '*'
  }

  lemma WildIsGood(letter: char -> bool, token: string)
    requires Wild(token)
    ensures GoodPart(letter, token) && token != "**" && '/' !in token
  {
    assert token[0] in token;
    assert "**"[0] == '*' && "**"[1] == '*';
    assert '?' in "._ *?+-" && '*' in "._ *?+-";
  }

  lemma MissingIsWild(value: string, k: nat)
    requires k < |value|
    ensures Wild(Missing(value, k)) && |Missing(value, k)| <= |value| + 1
  {
  }

  lemma MarksAreWild(name: string)
    requires name != ""
    ensures Wild(Marks(name)) && |Marks(name)| == |name|
  {
  }

  lemma TokensAreGood(letter: char -> bool, parts: seq<string>, i: nat, k: nat)
    requires i < |parts| && k < |parts[i]| && forall part <- parts :: part != ""
    ensures var tokens := Tokens(parts, i, k);
            && |tokens| == i + 2 && tokens[i + 1] == "**"
            && (forall j :: 0 <= j <= i ==> Wild(tokens[j]))
            && (forall token <- tokens :: GoodPart(letter, token) && '/' !in token)
  {
    hide Wild, GoodPart, Marks, Missing;
    var tokens := Tokens(parts, i, k);
    forall j | 0 <= j <= i ensures Wild(tokens[j]) {
      if j < i {
        assert parts[j] in parts;
        MarksAreWild(parts[j]);
      } else {
        MissingIsWild(parts[i], k);
      }
    }
    forall token <- tokens ensures GoodPart(letter, token) && '/' !in token {
      var j :| 0 <= j < |tokens| && tokens[j] == token;
      if j <= i {
        WildIsGood(letter, token);
      } else {
        DoubleStarIsGood(letter);
      }
    }
  }

  lemma DoubleStarIsGood(letter: char -> bool)
    ensures GoodPart(letter, "**") && '/' !in "**"
  {
    assert '*' in "._ *?+-";
  }

  lemma NoneDouble(letter: char -> bool, tokens: seq<string>)
    requires forall j :: 0 <= j < |tokens| ==> Wild(tokens[j])
    ensures "**" !in tokens
  {
    if j :| 0 <= j < |tokens| && tokens[j] == "**" {
      WildIsGood(letter, tokens[j]);
    }
  }

  lemma {:induction false} NoDoubleStars(tokens: seq<string>)
    requires "**" !in tokens
    ensures DoubleStars(tokens) == 0
  {
    if tokens != [] {
      assert tokens[0] in tokens;
      NoDoubleStars(tokens[1..]);
    }
  }

  /** Joining names no longer than others, but for one character in the last. */
  lemma {:induction false} JoinNoLonger(a: seq<string>, b: seq<string>)
    requires |a| == |b| > 0 && |a[|a| - 1]| <= |b[|a| - 1]| + 1
    requires forall i :: 0 <= i < |a| - 1 ==> |a[i]| == |b[i]|
    ensures |Join(a, '/')| <= |Join(b, '/')| + 1
  {
    if |a| > 1 {
      JoinNoLonger(a[1..], b[1..]);
    }
  }

  lemma {:induction false} JoinedChars(tokens: seq<string>, c: char)
    requires |tokens| > 0 && c in Join(tokens, '/')
    ensures c == '/' || exists token <- tokens :: c in token
  {
    if c in tokens[0] {
      assert tokens[0] in tokens;
    } else if |tokens| > 1 && c != '/' {
      JoinedChars(tokens[1..], c);
      var token :| token in tokens[1..] && c in token;
      assert token in tokens;
    }
  }

  lemma {:induction false} PlainUnits(s: string)
    requires forall c <- s :: c as int <= 0xFFFF
    ensures Units(s) == |s|
  {
    if s != "" {
      assert s[0] in s && forall c <- s[1..] :: c in s;
      PlainUnits(s[1..]);
    }
  }

  /** At most four characters longer than the path. */
  lemma WitnessLength(parts: seq<string>, i: nat, k: nat)
    requires i < |parts| && k < |parts[i]|
    ensures |Witness(parts, i, k)| <= |Join(parts, '/')| + 4
  {
    var tokens, short := Tokens(parts, i, k), AllMarks(parts[..i]) + [Missing(parts[i], k)];
    JoinOfConcat(short, ["**"], '/');
    JoinNoLonger(short, parts[..i + 1]);
    if i + 1 < |parts| {
      JoinOfConcat(parts[..i + 1], parts[i + 1..], '/');
      assert parts == parts[..i + 1] + parts[i + 1..];
    } else {
      assert parts == parts[..i + 1];
    }
  }

  lemma WitnessIsGood(letter: char -> bool, parts: seq<string>, i: nat, k: nat)
    requires i < |parts| && k < |parts[i]| && forall part <- parts :: part != ""
    requires |Join(parts, '/')| + 4 <= MAX_PATTERN
    ensures var pattern := Witness(parts, i, k);
            && GoodPattern(letter, pattern) && Split(pattern, '/') == Tokens(parts, i, k)
            && Normal(pattern) == pattern && !UnsafeControls(pattern) && Units(pattern) <= MAX_PATTERN
            && Scoped(pattern) == pattern
  {
    var tokens, pattern := Tokens(parts, i, k), Witness(parts, i, k);
    TokensAreGood(letter, parts, i, k);
    hide GoodPart, Missing, Marks, Blank, Normal;
    SplitOfJoin(tokens, '/');
    forall c <- pattern ensures c in "/?*" && c as int <= 0xFFFF && c as int >= 32 && c as int != 127 {
      WitnessChar(letter, parts, i, k, c);
    }
    PlainUnits(pattern);
    WitnessLength(parts, i, k);
    assert WithoutTail(tokens) == tokens[..i + 1] by {
      assert tokens[..|tokens| - 1] == tokens[..i + 1];
      assert i + 1 > 1 ==> tokens[..i + 1][i] == tokens[i] && Wild(tokens[i]);
      if i > 0 { WildIsGood(letter, tokens[i]); }
    }
    NoneDouble(letter, tokens[..i + 1]);
    NoDoubleStars(tokens[..i + 1]);
    WitnessEnds(parts, i, k);
    assert '/' in pattern by { SlashInside(parts, i, k); }
    assert pattern[0] in pattern;
    NotBlank(pattern);
    NormalAgain(pattern);
  }

  lemma WitnessChar(letter: char -> bool, parts: seq<string>, i: nat, k: nat, c: char)
    requires i < |parts| && k < |parts[i]| && forall part <- parts :: part != ""
    requires c in Witness(parts, i, k)
    ensures c in "/?*" && c as int <= 0xFFFF && c as int >= 32 && c as int != 127
  {
    var tokens := Tokens(parts, i, k);
    TokensAreGood(letter, parts, i, k);
    hide GoodPart, Missing, Marks, Tokens;
    JoinedChars(tokens, c);
    assert '/' in "/?*" && '?' in "/?*" && '*' in "/?*";
    if c != '/' {
      var token :| token in tokens && c in token;
      var j :| 0 <= j < |tokens| && tokens[j] == token;
    }
  }

  lemma SlashInside(parts: seq<string>, i: nat, k: nat)
    requires i < |parts| && k < |parts[i]|
    ensures '/' in Witness(parts, i, k)
  {
    var short := AllMarks(parts[..i]) + [Missing(parts[i], k)];
    JoinOfConcat(short, ["**"], '/');
    assert Witness(parts, i, k)[|Join(short, '/')|] == '/';
  }

  lemma WitnessEnds(parts: seq<string>, i: nat, k: nat)
    requires i < |parts| && k < |parts[i]|
    ensures Witness(parts, i, k) != "" && Witness(parts, i, k)[|Witness(parts, i, k)| - 1] == '*'
  {
    JoinOfConcat(AllMarks(parts[..i]) + [Missing(parts[i], k)], ["**"], '/');
  }

  lemma NotBlank(pattern: string)
    requires pattern != "" && pattern[|pattern| - 1] == '*'
    requires pattern[0] in "/?*"
    ensures !Blank(pattern[0]) && !Blank(pattern[|pattern| - 1])
  {
  }

  // ---- and decided differently ----

  lemma {:induction false} MarksDescribe(parts: seq<string>)
    requires forall part <- parts :: part != ""
    ensures Described(AllMarks(parts), parts)
  {
    hide Marks, Glob;
    if parts != [] {
      var first, rest := parts[0], parts[1..];
      assert first in parts && parts == [first] + rest && forall part <- rest :: part in parts;
      MarksDescribe(rest);
      MarksDescribeOne(first);
      assert AllMarks(parts) == [Marks(first)] + AllMarks(rest);
      Append(IsDoubleStar, OneDescribed, [Marks(first)], AllMarks(rest), [first], rest);
    }
  }

  lemma MarksDescribeOne(name: string)
    requires name != ""
    ensures Described([Marks(name)], [name])
  {
    QuestionMarksMatch(|name|, name);
    MarksAreWild(name);
    assert '*' in "**";
    OneAlone(IsDoubleStar, OneDescribed, Marks(name), [name]);
    assert Marks(name)[0] == '?';
  }

  /** Restic's reading of the witness matches the starred name. */
  lemma WitnessDescribes(letter: char -> bool, parts: seq<string>, i: nat, k: nat)
    requires i < |parts| && k < |parts[i]| && parts[i][k] == '*' && forall part <- parts :: part != ""
    ensures PruneDescribed(Tokens(parts, i, k), parts)
  {
    hide Glob, Accepts, Missing, GoodPart, Marks;
    var marks := AllMarks(parts[..i]);
    var missing := StarInValueIsMissed(parts[i], k);
    MissingIsWild(parts[i], k);
    WildIsGood(letter, missing);
    assert forall part <- parts[..i] :: part in parts;
    MarksDescribe(parts[..i]);
    OneAlone(IsDoubleStar, OneDescribed, missing, [parts[i]]);
    Append(IsDoubleStar, OneDescribed, marks, [missing], parts[..i], [parts[i]]);
    var none: seq<string> := [];
    StarAlone(IsDoubleStar, OneDescribed, "**", none);
    Append(IsDoubleStar, OneDescribed, marks + [missing], ["**"], parts[..i] + [parts[i]], none);
    assert parts[..i] + [parts[i]] + none == parts[..i + 1];
  }

  /** The scan's reading does not. */
  lemma WitnessIsMissed(letter: char -> bool, parts: seq<string>, i: nat, k: nat)
    requires i < |parts| && k < |parts[i]| && parts[i][k] == '*' && forall part <- parts :: part != ""
    ensures !Prunes(Tokens(parts, i, k), parts)
  {
    var tokens := Tokens(parts, i, k);
    TokensAreGood(letter, parts, i, k);
    var missing := StarInValueIsMissed(parts[i], k);
    hide Glob, Accepts, Missing, GoodPart, Marks;
    forall m | 1 <= m <= |parts| ensures !Accepted(tokens, parts[..m]) {
      if Accepted(tokens, parts[..m]) {
        MissedInPrefix(letter, parts, i, k, m);
      }
    }
  }

  lemma MissedInPrefix(letter: char -> bool, parts: seq<string>, i: nat, k: nat, m: nat)
    requires i < |parts| && k < |parts[i]| && forall part <- parts :: part != ""
    requires m <= |parts| && Accepted(Tokens(parts, i, k), parts[..m])
    ensures Accepts(Missing(parts[i], k), parts[i])
  {
    hide Accepts, Missing, GoodPart, Marks, Wild;
    var short, missing := AllMarks(parts[..i]) + [Missing(parts[i], k)], Missing(parts[i], k);
    TokensAreGood(letter, parts, i, k);
    forall token <- short ensures !IsDoubleStar(token) {
      var j :| 0 <= j < |short| && short[j] == token;
      assert Tokens(parts, i, k)[j] == token;
      WildIsGood(letter, token);
    }
    assert Tokens(parts, i, k) == short + ["**"];
    var cut := Cut(IsDoubleStar, OneAccepted, short, ["**"], parts[..m]);
    PlainLength(IsDoubleStar, OneAccepted, short, parts[..m][..cut]);
    assert parts[..m][..cut] == parts[..i + 1] && missing in short;
    LastToken(IsDoubleStar, OneAccepted, AllMarks(parts[..i]), missing, parts[..i + 1]);
    assert parts[..i + 1][i] == parts[i];
  }

  /** On a path with a star in a name there is an accepted pattern by which Restic leaves it
      out and the scan does not. */
  lemma StarredPathDivides(letter: char -> bool, source: string, relative: string) returns (pattern: string)
    requires Anchorable(source) && Walked(relative) && |relative| + 4 <= MAX_PATTERN && '*' in relative
    ensures Parse(letter, [pattern]) == Patterns([pattern])
    ensures !ScanExcludes([pattern], relative) && ResticExcludes(source, [pattern], relative)
  {
    var parts := Split(relative, '/');
    JoinOfSplit(relative, '/');
    JoinedChars(parts, '*');
    var part :| part in parts && '*' in part;
    var i :| 0 <= i < |parts| && parts[i] == part;
    var k :| 0 <= k < |part| && part[k] == '*';
    pattern := Witness(parts, i, k);
    hide Witness, Tokens, Prunes, PruneDescribed, ArgumentExcludes, Anchored, Anchorable, GoodPattern, Normal;
    WitnessIsGood(letter, parts, i, k);
    WitnessIsMissed(letter, parts, i, k);
    WitnessDescribes(letter, parts, i, k);
    ArgumentAgrees(letter, source, pattern, relative);
    ParsesAlone(letter, pattern);
    assert pattern in [pattern] && forall other <- [pattern] :: other == pattern;
  }

  lemma ParsesAlone(letter: char -> bool, pattern: string)
    requires GoodPattern(letter, pattern) && Normal(pattern) == pattern && !UnsafeControls(pattern)
    requires Units(pattern) <= MAX_PATTERN
    ensures Parse(letter, [pattern]) == Patterns([pattern])
  {
    hide GoodPattern, Normal, UnsafeControls, Units;
    assert ParsedUpTo(letter, [pattern], 0) == Patterns([]);
    assert UnitsUpTo([pattern], 0) == 0 && UnitsUpTo([pattern], 1) == Units(pattern);
    assert AddNew([], pattern) == [pattern];
    assert ParsedUpTo(letter, [pattern], 1) == Patterns([pattern]);
  }

  /** The two consumers agree on a path for every accepted list of patterns if and only if
      no name in it holds a `*`; up to the length of an accepted pattern. */
  lemma AgreeExactlyOnStarFreePaths(letter: char -> bool, source: string, relative: string)
    requires Anchorable(source) && Walked(relative) && |relative| + 4 <= MAX_PATTERN
    ensures (forall items: seq<string> :: Agrees(letter, items, source, relative)) <==> '*' !in relative
  {
    hide Anchorable, ScanExcludes, ResticExcludes, Parse;
    if '*' in relative {
      var pattern := StarredPathDivides(letter, source, relative);
      assert !Agrees(letter, [pattern], source, relative);
    } else {
      forall items: seq<string> ensures Agrees(letter, items, source, relative) {
        if Parse(letter, items).Patterns? {
          ScanAndResticAgree(letter, items, source, relative);
        }
      }
    }
  }

  /** The plainest case: by the pattern `*`, Restic leaves out a file called `*a` and the
      scan does not. */
  lemma StarFileDivides(letter: char -> bool)
    ensures Parse(letter, ["*"]) == Patterns(["*"])
    ensures !ScanExcludes(["*"], "*a") && ArgumentExcludes(Anchored("/src", "*"), "/src/*a")
  {
    hide *;
    StarIsGood(letter);
    ParsesAlone(letter, "*");
    StarIsMissed();
    SourceIsAnchorable();
    ArgumentAgrees(letter, "/src", "*", "*a");
    StarDescribes();
    assert StripSlash("/src") + "/" + "*a" == "/src/*a";
  }

  lemma StarIsMissed()
    ensures !ScanExcludes(["*"], "*a")
  {
    SplitOfPlain("*a", '/');
    StarPatternMissesStarFile();
    BareNameMatchesAnyDepth("*", "*a");
    hide ScanExcludes, Glob, Accepts;
    assert "*" != "**" && '/' !in "*";
  }

  lemma SourceIsAnchorable()
    ensures Anchorable("/src") && StripSlash("/src") == "/src"
  {
    SplitOfConcat("", "src", '/');
    SplitOfPlain("src", '/');
    assert "" + ['/'] + "src" == "/src";
  }

  lemma StarIsGood(letter: char -> bool)
    ensures GoodPattern(letter, "*") && Normal("*") == "*" && !UnsafeControls("*") && Units("*") <= MAX_PATTERN
  {
    SplitOfPlain("*", '/');
    assert '*' in "._ *?+-";
    assert Units("*") == 1 + Units("");
    NormalAgain("*");
  }

  lemma StarDescribes()
    ensures PruneDescribed(Split(Scoped("*"), '/'), Split("*a", '/'))
  {
    SplitOfPlain("*", '/');
    SplitOfPlain("**", '/');
    SplitOfPlain("*a", '/');
    SplitOfConcat("**", "*", '/');
    assert "**" + ['/'] + "*" == Scoped("*");
    StarPatternMissesStarFile();
    hide Glob;
    var none: seq<string> := [];
    StarAlone(IsDoubleStar, OneDescribed, "**", none);
    OneAlone(IsDoubleStar, OneDescribed, "*", ["*a"]);
    Append(IsDoubleStar, OneDescribed, ["**"], ["*"], none, ["*a"]);
    assert none + ["*a"] == ["*a"][..1];
  }
}
