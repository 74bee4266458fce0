/**
  The bounded depth-first source scan (agent/src/filesystemPolicy.ts:156-273) over a
  finite directory tree. Access checks, link replacement and the deadline are inputs.
 */
module SourceScan {
  import opened Text
  import opened Exclusions

  datatype Kind = RegularFile | Directory | Link | Special

  /** `readable` is the outcome of the access check; only a directory's entries count. */
  datatype Entry = Entry(name: string, kind: Kind, readable: bool, entries: seq<Entry>)

  datatype Code = UnsupportedType | EntryInaccessible | SymlinkEscape

  datatype Extent = NotRequested | Complete | EntryLimit | Deadline

  datatype Report = Report(entriesChecked: nat, linksNotFollowed: nat, entriesExcluded: nat, scan: Extent)

  datatype Outcome = Done(report: Report) | Failed(code: Code)

  const MAX_ENTRIES := 10_000

  function Limit(maxEntries: int): nat {
    if maxEntries == 0 || maxEntries > MAX_ENTRIES then MAX_ENTRIES else if maxEntries < 1 then 1 else maxEntries
  }

  function Under(directory: string, name: string): string {
    if directory == "" then name else directory + "/" + name
  }

  ghost predicate Excluded(user: seq<string>, mandatory: seq<string>, path: string) {
    ScanExcludes(user, path) || ScanExcludes(mandatory, path)
  }

  /** What a complete scan has to check below a directory, in listing order: an excluded
      entry and all it holds is left out, a link is a leaf. */
  ghost function Visible(user: seq<string>, mandatory: seq<string>, directory: string, entries: seq<Entry>): seq<string>
    decreases entries
  {
    if entries == [] then []
    else
      var path := Under(directory, entries[0].name);
      (if Excluded(user, mandatory, path) then []
       else [path] + if entries[0].kind == Directory then Visible(user, mandatory, path, entries[0].entries) else [])
      + Visible(user, mandatory, directory, entries[1..])
  }

  /** Directories still to be listed. */
  datatype Pending = Pending(path: string, entries: seq<Entry>)

  ghost function Owed(user: seq<string>, mandatory: seq<string>, pending: seq<Pending>): multiset<string> {
    if pending == [] then multiset{}
    else
      var last := pending[|pending| - 1];
      Owed(user, mandatory, pending[..|pending| - 1])
      + multiset(Visible(user, mandatory, last.path, last.entries))
  }

  /** Entries in all directories below, links not followed: bounds the outer loop. */
  ghost function Weight(entries: seq<Entry>): nat
    decreases entries
  {
    if entries == [] then 0 else 1 + Weight(entries[0].entries) + Weight(entries[1..])
  }

  ghost function PendingWeight(pending: seq<Pending>): nat {
    if pending == [] then 0
    else 1 + Weight(pending[|pending| - 1].entries) + PendingWeight(pending[..|pending| - 1])
  }

  /** The entries looked at so far, `kept`, and what is still owed, in this directory from
      entry n on and in the pending ones, are together what the scan set out to check. */
  ghost predicate Balanced(
    user: seq<string>, mandatory: seq<string>, all: multiset<string>, checked: seq<string>,
    pending: seq<Pending>, directory: Pending, n: nat)
    requires n <= |directory.entries|
  {
    && multiset(checked) + Owed(user, mandatory, pending)
       + multiset(Visible(user, mandatory, directory.path, directory.entries[n..])) == all
    && forall path <- checked :: path == "" || !Excluded(user, mandatory, path)
  }

  /** Passing over one entry keeps the balance, whichever branch it takes. */
  lemma NextEntry(
    user: seq<string>, mandatory: seq<string>, all: multiset<string>, checked: seq<string>,
    pending: seq<Pending>, directory: Pending, n: nat)
    requires n < |directory.entries| && Balanced(user, mandatory, all, checked, pending, directory, n)
    ensures var entry := directory.entries[n];
            var path := Under(directory.path, entry.name);
            if Excluded(user, mandatory, path) then Balanced(user, mandatory, all, checked, pending, directory, n + 1)
            else
              && multiset(checked + [path]) <= all
              && var more := if entry.kind == Directory then [Pending(path, entry.entries)] else [];
                 Balanced(user, mandatory, all, checked + [path], pending + more, directory, n + 1)
  {
    var entry := directory.entries[n];
    var path := Under(directory.path, entry.name);
    var rest := Visible(user, mandatory, directory.path, directory.entries[n + 1..]);
    var inside := if entry.kind == Directory then Visible(user, mandatory, path, entry.entries) else [];
    VisibleNext(user, mandatory, directory, n);
    hide Excluded, Owed, Visible;
    if Excluded(user, mandatory, path) {
      assert [] + rest == rest;
    } else {
      Rebalanced(checked, Owed(user, mandatory, pending), all, path, inside, rest);
      if entry.kind == Directory {
        OwedPush(user, mandatory, pending, Pending(path, entry.entries));
      } else {
        assert pending + [] == pending;
      }
    }
  }

  lemma VisibleNext(user: seq<string>, mandatory: seq<string>, directory: Pending, n: nat)
    requires n < |directory.entries|
    ensures var entry := directory.entries[n];
            var path := Under(directory.path, entry.name);
            var inside := if entry.kind == Directory then Visible(user, mandatory, path, entry.entries) else [];
            Visible(user, mandatory, directory.path, directory.entries[n..])
            == (if Excluded(user, mandatory, path) then [] else [path] + inside)
               + Visible(user, mandatory, directory.path, directory.entries[n + 1..])
  {
    hide Excluded;
    assert directory.entries[n..][1..] == directory.entries[n + 1..];
  }

  lemma Rebalanced(
    checked: seq<string>, owed: multiset<string>, all: multiset<string>, path: string, inside: seq<string>,
    rest: seq<string>)
    requires multiset(checked) + owed + multiset([path] + inside + rest) == all
    ensures multiset(checked + [path]) <= all
    ensures multiset(checked + [path]) + (owed + multiset(inside)) + multiset(rest) == all
    ensures inside == [] ==> multiset(checked + [path]) + owed + multiset(rest) == all
  {
  }

  lemma OwedPush(user: seq<string>, mandatory: seq<string>, pending: seq<Pending>, next: Pending)
    ensures Owed(user, mandatory, pending + [next])
         == Owed(user, mandatory, pending) + multiset(Visible(user, mandatory, next.path, next.entries))
  {
    assert (pending + [next])[..|pending|] == pending;
  }

  lemma WhatBalanceMeans(
    user: seq<string>, mandatory: seq<string>, all: multiset<string>, checked: seq<string>,
    pending: seq<Pending>, directory: Pending, n: nat)
    requires n <= |directory.entries| && Balanced(user, mandatory, all, checked, pending, directory, n)
    ensures multiset(checked) <= all
    ensures forall path <- checked :: path == "" || !Excluded(user, mandatory, path)
    ensures n == |directory.entries| ==> multiset(checked) + Owed(user, mandatory, pending) == all
  {
    hide Excluded, Owed;
  }

  // ---- how a scan ends ----

  /** What looking at the next entry comes to, unless the scan stops before it. */
  datatype Look = Passed | Checked(link: bool) | Faulty(code: Code) | Escaped

  ghost function LookAt(user: seq<string>, mandatory: seq<string>, directory: string, entry: Entry): Look {
    if Excluded(user, mandatory, Under(directory, entry.name)) then Passed
    else if entry.kind == Special then Faulty(UnsupportedType)
    else if entry.kind != Link && !entry.readable then Faulty(EntryInaccessible)
    else Checked(entry.kind == Link)
  }

  ghost function Looks(user: seq<string>, mandatory: seq<string>, directory: string, entries: seq<Entry>): seq<Look> {
    if entries == [] then []
    else [LookAt(user, mandatory, directory, entries[0])] + Looks(user, mandatory, directory, entries[1..])
  }

  ghost function Found(user: seq<string>, mandatory: seq<string>, directory: string, entry: Entry): seq<Pending> {
    var path := Under(directory, entry.name);
    if entry.kind == Directory && !Excluded(user, mandatory, path) then [Pending(path, entry.entries)] else []
  }

  ghost function Subdirectories(
    user: seq<string>, mandatory: seq<string>, directory: string, entries: seq<Entry>): seq<Pending>
  {
    if entries == [] then []
    else Found(user, mandatory, directory, entries[0]) + Subdirectories(user, mandatory, directory, entries[1..])
  }

  lemma {:induction false} SubdirectoriesWeigh(
    user: seq<string>, mandatory: seq<string>, directory: string, entries: seq<Entry>, pending: seq<Pending>)
    ensures PendingWeight(pending + Subdirectories(user, mandatory, directory, entries))
         <= PendingWeight(pending) + Weight(entries)
  {
    hide Excluded;
    if entries == [] {
      assert pending + [] == pending;
    } else {
      var rest := Subdirectories(user, mandatory, directory, entries[1..]);
      var path := Under(directory, entries[0].name);
      if entries[0].kind == Directory && !Excluded(user, mandatory, path) {
        var longer := pending + [Pending(path, entries[0].entries)];
        SubdirectoriesWeigh(user, mandatory, directory, entries[1..], longer);
        assert longer[..|longer| - 1] == pending;
        assert pending + ([Pending(path, entries[0].entries)] + rest) == longer + rest;
      } else {
        SubdirectoriesWeigh(user, mandatory, directory, entries[1..], pending);
        assert [] + rest == rest;
      }
    }
  }

  /** Every look of an unlimited walk, in order: the directory found last is listed first,
      and one that was moved meanwhile ends the walk. */
  ghost function Walk(
    user: seq<string>, mandatory: seq<string>, moved: string -> bool, pending: seq<Pending>): seq<Look>
    decreases PendingWeight(pending)
  {
    if pending == [] then []
    else
      var last, rest := pending[|pending| - 1], pending[..|pending| - 1];
      if moved(last.path) then [Escaped]
      else
        SubdirectoriesWeigh(user, mandatory, last.path, last.entries, rest);
        Looks(user, mandatory, last.path, last.entries)
        + Walk(user, mandatory, moved, rest + Subdirectories(user, mandatory, last.path, last.entries))
  }

  /** Entries looked at so far. */
  function Looked(report: Report): nat {
    report.entriesExcluded + if report.entriesChecked > 0 then report.entriesChecked - 1 else 0
  }

  function Noted(report: Report, look: Look): Report {
    match look
    case Passed => report.(entriesExcluded := report.entriesExcluded + 1)
    case Checked(link) =>
      report.(entriesChecked := report.entriesChecked + 1,
              linksNotFollowed := report.linksNotFollowed + if link then 1 else 0)
    case _ => report
  }

  /** How the rest of a walk ends after what is reported so far. The limit and the clock come
      before every entry, excluded ones too. */
  ghost function Ending(looks: seq<Look>, limit: nat, late: nat -> bool, report: Report): Outcome {
    if looks == [] then Done(report)
    else if looks[0].Escaped? then Failed(SymlinkEscape)
    else if report.entriesChecked >= limit then Done(report.(scan := EntryLimit))
    else if late(Looked(report)) then Done(report.(scan := Deadline))
    else if looks[0].Faulty? then Failed(looks[0].code)
    else Ending(looks[1..], limit, late, Noted(report, looks[0]))
  }

  /** What a walk has counted, the source itself included. */
  ghost function Tally(looks: seq<Look>): Report {
    if looks == [] then Report(1, 0, 0, Complete) else Noted(Tally(looks[..|looks| - 1]), looks[|looks| - 1])
  }

  function CountOf(looks: seq<Look>, like: Look -> bool): nat {
    if looks == [] then 0 else CountOf(looks[..|looks| - 1], like) + if like(looks[|looks| - 1]) then 1 else 0
  }

  lemma {:induction false} TallyCounts(looks: seq<Look>)
    ensures var report := Tally(looks);
            && report.entriesChecked == 1 + CountOf(looks, (look: Look) => look.Checked?)
            && report.linksNotFollowed == CountOf(looks, look => look == Checked(true))
            && report.entriesExcluded == CountOf(looks, (look: Look) => look.Passed?)
            && report.scan == Complete
  {
    if looks != [] {
      TallyCounts(looks[..|looks| - 1]);
    }
  }

  ghost predicate Stops(looks: seq<Look>, limit: nat, late: nat -> bool, k: nat)
    requires k < |looks|
  {
    looks[k].Escaped? || Tally(looks[..k]).entriesChecked >= limit || late(k) || looks[k].Faulty?
  }

  /** The reason to stop at the k-th look of a walk, and what is reported then. */
  ghost predicate StopsAt(looks: seq<Look>, limit: nat, late: nat -> bool, k: nat, outcome: Outcome)
    requires k < |looks|
  {
    var report := Tally(looks[..k]);
    if looks[k].Escaped? then outcome == Failed(SymlinkEscape)
    else if report.entriesChecked >= limit then outcome == Done(report.(scan := EntryLimit))
    else if late(k) then outcome == Done(report.(scan := Deadline))
    else looks[k].Faulty? && outcome == Failed(looks[k].code)
  }

  /** A walk is complete exactly when no entry meets the limit, a late clock or a fault, and
      then counts them all; else it ends at the first that does, for that reason. */
  ghost predicate Ends(looks: seq<Look>, limit: nat, late: nat -> bool, outcome: Outcome) {
    if forall k :: 0 <= k < |looks| ==> !Stops(looks, limit, late, k) then outcome == Done(Tally(looks))
    else exists k :: 0 <= k < |looks| && StopsAt(looks, limit, late, k, outcome)
                     && forall j :: 0 <= j < k ==> !Stops(looks, limit, late, j)
  }

  lemma {:induction false} TallyLooks(looks: seq<Look>, n: nat)
    requires n <= |looks| && forall k :: 0 <= k < n ==> !looks[k].Escaped? && !looks[k].Faulty?
    ensures Looked(Tally(looks[..n])) == n && Tally(looks[..n]).scan == Complete && Tally(looks[..n]).entriesChecked > 0
  {
    if n > 0 {
      TallyLooks(looks, n - 1);
      assert looks[..n][..n - 1] == looks[..n - 1];
    }
  }

  /** From any point of a walk at which nothing has stopped it. */
  lemma {:induction false} EndsAtFirstStop(looks: seq<Look>, limit: nat, late: nat -> bool, n: nat)
    requires n <= |looks| && forall k :: 0 <= k < n ==> !Stops(looks, limit, late, k)
    ensures Ends(looks, limit, late, Ending(looks[n..], limit, late, Tally(looks[..n])))
    decreases |looks| - n
  {
    forall k | 0 <= k < n ensures !looks[k].Escaped? && !looks[k].Faulty? {
      assert !Stops(looks, limit, late, k);
    }
    TallyLooks(looks, n);
    if n < |looks| {
      if !Stops(looks, limit, late, n) {
        assert looks[n..][1..] == looks[n + 1..] && looks[..n + 1][..n] == looks[..n];
        EndsAtFirstStop(looks, limit, late, n + 1);
      } else {
        assert StopsAt(looks, limit, late, n, Ending(looks[n..], limit, late, Tally(looks[..n])));
      }
    } else {
      assert looks[..n] == looks;
    }
  }

  lemma EndingIsFirstStop(looks: seq<Look>, limit: nat, late: nat -> bool)
    ensures Ends(looks, limit, late, Ending(looks, limit, late, Report(1, 0, 0, Complete)))
  {
    assert looks[0..] == looks && looks[..0] == [];
    hide Stops, StopsAt, Ending;
    EndsAtFirstStop(looks, limit, late, 0);
  }

  /** What is still ahead: this directory from entry n on, then the pending ones. */
  ghost function Ahead(
    user: seq<string>, mandatory: seq<string>, moved: string -> bool, directory: Pending, n: nat,
    pending: seq<Pending>): seq<Look>
    requires n <= |directory.entries|
  {
    Looks(user, mandatory, directory.path, directory.entries[n..])
    + Walk(user, mandatory, moved, pending + Subdirectories(user, mandatory, directory.path, directory.entries[n..]))
  }

  /** How it ends when entry n is looked at next. */
  ghost function Onward(
    user: seq<string>, mandatory: seq<string>, moved: string -> bool, directory: Pending, n: nat,
    pending: seq<Pending>, limit: nat, late: nat -> bool, report: Report): Outcome
    requires n < |directory.entries|
  {
    var entry := directory.entries[n];
    if report.entriesChecked >= limit then Done(report.(scan := EntryLimit))
    else if late(Looked(report)) then Done(report.(scan := Deadline))
    else match LookAt(user, mandatory, directory.path, entry)
      case Faulty(code) => Failed(code)
      case look =>
        var more := pending + Found(user, mandatory, directory.path, entry);
        Ending(Ahead(user, mandatory, moved, directory, n + 1, more), limit, late, Noted(report, look))
  }

  lemma OneLook(
    user: seq<string>, mandatory: seq<string>, moved: string -> bool, directory: Pending, n: nat,
    pending: seq<Pending>, limit: nat, late: nat -> bool, report: Report)
    requires n < |directory.entries|
    ensures Ending(Ahead(user, mandatory, moved, directory, n, pending), limit, late, report)
         == Onward(user, mandatory, moved, directory, n, pending, limit, late, report)
  {
    hide Excluded, Walk, Noted, Looked;
    var entry, rest := directory.entries[n], directory.entries[n + 1..];
    var more := Found(user, mandatory, directory.path, entry);
    var behind := Subdirectories(user, mandatory, directory.path, rest);
    assert directory.entries[n..] == [entry] + rest;
    assert Subdirectories(user, mandatory, directory.path, directory.entries[n..]) == more + behind;
    assert pending + (more + behind) == (pending + more) + behind;
    var look := LookAt(user, mandatory, directory.path, entry);
    var looks := Ahead(user, mandatory, moved, directory, n, pending);
    var next := Ahead(user, mandatory, moved, directory, n + 1, pending + more);
    assert Looks(user, mandatory, directory.path, directory.entries[n..])
        == [look] + Looks(user, mandatory, directory.path, rest);
    assert looks == [look] + next && looks[0] == look && looks[1..] == next;
  }

  /** The directory taken from the stack. */
  lemma OneDirectory(
    user: seq<string>, mandatory: seq<string>, moved: string -> bool, pending: seq<Pending>, directory: Pending,
    limit: nat, late: nat -> bool, report: Report)
    ensures Ending(Walk(user, mandatory, moved, pending + [directory]), limit, late, report)
         == if moved(directory.path) then Failed(SymlinkEscape)
            else Ending(Ahead(user, mandatory, moved, directory, 0, pending), limit, late, report)
  {
    hide Excluded, Ending, Looks;
    var all := pending + [directory];
    assert all[|all| - 1] == directory && all[..|all| - 1] == pending && directory.entries[0..] == directory.entries;
    if moved(directory.path) {
      assert Walk(user, mandatory, moved, all) == [Escaped];
      EscapeEnds(limit, late, report);
    }
  }

  lemma EscapeEnds(limit: nat, late: nat -> bool, report: Report)
    ensures Ending([Escaped], limit, late, report) == Failed(SymlinkEscape)
  {
  }

  lemma NothingAhead(
    user: seq<string>, mandatory: seq<string>, moved: string -> bool, directory: Pending, pending: seq<Pending>)
    ensures Ahead(user, mandatory, moved, directory, |directory.entries|, pending)
         == Walk(user, mandatory, moved, pending)
  {
    hide Walk;
    assert directory.entries[|directory.entries|..] == [] && pending + [] == pending;
    assert [] + Walk(user, mandatory, moved, pending) == Walk(user, mandatory, moved, pending);
  }

  lemma NextWeighs(entries: seq<Entry>, n: nat, path: string, pending: seq<Pending>)
    requires n < |entries|
    ensures Weight(entries[n..]) == 1 + Weight(entries[n].entries) + Weight(entries[n + 1..])
    ensures PendingWeight(pending + [Pending(path, entries[n].entries)])
         == 1 + Weight(entries[n].entries) + PendingWeight(pending)
    ensures pending + [] == pending
  {
    assert entries[n..][1..] == entries[n + 1..];
    assert (pending + [Pending(path, entries[n].entries)])[..|pending|] == pending;
  }

  /** `ended` is how the scan ended in this directory, if it did. */
  method ListDirectory(
    directory: Pending, before: seq<Pending>, start: Report, limit: nat,
    user: seq<string>, mandatory: seq<string>, late: nat -> bool,
    ghost done: seq<string>, ghost all: multiset<string>, ghost moved: string -> bool)
    returns (ended: seq<Outcome>, pending: seq<Pending>, report: Report, ghost checked: seq<string>)
    requires Balanced(user, mandatory, all, done, before, directory, 0)
    requires start.scan == Complete && start.entriesChecked == |done| && 1 <= |done| <= limit
    ensures |ended| <= 1 && multiset(checked) <= all
    ensures forall path <- checked :: path == "" || !Excluded(user, mandatory, path)
    ensures ended != [] && ended[0].Done? ==>
              && ended[0].report == report && report.scan in {EntryLimit, Deadline}
              && report.entriesChecked == |checked| && 1 <= |checked| <= limit
    ensures ended == [] ==>
              && report.scan == Complete && report.entriesChecked == |checked| && 1 <= |checked| <= limit
              && multiset(checked) + Owed(user, mandatory, pending) == all
              && PendingWeight(pending) <= Weight(directory.entries) + PendingWeight(before)
    ensures Ending(Ahead(user, mandatory, moved, directory, 0, before), limit, late, start)
         == if ended == [] then Ending(Walk(user, mandatory, moved, pending), limit, late, report) else ended[0]
  {
    hide Owed, Visible, Excluded, Balanced, Walk, Ending, Ahead, Weight, PendingWeight;
    report, pending, checked := start, before, done;
    var n := 0;
    assert directory.entries[0..] == directory.entries;
    while n < |directory.entries|
      invariant 0 <= n <= |directory.entries|
      invariant report.scan == Complete && report.entriesChecked == |checked| && 1 <= |checked| <= limit
      invariant Balanced(user, mandatory, all, checked, pending, directory, n)
      invariant Weight(directory.entries[n..]) + PendingWeight(pending)
             <= Weight(directory.entries) + PendingWeight(before)
      invariant Ending(Ahead(user, mandatory, moved, directory, 0, before), limit, late, start)
             == Ending(Ahead(user, mandatory, moved, directory, n, pending), limit, late, report)
    {
      OneLook(user, mandatory, moved, directory, n, pending, limit, late, report);
      WhatBalanceMeans(user, mandatory, all, checked, pending, directory, n);
      if report.entriesChecked >= limit || late(report.entriesChecked - 1 + report.entriesExcluded) {
        report := report.(scan := if report.entriesChecked >= limit then EntryLimit else Deadline);
        return [Done(report)], pending, report, checked;
      }
      var entry := directory.entries[n];
      var path := Under(directory.path, entry.name);
      NextEntry(user, mandatory, all, checked, pending, directory, n);
      NextWeighs(directory.entries, n, path, pending);
      n := n + 1;
      var excluded := IsExcluded(user, mandatory, path);
      if excluded {
        report := report.(entriesExcluded := report.entriesExcluded + 1);
        continue;
      }
      checked := checked + [path];
      var more := if entry.kind == Directory then [Pending(path, entry.entries)] else [];
      WhatBalanceMeans(user, mandatory, all, checked, pending + more, directory, n);
      if entry.kind == Special {
        return [Failed(UnsupportedType)], pending, report, checked;
      }
      if entry.kind != Link && !entry.readable {
        return [Failed(EntryInaccessible)], pending, report, checked;
      }
      report := report.(entriesChecked := report.entriesChecked + 1);
      if entry.kind == Link {
        report := report.(linksNotFollowed := report.linksNotFollowed + 1);
      }
      pending := pending + more;
    }
    WhatBalanceMeans(user, mandatory, all, checked, pending, directory, n);
    NothingAhead(user, mandatory, moved, directory, pending);
    return [], pending, report, checked;
  }

  method IsExcluded(user: seq<string>, mandatory: seq<string>, path: string) returns (excluded: bool)
    ensures excluded == Excluded(user, mandatory, path)
  {
    excluded := CompiledExclusions(user, path);
    if !excluded {
      excluded := CompiledExclusions(mandatory, path);
    }
  }

  /** `checked` lists the paths, relative to the source, that were looked at. A complete
      scan looked at exactly what is visible; any scan at no more, and never past its limit. */
  method PreflightSource(
    root: Entry, user: seq<string>, mandatory: seq<string>, scan: bool, maxEntries: int,
    late: nat -> bool, moved: string -> bool)
    returns (outcome: Outcome, ghost checked: seq<string>)
    ensures var inside := if root.kind == Directory then Visible(user, mandatory, "", root.entries) else [];
            var all := multiset([""] + inside);
            && multiset(checked) <= all
            && (outcome.Done? && outcome.report.scan == Complete ==> multiset(checked) == all)
    ensures outcome.Done? ==> outcome.report.entriesChecked == |checked| && 1 <= |checked| <= MAX_ENTRIES
    ensures outcome.Done? && 1 <= maxEntries ==> |checked| <= maxEntries
    ensures outcome.Done? ==> (outcome.report.scan == NotRequested <==> !scan)
    ensures root.kind == Link ==> outcome == Failed(SymlinkEscape)
    ensures root.kind == Special ==> outcome == Failed(UnsupportedType)
    ensures (root.kind == RegularFile || root.kind == Directory) && !root.readable ==>
              outcome == Failed(EntryInaccessible)
    ensures root.readable && (root.kind == RegularFile || (root.kind == Directory && !scan)) ==>
              outcome == Done(Report(1, 0, 0, if scan then Complete else NotRequested))
    ensures root.readable && root.kind == Directory && scan ==>
              outcome == Ending(Walk(user, mandatory, moved, [Pending("", root.entries)]), Limit(maxEntries), late,
                                Report(1, 0, 0, Complete))
    ensures forall path <- checked :: path == "" || !Excluded(user, mandatory, path)
  {
    LimitIsMet(maxEntries);
    hide Visible, Excluded, Walk, Ending, Owed, Balanced, Ahead, Looked, Weight, Limit;
    checked := [""];
    if root.kind == Link {
      return Failed(SymlinkEscape), checked;
    }
    if root.kind == Special {
      return Failed(UnsupportedType), checked;
    }
    if !root.readable {
      return Failed(EntryInaccessible), checked;
    }
    var report := Report(1, 0, 0, if scan then Complete else NotRequested);
    if !scan || root.kind != Directory {
      return Done(report), checked;
    }
    var pending := [Pending("", root.entries)];
    ghost var all := multiset([""] + Visible(user, mandatory, "", root.entries));
    AtFirst(user, mandatory, pending[0]);
    ghost var whole := Ending(Walk(user, mandatory, moved, pending), Limit(maxEntries), late, report);
    while pending != []
      invariant report.scan == Complete && report.entriesChecked == |checked| && 1 <= |checked| <= Limit(maxEntries)
      invariant multiset(checked) + Owed(user, mandatory, pending) == all
      invariant forall path <- checked :: path == "" || !Excluded(user, mandatory, path)
      invariant Ending(Walk(user, mandatory, moved, pending), Limit(maxEntries), late, report) == whole
      decreases PendingWeight(pending)
    {
      var directory := pending[|pending| - 1];
      assert pending == pending[..|pending| - 1] + [directory];
      pending := pending[..|pending| - 1];
      OneDirectory(user, mandatory, moved, pending, directory, Limit(maxEntries), late, report);
      if moved(directory.path) {
        return Failed(SymlinkEscape), checked;
      }
      DirectoryOpens(user, mandatory, all, checked, pending, directory);
      var ended;
      ended, pending, report, checked :=
        ListDirectory(directory, pending, report, Limit(maxEntries), user, mandatory, late, checked, all, moved);
      if ended != [] {
        return ended[0], checked;
      }
    }
    NothingLeft(user, mandatory, moved, Limit(maxEntries), late, report);
    return Done(report), checked;
  }

  lemma LimitIsMet(maxEntries: int)
    ensures 1 <= Limit(maxEntries) <= MAX_ENTRIES
    ensures 1 <= maxEntries <= MAX_ENTRIES ==> Limit(maxEntries) == maxEntries
    ensures maxEntries > MAX_ENTRIES || maxEntries == 0 ==> Limit(maxEntries) == MAX_ENTRIES
  {
  }

  /** The agent's own exclusions count like the user's. */
  lemma BothListsExclude(user: seq<string>, mandatory: seq<string>, path: string)
    ensures Excluded(user, mandatory, path) <==> ScanExcludes(user + mandatory, path)
  {
    forall pattern ensures pattern in user + mandatory <==> pattern in user || pattern in mandatory {}
  }

  lemma NothingLeft(
    user: seq<string>, mandatory: seq<string>, moved: string -> bool, limit: nat, late: nat -> bool, report: Report)
    ensures Ending(Walk(user, mandatory, moved, []), limit, late, report) == Done(report)
    ensures Owed(user, mandatory, []) == multiset{}
  {
  }

  lemma AtFirst(user: seq<string>, mandatory: seq<string>, source: Pending)
    ensures Owed(user, mandatory, [source]) == multiset(Visible(user, mandatory, source.path, source.entries))
  {
    assert [source][..0] == [];
  }

  lemma DirectoryOpens(
    user: seq<string>, mandatory: seq<string>, all: multiset<string>, checked: seq<string>,
    pending: seq<Pending>, directory: Pending)
    requires multiset(checked) + Owed(user, mandatory, pending + [directory]) == all
    requires forall path <- checked :: path == "" || !Excluded(user, mandatory, path)
    ensures Balanced(user, mandatory, all, checked, pending, directory, 0)
    ensures PendingWeight(pending + [directory]) == 1 + Weight(directory.entries) + PendingWeight(pending)
  {
    hide Visible, Excluded, Weight;
    assert directory.entries[0..] == directory.entries;
    assert (pending + [directory])[..|pending|] == pending;
  }

  // ---- every visible entry is looked at ----

  /** The entry lies at this path of the tree, and nothing above it is excluded. */
  ghost predicate Lies(
    user: seq<string>, mandatory: seq<string>, directory: string, entries: seq<Entry>, path: string, entry: Entry)
    decreases entries
  {
    entries != [] &&
      var first := Under(directory, entries[0].name);
      || (path == first && entry == entries[0])
      || (entries[0].kind == Directory && !Excluded(user, mandatory, first)
          && Lies(user, mandatory, first, entries[0].entries, path, entry))
      || Lies(user, mandatory, directory, entries[1..], path, entry)
  }

  /** What a look at an entry must come to. */
  ghost function Fate(user: seq<string>, mandatory: seq<string>, path: string, entry: Entry): Look {
    if ScanExcludes(user, path) || ScanExcludes(mandatory, path) then Passed
    else match entry.kind
      case Special => Faulty(UnsupportedType)
      case Link => Checked(true)
      case _ => if entry.readable then Checked(false) else Faulty(EntryInaccessible)
  }

  lemma {:induction false} LiesHereOrBelow(
    user: seq<string>, mandatory: seq<string>, directory: string, entries: seq<Entry>, path: string, entry: Entry)
    requires Lies(user, mandatory, directory, entries, path, entry)
    ensures Fate(user, mandatory, path, entry) in Looks(user, mandatory, directory, entries)
            || exists below <- Subdirectories(user, mandatory, directory, entries) ::
                 Lies(user, mandatory, below.path, below.entries, path, entry)
  {
    hide Excluded;
    var first := Under(directory, entries[0].name);
    if path == first && entry == entries[0] {
      FateIsLook(user, mandatory, directory, entry);
    } else if entries[0].kind == Directory && !Excluded(user, mandatory, first)
              && Lies(user, mandatory, first, entries[0].entries, path, entry) {
      assert Pending(first, entries[0].entries) in Subdirectories(user, mandatory, directory, entries);
    } else {
      LiesHereOrBelow(user, mandatory, directory, entries[1..], path, entry);
    }
  }

  lemma FateIsLook(user: seq<string>, mandatory: seq<string>, directory: string, entry: Entry)
    ensures Fate(user, mandatory, Under(directory, entry.name), entry) == LookAt(user, mandatory, directory, entry)
  {
    hide ScanExcludes;
  }

  /** Unless a directory was moved meanwhile, an unlimited walk looks at every entry that no
      exclusion hides, and takes it for what it is. */
  lemma {:induction false} WalkLooksAtAll(
    user: seq<string>, mandatory: seq<string>, moved: string -> bool, pending: seq<Pending>, from: Pending,
    path: string, entry: Entry)
    requires from in pending && Lies(user, mandatory, from.path, from.entries, path, entry)
    requires Escaped !in Walk(user, mandatory, moved, pending)
    ensures Fate(user, mandatory, path, entry) in Walk(user, mandatory, moved, pending)
    decreases PendingWeight(pending)
  {
    hide Excluded, Lies, Fate, Looks, Subdirectories;
    var last, rest := pending[|pending| - 1], pending[..|pending| - 1];
    var found := Subdirectories(user, mandatory, last.path, last.entries);
    SubdirectoriesWeigh(user, mandatory, last.path, last.entries, rest);
    assert Walk(user, mandatory, moved, pending)
        == Looks(user, mandatory, last.path, last.entries) + Walk(user, mandatory, moved, rest + found);
    if from == last {
      LiesHereOrBelow(user, mandatory, last.path, last.entries, path, entry);
      if Fate(user, mandatory, path, entry) !in Looks(user, mandatory, last.path, last.entries) {
        var below :| below in found && Lies(user, mandatory, below.path, below.entries, path, entry);
        WalkLooksAtAll(user, mandatory, moved, rest + found, below, path, entry);
      }
    } else {
      WalkLooksAtAll(user, mandatory, moved, rest + found, from, path, entry);
    }
  }

  /** A walk looks at nothing else: each look is the fate of some entry, at its path. */
  ghost predicate Comes(
    user: seq<string>, mandatory: seq<string>, pending: seq<Pending>, look: Look)
  {
    exists from: Pending, path: string, entry: Entry ::
      from in pending && Lies(user, mandatory, from.path, from.entries, path, entry)
      && look == Fate(user, mandatory, path, entry)
  }

  lemma {:induction false} LooksCome(
    user: seq<string>, mandatory: seq<string>, directory: string, entries: seq<Entry>, look: Look)
    requires look in Looks(user, mandatory, directory, entries)
    ensures exists path: string, entry: Entry ::
              Lies(user, mandatory, directory, entries, path, entry) && look == Fate(user, mandatory, path, entry)
  {
    hide Excluded, Fate;
    if look == LookAt(user, mandatory, directory, entries[0]) {
      FateIsLook(user, mandatory, directory, entries[0]);
      assert Lies(user, mandatory, directory, entries, Under(directory, entries[0].name), entries[0]);
    } else {
      LooksCome(user, mandatory, directory, entries[1..], look);
      var path: string, entry: Entry :| Lies(user, mandatory, directory, entries[1..], path, entry)
                                        && look == Fate(user, mandatory, path, entry);
      assert Lies(user, mandatory, directory, entries, path, entry);
    }
  }

  lemma {:induction false} LiesBelow(
    user: seq<string>, mandatory: seq<string>, directory: string, entries: seq<Entry>, below: Pending,
    path: string, entry: Entry)
    requires below in Subdirectories(user, mandatory, directory, entries)
    requires Lies(user, mandatory, below.path, below.entries, path, entry)
    ensures Lies(user, mandatory, directory, entries, path, entry)
  {
    hide Excluded;
    if below !in Found(user, mandatory, directory, entries[0]) {
      LiesBelow(user, mandatory, directory, entries[1..], below, path, entry);
    }
  }

  lemma {:induction false} WalkLooksAtNothingElse(
    user: seq<string>, mandatory: seq<string>, moved: string -> bool, pending: seq<Pending>, look: Look)
    requires look in Walk(user, mandatory, moved, pending) && look != Escaped
    ensures Comes(user, mandatory, pending, look)
    decreases PendingWeight(pending)
  {
    hide Excluded, Lies, Fate, Looks, Subdirectories;
    var last, rest := pending[|pending| - 1], pending[..|pending| - 1];
    var found := Subdirectories(user, mandatory, last.path, last.entries);
    SubdirectoriesWeigh(user, mandatory, last.path, last.entries, rest);
    if look in Looks(user, mandatory, last.path, last.entries) {
      LooksCome(user, mandatory, last.path, last.entries, look);
    } else {
      WalkLooksAtNothingElse(user, mandatory, moved, rest + found, look);
      var from: Pending, path: string, entry: Entry :|
        from in rest + found && Lies(user, mandatory, from.path, from.entries, path, entry)
        && look == Fate(user, mandatory, path, entry);
      if from !in rest {
        LiesBelow(user, mandatory, last.path, last.entries, from, path, entry);
        assert Lies(user, mandatory, last.path, last.entries, path, entry) && last in pending;
      } else {
        assert from in pending;
      }
    }
  }

  /** So a scan reported complete has met no entry that is special or cannot be read. */
  lemma CompleteMeansReadable(
    user: seq<string>, mandatory: seq<string>, moved: string -> bool, source: Pending, limit: nat, late: nat -> bool,
    path: string, entry: Entry)
    requires Ending(Walk(user, mandatory, moved, [source]), limit, late, Report(1, 0, 0, Complete)).Done?
    requires Ending(Walk(user, mandatory, moved, [source]), limit, late, Report(1, 0, 0, Complete)).report.scan
          == Complete
    requires Lies(user, mandatory, source.path, source.entries, path, entry)
    requires !ScanExcludes(user, path) && !ScanExcludes(mandatory, path)
    ensures entry.kind != Special && (entry.kind == Link || entry.readable)
  {
    var looks := Walk(user, mandatory, moved, [source]);
    EndingIsFirstStop(looks, limit, late);
    NoneStopped(looks, limit, late, Ending(looks, limit, late, Report(1, 0, 0, Complete)));
    hide Ending, Walk, Lies, ScanExcludes;
    assert Escaped !in looks;
    WalkLooksAtAll(user, mandatory, moved, [source], source, path, entry);
    var k :| 0 <= k < |looks| && looks[k] == Fate(user, mandatory, path, entry);
  }

  lemma NoneStopped(looks: seq<Look>, limit: nat, late: nat -> bool, outcome: Outcome)
    requires Ends(looks, limit, late, outcome) && outcome.Done? && outcome.report.scan == Complete
    ensures forall k :: 0 <= k < |looks| ==> !looks[k].Escaped? && !looks[k].Faulty?
  {
    hide Tally;
    forall k | 0 <= k < |looks| ensures !looks[k].Escaped? && !looks[k].Faulty? {
      assert !Stops(looks, limit, late, k);
    }
  }

  // ---- what is visible, without mentioning the order of the walk ----

  /** A file name, as a directory listing returns it. */
  predicate Name(s: string) { s != "" && s != ".." && '/' !in s }

  predicate Named(entries: seq<Entry>)
    decreases entries
  {
    entries != [] ==> Name(entries[0].name) && Named(entries[0].entries) && Named(entries[1..])
  }

  /** Every entry of the tree, no filter applied. */
  function Everything(directory: string, entries: seq<Entry>): seq<string>
    decreases entries
  {
    if entries == [] then []
    else
      var path := Under(directory, entries[0].name);
      [path] + (if entries[0].kind == Directory then Everything(path, entries[0].entries) else [])
      + Everything(directory, entries[1..])
  }

  /** Every path a walk comes by is one the exclusions may match. */
  lemma {:induction false} EverythingIsRelative(directory: string, entries: seq<Entry>, path: string)
    requires Named(entries) && (directory == "" || Relative(directory)) && path in Everything(directory, entries)
    ensures Relative(path)
    decreases entries
  {
    var first := Under(directory, entries[0].name);
    UnderIsRelative(directory, entries[0].name);
    hide Relative;
    if path != first {
      if entries[0].kind == Directory && path in Everything(first, entries[0].entries) {
        EverythingIsRelative(first, entries[0].entries, path);
      } else {
        EverythingIsRelative(directory, entries[1..], path);
      }
    }
  }

  lemma UnderIsRelative(directory: string, name: string)
    requires Name(name) && (directory == "" || Relative(directory))
    ensures Relative(Under(directory, name))
  {
    SplitOfPlain(name, '/');
    if directory != "" {
      SplitOfConcat(directory, name, '/');
      assert directory + "/" + name == directory + ['/'] + name;
    } else {
      assert name[0] in name;
    }
  }

  ghost function Unexcluded(user: seq<string>, mandatory: seq<string>, paths: seq<string>): seq<string> {
    if paths == [] then []
    else (if Excluded(user, mandatory, paths[0]) then [] else [paths[0]]) + Unexcluded(user, mandatory, paths[1..])
  }

  lemma {:induction false} UnexcludedConcat(user: seq<string>, mandatory: seq<string>, a: seq<string>, b: seq<string>)
    ensures Unexcluded(user, mandatory, a + b) == Unexcluded(user, mandatory, a) + Unexcluded(user, mandatory, b)
  {
    hide Excluded;
    if a == [] {
      assert a + b == b;
    } else {
      assert (a + b)[1..] == a[1..] + b && (a + b)[0] == a[0];
      hide Unexcluded;
      UnexcludedConcat(user, mandatory, a[1..], b);
      UnexcludedFirst(user, mandatory, a);
      UnexcludedFirst(user, mandatory, a + b);
      Regroup(if Excluded(user, mandatory, a[0]) then [] else [a[0]], Unexcluded(user, mandatory, a[1..]),
              Unexcluded(user, mandatory, b));
    }
  }

  lemma Regroup(a: seq<string>, b: seq<string>, c: seq<string>)
    ensures a + (b + c) == (a + b) + c
  {
  }

  lemma UnexcludedFirst(user: seq<string>, mandatory: seq<string>, paths: seq<string>)
    requires paths != []
    ensures Unexcluded(user, mandatory, paths)
         == (if Excluded(user, mandatory, paths[0]) then [] else [paths[0]]) + Unexcluded(user, mandatory, paths[1..])
  {
    hide Excluded;
  }

  lemma {:induction false} NothingBelowExcluded(
    user: seq<string>, mandatory: seq<string>, top: string, directory: string, entries: seq<Entry>)
    requires Named(entries) && directory != "" && Excluded(user, mandatory, top)
    requires directory == top || exists below :: ".." !in Split(below, '/') && directory == top + "/" + below
    ensures Unexcluded(user, mandatory, Everything(directory, entries)) == []
    decreases entries
  {
    if entries != [] {
      var path := Under(directory, entries[0].name);
      var below := BelowTop(top, directory, entries[0].name);
      if ScanExcludes(user, top) {
        ExclusionCoversSubtree(user, top, below);
      } else {
        ExclusionCoversSubtree(mandatory, top, below);
      }
      NothingBelowExcluded(user, mandatory, top, path, entries[0].entries);
      NothingBelowExcluded(user, mandatory, top, directory, entries[1..]);
      var inside := if entries[0].kind == Directory then Everything(path, entries[0].entries) else [];
      UnexcludedConcat(user, mandatory, [path] + inside, Everything(directory, entries[1..]));
      UnexcludedConcat(user, mandatory, [path], inside);
    }
  }

  lemma BelowTop(top: string, directory: string, name: string) returns (below: string)
    requires Name(name) && directory != ""
    requires directory == top || exists rest :: ".." !in Split(rest, '/') && directory == top + "/" + rest
    ensures ".." !in Split(below, '/') && Under(directory, name) == top + "/" + below
  {
    SplitOfPlain(name, '/');
    if directory == top {
      return name;
    }
    var rest :| ".." !in Split(rest, '/') && directory == top + "/" + rest;
    SplitOfConcat(rest, name, '/');
    below := rest + "/" + name;
    assert directory + "/" + name == top + "/" + below;
  }

  /** A complete scan checks exactly the entries no exclusion matches: since a match
      covers the subtree, pruning while walking loses nothing and keeps nothing extra. */
  lemma {:induction false} VisibleIsUnexcluded(
    user: seq<string>, mandatory: seq<string>, directory: string, entries: seq<Entry>)
    requires Named(entries)
    ensures Visible(user, mandatory, directory, entries)
         == Unexcluded(user, mandatory, Everything(directory, entries))
    decreases entries
  {
    if entries != [] {
      var path := Under(directory, entries[0].name);
      var inside := if entries[0].kind == Directory then Everything(path, entries[0].entries) else [];
      VisibleIsUnexcluded(user, mandatory, directory, entries[1..]);
      VisibleIsUnexcluded(user, mandatory, path, entries[0].entries);
      UnexcludedConcat(user, mandatory, [path] + inside, Everything(directory, entries[1..]));
      UnexcludedConcat(user, mandatory, [path], inside);
      if Excluded(user, mandatory, path) {
        NothingBelowExcluded(user, mandatory, path, path, entries[0].entries);
      }
    }
  }
}
