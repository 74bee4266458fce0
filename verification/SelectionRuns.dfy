/**
  What reports, applies and recovery may be relied on for, over every run of the store
  (agent/src/sourceAccessPolicy.ts:777-790, 881-890, 1035-1158, 1497-1583).
 */
module SelectionRuns {
  import opened SourcePaths
  import opened HostPolicy
  import opened HostLog
  import opened Selections
  import opened SelectionFiles

  // ---- grants ----

  lemma {:induction false} GrantsAreKept(config: Config, actions: seq<Action>, n: nat)
    requires n <= |actions|
    ensures Run(config, actions[..n]).granted <= Run(config, actions).granted
    decreases |actions|
  {
    if n < |actions| {
      var before := actions[..|actions| - 1];
      GrantsAreKept(config, before, n);
      assert before[..n] == actions[..n];
      StepKeepsGrants(config, Run(config, before), actions[|actions| - 1]);
    } else {
      assert actions[..n] == actions;
    }
  }

  lemma StepKeepsGrants(config: Config, s: State, action: Action)
    ensures s.granted <= Do(config, s, action).granted
  {
    if action.Go? && action.pid in s.procs {
      OnlyReportsGrant(config, s, action.pid, s.procs[action.pid], action.outcome);
    }
    hide Readable, Follows, HostReadable, DoFence, DoBind, DoWrite, DoRecover, SelectionReadable, Succeeds, RevisionOf;
  }

  /** Grants come from the last read of a report that finds neither marker nor latch. */
  lemma OnlyReportsGrant(config: Config, s: State, pid: Pid, pc: Pc, outcome: Outcome)
    ensures var t := DoGo(config, s, pid, pc, outcome);
            (t.granted == s.granted && t.done == s.done)
            || (pc.Reporting? && pc.reading.ReadMarker? && s.cached.marker.None? && pid !in s.latched)
  {
    hide HostReadable, Selectable, Recoverable, SelectionReadable, Succeeds, RevisionOf, Serve;
  }

  /** A granted selection is durable, and no later crash or power loss brings the store
      back below it. */
  lemma GrantedStaysDurable(config: Config, actions: seq<Action>, n: nat, grant: Authorization)
    requires CarefulRun(config, actions) && n <= |actions|
    requires grant in Run(config, actions[..n]).granted
    ensures Version(grant.selection) <= Version(Run(config, actions).durable.selection)
    ensures Version(grant.selection) <= Version(Do(config, Run(config, actions), PowerLoss).cached.selection)
  {
    hide Run, CarefulRun, FilesOk, Bound;
    GrantsAreKept(config, actions, n);
    GrantHolds(config, actions, grant);
    NotAboveDurable(config, Run(config, actions), grant.selection);
  }

  lemma NotAboveDurable(config: Config, s: State, selection: Option<Selection>)
    requires FilesOk(config, s) && Settled(s, selection)
    ensures Version(selection) <= Version(s.durable.selection)
  {
    hide Chain, Bound;
  }

  lemma GrantHolds(config: Config, actions: seq<Action>, grant: Authorization)
    requires CarefulRun(config, actions) && grant in Run(config, actions).granted
    ensures FilesOk(config, Run(config, actions)) && GrantOk(config, Run(config, actions), grant)
  {
    EveryCarefulRunIsOk(config, actions);
    hide Run, CarefulRun, ProcsOk, OneFenced, DoneOk, FilesOk, GrantOk;
  }

  /** One version, one selection: whatever is lost or recovered in between, two grants of
      the same version granted the same selection. */
  lemma OneSelectionPerVersion(config: Config, actions: seq<Action>, a: Authorization, b: Authorization)
    requires CarefulRun(config, actions)
    requires a in Run(config, actions).granted && b in Run(config, actions).granted
    requires Version(a.selection) == Version(b.selection)
    ensures a.selection == b.selection
  {
    hide Run, CarefulRun, FilesOk, Bound;
    GrantHolds(config, actions, a);
    GrantHolds(config, actions, b);
    SameVersion(Run(config, actions), a.selection, b.selection);
  }

  lemma SameVersion(s: State, a: Option<Selection>, b: Option<Selection>)
    requires Settled(s, a) && Settled(s, b) && Version(a) == Version(b)
    ensures a == b
  {
  }

  lemma StepKeepsAnchor(config: Config, s: State, action: Action)
    requires s.durable.anchor && s.cached.anchor
    ensures Do(config, s, action).durable.anchor && Do(config, s, action).cached.anchor
  {
    hide DoGo, Readable, Follows, Persisted;
    if action.Go? && action.pid in s.procs {
      GoKeepsAnchor(config, s, action.pid, s.procs[action.pid], action.outcome);
    }
  }

  lemma GoKeepsAnchor(config: Config, s: State, pid: Pid, pc: Pc, outcome: Outcome)
    requires s.durable.anchor && s.cached.anchor
    ensures DoGo(config, s, pid, pc, outcome).durable.anchor && DoGo(config, s, pid, pc, outcome).cached.anchor
  {
    hide DoReport, DoFence, DoRecover, Readable, Selectable, Persisted, Target;
    if !pc.Binding? && !pc.Applying? {
      OnlyApplyChangesSelection(config, s, pid, pc, outcome);
      hide DoGo;
    }
  }

  /** While the marker shows, no step grants anything; nor does a process with the latch
      set. */
  lemma NothingGrantedWhileUncertain(config: Config, s: State, action: Action)
    requires s.cached.marker.Some? || (action.Go? && action.pid in s.latched)
    ensures Do(config, s, action).granted == s.granted && Do(config, s, action).done == s.done
  {
    if action.Go? && action.pid in s.procs {
      OnlyReportsGrant(config, s, action.pid, s.procs[action.pid], action.outcome);
    }
    hide DoGo, DoFlush, DoBegin, Readable, Follows;
  }

  /** A transaction is open, and a power loss will not forget it. */
  predicate Marked(s: State) { s.cached.marker.Some? && s.durable.marker.Some? }

  /** The step that ends a transaction: apply's own, or a recovery's. */
  predicate Removes(s: State, action: Action) {
    && action.Go? && action.outcome.Works? && action.pid in s.procs
    && match s.procs[action.pid]
       case Applying(writing, _) => writing.Unmark?
       case Recovering(recovery) => recovery.TakeMarker?
       case _ => false
  }

  ghost predicate RemovesNone(config: Config, s: State, actions: seq<Action>) {
    actions != [] ==>
      var before := actions[..|actions| - 1];
      RemovesNone(config, s, before) && !Removes(RunFrom(config, s, before), actions[|actions| - 1])
  }

  lemma GoKeepsMarked(config: Config, s: State, pid: Pid, pc: Pc, outcome: Outcome)
    requires Marked(s) && pid in s.procs && s.procs[pid] == pc && !Removes(s, Go(pid, outcome))
    ensures Marked(DoGo(config, s, pid, pc, outcome))
  {
    hide HostReadable, Selectable, Recoverable, SelectionReadable, RevisionOf, Serve, Target, RequestOf;
    match pc
    case Reporting(_, _) =>
    case Fence(_) =>
    case Binding(_) =>
    case Applying(writing, target) =>
      hide Written;
      if outcome.Works? { WrittenKeepsMarked(s, writing, target); }
    case Recovering(_) =>
  }

  lemma WrittenKeepsMarked(s: State, writing: Writing, target: Selection)
    requires Marked(s) && !writing.Unmark?
    ensures Marked(Written(s, writing, target))
  {
    hide RequestOf;
  }

  lemma StepKeepsMarked(config: Config, s: State, action: Action)
    requires Marked(s) && !Removes(s, action)
    ensures Marked(Do(config, s, action))
  {
    hide DoGo, Removes, Readable, Follows;
    if action.Go? && action.pid in s.procs {
      GoKeepsMarked(config, s, action.pid, s.procs[action.pid], action.outcome);
    }
  }

  /** From the moment a marker is durable, nothing is granted and no apply succeeds until
      one of the two removals: no report, crash, power loss or repeat gets round it. */
  lemma {:induction false} NothingGrantedUntilRemoved(config: Config, s: State, actions: seq<Action>)
    requires Marked(s) && RemovesNone(config, s, actions)
    ensures var t := RunFrom(config, s, actions);
            Marked(t) && t.granted == s.granted && t.done == s.done
  {
    if actions == [] {
    } else {
      var before, last := actions[..|actions| - 1], actions[|actions| - 1];
      NothingGrantedUntilRemoved(config, s, before);
      var t := RunFrom(config, s, before);
      assert t.cached.marker.Some?;
      NothingGrantedWhileUncertain(config, t, last);
      hide Do, Marked, Removes;
      StepKeepsMarked(config, t, last);
    }
  }

  // ---- applies ----

  /** When an apply returns success, its request is what both views of the store hold, no
      transaction is open, and after a write the policy is still the one it named. */
  lemma SuccessStands(config: Config, s: State, pid: Pid, outcome: Outcome)
    requires Inv(config, s) && pid in s.procs && Do(config, s, Go(pid, outcome)).done != s.done
    ensures s.procs[pid].Reporting? && !s.procs[pid].goal.Poll?
    ensures var t := Do(config, s, Go(pid, outcome));
            && t.done == s.done + [s.procs[pid].goal.request]
            && t.cached.selection == t.durable.selection && Answers(t.durable.selection, s.procs[pid].goal.request)
            && t.cached.marker.None?
    ensures var t, goal := Do(config, s, Go(pid, outcome)), s.procs[pid].goal;
            && |t.granted| == |s.granted| + 1
            && (goal.After? ==> RevisionOf(config, t.granted[|s.granted|].host) == goal.request.revision)
  {
    OnlyReportsGrant(config, s, pid, s.procs[pid], outcome);
    SuccessIsGranted(config, s, pid, s.procs[pid].goal, s.procs[pid].reading, outcome.Works?);
    var goal, reading := s.procs[pid].goal, s.procs[pid].reading;
    assert ProcOk(config, s, s.procs[pid]);
    hide ProcOk, ProcsOk, FilesOk, GrantsOk, RevisionOf, Answers, Bound, DoneOk, Chain, HostReadable, Succeeds;
    ServedSuccess(config, s, pid, goal, reading, outcome.Works?);
  }

  lemma SuccessIsGranted(config: Config, s: State, pid: Pid, goal: Goal, reading: Reading, ok: bool)
    requires DoReport(config, s, pid, goal, reading, ok).done != s.done
    ensures var t := DoReport(config, s, pid, goal, reading, ok);
            && |t.granted| == |s.granted| + 1
            && (goal.After? ==> RevisionOf(config, t.granted[|s.granted|].host) == goal.request.revision)
  {
    hide HostReadable, SelectionReadable, RevisionOf;
  }

  lemma Unmarked(config: Config, s: State)
    requires FilesOk(config, s) && s.cached.marker.None?
    ensures s.cached.selection == s.durable.selection && s.cached.anchor == s.durable.anchor
  {
    hide Chain, Bound;
  }

  lemma ServedSuccess(config: Config, s: State, pid: Pid, goal: Goal, reading: Reading, ok: bool)
    requires FilesOk(config, s) && DoneOk(s) && ReportOk(config, s, goal, reading) && reading.ReadMarker?
    requires s.cached.marker.None? && DoReport(config, s, pid, goal, reading, ok).done != s.done
    ensures !goal.Poll?
    ensures var t := DoReport(config, s, pid, goal, reading, ok);
            && t.done == s.done + [goal.request] && t.cached == s.cached && t.durable == s.durable
            && t.cached.selection == t.durable.selection && Answers(t.durable.selection, goal.request)
  {
    Unmarked(config, s);
    hide ReportOk, FilesOk, RevisionOf, Answers, DoneOk, HostReadable, Succeeds;
    SuccessIsOk(config, s, goal, reading.host, reading.since, reading.selection);
  }

  /** Two successful requests never name the same version, and what succeeded is what was
      settled under that version, for good. */
  lemma OneSuccessPerVersion(config: Config, actions: seq<Action>, a: Request, b: Request)
    requires CarefulRun(config, actions) && a in Run(config, actions).done && b in Run(config, actions).done
    ensures a.expected == b.expected ==> a == b
    ensures a.expected + 1 <= Version(Run(config, actions).durable.selection)
    ensures a.expected + 1 == Version(Run(config, actions).durable.selection) ==>
              Answers(Run(config, actions).durable.selection, a)
  {
    EveryCarefulRunIsOk(config, actions);
    var s := Run(config, actions);
    hide Run, CarefulRun, ProcsOk, OneFenced, GrantsOk;
    DoneIsSettled(config, s, a);
    DoneIsSettled(config, s, b);
  }

  lemma DoneIsSettled(config: Config, s: State, request: Request)
    requires FilesOk(config, s) && DoneOk(s) && request in s.done
    ensures request.expected < |s.settled| && Answers(Some(s.settled[request.expected]), request)
    ensures request.expected + 1 <= Version(s.durable.selection)
    ensures request.expected + 1 == Version(s.durable.selection) ==> Answers(s.durable.selection, request)
  {
    hide Chain, Bound;
  }

  /** The selection and the anchor stay as they are, and no process starts to write them. */
  predicate Spared(s: State, t: State, pid: Pid) {
    && SameSelection(s, t)
    && (forall p <- t.procs :: p == pid || (p in s.procs && t.procs[p] == s.procs[p]))
    && (pid in t.procs ==> !t.procs[pid].Applying?)
  }

  /** Recovery changes neither anchor nor selection. */
  lemma RecoveryChangesNoSelection(config: Config, s: State, pid: Pid, recovery: Recovery, ok: bool)
    ensures Spared(s, DoRecover(config, s, pid, recovery, ok), pid)
  {
    hide HostReadable, RevisionOf, Recoverable, Persisted;
  }

  lemma FenceChangesNoSelection(s: State, pid: Pid, fencing: Fencing, ok: bool)
    ensures Spared(s, DoFence(s, pid, fencing, ok), pid)
  {
    hide Persisted;
  }

  lemma ReportChangesNoSelection(config: Config, s: State, pid: Pid, goal: Goal, reading: Reading, ok: bool)
    ensures Spared(s, DoReport(config, s, pid, goal, reading, ok), pid)
  {
    hide HostReadable, RevisionOf, SelectionReadable, Succeeds;
  }

  /** Only apply, once bound, changes the selection. */
  lemma OnlyApplyChangesSelection(config: Config, s: State, pid: Pid, pc: Pc, outcome: Outcome)
    requires !pc.Binding? && !pc.Applying?
    ensures Spared(s, DoGo(config, s, pid, pc, outcome), pid)
  {
    hide DoFence, DoReport, DoRecover, Spared;
    match pc
    case Fence(fencing) => FenceChangesNoSelection(s, pid, fencing, outcome.Works?);
    case Recovering(recovery) => RecoveryChangesNoSelection(config, s, pid, recovery, outcome.Works?);
    case Reporting(goal, reading) => ReportChangesNoSelection(config, s, pid, goal, reading, outcome.Works?);
  }

  // ---- what apply writes is readable ----

  predicate FileReadable(config: Config, selection: Option<Selection>) {
    selection.Some? ==> SelectionReadable(config, selection.value)
  }

  ghost predicate AllReadable(config: Config, s: State) {
    && FileReadable(config, s.cached.selection) && FileReadable(config, s.durable.selection)
    && forall pid <- s.procs :: s.procs[pid].Applying? ==> SelectionReadable(config, s.procs[pid].target)
  }

  lemma BindKeepsReadable(config: Config, s: State, pid: Pid, request: Request, ok: bool)
    requires ConfigValid(config) && AllReadable(config, s) && pid in s.procs
    ensures AllReadable(config, DoBind(config, s, pid, request, ok))
  {
    hide ConfigValid, Readable, Selectable, SelectionReadable;
    if Readable(config, Last(s.log)) && Selectable(config, Last(s.log), request) {
      TargetIsReadable(config, Last(s.log), request);
    }
  }

  lemma WriteKeepsReadable(config: Config, s: State, pid: Pid, writing: Writing, target: Selection, outcome: Outcome)
    requires AllReadable(config, s) && pid in s.procs && s.procs[pid] == Applying(writing, target)
    ensures AllReadable(config, DoWrite(s, pid, writing, target, outcome))
  {
    hide SelectionReadable, Persisted;
  }

  lemma GoKeepsReadable(config: Config, s: State, pid: Pid, pc: Pc, outcome: Outcome)
    requires ConfigValid(config) && AllReadable(config, s) && pid in s.procs && s.procs[pid] == pc
    ensures AllReadable(config, DoGo(config, s, pid, pc, outcome))
  {
    hide ConfigValid, SelectionReadable, DoReport, DoFence, DoRecover, DoBind, DoWrite;
    match pc
    case Binding(request) => BindKeepsReadable(config, s, pid, request, outcome.Works?);
    case Applying(writing, target) => WriteKeepsReadable(config, s, pid, writing, target, outcome);
    case _ => OnlyApplyChangesSelection(config, s, pid, pc, outcome);
  }

  lemma StepKeepsReadable(config: Config, s: State, action: Action)
    requires ConfigValid(config) && AllReadable(config, s)
    ensures AllReadable(config, Do(config, s, action))
  {
    hide ConfigValid, Readable, Follows, SelectionReadable, DoGo;
    if action.Go? && action.pid in s.procs {
      hide AllReadable;
      GoKeepsReadable(config, s, action.pid, s.procs[action.pid], action.outcome);
    }
  }

  /** The reader accepts every selection file that any run leaves behind. */
  lemma {:induction false} EverySelectionIsReadable(config: Config, actions: seq<Action>)
    requires ConfigValid(config)
    ensures AllReadable(config, Run(config, actions))
  {
    if actions == [] {
    } else {
      EverySelectionIsReadable(config, actions[..|actions| - 1]);
      hide AllReadable, Do, ConfigValid;
      StepKeepsReadable(config, Run(config, actions[..|actions| - 1]), actions[|actions| - 1]);
    }
  }
}
