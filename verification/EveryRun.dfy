/**
  What holds over every run of the store, however careless a recovery's removals are: a
  durable anchor, fresh reports, and the grants behind effective roots
  (agent/src/sourceAccessPolicy.ts:777-790, 881-927, 1035-1134, 1497-1583).
 */
module EveryRun {
  import opened Text
  import opened SourcePaths
  import opened HostPolicy
  import opened HostLog
  import opened HostChanges
  import opened Selections
  import opened EffectiveRoots
  import opened SelectionFiles
  import opened SelectionRuns

  // ---- the invariant ----

  /** What shows is no older than what is durable, and all of it was bound. */
  ghost predicate FilesHold(config: Config, s: State) {
    && Chain(config, s.log)
    && Bound(config, s.log, s.cached.selection) && Bound(config, s.log, s.durable.selection)
    && Version(s.durable.selection) <= Version(s.cached.selection)
    && (s.durable.anchor ==> s.cached.anchor)
  }

  /** A report has seen nothing older than what was durable when it began. */
  ghost predicate ReadingHolds(config: Config, s: State, reading: Reading) {
    && (!reading.ReadHost? ==>
          && reading.host in s.log && reading.since.version <= Version(s.durable.selection)
          && (reading.since.anchored ==> s.durable.anchor))
    && (reading.ReadSelection? ==> (reading.since.anchored ==> reading.anchor))
    && (reading.ReadMarker? ==>
          && reading.since.version <= Version(reading.selection)
          && (reading.since.anchored ==> reading.selection.Some?)
          && Bound(config, s.log, reading.selection))
  }

  /** Inside the fence a process also knows which selection shows. */
  ghost predicate ProcHolds(config: Config, s: State, pc: Pc) {
    && (Fenced(pc) ==> s.cached.activity)
    && match pc
       case Reporting(goal, reading) =>
         && ReadingHolds(config, s, reading)
         && (!goal.Poll? && reading.ReadMarker? ==> reading.selection == s.cached.selection)
       case Binding(request) => request.expected == Version(s.cached.selection)
       case Applying(writing, target) =>
         writing.Open? || BeforeRename(pc) ==>
           Bound(config, s.log, Some(target)) && target.version == Version(s.cached.selection) + 1
       case _ => true
  }

  ghost predicate GrantHolds(config: Config, s: State, grant: Authorization) {
    && grant.since.version <= Version(grant.selection)
    && (grant.since.anchored ==> grant.selection.Some?)
    && grant.host in s.log && Bound(config, s.log, grant.selection)
  }

  ghost predicate Holds(config: Config, s: State) {
    && FilesHold(config, s) && OneFenced(s)
    && (forall pid <- s.procs :: ProcHolds(config, s, s.procs[pid]))
    && (forall grant <- s.granted :: GrantHolds(config, s, grant))
  }

  // ---- what one step does to the rest ----

  /** What is durable does not go back, nor does the history of policies. */
  ghost predicate Advances(s: State, t: State) {
    && Version(s.durable.selection) <= Version(t.durable.selection)
    && (s.durable.anchor ==> t.durable.anchor)
    && s.log <= t.log
  }

  lemma OtherHolds(config: Config, s: State, t: State, pc: Pc)
    requires ProcHolds(config, s, pc) && Advances(s, t)
    requires Fenced(pc) ==> t.cached.selection == s.cached.selection && t.cached.activity
    ensures ProcHolds(config, t, pc)
  {
    match pc
    case Reporting(goal, reading) =>
      if reading.ReadMarker? {
        BoundGrows(config, s.log, t.log, reading.selection);
      }
      hide Bound;
    case Applying(writing, target) =>
      if Bound(config, s.log, Some(target)) {
        BoundGrows(config, s.log, t.log, Some(target));
      }
      hide Bound;
    case _ =>
  }

  lemma GrantHoldsOn(config: Config, s: State, t: State, grant: Authorization)
    requires GrantHolds(config, s, grant) && s.log <= t.log
    ensures GrantHolds(config, t, grant)
  {
    BoundGrows(config, s.log, t.log, grant.selection);
    hide Bound;
  }

  /** What a step of one process does: only inside the fence does it change the selection
      or give the fence up. */
  ghost predicate Effected(config: Config, s: State, t: State, pid: Pid) {
    && FilesHold(config, t) && Advances(s, t) && t.log == s.log
    && (FencedAt(s, pid) || (t.cached.selection == s.cached.selection && (s.cached.activity ==> t.cached.activity)))
    && t.procs == (if pid in t.procs then s.procs[pid := t.procs[pid]] else s.procs - {pid})
    && (pid in t.procs ==>
          && ProcHolds(config, t, t.procs[pid])
          && (Fenced(t.procs[pid]) ==> FencedAt(s, pid) || !s.cached.activity))
    && (t.granted == s.granted || exists grant :: t.granted == s.granted + [grant] && GrantHolds(config, t, grant))
  }

  lemma OneStepHolds(config: Config, s: State, t: State, pid: Pid)
    requires Holds(config, s) && Effected(config, s, t, pid)
    ensures Holds(config, t)
  {
    hide FilesHold, ProcHolds, GrantHolds, Advances, Fenced;
    forall p <- s.procs ensures Fenced(s.procs[p]) ==> s.cached.activity {
      FenceShows(config, s, s.procs[p]);
    }
    forall p <- t.procs ensures ProcHolds(config, t, t.procs[p]) {
      if p != pid {
        OtherHolds(config, s, t, t.procs[p]);
      }
    }
    forall grant <- s.granted ensures GrantHolds(config, t, grant) {
      GrantHoldsOn(config, s, t, grant);
    }
  }

  lemma FenceShows(config: Config, s: State, pc: Pc)
    requires ProcHolds(config, s, pc)
    ensures Fenced(pc) ==> s.cached.activity
  {
  }

  /** All a step needs to know. */
  ghost predicate Standing(config: Config, s: State, pid: Pid, pc: Pc) {
    FilesHold(config, s) && pid in s.procs && s.procs[pid] == pc && ProcHolds(config, s, pc)
  }

  // ---- the steps ----

  lemma BeginHolds(config: Config, s: State, pid: Pid, job: Job)
    requires FilesHold(config, s) && pid !in s.procs
    ensures Effected(config, s, DoBegin(s, pid, job), pid)
  {
    hide Chain, Bound;
  }

  lemma ReadHolds(config: Config, s: State, pid: Pid, goal: Goal, reading: Reading, ok: bool)
    requires Standing(config, s, pid, Reporting(goal, reading)) && !reading.ReadMarker?
    ensures Effected(config, s, DoReport(config, s, pid, goal, reading, ok), pid)
  {
    hide Chain, Bound, Readable, SelectionReadable, GrantHolds;
  }

  lemma RefuseHolds(config: Config, s: State, pid: Pid, goal: Goal, reading: Reading)
    requires Standing(config, s, pid, Reporting(goal, reading))
    ensures Effected(config, s, Refuse(s, pid, goal), pid)
  {
    hide Chain, Bound, GrantHolds;
  }

  lemma GrantedHolds(config: Config, s: State, pid: Pid, goal: Goal, grant: Authorization, ok: bool)
    requires Standing(config, s, pid, Reporting(goal, ReadMarker(grant.host, grant.since, grant.selection)))
    ensures Effected(config, s, Serve(config, s, pid, goal, grant, ok), pid)
  {
    hide Chain, Bound, Succeeds, RevisionOf, GrantHolds;
    WhatIsGranted(config, s, goal, ReadMarker(grant.host, grant.since, grant.selection), grant);
    GrantHoldsOn(config, s, Serve(config, s, pid, goal, grant, ok), grant);
  }

  lemma ServeHolds(config: Config, s: State, pid: Pid, goal: Goal, reading: Reading, ok: bool)
    requires Standing(config, s, pid, Reporting(goal, reading)) && reading.ReadMarker?
    ensures Effected(config, s, DoReport(config, s, pid, goal, reading, ok), pid)
  {
    hide Standing, Effected, Serve, Refuse;
    RefuseHolds(config, s, pid, goal, reading);
    GrantedHolds(config, s, pid, goal, Authorization(reading.host, reading.selection, reading.since), ok);
  }

  lemma WhatIsGranted(config: Config, s: State, goal: Goal, reading: Reading, grant: Authorization)
    requires ProcHolds(config, s, Reporting(goal, reading)) && reading.ReadMarker?
    requires grant == Authorization(reading.host, reading.selection, reading.since)
    ensures GrantHolds(config, s, grant)
  {
    hide Bound;
  }

  lemma FenceHolds(config: Config, s: State, pid: Pid, fencing: Fencing, ok: bool)
    requires Standing(config, s, pid, Fence(fencing))
    ensures Effected(config, s, DoFence(s, pid, fencing, ok), pid)
  {
    hide Chain, Bound, Persisted, GrantHolds;
  }

  lemma BindHolds(config: Config, s: State, pid: Pid, request: Request, ok: bool)
    requires Standing(config, s, pid, Binding(request))
    ensures Effected(config, s, DoBind(config, s, pid, request, ok), pid)
  {
    if Selectable(config, Last(s.log), request) {
      TargetIsBound(config, s.log, request);
    }
    hide Chain, Bound, Readable, Selectable, Bindings, GrantHolds;
  }

  lemma WrittenHolds(config: Config, s: State, writing: Writing, target: Selection)
    requires FilesHold(config, s) && ProcHolds(config, s, Applying(writing, target))
    ensures var t := Written(s, writing, target);
            && FilesHold(config, t) && Advances(s, t) && t.log == s.log
            && t.procs == s.procs && t.granted == s.granted && t.cached.activity == s.cached.activity
            && ProcHolds(config, t, AfterWriting(s, writing, target))
  {
    hide Chain, Bound, Persisted, RequestOf;
  }

  /** A process that moves on inside the fence. */
  lemma FencedMoves(config: Config, s: State, t: State, pid: Pid, pc: Pc)
    requires FencedAt(s, pid) && FilesHold(config, t) && Advances(s, t) && t.log == s.log
    requires t.procs == s.procs && t.granted == s.granted && ProcHolds(config, t, pc)
    ensures Effected(config, s, At(t, pid, pc), pid)
  {
    hide Chain, Bound, GrantHolds;
  }

  lemma WriteHolds(config: Config, s: State, pid: Pid, writing: Writing, target: Selection, outcome: Outcome)
    requires Standing(config, s, pid, Applying(writing, target))
    ensures Effected(config, s, DoWrite(s, pid, writing, target, outcome), pid)
  {
    hide FilesHold, Bound, Effected, Written, AfterWriting;
    if outcome.Works? && Possible(s, writing) {
      WrittenHolds(config, s, writing, target);
      hide ProcHolds, Advances;
      FencedMoves(config, s, Written(s, writing, target), pid, AfterWriting(s, writing, target));
    } else {
      var t := DoWrite(s, pid, writing, target, outcome);
      LatchHolds(config, s, pid);
      FencedMoves(config, s, if Uncertain(writing, outcome) then Latch(s, pid) else s, pid, t.procs[pid]);
    }
  }

  lemma LatchHolds(config: Config, s: State, pid: Pid)
    requires FilesHold(config, s)
    ensures FilesHold(config, Latch(s, pid)) && Advances(s, Latch(s, pid))
  {
    hide Chain, Bound;
  }

  /** A recovery touches neither selection nor fence, whatever it does to the marker. */
  lemma RecoverHolds(config: Config, s: State, pid: Pid, recovery: Recovery, ok: bool)
    requires Standing(config, s, pid, Recovering(recovery))
    ensures Effected(config, s, DoRecover(config, s, pid, recovery, ok), pid)
  {
    hide Chain, Bound, Persisted, HostReadable, Recoverable, RevisionOf, GrantHolds;
  }

  lemma GoHolds(config: Config, s: State, pid: Pid, pc: Pc, outcome: Outcome)
    requires Standing(config, s, pid, pc)
    ensures Effected(config, s, DoGo(config, s, pid, pc, outcome), pid)
  {
    hide Standing, Effected, DoReport, DoFence, DoBind, DoWrite, DoRecover;
    match pc
    case Reporting(goal, reading) =>
      if reading.ReadMarker? {
        ServeHolds(config, s, pid, goal, reading, outcome.Works?);
      } else {
        ReadHolds(config, s, pid, goal, reading, outcome.Works?);
      }
    case Fence(fencing) => FenceHolds(config, s, pid, fencing, outcome.Works?);
    case Binding(request) => BindHolds(config, s, pid, request, outcome.Works?);
    case Applying(writing, target) => WriteHolds(config, s, pid, writing, target, outcome);
    case Recovering(recovery) => RecoverHolds(config, s, pid, recovery, outcome.Works?);
  }

  lemma CrashHolds(config: Config, s: State, pid: Pid)
    requires FilesHold(config, s)
    ensures Effected(config, s, Do(config, s, Crash(pid)), pid)
  {
    hide Chain, Bound;
  }

  /** A write-back, a new policy or a review of the fence: no process moves on. */
  lemma NoneMoves(config: Config, s: State, t: State)
    requires Holds(config, s) && FilesHold(config, t) && Advances(s, t)
    requires t.procs == s.procs && t.granted == s.granted && t.cached.selection == s.cached.selection
    requires t.cached.activity == s.cached.activity || !Active(s)
    ensures Holds(config, t)
  {
    assert s.log <= t.log;
    hide FilesHold, ProcHolds, GrantHolds, Advances, Fenced;
    forall p <- t.procs ensures ProcHolds(config, t, t.procs[p]) {
      FenceShows(config, s, s.procs[p]);
      OtherHolds(config, s, t, t.procs[p]);
    }
    forall grant <- s.granted ensures GrantHolds(config, t, grant) {
      GrantHoldsOn(config, s, t, grant);
    }
  }

  lemma FlushHolds(config: Config, s: State, file: File)
    requires FilesHold(config, s)
    ensures FilesHold(config, DoFlush(s, file)) && Advances(s, DoFlush(s, file))
  {
    hide Chain, Bound;
  }

  lemma CommitHolds(config: Config, s: State, next: HostApproval)
    requires FilesHold(config, s) && Readable(config, Last(s.log)) && Follows(config, Last(s.log), next)
    ensures FilesHold(config, s.(log := s.log + [next]))
  {
    hide Bound, Readable, Follows, Chain;
    ChainGrows(config, s.log, next);
    BoundGrows(config, s.log, s.log + [next], s.cached.selection);
    BoundGrows(config, s.log, s.log + [next], s.durable.selection);
  }

  lemma PowerLossHolds(config: Config, s: State)
    requires Holds(config, s)
    ensures Holds(config, Do(config, s, PowerLoss))
  {
    hide Chain, Bound, ProcHolds;
    var t := Do(config, s, PowerLoss);
    assert FilesHold(config, t);
    forall grant <- t.granted ensures GrantHolds(config, t, grant) {
      assert GrantHolds(config, s, grant);
    }
  }

  lemma StepHolds(config: Config, s: State, action: Action)
    requires Holds(config, s)
    ensures Holds(config, Do(config, s, action))
  {
    hide FilesHold, ProcHolds, GrantHolds, Effected, OneFenced, DoGo, DoBegin, DoFlush, Readable, Follows, Active;
    var t := Do(config, s, action);
    match action
    case Begin(pid, job) =>
      if pid in s.procs {
        BeginAgain(s, pid, job);
      } else {
        BeginHolds(config, s, pid, job);
        OneStepHolds(config, s, t, pid);
      }
    case Go(pid, outcome) =>
      if pid in s.procs {
        GoHolds(config, s, pid, s.procs[pid], outcome);
        OneStepHolds(config, s, t, pid);
      }
    case Flush(file) =>
      FlushHolds(config, s, file);
      FlushFrame(s, file);
      NoneMoves(config, s, t);
    case HostCommit(next) =>
      if t != s {
        CommitHolds(config, s, next);
        NoneMoves(config, s, t);
      }
    case HostBusy(_) => SameHolds(config, s, t);
    case PowerLoss => PowerLossHolds(config, s);
    case Crash(pid) =>
      CrashHolds(config, s, pid);
      OneStepHolds(config, s, t, pid);
    case ClearActivity => SameHolds(config, s, t);
  }

  lemma BeginAgain(s: State, pid: Pid, job: Job)
    requires pid in s.procs
    ensures DoBegin(s, pid, job) == s
  {
  }

  lemma SameHolds(config: Config, s: State, t: State)
    requires Holds(config, s)
    requires t == s.(busy := t.busy) || t == s || (!Active(s) && t == s.(cached := s.cached.(activity := false)))
    ensures Holds(config, t)
  {
    assert FilesHold(config, t) && Advances(s, t) by { hide Chain, Bound; }
    hide FilesHold, Active, ProcHolds, GrantHolds, Advances, OneFenced;
    if t != s { NoneMoves(config, s, t); }
  }

  /** Over every run. */
  lemma {:induction false} EveryRunHolds(config: Config, actions: seq<Action>)
    ensures Holds(config, Run(config, actions))
  {
    if actions != [] {
      EveryRunHolds(config, actions[..|actions| - 1]);
      hide Holds, Do;
      StepHolds(config, Run(config, actions[..|actions| - 1]), actions[|actions| - 1]);
    }
  }

  lemma GrantOfRun(config: Config, actions: seq<Action>, grant: Authorization)
    requires grant in Run(config, actions).granted
    ensures Chain(config, Run(config, actions).log) && GrantHolds(config, Run(config, actions), grant)
  {
    EveryRunHolds(config, actions);
    hide Run, ProcHolds, OneFenced, GrantHolds, Chain;
  }

  // ---- what follows from it ----

  /** A report never grants less than what was durable when it started; started on an
      anchored store it never falls back to the static roots. */
  lemma ReportsAreFresh(config: Config, actions: seq<Action>, grant: Authorization)
    requires grant in Run(config, actions).granted
    ensures grant.since.version <= Version(grant.selection)
    ensures grant.since.anchored ==> grant.selection.Some?
  {
    hide Run, Bound, Chain;
    GrantOfRun(config, actions, grant);
  }

  /** A durable anchor stays, through everything. */
  lemma {:induction false} AnchorStays(config: Config, actions: seq<Action>, n: nat)
    requires n <= |actions|
    requires Run(config, actions[..n]).durable.anchor
    ensures Run(config, actions).durable.anchor && Run(config, actions).cached.anchor
    decreases |actions|
  {
    if n < |actions| {
      var before := actions[..|actions| - 1];
      assert before[..n] == actions[..n];
      AnchorStays(config, before, n);
      StepKeepsAnchor(config, Run(config, before), actions[|actions| - 1]);
    } else {
      assert actions[..n] == actions;
      AnchorShows(config, actions);
    }
  }

  lemma AnchorShows(config: Config, actions: seq<Action>)
    ensures Run(config, actions).durable.anchor ==> Run(config, actions).cached.anchor
  {
    EveryRunHolds(config, actions);
    hide Run, Chain, Bound;
  }

  /** An effective root under an applied selection: the grant it was bound to has been in
      every policy committed between the one it was bound under and the one reported on. */
  lemma EffectiveRootsKeptTheirGrant(config: Config, actions: seq<Action>, grant: Authorization, root: Path)
    returns (i: nat, j: nat, held: Grant)
    requires ConfigValid(config) && grant in Run(config, actions).granted
    requires grant.selection.Some? && Effective(config, grant.host, grant.selection, root)
    ensures var s, selection := Run(config, actions), grant.selection.value;
            && i < |s.log| && RevisionOf(config, s.log[i]) == selection.revision
            && j < |s.log| && s.log[j] == grant.host
            && Within(held.parent, root)
            && root in selection.bindings && Epoch(held, selection.bindings[root])
            && (forall k :: i <= k <= j || j <= k <= i ==> HasGrant(config, s.log[k], held))
  {
    GrantOfRun(config, actions, grant);
    var s := Run(config, actions);
    hide Run, Chain, ConfigValid, HasGrant, RevisionOf, Within, WithinMaximum, Sensitive, RootEpoch, Bound;
    j :| 0 <= j < |s.log| && s.log[j] == grant.host;
    i, held := EffectiveRootKeptItsGrant(config, s.log, j, grant.selection.value, root);
  }

  /** In every run, which selected roots a report makes effective: exactly those whose grant
      at the binding is held in the policy reported on and governs them there. */
  lemma EffectiveInEveryRun(config: Config, actions: seq<Action>, granted: Authorization, root: Path)
    returns (i: nat, j: nat)
    requires ConfigValid(config) && granted in Run(config, actions).granted
    requires granted.selection.Some? && root in granted.selection.value.roots
    ensures var s, host := Run(config, actions), granted.host;
            && i < |s.log| && BoundAt(config, s.log[i], granted.selection.value) && j < |s.log| && s.log[j] == host
            && match GrantFor(config, s.log[i], root)
               case None => !Effective(config, host, granted.selection, root)
               case Some(grant) =>
                 Effective(config, host, granted.selection, root)
                 <==> && Unobjectionable(host, root) && HasGrant(config, host, grant)
                      && (grant.Delegated? ==> !UnderApproved(host, root))
  {
    GrantOfRun(config, actions, granted);
    var s, selection := Run(config, actions), granted.selection.value;
    hide Run, Chain, ConfigValid, HasGrant, RevisionOf, Within, WithinMaximum, Sensitive, Unobjectionable,
         UnderApproved;
    i :| 0 <= i < |s.log| && RevisionOf(config, s.log[i]) == selection.revision
         && selection.bindings == Bindings(config, s.log[i], selection.roots);
    j :| 0 <= j < |s.log| && s.log[j] == granted.host;
    if GrantFor(config, s.log[i], root).Some? {
      EffectiveExactlyWhileGranted(config, s.log, i, j, selection, root, GrantFor(config, s.log[i], root).value);
    } else {
      assert RootEpoch(config, s.log[i], root).None? && root !in selection.bindings;
    }
  }

  /** In every run, an effective root outside the static ones is apart from the agent's data
      and the protected trees, and names no private directory under server management. */
  lemma EffectiveRootsAreApart(config: Config, actions: seq<Action>, granted: Authorization, root: Path)
    requires ConfigValid(config) && granted in Run(config, actions).granted && !UnderStatic(config, root)
    requires Effective(config, granted.host, granted.selection, root)
    ensures granted.selection.Some?
    ensures !Within(config.dataDir, root) && !Within(root, config.dataDir)
    ensures forall tree <- DENIED_TREES :: !Within(tree, root) && !Within(root, tree)
    ensures granted.host.mode == ServerManaged ==>
              forall part <- Split(root, '/') :: part !in {".ssh", ".aws", ".gnupg", ".kube"}
  {
    GrantOfRun(config, actions, granted);
    var s := Run(config, actions);
    assert Within(root, root);
    hide Run, Chain, ConfigValid, RevisionOf, Within, WithinMaximum, Sensitive, Bound, DENIED_TREES;
    var j :| 0 <= j < |s.log| && s.log[j] == granted.host;
    SoundAt(config, s.log, j);
    EffectiveIsApart(config, granted.host, granted.selection.value, root);
  }

  /** Repeating a request that is already applied changes no file but its own fence, in any
      run and with any outcome. */
  lemma RepeatChangesNothing(
    config: Config, actions: seq<Action>, pid: Pid, request: Request, reading: Reading, outcome: Outcome)
    requires var s := Run(config, actions);
             && pid in s.procs && s.procs[pid] == Reporting(Before(request), reading)
             && Answers(s.cached.selection, request)
    ensures var s, t := Run(config, actions), Run(config, actions + [Go(pid, outcome)]);
            && t.cached == s.cached && t.durable == s.durable && pid in t.procs
            && (t.procs[pid] == Fence(Leave)
                || (t.procs[pid].Reporting? && t.procs[pid].goal == Before(request) && !t.procs[pid].reading.ReadHost?))
  {
    EveryRunHolds(config, actions);
    var longer := actions + [Go(pid, outcome)];
    assert longer[..|longer| - 1] == actions;
    var s := Run(config, actions);
    assert Run(config, longer) == Do(config, s, Go(pid, outcome));
    assert ProcHolds(config, s, s.procs[pid]);
    hide Run, FilesHold, GrantHolds, OneFenced, Holds;
    RepeatStep(config, s, pid, request, reading, outcome);
  }

  lemma RepeatStep(config: Config, s: State, pid: Pid, request: Request, reading: Reading, outcome: Outcome)
    requires pid in s.procs && s.procs[pid] == Reporting(Before(request), reading)
    requires ProcHolds(config, s, s.procs[pid]) && Answers(s.cached.selection, request)
    ensures var t := Do(config, s, Go(pid, outcome));
            && t.cached == s.cached && t.durable == s.durable && pid in t.procs
            && (t.procs[pid] == Fence(Leave)
                || (t.procs[pid].Reporting? && t.procs[pid].goal == Before(request) && !t.procs[pid].reading.ReadHost?))
  {
    hide Bound, HostReadable, SelectionReadable, RevisionOf;
  }
}
