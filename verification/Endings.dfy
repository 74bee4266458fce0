/**
  How reports, applies and other fenced work end in every case when nothing disturbs them,
  and what sets the uncertainty latch (agent/src/sourceAccessPolicy.ts:355-407, 537-583,
  857-947, 1035-1158).
 */
module Endings {
  import opened SourcePaths
  import opened HostPolicy
  import opened HostLog
  import opened Selections
  import opened SelectionFiles
  import opened SelectionScenarios

  // ---- reports ----

  /** The selection file and its anchor go together, and the reader accepts the file. */
  predicate Consistent(config: Config, s: State) {
    if s.cached.selection.Some? then s.cached.anchor && SelectionReadable(config, s.cached.selection.value)
    else !s.cached.anchor
  }

  /** Nothing is left open, for this process. */
  predicate Certain(s: State, pid: Pid) { s.cached.marker.None? && pid !in s.latched }

  lemma ReportBegins(config: Config, s: State, pid: Pid)
    requires pid !in s.procs
    ensures Do(config, s, Begin(pid, Report)) == At(s, pid, Reporting(Poll, ReadHost))
  {
  }

  lemma PollEnds(config: Config, s: State, pid: Pid, reading: Reading, t: State)
    requires pid !in s.procs
    requires DoReport(config, At(s, pid, Reporting(Poll, reading)), pid, Poll, reading, true)
          == Exit(At(s, pid, Reporting(Poll, reading)), pid).(granted := t.granted)
    requires t == s.(granted := t.granted)
    ensures Do(config, At(s, pid, Reporting(Poll, reading)), Go(pid, Works)) == t
  {
    assert s.procs[pid := Reporting(Poll, reading)] - {pid} == s.procs;
  }

  lemma AloneFrom(config: Config, s: State, pid: Pid, a: Pc, n: nat, b: Pc, t: State)
    requires Gets(config, s, pid, a, n, s, b) && Do(config, At(s, pid, b), Go(pid, Works)) == t
    ensures Alone(config, At(s, pid, a), pid, n + 1) == t
  {
    hide Do;
  }

  /** A report that nothing disturbs grants exactly when host policy and selection can be read
      and nothing is left open: the policy and the selection that are there. */
  lemma UndisturbedReportEnds(config: Config, s: State, pid: Pid) returns (n: nat)
    requires pid !in s.procs
    ensures Alone(config, Do(config, s, Begin(pid, Report)), pid, n)
         == if HostReadable(config, s) && Consistent(config, s) && Certain(s, pid)
            then s.(granted := s.granted + [Authorization(Last(s.log), s.cached.selection, SinceNow(s))])
            else s
  {
    var host, since := Last(s.log), SinceNow(s);
    var a, b := Reporting(Poll, ReadHost), Reporting(Poll, ReadAnchor(host, since));
    var c := Reporting(Poll, ReadSelection(host, since, s.cached.anchor));
    var d := Reporting(Poll, ReadMarker(host, since, s.cached.selection));
    hide Gets, Readable, SelectionReadable;
    ReportBegins(config, s, pid);
    if !HostReadable(config, s) {
      n := 1;
      PollEnds(config, s, pid, ReadHost, s);
      Immediately(config, s, pid, a);
      AloneFrom(config, s, pid, a, 0, a, s);
    } else if !Consistent(config, s) {
      n := 3;
      GetsOne(config, s, pid, a, s, b);
      GetsOne(config, s, pid, b, s, c);
      GetsOn(config, s, pid, a, 1, s, b, 1, s, c);
      PollEnds(config, s, pid, c.reading, s);
      AloneFrom(config, s, pid, a, 2, c, s);
    } else {
      n := 4;
      ReportGets(config, s, pid, Poll);
      var grant := Authorization(host, s.cached.selection, since);
      var t := if Certain(s, pid) then s.(granted := s.granted + [grant]) else s;
      PollEnds(config, s, pid, d.reading, t);
      AloneFrom(config, s, pid, a, 3, d, t);
    }
  }

  lemma Immediately(config: Config, s: State, pid: Pid, pc: Pc)
    ensures Gets(config, s, pid, pc, 0, s, pc)
  {
  }

  // ---- applies ----

  /** What a refused apply leaves: the report it began with, and no trace in the files. */
  function Refused(s: State): State { Checked(s).(cached := s.cached, durable := s.cached) }

  lemma LeavesRefused(config: Config, s: State, pid: Pid)
    requires Quiet(config, s, pid)
    ensures Gets(config, Checked(s), pid, Fence(Leave), 1,
                 Refused(s).(durable := Checked(s).durable), Fence(SyncLeave))
    ensures Do(config, At(Refused(s).(durable := Checked(s).durable), pid, Fence(SyncLeave)), Go(pid, Works))
         == Refused(s)
  {
    hide Gets, Readable, SelectionReadable;
    GetsOne(config, Checked(s), pid, Fence(Leave), Refused(s).(durable := Checked(s).durable), Fence(SyncLeave));
    assert s.procs[pid := Fence(SyncLeave)] - {pid} == s.procs;
  }

  /** The first report of a request that is neither due nor applied sends it away. */
  lemma NotDueGets(config: Config, s: State, pid: Pid, request: Request)
    requires Quiet(config, s, pid) && !Answers(s.cached.selection, request)
    requires Version(s.cached.selection) != request.expected || RevisionOf(config, Last(s.log)) != request.revision
    ensures Gets(config, s.(cached := s.cached.(activity := true)), pid, Fence(Enter(Apply(request))), 5,
                 Checked(s), Fence(Leave))
  {
    hide Gets, Readable, SelectionReadable, RevisionOf;
    var s0, s1 := s.(cached := s.cached.(activity := true)), Opened(s);
    var enter, first := Fence(Enter(Apply(request))), Reporting(Before(request), ReadHost);
    var grant := Authorization(Last(s.log), s.cached.selection, SinceNow(s1));
    var last := Reporting(Before(request), ReadMarker(grant.host, grant.since, grant.selection));
    GetsOne(config, s0, pid, enter, s1, first);
    ReportGets(config, s1, pid, Before(request));
    ServeGets(config, s1, pid, Before(request), grant, Fence(Leave), Checked(s));
    GetsOn(config, s0, pid, enter, 1, s1, first, 3, s1, last);
    GetsOn(config, s0, pid, enter, 4, s1, last, 1, Checked(s), Fence(Leave));
  }

  /** One that is due but may not be selected is sent away when it is to be bound. */
  lemma NotSelectableGets(config: Config, s: State, pid: Pid, request: Request)
    requires Quiet(config, s, pid) && !Selectable(config, Last(s.log), request)
    requires Version(s.cached.selection) == request.expected && RevisionOf(config, Last(s.log)) == request.revision
    ensures Gets(config, s.(cached := s.cached.(activity := true)), pid, Fence(Enter(Apply(request))), 6,
                 Checked(s), Fence(Leave))
  {
    hide Gets, Readable, SelectionReadable, RevisionOf, Selectable;
    CheckedGets(config, s, pid, request);
    GetsOne(config, Checked(s), pid, Binding(request), Checked(s), Fence(Leave));
    GetsOn(config, s.(cached := s.cached.(activity := true)), pid, Fence(Enter(Apply(request))), 5,
           Checked(s), Binding(request), 1, Checked(s), Fence(Leave));
  }

  lemma RefusedEnds(config: Config, s: State, pid: Pid, request: Request, n: nat)
    requires Quiet(config, s, pid)
    requires Gets(config, s.(cached := s.cached.(activity := true)), pid, Fence(Enter(Apply(request))), n,
                  Checked(s), Fence(Leave))
    ensures Alone(config, Do(config, s, Begin(pid, Apply(request))), pid, n + 2) == Refused(s)
  {
    hide *;
    var s0, left := s.(cached := s.cached.(activity := true)), Refused(s).(durable := Checked(s).durable);
    LeavesRefused(config, s, pid);
    GetsOn(config, s0, pid, Fence(Enter(Apply(request))), n, Checked(s), Fence(Leave), 1, left, Fence(SyncLeave));
    BeginGets(config, s, pid, request, n + 1, left, Fence(SyncLeave));
    AloneOnce(config, Do(config, s, Begin(pid, Apply(request))), pid, n + 1);
  }

  /** From a store at rest every request comes to one of three ends: applied before, it
      succeeds and changes nothing; due and selectable, it is applied; else it is refused,
      and the selection stays. */
  lemma UndisturbedApplyEnds(config: Config, s: State, pid: Pid, request: Request) returns (n: nat, t: State)
    requires ConfigValid(config) && Quiet(config, s, pid)
    ensures t == Alone(config, Do(config, s, Begin(pid, Apply(request))), pid, n)
    ensures t.procs == s.procs && t.latched == s.latched && t.cached == t.durable
    ensures if Answers(s.cached.selection, request) then t.cached == s.cached && t.done == s.done + [request]
            else if Version(s.cached.selection) == request.expected && Selectable(config, Last(s.log), request)
            then t.cached == Disk(true, Some(Target(config, Last(s.log), request)), None, false)
                 && t.done == s.done + [request]
            else t.cached == s.cached && t.done == s.done && t.settled == s.settled
  {
    hide Answers, Selectable, Quiet, Target, Do, Alone, RevisionOf;
    if Answers(s.cached.selection, request) {
      n, t := RepeatSucceeds(config, s, pid, request);
    } else if Version(s.cached.selection) == request.expected && Selectable(config, Last(s.log), request) {
      n, t := UndisturbedApplySucceeds(config, s, pid, request);
    } else {
      var m := 5;
      if Version(s.cached.selection) != request.expected || RevisionOf(config, Last(s.log)) != request.revision {
        NotDueGets(config, s, pid, request);
      } else {
        NotSelectableGets(config, s, pid, request);
        m := 6;
      }
      hide Gets;
      RefusedEnds(config, s, pid, request, m);
      n, t := m + 2, Refused(s);
    }
  }

  /** Other work inside the fence leaves everything as it was, and the fence down. */
  lemma UndisturbedWorkEnds(config: Config, s: State, pid: Pid)
    requires pid !in s.procs && pid !in s.latched && !s.cached.activity
    ensures var t := Alone(config, Do(config, s, Begin(pid, Other)), pid, 4);
            t == s.(durable := SyncData(s).durable, cached := s.cached)
  {
    hide Gets, Persisted;
    var s0 := s.(cached := s.cached.(activity := true));
    var s1 := SyncData(s0);
    var s2 := s1.(cached := s.cached);
    var enter := Fence(Enter(Other));
    GetsOne(config, s0, pid, enter, s1, Fence(Hold));
    GetsOne(config, s1, pid, Fence(Hold), s1, Fence(Leave));
    GetsOne(config, s1, pid, Fence(Leave), s2, Fence(SyncLeave));
    GetsOn(config, s0, pid, enter, 1, s1, Fence(Hold), 1, s1, Fence(Leave));
    GetsOn(config, s0, pid, enter, 2, s1, Fence(Leave), 1, s2, Fence(SyncLeave));
    GetsAlone(config, s0, pid, enter, 3, s2, Fence(SyncLeave));
    AloneOnce(config, At(s0, pid, enter), pid, 3);
    assert s.procs[pid := Fence(SyncLeave)] - {pid} == s.procs;
    hide Alone;
  }

  // ---- the latch ----

  /** A step of this process after which nobody knows what is durable: a sync of the data
      directory that fails, or a rename of anchor or selection that may or may not have
      happened. A lapsed lease stops a rename before it starts. */
  predicate Shakes(s: State, action: Action, pid: Pid) {
    && action.Go? && action.pid == pid && !action.outcome.Works? && pid in s.procs
    && match s.procs[pid]
       case Fence(fencing) => fencing.SyncLeave?
       case Applying(writing, _) =>
         writing in {SyncEntry, PutAnchor, SyncAnchor, SyncSelection, SyncUnmark}
         || (writing == PutSelection && action.outcome.Fails?)
       case Recovering(recovery) => recovery.SyncTaken?
       case _ => false
  }

  /** The process starts anew, or its recovery has come to its end. */
  predicate Settles(s: State, action: Action, pid: Pid) {
    || action.PowerLoss? || action == Crash(pid)
    || (action == Go(pid, Works) && pid in s.procs && s.procs[pid].Recovering? && s.procs[pid].recovery.SyncTaken?)
  }

  ghost predicate ShakenSince(config: Config, actions: seq<Action>, pid: Pid) {
    actions != [] &&
      var s, last := Run(config, actions[..|actions| - 1]), actions[|actions| - 1];
      Shakes(s, last, pid) || (!Settles(s, last, pid) && ShakenSince(config, actions[..|actions| - 1], pid))
  }

  lemma QuietSteps(config: Config, s: State, pid: Pid, pc: Pc, ok: bool)
    ensures pc.Reporting? ==> DoReport(config, s, pid, pc.goal, pc.reading, ok).latched == s.latched
    ensures pc.Binding? ==> DoBind(config, s, pid, pc.request, ok).latched == s.latched
  {
    hide HostReadable, SelectionReadable, Selectable, Target, RevisionOf, Succeeds;
  }

  lemma FenceLatches(s: State, pid: Pid, fencing: Fencing, ok: bool)
    ensures DoFence(s, pid, fencing, ok).latched == s.latched + if fencing.SyncLeave? && !ok then {pid} else {}
  {
    hide Persisted;
  }

  lemma WriteLatches(s: State, pid: Pid, writing: Writing, target: Selection, outcome: Outcome)
    ensures DoWrite(s, pid, writing, target, outcome).latched
         == s.latched + if Shakes(s.(procs := map[pid := Applying(writing, target)]), Go(pid, outcome), pid)
                        then {pid} else {}
  {
    hide Persisted, RequestOf;
  }

  lemma RecoveryLatches(config: Config, s: State, pid: Pid, recovery: Recovery, ok: bool)
    ensures DoRecover(config, s, pid, recovery, ok).latched
         == if recovery.SyncTaken? then (if ok then s.latched - {pid} else s.latched + {pid}) else s.latched
  {
    hide HostReadable, Recoverable, RevisionOf, Persisted;
  }

  lemma GoLatches(config: Config, s: State, actor: Pid, outcome: Outcome, pid: Pid)
    requires actor in s.procs
    ensures pid in DoGo(config, s, actor, s.procs[actor], outcome).latched
       <==> Shakes(s, Go(actor, outcome), pid) || (!Settles(s, Go(actor, outcome), pid) && pid in s.latched)
  {
    hide DoReport, DoFence, DoBind, DoWrite, DoRecover;
    match s.procs[actor]
    case Reporting(_, _) => QuietSteps(config, s, actor, s.procs[actor], outcome.Works?);
    case Fence(fencing) => FenceLatches(s, actor, fencing, outcome.Works?);
    case Binding(_) => QuietSteps(config, s, actor, s.procs[actor], outcome.Works?);
    case Applying(writing, target) => WriteLatches(s, actor, writing, target, outcome);
    case Recovering(recovery) => RecoveryLatches(config, s, actor, recovery, outcome.Works?);
  }

  lemma StepLatches(config: Config, s: State, action: Action, pid: Pid)
    ensures pid in Do(config, s, action).latched
       <==> Shakes(s, action, pid) || (!Settles(s, action, pid) && pid in s.latched)
  {
    if action.Go? && action.pid in s.procs {
      GoLatches(config, s, action.pid, action.outcome, pid);
    }
    hide DoGo, Readable, Follows, Persisted;
  }

  /** Over every run: a process is latched exactly when one of its syncs or renames failed
      since it started or recovered. It grants nothing then, and begins no fenced work. */
  lemma {:induction false} LatchedExactly(config: Config, actions: seq<Action>, pid: Pid)
    ensures pid in Run(config, actions).latched <==> ShakenSince(config, actions, pid)
    ensures ShakenSince(config, actions, pid) && pid !in Run(config, actions).procs ==>
              forall job: Job :: (job.Apply? || job.Other?) ==>
                Do(config, Run(config, actions), Begin(pid, job)) == Run(config, actions)
  {
    if actions == [] {
    } else {
      LatchedExactly(config, actions[..|actions| - 1], pid);
      StepLatches(config, Run(config, actions[..|actions| - 1]), actions[|actions| - 1], pid);
      hide Shakes, Settles;
    }
  }

  /** The system writes back one file at a time, and nothing else of what is durable; once it
      has written all of them, what is durable is what a sync of the directory leaves. */
  lemma WriteBackIsPerFile(s: State)
    ensures DoFlush(s, AnchorFile).durable.(anchor := s.durable.anchor) == s.durable
    ensures DoFlush(s, SelectionFile).durable.(selection := s.durable.selection) == s.durable
    ensures DoFlush(s, MarkerFile).durable.(marker := s.durable.marker) == s.durable
    ensures DoFlush(s, ActivityFile).durable.(activity := s.durable.activity) == s.durable
    ensures DoFlush(DoFlush(DoFlush(DoFlush(s, AnchorFile), SelectionFile), MarkerFile), ActivityFile) == SyncData(s)
  {
  }
}
