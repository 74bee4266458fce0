/**
  Runs to an end: an undisturbed apply succeeds and may be repeated, and a recovery that
  overlaps a later apply breaks the durability of grants
  (agent/src/sourceAccessPolicy.ts:355-407, 1035-1158, 1533-1582).
 */
module SelectionScenarios {
  import opened SourcePaths
  import opened HostPolicy
  import opened HostLog
  import opened Selections
  import opened SelectionFiles
  import opened Removals

  /** `n` operations of one process, all of which work. */
  ghost function Alone(config: Config, s: State, pid: Pid, n: nat): State {
    if n == 0 then s else Do(config, Alone(config, s, pid, n - 1), Go(pid, Works))
  }

  lemma {:induction false} AloneAdds(config: Config, s: State, pid: Pid, m: nat, n: nat)
    ensures Alone(config, s, pid, m + n) == Alone(config, Alone(config, s, pid, m), pid, n)
  {
    hide Do;
    if n > 0 {
      AloneAdds(config, s, pid, m, n - 1);
    }
  }

  lemma {:induction false} AloneIsRun(config: Config, actions: seq<Action>, pid: Pid, n: nat)
    returns (longer: seq<Action>)
    ensures actions <= longer && Run(config, longer) == Alone(config, Run(config, actions), pid, n)
  {
    hide Do;
    if n == 0 {
      longer := actions;
    } else {
      var before := AloneIsRun(config, actions, pid, n - 1);
      longer := before + [Go(pid, Works)];
      assert longer[..|longer| - 1] == before;
    }
  }

  /** From `pc` to `next`, changing the state from `s` to `t` but for the process. */
  ghost predicate Gets(config: Config, s: State, pid: Pid, pc: Pc, n: nat, t: State, next: Pc) {
    Alone(config, At(s, pid, pc), pid, n) == At(t, pid, next)
  }

  lemma GetsOn(config: Config, s: State, pid: Pid, a: Pc, m: nat, t: State, b: Pc, n: nat, u: State, c: Pc)
    requires Gets(config, s, pid, a, m, t, b) && Gets(config, t, pid, b, n, u, c)
    ensures Gets(config, s, pid, a, m + n, u, c)
  {
    hide Do, At;
    AloneAdds(config, At(s, pid, a), pid, m, n);
  }

  lemma Again(s: State, pid: Pid, a: Pc, b: Pc)
    ensures At(At(s, pid, a), pid, b) == At(s, pid, b)
  {
    assert s.procs[pid := a][pid := b] == s.procs[pid := b];
  }

  /** One operation, given what it does in a state that already holds the process. */
  lemma GetsOne(config: Config, s: State, pid: Pid, pc: Pc, t: State, next: Pc)
    requires t.procs == s.procs
    requires DoGo(config, At(s, pid, pc), pid, pc, Works) == At(At(t, pid, pc), pid, next)
    ensures Gets(config, s, pid, pc, 1, t, next)
  {
    Again(t, pid, pc, next);
    hide DoGo;
    assert Alone(config, At(s, pid, pc), pid, 0) == At(s, pid, pc);
    assert Alone(config, At(s, pid, pc), pid, 1) == Do(config, At(s, pid, pc), Go(pid, Works));
  }

  lemma WriteGets(config: Config, s: State, pid: Pid, writing: Writing, target: Selection)
    requires Possible(s, writing)
    ensures Gets(config, s, pid, Applying(writing, target), 1,
                 Written(s, writing, target), AfterWriting(s, writing, target))
  {
    hide Gets, Persisted;
    GetsOne(config, s, pid, Applying(writing, target), Written(s, writing, target), AfterWriting(s, writing, target));
  }

  /** A store at rest: no transaction, no fence, and a selection a report can read. */
  predicate Quiet(config: Config, s: State, pid: Pid) {
    && pid !in s.procs && pid !in s.latched && !s.busy && Readable(config, Last(s.log))
    && s.cached.marker.None? && !s.cached.activity
    && if s.cached.selection.Some? then s.cached.anchor && SelectionReadable(config, s.cached.selection.value)
       else !s.cached.anchor
  }

  /** A report that nothing disturbs sees the store as it is. */
  lemma ReportGets(config: Config, s: State, pid: Pid, goal: Goal)
    requires HostReadable(config, s)
    requires if s.cached.selection.Some? then s.cached.anchor && SelectionReadable(config, s.cached.selection.value)
             else !s.cached.anchor
    ensures Gets(config, s, pid, Reporting(goal, ReadHost), 3,
                 s, Reporting(goal, ReadMarker(Last(s.log), SinceNow(s), s.cached.selection)))
  {
    hide Gets, Readable, SelectionReadable;
    var host, since, selection := Last(s.log), SinceNow(s), s.cached.selection;
    var a := Reporting(goal, ReadHost);
    var b := Reporting(goal, ReadAnchor(host, since));
    var c := Reporting(goal, ReadSelection(host, since, s.cached.anchor));
    var d := Reporting(goal, ReadMarker(host, since, selection));
    GetsOne(config, s, pid, a, s, b);
    GetsOne(config, s, pid, b, s, c);
    GetsOne(config, s, pid, c, s, d);
    hide DoGo, SinceNow;
    GetsOn(config, s, pid, a, 1, s, b, 1, s, c);
    GetsOn(config, s, pid, a, 2, s, c, 1, s, d);
  }

  /** The fence is durable. */
  function Opened(s: State): State {
    var disk := s.cached.(activity := true);
    s.(cached := disk, durable := disk)
  }

  /** The check before the write has granted what is there. */
  function Checked(s: State): State {
    var t := Opened(s);
    t.(granted := s.granted + [Authorization(Last(s.log), s.cached.selection, SinceNow(t))])
  }

  /** The new selection is visible, behind a durable marker, but not durable. */
  function Renamed(s: State, target: Selection): State {
    var marker := Some(Whole(RequestOf(target)));
    s.(cached := Disk(true, Some(target), marker, s.cached.activity),
       durable := Disk(true, s.cached.selection, marker, s.cached.activity))
  }

  function Committed(s: State): State {
    var t := Settle(s);
    t.(durable := t.cached)
  }

  lemma RenamedGets(config: Config, s: State, pid: Pid, target: Selection)
    requires s.cached.marker.None?
    ensures Gets(config, s, pid, Applying(Open, target), if s.cached.anchor then 6 else 8,
                 Renamed(s, target), Applying(SyncSelection, target))
  {
    hide Gets;
    var s1 := Written(s, Open, target);
    var s2 := Written(s1, Fill, target);
    var s3 := Written(s2, SyncMarker, target);
    var s4 := Written(s3, SyncEntry, target);
    var open := Applying(Open, target);
    WriteGets(config, s, pid, Open, target);
    WriteGets(config, s1, pid, Fill, target);
    WriteGets(config, s2, pid, SyncMarker, target);
    WriteGets(config, s3, pid, SyncEntry, target);
    WriteGets(config, s4, pid, CheckAnchor, target);
    GetsOn(config, s, pid, open, 1, s1, Applying(Fill, target), 1, s2, Applying(SyncMarker, target));
    GetsOn(config, s, pid, open, 2, s2, Applying(SyncMarker, target), 1, s3, Applying(SyncEntry, target));
    GetsOn(config, s, pid, open, 3, s3, Applying(SyncEntry, target), 1, s4, Applying(CheckAnchor, target));
    var next := AfterWriting(s4, CheckAnchor, target);
    GetsOn(config, s, pid, open, 4, s4, Applying(CheckAnchor, target), 1, s4, next);
    if s.cached.anchor {
      WriteGets(config, s4, pid, PutSelection, target);
      GetsOn(config, s, pid, open, 5, s4, next, 1, Renamed(s, target), Applying(SyncSelection, target));
    } else {
      var s5 := Written(s4, PutAnchor, target);
      var s6 := Written(s5, SyncAnchor, target);
      WriteGets(config, s4, pid, PutAnchor, target);
      WriteGets(config, s5, pid, SyncAnchor, target);
      WriteGets(config, s6, pid, PutSelection, target);
      GetsOn(config, s, pid, open, 5, s4, next, 1, s5, Applying(SyncAnchor, target));
      GetsOn(config, s, pid, open, 6, s5, Applying(SyncAnchor, target), 1, s6, Applying(PutSelection, target));
      GetsOn(config, s, pid, open, 7, s6, Applying(PutSelection, target), 1,
             Renamed(s, target), Applying(SyncSelection, target));
    }
  }

  lemma CommittedGets(config: Config, s: State, pid: Pid, target: Selection)
    requires s.cached.marker.Some?
    ensures Gets(config, s, pid, Applying(SyncSelection, target), 3,
                 Committed(s), Reporting(After(RequestOf(target)), ReadHost))
  {
    hide Gets;
    var s1 := Written(s, SyncSelection, target);
    var s2 := Written(s1, Unmark, target);
    WriteGets(config, s, pid, SyncSelection, target);
    WriteGets(config, s1, pid, Unmark, target);
    WriteGets(config, s2, pid, SyncUnmark, target);
    GetsOn(config, s, pid, Applying(SyncSelection, target), 1, s1, Applying(Unmark, target),
           1, s2, Applying(SyncUnmark, target));
    GetsOn(config, s, pid, Applying(SyncSelection, target), 2, s2, Applying(SyncUnmark, target),
           1, Committed(s), Reporting(After(RequestOf(target)), ReadHost));
  }

  /** The last read of a report that finds no marker serves its caller. */
  lemma ServeGets(config: Config, s: State, pid: Pid, goal: Goal, grant: Authorization, next: Pc, t: State)
    requires s.cached.marker.None? && pid !in s.latched && !goal.Poll?
    requires Serve(config, At(s, pid, Reporting(goal, ReadMarker(grant.host, grant.since, grant.selection))), pid, goal,
                   grant, true)
          == At(At(t, pid, Reporting(goal, ReadMarker(grant.host, grant.since, grant.selection))), pid, next)
    requires t.procs == s.procs
    ensures Gets(config, s, pid, Reporting(goal, ReadMarker(grant.host, grant.since, grant.selection)), 1, t, next)
  {
    hide Gets, Serve;
    var pc := Reporting(goal, ReadMarker(grant.host, grant.since, grant.selection));
    GetsOne(config, s, pid, pc, t, next);
  }

  /** The check of a request that is due lets it through. */
  lemma CheckedGets(config: Config, s: State, pid: Pid, request: Request)
    requires Quiet(config, s, pid) && Version(s.cached.selection) == request.expected
    requires RevisionOf(config, Last(s.log)) == request.revision
    ensures Gets(config, s.(cached := s.cached.(activity := true)), pid, Fence(Enter(Apply(request))), 5,
                 Checked(s), Binding(request))
  {
    hide Gets, Readable, SelectionReadable, RevisionOf;
    var s0, s1 := s.(cached := s.cached.(activity := true)), Opened(s);
    var enter := Fence(Enter(Apply(request)));
    var first := Reporting(Before(request), ReadHost);
    var grant := Authorization(Last(s.log), s.cached.selection, SinceNow(s1));
    var last := Reporting(Before(request), ReadMarker(grant.host, grant.since, grant.selection));
    GetsOne(config, s0, pid, enter, s1, first);
    ReportGets(config, s1, pid, Before(request));
    ServeGets(config, s1, pid, Before(request), grant, Binding(request), Checked(s));
    GetsOn(config, s0, pid, enter, 1, s1, first, 3, s1, last);
    GetsOn(config, s0, pid, enter, 4, s1, last, 1, Checked(s), Binding(request));
  }

  lemma BoundGets(config: Config, s: State, pid: Pid, request: Request)
    requires HostReadable(config, s) && Selectable(config, Last(s.log), request)
    ensures Gets(config, s, pid, Binding(request), 1, s, Applying(Open, Target(config, Last(s.log), request)))
  {
    hide Gets, Readable, Selectable, Bindings;
    GetsOne(config, s, pid, Binding(request), s, Applying(Open, Target(config, Last(s.log), request)));
  }

  lemma IsDue(config: Config, host: HostApproval, request: Request)
    requires Selectable(config, host, request)
    ensures RevisionOf(config, host) == request.revision
    ensures RequestOf(Target(config, host, request)) == request
    ensures Target(config, host, request).revision == request.revision
  {
    hide RevisionOf, Bindings;
  }

  lemma CheckedRests(config: Config, s: State, pid: Pid)
    requires Quiet(config, s, pid)
    ensures Last(Checked(s).log) == Last(s.log) && HostReadable(config, Checked(s)) && Checked(s).cached.marker.None?
  {
    hide Readable, SelectionReadable;
  }

  /** An apply that nothing disturbs gets as far as the rename. */
  lemma RenameIsReached(config: Config, s: State, pid: Pid, request: Request) returns (n: nat)
    requires Quiet(config, s, pid) && Selectable(config, Last(s.log), request)
    requires Version(s.cached.selection) == request.expected
    ensures var target := Target(config, Last(s.log), request);
            Gets(config, s.(cached := s.cached.(activity := true)), pid, Fence(Enter(Apply(request))), n,
                 Renamed(Checked(s), target), Applying(SyncSelection, target))
  {
    hide *;
    IsDue(config, Last(s.log), request);
    CheckedRests(config, s, pid);
    var s0, target := s.(cached := s.cached.(activity := true)), Target(config, Last(s.log), request);
    var enter, open := Fence(Enter(Apply(request))), Applying(Open, target);
    CheckedGets(config, s, pid, request);
    BoundGets(config, Checked(s), pid, request);
    RenamedGets(config, Checked(s), pid, target);
    n := if Checked(s).cached.anchor then 12 else 14;
    GetsOn(config, s0, pid, enter, 5, Checked(s), Binding(request), 1, Checked(s), open);
    GetsOn(config, s0, pid, enter, 6, Checked(s), open, n - 6,
           Renamed(Checked(s), target), Applying(SyncSelection, target));
  }

  /** After the commit: the closing report has granted, and the fence is gone. */
  function Finished(s: State, target: Selection): State {
    var t := Committed(s);
    var disk := t.cached.(activity := false);
    t.(cached := disk, durable := disk, done := s.done + [RequestOf(target)],
       granted := s.granted + [Authorization(Last(s.log), t.cached.selection, SinceNow(t))])
  }

  lemma ClosingGets(config: Config, s: State, pid: Pid, target: Selection)
    requires HostReadable(config, s) && pid !in s.latched && SelectionReadable(config, target)
    requires s.cached.selection == Some(target) && s.cached.marker.Some? && s.cached.anchor
    requires RevisionOf(config, Last(s.log)) == target.revision
    ensures Gets(config, s, pid, Applying(SyncSelection, target), 8,
                 Finished(s, target).(durable := Committed(s).cached), Fence(SyncLeave))
  {
    hide Gets, Readable, SelectionReadable, RevisionOf;
    var t := Committed(s);
    var sync, first := Applying(SyncSelection, target), Reporting(After(RequestOf(target)), ReadHost);
    var grant := Authorization(Last(s.log), t.cached.selection, SinceNow(t));
    var last := Reporting(After(RequestOf(target)), ReadMarker(grant.host, grant.since, grant.selection));
    var served := t.(granted := t.granted + [grant], done := t.done + [RequestOf(target)]);
    var left := Finished(s, target).(durable := t.cached);
    CommittedGets(config, s, pid, target);
    ReportGets(config, t, pid, After(RequestOf(target)));
    ServeGets(config, t, pid, After(RequestOf(target)), grant, Fence(Leave), served);
    GetsOne(config, served, pid, Fence(Leave), left, Fence(SyncLeave));
    GetsOn(config, s, pid, sync, 3, t, first, 3, t, last);
    GetsOn(config, s, pid, sync, 6, t, last, 1, served, Fence(Leave));
    GetsOn(config, s, pid, sync, 7, served, Fence(Leave), 1, left, Fence(SyncLeave));
  }

  lemma FinishIsReached(config: Config, s: State, pid: Pid, target: Selection)
    requires HostReadable(config, s) && pid !in s.latched && pid !in s.procs && SelectionReadable(config, target)
    requires s.cached.selection == Some(target) && s.cached.marker.Some? && s.cached.anchor
    requires RevisionOf(config, Last(s.log)) == target.revision
    ensures Alone(config, At(s, pid, Applying(SyncSelection, target)), pid, 9) == Finished(s, target)
  {
    hide *;
    var left := Finished(s, target).(durable := Committed(s).cached);
    ClosingGets(config, s, pid, target);
    GetsAlone(config, s, pid, Applying(SyncSelection, target), 8, left, Fence(SyncLeave));
    AloneOnce(config, At(s, pid, Applying(SyncSelection, target)), pid, 8);
    LastLeaves(config, s, pid, target);
  }

  lemma GetsAlone(config: Config, s: State, pid: Pid, pc: Pc, n: nat, t: State, next: Pc)
    requires Gets(config, s, pid, pc, n, t, next)
    ensures Alone(config, At(s, pid, pc), pid, n) == At(t, pid, next)
  {
    hide Alone;
  }

  lemma AloneOnce(config: Config, s: State, pid: Pid, n: nat)
    ensures Alone(config, s, pid, n + 1) == Do(config, Alone(config, s, pid, n), Go(pid, Works))
  {
    hide Do;
  }

  lemma LastLeaves(config: Config, s: State, pid: Pid, target: Selection)
    requires pid !in s.procs && s.cached.marker.Some?
    ensures Do(config, At(Finished(s, target).(durable := Committed(s).cached), pid, Fence(SyncLeave)), Go(pid, Works))
         == Finished(s, target)
  {
    hide SinceNow, RequestOf;
    assert s.procs[pid := Fence(SyncLeave)] - {pid} == s.procs;
  }

  /** Undisturbed, an apply that is due succeeds: it leaves the requested selection durable
      under the next version, no marker and no fence, and a store at rest again. */
  lemma UndisturbedApplySucceeds(config: Config, s: State, pid: Pid, request: Request) returns (n: nat, t: State)
    requires ConfigValid(config) && Quiet(config, s, pid) && Selectable(config, Last(s.log), request)
    requires Version(s.cached.selection) == request.expected
    ensures t == Alone(config, Do(config, s, Begin(pid, Apply(request))), pid, n)
    ensures t.cached == t.durable == Disk(true, Some(Target(config, Last(s.log), request)), None, false)
    ensures t.done == s.done + [request] && t.procs == s.procs && t.latched == s.latched
    ensures Quiet(config, t, pid)
  {
    hide *;
    var target := Target(config, Last(s.log), request);
    IsDue(config, Last(s.log), request);
    QuietReadable(config, s, pid);
    TargetIsReadable(config, Last(s.log), request);
    var m := RenameIsReached(config, s, pid, request);
    var r := Renamed(Checked(s), target);
    RenamedRests(config, s, pid, target);
    FinishIsReached(config, r, pid, target);
    n, t := m + 9, Finished(r, target);
    BeginGets(config, s, pid, request, m, r, Applying(SyncSelection, target));
    AloneAdds(config, Do(config, s, Begin(pid, Apply(request))), pid, m, 9);
    FinishedRests(config, s, pid, target);
  }

  lemma QuietReadable(config: Config, s: State, pid: Pid)
    requires Quiet(config, s, pid)
    ensures Readable(config, Last(s.log))
  {
  }

  lemma BeginGets(config: Config, s: State, pid: Pid, request: Request, n: nat, t: State, next: Pc)
    requires Quiet(config, s, pid)
    requires Gets(config, s.(cached := s.cached.(activity := true)), pid, Fence(Enter(Apply(request))), n, t, next)
    ensures Alone(config, Do(config, s, Begin(pid, Apply(request))), pid, n) == At(t, pid, next)
  {
    hide Alone, Readable, SelectionReadable;
  }

  lemma RenamedRests(config: Config, s: State, pid: Pid, target: Selection)
    requires Quiet(config, s, pid)
    ensures var r := Renamed(Checked(s), target);
            && Last(r.log) == Last(s.log) && HostReadable(config, r) && pid !in r.latched && pid !in r.procs
            && r.cached.selection == Some(target) && r.cached.marker.Some? && r.cached.anchor
  {
    hide Readable, SelectionReadable;
  }

  lemma FinishedRests(config: Config, s: State, pid: Pid, target: Selection)
    requires Quiet(config, s, pid) && SelectionReadable(config, target)
    ensures var t := Finished(Renamed(Checked(s), target), target);
            && t.cached == t.durable == Disk(true, Some(target), None, false)
            && t.done == s.done + [RequestOf(target)] && t.procs == s.procs && t.latched == s.latched && t.log == s.log
            && Quiet(config, t, pid)
  {
    hide Readable, SelectionReadable, RequestOf, SinceNow;
  }

  /** Repeating an applied request succeeds too, and leaves every file as it was. */
  lemma RepeatSucceeds(config: Config, s: State, pid: Pid, request: Request) returns (n: nat, t: State)
    requires Quiet(config, s, pid) && Answers(s.cached.selection, request)
    ensures t == Alone(config, Do(config, s, Begin(pid, Apply(request))), pid, n)
    ensures t.cached == t.durable == s.cached && t.settled == s.settled
    ensures t.done == s.done + [request] && t.procs == s.procs && t.latched == s.latched
  {
    hide *;
    var u := Repeated(s, request);
    RepeatedGets(config, s, pid, request);
    BeginGets(config, s, pid, request, 6, u.(durable := s.cached.(activity := true)), Fence(SyncLeave));
    RepeatedLeaves(config, s, pid, request);
    n, t := 7, u;
    AloneOnce(config, Do(config, s, Begin(pid, Apply(request))), pid, 6);
  }

  function Repeated(s: State, request: Request): State {
    Checked(s).(cached := s.cached, durable := s.cached, done := s.done + [request])
  }

  lemma RepeatedLeaves(config: Config, s: State, pid: Pid, request: Request)
    requires Quiet(config, s, pid)
    ensures var u := Repeated(s, request);
            && u.cached == u.durable == s.cached && u.settled == s.settled && u.done == s.done + [request]
            && u.procs == s.procs && u.latched == s.latched
            && Do(config, At(u.(durable := s.cached.(activity := true)), pid, Fence(SyncLeave)), Go(pid, Works)) == u
  {
    hide Readable, SelectionReadable, SinceNow;
    assert s.procs[pid := Fence(SyncLeave)] - {pid} == s.procs;
  }

  lemma RepeatedGets(config: Config, s: State, pid: Pid, request: Request)
    requires Quiet(config, s, pid) && Answers(s.cached.selection, request)
    ensures Gets(config, s.(cached := s.cached.(activity := true)), pid, Fence(Enter(Apply(request))), 6,
                 Repeated(s, request).(durable := s.cached.(activity := true)), Fence(SyncLeave))
  {
    hide Gets, Readable, SelectionReadable, RevisionOf;
    var s0, s1 := s.(cached := s.cached.(activity := true)), Opened(s);
    var enter := Fence(Enter(Apply(request)));
    var first := Reporting(Before(request), ReadHost);
    var grant := Authorization(Last(s.log), s.cached.selection, SinceNow(s1));
    var last := Reporting(Before(request), ReadMarker(grant.host, grant.since, grant.selection));
    var served := Checked(s).(done := s.done + [request]);
    var left := Repeated(s, request).(durable := s1.cached);
    GetsOne(config, s0, pid, enter, s1, first);
    ReportGets(config, s1, pid, Before(request));
    ServeGets(config, s1, pid, Before(request), grant, Fence(Leave), served);
    GetsOne(config, served, pid, Fence(Leave), left, Fence(SyncLeave));
    GetsOn(config, s0, pid, enter, 1, s1, first, 3, s1, last);
    GetsOn(config, s0, pid, enter, 4, s1, last, 1, served, Fence(Leave));
    GetsOn(config, s0, pid, enter, 5, served, Fence(Leave), 1, left, Fence(SyncLeave));
  }

  // ---- a recovery that overlaps a later apply ----

  const FIRST := Request("request-1", 0, RevisionOf(SMALL, NOTHING), [])
  const SECOND := Request("request-2", 1, RevisionOf(SMALL, NOTHING), [])
  const LATE := Recovering(TakeMarker(FIRST))

  lemma RequestsAreFine()
    ensures ConfigValid(SMALL) && Readable(SMALL, NOTHING)
    ensures Selectable(SMALL, NOTHING, FIRST) && Selectable(SMALL, NOTHING, SECOND)
  {
    assert Maximum(SMALL, NOTHING) == {};
  }

  /** Recovery has passed its checks on a renamed selection and synced it, and is about to
      take the marker away. */
  lemma RecoveryGets(config: Config, s: State, pid: Pid, request: Request)
    requires HostReadable(config, s) && Recoverable(config, s, request.id, Last(s.log), request)
    requires s.cached.anchor && s.cached.marker == Some(Whole(request))
    ensures Gets(config, s, pid, Recovering(RecoverHost(request.id, request.revision)), 6,
                 s.(durable := s.cached), Recovering(TakeMarker(request)))
  {
    hide Gets, Readable, SelectionReadable, RevisionOf, WithinMaximum, RootEpoch;
    var host := Last(s.log);
    var a := Recovering(RecoverHost(request.id, request.revision));
    var b := Recovering(RecoverMarker(request.id, host));
    var c := Recovering(RecoverAnchor(request.id, host, request));
    var d := Recovering(RecoverSelection(request.id, host, request));
    var e := Recovering(SyncFiles(request));
    var f := Recovering(SyncDirectory(request));
    GetsOne(config, s, pid, a, s, b);
    GetsOne(config, s, pid, b, s, c);
    GetsOne(config, s, pid, c, s, d);
    GetsOne(config, s, pid, d, s, e);
    GetsOne(config, s, pid, e, s, f);
    GetsOne(config, s, pid, f, s.(durable := s.cached), Recovering(TakeMarker(request)));
    GetsOn(config, s, pid, a, 1, s, b, 1, s, c);
    GetsOn(config, s, pid, a, 2, s, c, 1, s, d);
    GetsOn(config, s, pid, a, 3, s, d, 1, s, e);
    GetsOn(config, s, pid, a, 4, s, e, 1, s, f);
    GetsOn(config, s, pid, a, 5, s, f, 1, s.(durable := s.cached), Recovering(TakeMarker(request)));
  }

  ghost predicate Reached(config: Config, s: State) { exists actions :: Run(config, actions) == s }

  lemma ReachedStep(config: Config, s: State, action: Action)
    requires Reached(config, s)
    ensures Reached(config, Do(config, s, action))
  {
    hide Do;
    var actions :| Run(config, actions) == s;
    var longer := actions + [action];
    assert longer[..|longer| - 1] == actions;
    assert Run(config, longer) == Do(config, s, action);
  }

  lemma ReachedAlone(config: Config, s: State, pid: Pid, n: nat)
    requires Reached(config, s)
    ensures Reached(config, Alone(config, s, pid, n))
  {
    hide Run, Alone;
    var actions :| Run(config, actions) == s;
    var longer := AloneIsRun(config, actions, pid, n);
  }

  const FIRST_TARGET := Target(SMALL, NOTHING, FIRST)
  const SECOND_TARGET := Target(SMALL, NOTHING, SECOND)

  /** The first apply has renamed its selection; a recovery that takes it for a crashed one
      is about to take the marker. */
  const RENAMED := Renamed(Checked(Initial()), FIRST_TARGET)
  const OVERLAPPED := At(RENAMED.(durable := RENAMED.cached), 2, LATE)

  lemma InitialIsQuiet()
    ensures Quiet(SMALL, Initial(), 1) && Last(Initial().log) == NOTHING
    ensures Version(Initial().cached.selection) == FIRST.expected
    ensures RENAMED == Renamed(Checked(Initial()), Target(SMALL, Last(Initial().log), FIRST))
    ensures FIRST_TARGET == Target(SMALL, Last(Initial().log), FIRST)
  {
    RequestsAreFine();
    hide Readable, Renamed, Checked, Target, RevisionOf;
  }

  lemma FirstIsRecoverable(s: State)
    requires s.cached.selection == Some(FIRST_TARGET)
    ensures Recoverable(SMALL, s, FIRST.id, NOTHING, FIRST)
  {
    RequestsAreFine();
    TargetIsReadable(SMALL, NOTHING, FIRST);
    hide RevisionOf, Readable, SelectionReadable, Selectable, RootEpoch, WithinMaximum;
  }

  lemma InitialIsReached()
    ensures Reached(SMALL, Initial())
  {
    assert Run(SMALL, []) == Initial();
  }

  lemma OverlapIsReached()
    ensures Reached(SMALL, At(OVERLAPPED, 1, Applying(SyncSelection, FIRST_TARGET)))
  {
    hide *;
    RequestsAreFine();
    InitialIsReached();
    InitialIsQuiet();
    var begun := Do(SMALL, Initial(), Begin(1, Apply(FIRST)));
    ReachedStep(SMALL, Initial(), Begin(1, Apply(FIRST)));
    var n := RenameIsReached(SMALL, Initial(), 1, FIRST);
    BeginGets(SMALL, Initial(), 1, FIRST, n, RENAMED, Applying(SyncSelection, FIRST_TARGET));
    ReachedAlone(SMALL, begun, 1, n);
    RecoveryOverlaps(At(RENAMED, 1, Applying(SyncSelection, FIRST_TARGET)));
  }

  lemma RecoveryOverlaps(s: State)
    requires s == At(RENAMED, 1, Applying(SyncSelection, FIRST_TARGET)) && Reached(SMALL, s)
    ensures Reached(SMALL, At(OVERLAPPED, 1, Applying(SyncSelection, FIRST_TARGET)))
  {
    hide *;
    var start := Recovering(RecoverHost(FIRST.id, FIRST.revision));
    ReachedStep(SMALL, s, Begin(2, Recover(FIRST.id, FIRST.revision)));
    RecoveryBegins(s);
    FirstIsRecoverable(s);
    RecoveryGets(SMALL, s, 2, FIRST);
    GetsAlone(SMALL, s, 2, start, 6, s.(durable := s.cached), LATE);
    ReachedAlone(SMALL, At(s, 2, start), 2, 6);
    Swapped();
  }

  lemma RecoveryBegins(s: State)
    requires s == At(RENAMED, 1, Applying(SyncSelection, FIRST_TARGET))
    ensures Do(SMALL, s, Begin(2, Recover(FIRST.id, FIRST.revision)))
         == At(s, 2, Recovering(RecoverHost(FIRST.id, FIRST.revision)))
    ensures s.cached.selection == Some(FIRST_TARGET) && s.cached.anchor && s.cached.marker == Some(Whole(FIRST))
    ensures Last(s.log) == NOTHING && HostReadable(SMALL, s) && LATE == Recovering(TakeMarker(FIRST))
  {
    RequestsAreFine();
    IsDue(SMALL, NOTHING, FIRST);
    hide Readable, RevisionOf, Target, RequestOf;
  }

  lemma Swapped()
    ensures var s := At(RENAMED, 1, Applying(SyncSelection, FIRST_TARGET));
            At(s.(durable := s.cached), 2, LATE) == At(OVERLAPPED, 1, Applying(SyncSelection, FIRST_TARGET))
  {
    hide Renamed, Checked, RevisionOf, Target;
    var procs: map<Pid, Pc> := RENAMED.procs;
    assert procs[1 := Applying(SyncSelection, FIRST_TARGET)][2 := LATE]
        == procs[2 := LATE][1 := Applying(SyncSelection, FIRST_TARGET)];
  }

  const FINISHED := Finished(OVERLAPPED, FIRST_TARGET)
  const REOPENED := Renamed(Checked(FINISHED), SECOND_TARGET)

  lemma OverlappedRests()
    ensures HostReadable(SMALL, OVERLAPPED) && 1 !in OVERLAPPED.latched && 1 !in OVERLAPPED.procs
    ensures SelectionReadable(SMALL, FIRST_TARGET) && SelectionReadable(SMALL, SECOND_TARGET)
    ensures OVERLAPPED.cached.selection == Some(FIRST_TARGET)
    ensures OVERLAPPED.cached.marker.Some? && OVERLAPPED.cached.anchor
    ensures RevisionOf(SMALL, Last(OVERLAPPED.log)) == FIRST_TARGET.revision
  {
    RequestsAreFine();
    TargetIsReadable(SMALL, NOTHING, FIRST);
    TargetIsReadable(SMALL, NOTHING, SECOND);
    IsDue(SMALL, NOTHING, FIRST);
    hide Readable, RevisionOf, Target, RequestOf, SelectionReadable, Selectable;
  }

  lemma FinishedOverlap()
    ensures Quiet(SMALL, FINISHED, 1) && Last(FINISHED.log) == NOTHING
    ensures Version(FINISHED.cached.selection) == SECOND.expected && FINISHED.cached.selection == Some(FIRST_TARGET)
    ensures FINISHED.procs == map[2 := LATE] && FINISHED.latched == {}
    ensures REOPENED == Renamed(Checked(FINISHED), Target(SMALL, Last(FINISHED.log), SECOND))
    ensures SECOND_TARGET == Target(SMALL, Last(FINISHED.log), SECOND)
  {
    OverlappedRests();
    RequestsAreFine();
    hide Readable, RevisionOf, RequestOf, SelectionReadable, Selectable, Bindings, SinceNow;
  }

  lemma ReopenedIsReached()
    ensures Reached(SMALL, At(REOPENED, 1, Applying(SyncSelection, SECOND_TARGET)))
  {
    hide *;
    OverlapIsReached();
    OverlappedRests();
    FinishIsReached(SMALL, OVERLAPPED, 1, FIRST_TARGET);
    ReachedAlone(SMALL, At(OVERLAPPED, 1, Applying(SyncSelection, FIRST_TARGET)), 1, 9);
    FinishedIs();
    FinishedOverlap();
    RequestsAreFine();
    ReachedStep(SMALL, FINISHED, Begin(1, Apply(SECOND)));
    var n := RenameIsReached(SMALL, FINISHED, 1, SECOND);
    BeginGets(SMALL, FINISHED, 1, SECOND, n, REOPENED, Applying(SyncSelection, SECOND_TARGET));
    ReachedAlone(SMALL, Do(SMALL, FINISHED, Begin(1, Apply(SECOND))), 1, n);
  }

  lemma FinishedIs()
    ensures FINISHED == Finished(OVERLAPPED, FIRST_TARGET)
  {
  }

  /** The late recovery takes the marker of the second apply. */
  lemma MarkerIsTaken(s: State)
    requires s == At(REOPENED, 1, Applying(SyncSelection, SECOND_TARGET))
    ensures var t := Do(SMALL, s, Go(2, Works));
            && t.cached.marker.None? && t.cached.selection == Some(SECOND_TARGET) && t.cached.anchor
            && t.durable.selection == Some(FIRST_TARGET)
            && Last(t.log) == NOTHING
  {
    FinishedOverlap();
    hide FINISHED, Readable, RevisionOf, RequestOf, SelectionReadable, Target;
    assert s.procs[2] == LATE;
  }

  lemma {:induction false} ReachedOn(config: Config, s: State, t: State)
    requires Reached(config, s) && Leads(config, s, t)
    ensures Reached(config, t)
  {
    hide RunFrom, CarefulFrom;
    var before :| Run(config, before) == s;
    var more :| CarefulFrom(config, s, more) && RunFrom(config, s, more) == t;
    RunOn(config, before, more);
    assert Run(config, before + more) == t;
  }

  lemma {:induction false} RunOn(config: Config, before: seq<Action>, more: seq<Action>)
    ensures Run(config, before + more) == RunFrom(config, Run(config, before), more)
  {
    hide Do;
    if more == [] {
      assert before + more == before;
    } else {
      var init := more[..|more| - 1];
      RunOn(config, before, init);
      assert (before + more)[..|before + more| - 1] == before + init;
    }
  }

  /** A recovery that outlives the crash it was started for can take the marker of a later
      apply: a report then grants a selection that a power loss takes back. */
  lemma OverlappingRecoveryBreaksDurability()
    ensures exists s: State, grant: Authorization ::
              && Reached(SMALL, s) && grant in s.granted && Version(grant.selection) == 2
              && Version(Do(SMALL, s, PowerLoss).cached.selection) == 1
  {
    hide *;
    ReopenedIsReached();
    OverlappedRests();
    var s := At(REOPENED, 1, Applying(SyncSelection, SECOND_TARGET));
    ReachedStep(SMALL, s, Go(2, Works));
    MarkerIsTaken(s);
    RequestsAreFine();
    var t := Do(SMALL, s, Go(2, Works));
    IsGranting(SMALL, t, SECOND_TARGET);
    LeadsNowhere(SMALL, t);
    var u, grant := GrantFollows(SMALL, t, t, SECOND_TARGET);
    ReachedOn(SMALL, t, u);
    Versions(u, grant.selection);
  }

  lemma Versions(s: State, selection: Option<Selection>)
    requires s.durable.selection == Some(FIRST_TARGET) && selection == Some(SECOND_TARGET)
    ensures Version(selection) == 2 && Version(Do(SMALL, s, PowerLoss).cached.selection) == 1
  {
    hide RevisionOf, Bindings;
  }
}
