/**
  Recoveries that nothing disturbs: when one ends the transaction a crash left open, and
  what it leaves behind otherwise (agent/src/sourceAccessPolicy.ts:1497-1583).
 */
module Recoveries {
  import opened SourcePaths
  import opened HostPolicy
  import opened HostLog
  import opened Selections
  import opened SelectionFiles
  import opened SelectionScenarios

  /** What recovery asks of the store: a readable policy of the expected revision, a whole
      marker, and behind it the selection it announces, still approved. */
  predicate MayRecover(config: Config, s: State, id: string, expected: Revision) {
    && HostReadable(config, s) && RevisionOf(config, Last(s.log)) == expected
    && s.cached.marker.Some? && !s.cached.marker.value.Torn? && s.cached.anchor
    && Recoverable(config, s, id, Last(s.log), s.cached.marker.value.request)
  }

  /** All the steps of a process, one outcome each; none once it has ended. */
  ghost function Following(config: Config, s: State, pid: Pid, outcomes: seq<Outcome>): State {
    if outcomes == [] then s
    else Do(config, Following(config, s, pid, outcomes[..|outcomes| - 1]), Go(pid, outcomes[|outcomes| - 1]))
  }

  /** The store once recovery has ended the transaction. */
  function Recovered(s: State, pid: Pid): State {
    var t := Settle(SyncData(s));
    t.(durable := t.cached, latched := s.latched - {pid})
  }

  lemma Begins(config: Config, s: State, pid: Pid, id: string, expected: Revision)
    requires pid !in s.procs
    ensures Do(config, s, Begin(pid, Recover(id, expected))) == At(s, pid, Recovering(RecoverHost(id, expected)))
  {
  }

  // ---- the checks ----

  lemma ChecksPass(config: Config, s: State, pid: Pid, id: string, expected: Revision)
    requires MayRecover(config, s, id, expected)
    ensures Gets(config, s, pid, Recovering(RecoverHost(id, expected)), 4,
                 s, Recovering(SyncFiles(s.cached.marker.value.request)))
  {
    hide Gets, Readable, Recoverable, RevisionOf;
    var host, request := Last(s.log), s.cached.marker.value.request;
    var a := Recovering(RecoverHost(id, expected));
    var b := Recovering(RecoverMarker(id, host));
    var c := Recovering(RecoverAnchor(id, host, request));
    var d := Recovering(RecoverSelection(id, host, request));
    var e := Recovering(SyncFiles(request));
    GetsOne(config, s, pid, a, s, b);
    GetsOne(config, s, pid, b, s, c);
    GetsOne(config, s, pid, c, s, d);
    SameRecoverable(config, s, pid, d, id, host, request);
    GetsOne(config, s, pid, d, s, e);
    GetsOn(config, s, pid, a, 1, s, b, 1, s, c);
    GetsOn(config, s, pid, a, 2, s, c, 1, s, d);
    GetsOn(config, s, pid, a, 3, s, d, 1, s, e);
  }

  lemma SameRecoverable(
    config: Config, s: State, pid: Pid, pc: Pc, id: string, host: HostApproval, request: Request)
    ensures Recoverable(config, At(s, pid, pc), id, host, request) == Recoverable(config, s, id, host, request)
  {
  }

  /** What fails first ends it, and nothing has been written. */
  lemma ChecksEnd(config: Config, s: State, pid: Pid, id: string, expected: Revision) returns (n: nat)
    requires pid !in s.procs && !MayRecover(config, s, id, expected)
    ensures Alone(config, At(s, pid, Recovering(RecoverHost(id, expected))), pid, n) == s
  {
    hide Gets, Readable, Recoverable, RevisionOf;
    var a := Recovering(RecoverHost(id, expected));
    if !(HostReadable(config, s) && RevisionOf(config, Last(s.log)) == expected) {
      n := 1;
      EndsAfter(config, s, pid, a, 0, a);
      return;
    }
    var host := Last(s.log);
    var b := Recovering(RecoverMarker(id, host));
    GetsOne(config, s, pid, a, s, b);
    if s.cached.marker.None? || s.cached.marker.value.Torn? {
      n := 2;
      EndsAfter(config, s, pid, a, 1, b);
      return;
    }
    var request := s.cached.marker.value.request;
    var c := Recovering(RecoverAnchor(id, host, request));
    GetsOne(config, s, pid, b, s, c);
    GetsOn(config, s, pid, a, 1, s, b, 1, s, c);
    if !s.cached.anchor {
      n := 3;
      EndsAfter(config, s, pid, a, 2, c);
      return;
    }
    var d := Recovering(RecoverSelection(id, host, request));
    GetsOne(config, s, pid, c, s, d);
    GetsOn(config, s, pid, a, 2, s, c, 1, s, d);
    SameRecoverable(config, s, pid, d, id, host, request);
    n := 4;
    EndsAfter(config, s, pid, a, 3, d);
  }

  /** The last operation ends the process and leaves the rest alone. */
  lemma EndsAfter(config: Config, s: State, pid: Pid, a: Pc, n: nat, b: Pc)
    requires pid !in s.procs && ((n == 0 && a == b) || Gets(config, s, pid, a, n, s, b))
    requires DoGo(config, At(s, pid, b), pid, b, Works) == Exit(At(s, pid, b), pid)
    ensures Alone(config, At(s, pid, a), pid, n + 1) == s
  {
    assert n == 0 ==> Alone(config, At(s, pid, a), pid, n) == At(s, pid, a);
    AloneOnce(config, At(s, pid, a), pid, n);
    hide DoGo, Alone;
    assert s.procs[pid := b] - {pid} == s.procs;
  }

  // ---- to the end ----

  lemma SyncsAndTakes(config: Config, s: State, pid: Pid, request: Request)
    requires s.cached.marker.Some?
    ensures Gets(config, s, pid, Recovering(SyncFiles(request)), 3,
                 Settle(SyncData(s)), Recovering(SyncTaken(request)))
  {
    hide Gets, Persisted;
    var e, f := Recovering(SyncFiles(request)), Recovering(SyncDirectory(request));
    var g, h := Recovering(TakeMarker(request)), Recovering(SyncTaken(request));
    GetsOne(config, s, pid, e, s, f);
    GetsOne(config, s, pid, f, SyncData(s), g);
    GetsOne(config, SyncData(s), pid, g, Settle(SyncData(s)), h);
    GetsOn(config, s, pid, e, 1, s, f, 1, SyncData(s), g);
    GetsOn(config, s, pid, e, 2, SyncData(s), g, 1, Settle(SyncData(s)), h);
  }

  lemma TakenEnds(config: Config, s: State, pid: Pid, request: Request)
    requires pid !in s.procs
    ensures Do(config, At(Settle(SyncData(s)), pid, Recovering(SyncTaken(request))), Go(pid, Works))
         == Recovered(s, pid)
  {
    assert s.procs[pid := Recovering(SyncTaken(request))] - {pid} == s.procs;
  }

  lemma RecoveryEnds(config: Config, s: State, pid: Pid, id: string, expected: Revision)
    requires pid !in s.procs && MayRecover(config, s, id, expected)
    ensures Alone(config, At(s, pid, Recovering(RecoverHost(id, expected))), pid, 8) == Recovered(s, pid)
  {
    assert s.cached.marker.Some?;
    hide *;
    var request := s.cached.marker.value.request;
    var a := Recovering(RecoverHost(id, expected));
    var e, h := Recovering(SyncFiles(request)), Recovering(SyncTaken(request));
    ChecksPass(config, s, pid, id, expected);
    SyncsAndTakes(config, s, pid, request);
    GetsOn(config, s, pid, a, 4, s, e, 3, Settle(SyncData(s)), h);
    GetsAlone(config, s, pid, a, 7, Settle(SyncData(s)), h);
    AloneOnce(config, At(s, pid, a), pid, 7);
    TakenEnds(config, s, pid, request);
  }

  lemma RecoveredRests(config: Config, s: State, pid: Pid, id: string, expected: Revision)
    requires pid !in s.procs && MayRecover(config, s, id, expected)
    ensures var t := Recovered(s, pid);
            && t.cached == t.durable == s.cached.(marker := None)
            && t.procs == s.procs && t.log == s.log && t.granted == s.granted && t.done == s.done
            && t.latched == s.latched - {pid}
            && Answers(t.durable.selection, s.cached.marker.value.request)
            && (!s.cached.activity ==> Quiet(config, t, pid))
            && (!Active(s) ==> Quiet(config, Do(config, t, ClearActivity), pid))
  {
    hide Readable, SelectionReadable, Answers, RevisionOf, WithinMaximum, RootEpoch;
  }

  /** In a state of the invariant it is settled for good. */
  lemma RecoveredIsSettled(config: Config, s: State, pid: Pid)
    requires FilesOk(config, s) && s.cached.marker.Some?
    ensures Settled(Recovered(s, pid), Recovered(s, pid).durable.selection)
    ensures s.settled <= Recovered(s, pid).settled
  {
    hide Chain, Bound;
  }

  /** Alone, a recovery whose checks are met ends the transaction: no marker is left, what
      shows is durable and settled, and once no fence is left the store is at rest. One whose
      checks are not met ends with everything as it was, the marker included. */
  lemma UndisturbedRecoveryEnds(config: Config, s: State, pid: Pid, id: string, expected: Revision)
    returns (n: nat, t: State)
    requires pid !in s.procs
    ensures t == Alone(config, Do(config, s, Begin(pid, Recover(id, expected))), pid, n)
    ensures !MayRecover(config, s, id, expected) ==> t == s
    ensures MayRecover(config, s, id, expected) ==>
              && t.cached == t.durable == s.cached.(marker := None)
              && t.procs == s.procs && t.log == s.log && t.granted == s.granted && t.done == s.done
              && t.latched == s.latched - {pid}
              && Answers(t.durable.selection, s.cached.marker.value.request)
              && (!s.cached.activity ==> Quiet(config, t, pid))
              && (!Active(s) ==> Quiet(config, Do(config, t, ClearActivity), pid))
              && (FilesOk(config, s) ==> Settled(t, t.durable.selection) && s.settled <= t.settled)
  {
    assert MayRecover(config, s, id, expected) ==> s.cached.marker.Some?;
    hide *;
    Begins(config, s, pid, id, expected);
    if MayRecover(config, s, id, expected) {
      n, t := 8, Recovered(s, pid);
      RecoveryEnds(config, s, pid, id, expected);
      RecoveredRests(config, s, pid, id, expected);
      if FilesOk(config, s) {
        RecoveredIsSettled(config, s, pid);
      }
    } else {
      n := ChecksEnd(config, s, pid, id, expected);
      t := s;
    }
  }

  /** What ends well is the transaction that the operator named: the selection that shows is
      the one its marker announces, under the policy named, and every root of it still has the
      epoch it was bound to. */
  lemma OnlyTheNamedIsRecovered(config: Config, s: State, id: string, expected: Revision)
    requires MayRecover(config, s, id, expected)
    ensures s.cached.marker.Some? && !s.cached.marker.value.Torn? && s.cached.anchor && s.cached.selection.Some?
    ensures var marker, selection := s.cached.marker.value.request, s.cached.selection.value;
            && id == marker.id == selection.id && selection.version == marker.expected + 1
            && expected == marker.revision == selection.revision == RevisionOf(config, Last(s.log))
            && marker.roots == selection.roots && SelectionReadable(config, selection)
            && forall root <- selection.roots ::
                 && root in selection.bindings && WithinMaximum(config, Last(s.log), root)
                 && RootEpoch(config, Last(s.log), root) == Some(selection.bindings[root])
  {
    hide Readable, SelectionReadable, RevisionOf, WithinMaximum, RootEpoch;
  }

  /** What apply wrote under today's policy can be recovered under it. */
  lemma TargetIsRecoverable(config: Config, s: State, request: Request)
    requires ConfigValid(config) && HostReadable(config, s) && Selectable(config, Last(s.log), request)
    requires s.cached.selection == Some(Target(config, Last(s.log), request)) && s.cached.anchor
    requires s.cached.marker == Some(Whole(request))
    ensures MayRecover(config, s, request.id, request.revision)
  {
    TargetIsReadable(config, Last(s.log), request);
    hide RevisionOf, Readable, SelectionReadable, RootEpoch, WithinMaximum, Nonoverlapping, RequestId, ValidRoots;
  }

  lemma CrashLeavesRenamed(config: Config, s: State, pid: Pid, pc: Pc)
    requires pid !in s.procs && pid !in s.latched
    ensures Do(config, At(s, pid, pc), Crash(pid)) == s
  {
    assert s.procs[pid := pc] - {pid} == s.procs;
  }

  lemma RenamedMarks(config: Config, s: State, pid: Pid, request: Request)
    requires Quiet(config, s, pid) && Selectable(config, Last(s.log), request)
    ensures var r := Renamed(Checked(s), Target(config, Last(s.log), request));
            && r.cached == Disk(true, Some(Target(config, Last(s.log), request)), Some(Whole(request)), true)
            && r.procs == s.procs && r.latched == s.latched && r.log == s.log
  {
    IsDue(config, Last(s.log), request);
    hide Readable, SelectionReadable, RequestOf, Target, Selectable;
  }

  /** An apply that crashes right behind its rename is completed by a recovery: what it was
      asked for is durable, and only its fence is left to be cleared. */
  lemma CrashedApplyIsRecovered(config: Config, s: State, pid: Pid, operator: Pid, request: Request)
    returns (n: nat, m: nat, t: State)
    requires ConfigValid(config) && Quiet(config, s, pid) && Selectable(config, Last(s.log), request)
    requires Version(s.cached.selection) == request.expected && operator !in s.procs
    ensures var crashed := Do(config, Alone(config, Do(config, s, Begin(pid, Apply(request))), pid, n), Crash(pid));
            t == Alone(config, Do(config, crashed, Begin(operator, Recover(request.id, request.revision))), operator, m)
    ensures t.cached == t.durable == Disk(true, Some(Target(config, Last(s.log), request)), None, true)
    ensures t.procs == s.procs && t.log == s.log && t.latched == s.latched - {operator}
    ensures !Active(s) ==> Quiet(config, Do(config, t, ClearActivity), operator)
  {
    var target := Target(config, Last(s.log), request);
    var r := Renamed(Checked(s), target);
    assert pid !in s.procs && pid !in s.latched && HostReadable(config, s) by { hide Readable, SelectionReadable; }
    RenamedMarks(config, s, pid, request);
    RenamedRests(config, s, pid, target);
    assert !Active(s) ==> !Active(r) by { hide Renamed, Checked, Quiet, Selectable, Target; }
    hide *;
    n := RenameIsReached(config, s, pid, request);
    BeginGets(config, s, pid, request, n, r, Applying(SyncSelection, target));
    CrashLeavesRenamed(config, r, pid, Applying(SyncSelection, target));
    TargetIsRecoverable(config, r, request);
    m, t := UndisturbedRecoveryEnds(config, r, operator, request.id, request.revision);
  }

  // ---- whatever fails ----

  /** How far a lone recovery has come, and what it leaves. */
  predicate Guarded(t: State, pid: Pid) {
    if pid !in t.procs then t.cached.marker.Some? || t.cached == t.durable || pid in t.latched
    else
      && t.procs[pid].Recovering?
      && match t.procs[pid].recovery
         case SyncTaken(_) => true
         case PutBack(_) => pid in t.latched
         case _ => t.cached.marker.Some?
  }

  lemma GuardedOn(config: Config, s: State, pid: Pid, outcome: Outcome)
    requires Guarded(s, pid)
    ensures Guarded(Do(config, s, Go(pid, outcome)), pid)
  {
    hide HostReadable, Recoverable, RevisionOf;
  }

  /** Whatever operations fail, a recovery that has ended leaves the marker in place, or its
      removal durable, or the process latched: never a marker whose removal a power loss may
      or may not undo, and a process ready to grant. */
  lemma {:induction false} FailedRecoveryIsGuarded(
    config: Config, s: State, pid: Pid, id: string, expected: Revision, outcomes: seq<Outcome>)
    requires pid !in s.procs && s.cached.marker.Some?
    ensures Guarded(Following(config, Do(config, s, Begin(pid, Recover(id, expected))), pid, outcomes), pid)
  {
    if outcomes == [] {
      Begins(config, s, pid, id, expected);
    } else {
      FailedRecoveryIsGuarded(config, s, pid, id, expected, outcomes[..|outcomes| - 1]);
      hide Guarded, Do;
      GuardedOn(config, Following(config, Do(config, s, Begin(pid, Recover(id, expected))), pid,
                                  outcomes[..|outcomes| - 1]), pid, outcomes[|outcomes| - 1]);
    }
  }
}
