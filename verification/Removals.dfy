/**
  When a recovery may remove a marker: exactly when no continuation can then take back a
  granted version (agent/src/sourceAccessPolicy.ts:881-889, 1497-1514, 1533-1582).
 */
module Removals {
  import opened SourcePaths
  import opened HostPolicy
  import opened HostLog
  import opened Selections
  import opened SelectionFiles
  import opened SelectionRuns

  /** A power loss now would bring back no version below a granted one. */
  ghost predicate NothingLost(s: State) {
    forall grant <- s.granted :: Version(grant.selection) <= Version(s.durable.selection)
  }

  /** However things go on, short of another careless removal. */
  ghost predicate Secure(config: Config, s: State) {
    forall actions :: CarefulFrom(config, s, actions) ==> NothingLost(RunFrom(config, s, actions))
  }

  /** A careful run leads from one state to the other. */
  ghost predicate Leads(config: Config, s: State, t: State) {
    exists actions :: CarefulFrom(config, s, actions) && RunFrom(config, s, actions) == t
  }

  lemma LeadsNowhere(config: Config, s: State)
    ensures Leads(config, s, s)
  {
    assert CarefulFrom(config, s, []) && RunFrom(config, s, []) == s;
  }

  lemma LeadsOn(config: Config, s: State, t: State, action: Action)
    requires Leads(config, s, t) && Careful(t, action)
    ensures Leads(config, s, Do(config, t, action))
  {
    hide Do, Careful;
    var actions :| CarefulFrom(config, s, actions) && RunFrom(config, s, actions) == t;
    var longer := actions + [action];
    assert longer[..|longer| - 1] == actions;
    assert CarefulFrom(config, s, longer) && RunFrom(config, s, longer) == Do(config, t, action);
  }

  /** One operation of one process, given what it does. */
  lemma LeadsOnTo(config: Config, s: State, t: State, pid: Pid, pc: Pc, u: State, next: Pc)
    requires Leads(config, s, At(t, pid, pc)) && !pc.Recovering? && u.procs == t.procs
    requires DoGo(config, At(t, pid, pc), pid, pc, Works) == At(At(u, pid, pc), pid, next)
    ensures Leads(config, s, At(u, pid, next))
  {
    hide Leads, DoGo;
    var here := At(t, pid, pc);
    LeadsOn(config, s, here, Go(pid, Works));
    assert u.procs[pid := pc][pid := next] == u.procs[pid := next];
    assert Do(config, here, Go(pid, Works)) == At(u, pid, next);
  }

  lemma {:induction false} NewPid(used: set<Pid>) returns (pid: Pid)
    ensures forall other <- used :: other < pid
  {
    if used == {} {
      pid := 0;
    } else {
      var one :| one in used;
      var below := NewPid(used - {one});
      pid := if below <= one then one + 1 else below;
      assert forall other <- used :: other == one || other in used - {one};
    }
  }

  // ---- a report that finds no marker ----

  /** What a report needs to grant the selection that shows. */
  predicate Granting(config: Config, s: State, selection: Selection) {
    && s.cached.marker.None? && s.cached.anchor && s.cached.selection == Some(selection)
    && SelectionReadable(config, selection) && Readable(config, Last(s.log))
  }

  lemma ReportLeads(config: Config, s: State, t: State, pid: Pid, selection: Selection)
    requires Granting(config, t, selection) && !t.busy && pid !in t.latched && pid !in t.procs
    requires Leads(config, s, At(t, pid, Reporting(Poll, ReadHost)))
    ensures Leads(config, s, At(t, pid, Reporting(Poll, ReadMarker(Last(t.log), SinceNow(t), Some(selection)))))
  {
    hide Leads, SelectionReadable, Readable, SinceNow;
    var host, since := Last(t.log), SinceNow(t);
    var anchored := Reporting(Poll, ReadAnchor(host, since));
    var selected := Reporting(Poll, ReadSelection(host, since, t.cached.anchor));
    SinceStays(t, pid, Reporting(Poll, ReadHost));
    LeadsOnTo(config, s, t, pid, Reporting(Poll, ReadHost), t, anchored);
    LeadsOnTo(config, s, t, pid, anchored, t, selected);
    LeadsOnTo(config, s, t, pid, selected, t, Reporting(Poll, ReadMarker(host, since, Some(selection))));
  }

  lemma SinceStays(s: State, pid: Pid, pc: Pc)
    ensures SinceNow(At(s, pid, pc)) == SinceNow(s)
  {
  }

  lemma LastRead(config: Config, s: State, pid: Pid, host: HostApproval, since: Since, selection: Selection)
    requires s.cached.marker.None? && pid !in s.latched
    ensures var pc := Reporting(Poll, ReadMarker(host, since, Some(selection)));
            var t := Do(config, At(s, pid, pc), Go(pid, Works));
            && Authorization(host, Some(selection), since) in t.granted && t.durable == s.durable
            && Careful(At(s, pid, pc), Go(pid, Works))
  {
    hide Removable;
  }

  lemma QuietBegin(config: Config, s: State, pid: Pid)
    requires pid !in s.procs
    ensures Do(config, s, Begin(pid, Report)) == At(s, pid, Reporting(Poll, ReadHost))
  {
  }

  /** A selection that shows without a marker can be granted, whatever of it is durable. */
  lemma GrantFollows(config: Config, s: State, t: State, selection: Selection)
    returns (u: State, grant: Authorization)
    requires Leads(config, s, t) && Granting(config, t, selection)
    ensures Leads(config, s, u) && grant in u.granted && grant.selection == Some(selection) && u.durable == t.durable
  {
    hide *;
    var pid := NewPid(t.procs.Keys + t.latched);
    assert pid !in t.procs && pid !in t.latched by { assert pid !in t.procs.Keys + t.latched; }
    var open := t.(busy := false);
    NotTaken(t, HostBusy(false));
    LeadsOn(config, s, t, HostBusy(false));
    Opened(config, t, selection);
    NotTaken(open, Begin(pid, Report));
    LeadsOn(config, s, open, Begin(pid, Report));
    QuietBegin(config, open, pid);
    ReportLeads(config, s, open, pid, selection);
    var host, since := Last(open.log), SinceNow(open);
    GrantingMarker(config, open, selection);
    LastRead(config, open, pid, host, since, selection);
    var here := At(open, pid, Reporting(Poll, ReadMarker(host, since, Some(selection))));
    LeadsOn(config, s, here, Go(pid, Works));
    u, grant := Do(config, here, Go(pid, Works)), Authorization(host, Some(selection), since);
  }

  lemma NotTaken(s: State, action: Action)
    requires !action.Go?
    ensures Careful(s, action)
  {
  }

  lemma Opened(config: Config, s: State, selection: Selection)
    requires Granting(config, s, selection)
    ensures Do(config, s, HostBusy(false)) == s.(busy := false) && Granting(config, s.(busy := false), selection)
  {
    hide SelectionReadable, Readable;
  }

  lemma GrantingMarker(config: Config, s: State, selection: Selection)
    requires Granting(config, s, selection)
    ensures s.cached.marker.None?
  {
    hide SelectionReadable, Readable;
  }

  // ---- an apply that goes on without its marker ----

  /** The marker is gone, and the apply does not notice. */
  predicate Unaware(s: State, pid: Pid, writing: Writing, target: Selection) {
    && pid in s.procs && s.procs[pid] == Applying(writing, target) && BeforeRename(s.procs[pid])
    && s.cached.marker.None? && s.cached.anchor
    && s.cached.selection == s.durable.selection && target.version == Version(s.durable.selection) + 1
  }

  function Left(writing: Writing): nat {
    match writing
    case Fill => 7 case SyncMarker => 6 case SyncEntry => 5 case CheckAnchor => 4
    case PutAnchor => 3 case SyncAnchor => 2 case PutSelection => 1
    case _ => 0
  }

  lemma UnawareGoesOn(config: Config, s: State, pid: Pid, writing: Writing, target: Selection)
    requires Unaware(s, pid, writing, target)
    ensures Careful(s, Go(pid, Works))
    ensures var t := Do(config, s, Go(pid, Works));
            && t.log == s.log && t.cached.marker.None? && t.cached.anchor && t.durable.selection == s.durable.selection
            && if writing.PutSelection? then t.cached.selection == Some(target)
               else exists next: Writing :: Unaware(t, pid, next, target) && Left(next) < Left(writing)
  {
    hide Removable;
    var next := AfterWriting(s, writing, target);
    if !writing.PutSelection? {
      var t := Do(config, s, Go(pid, Works));
      assert t.procs[pid] == next;
      assert Unaware(t, pid, next.writing, target) && Left(next.writing) < Left(writing);
    }
  }

  lemma {:induction false} UnawareRenames(
    config: Config, s: State, t: State, pid: Pid, writing: Writing, target: Selection) returns (u: State)
    requires Leads(config, s, t) && Unaware(t, pid, writing, target)
    ensures Leads(config, s, u) && u.log == t.log && u.durable.selection == t.durable.selection
    ensures u.cached.marker.None? && u.cached.anchor && u.cached.selection == Some(target)
    decreases Left(writing)
  {
    hide Leads, Unaware, Careful, Do, Left;
    UnawareGoesOn(config, t, pid, writing, target);
    LeadsOn(config, s, t, Go(pid, Works));
    u := Do(config, t, Go(pid, Works));
    if !writing.PutSelection? {
      var next :| Unaware(u, pid, next, target) && Left(next) < Left(writing);
      u := UnawareRenames(config, s, u, pid, next, target);
    }
  }

  // ---- the exact condition ----

  lemma InvLosesNothing(config: Config, s: State)
    requires Inv(config, s)
    ensures NothingLost(s)
  {
    hide OneFenced, ProcsOk, DoneOk, Chain, Bound;
    assert forall grant <- s.granted :: GrantOk(config, s, grant);
  }

  /** A removal with nothing unsynced behind it, and no rename to come, is followed by no
      loss, however the run goes on. */
  lemma RemovableIsSecure(config: Config, s: State, pid: Pid)
    requires Inv(config, s) && Takes(s, Go(pid, Works)) && Removable(s)
    ensures Secure(config, Do(config, s, Go(pid, Works)))
  {
    hide Inv, Do, Removable, Takes, NothingLost, CarefulFrom, RunFrom;
    StepKeepsInv(config, s, Go(pid, Works));
    var t := Do(config, s, Go(pid, Works));
    forall actions | CarefulFrom(config, t, actions) ensures NothingLost(RunFrom(config, t, actions)) {
      CarefulStepsKeepInv(config, t, actions);
      InvLosesNothing(config, RunFrom(config, t, actions));
    }
  }

  lemma RecoveringSees(config: Config, s: State, pid: Pid)
    requires Inv(config, s) && AllReadable(config, s) && Takes(s, Go(pid, Works))
    ensures s.cached.selection.Some? && s.cached.anchor && SelectionReadable(config, s.cached.selection.value)
  {
    assert ProcOk(config, s, s.procs[pid]);
    hide Bound, Chain, SelectionReadable, DoneOk, GrantsOk, OneFenced, ProcsOk, Settled;
  }

  lemma RemovalFrame(config: Config, s: State, pid: Pid)
    requires Takes(s, Go(pid, Works))
    ensures var t := Do(config, s, Go(pid, Works));
            && t.log == s.log && t.cached == s.cached.(marker := None) && t.durable == s.durable
            && pid in t.procs && t.procs == s.procs[pid := t.procs[pid]]
  {
  }

  /** What the removal leaves, and what the invariant says about it. */
  lemma AfterRemoval(config: Config, s: State, pid: Pid)
    requires Inv(config, s) && AllReadable(config, s) && Takes(s, Go(pid, Works))
    ensures var t := Do(config, s, Go(pid, Works));
            && t.log == s.log && t.cached.marker.None? && t.cached.anchor
            && t.cached.selection == s.cached.selection && t.durable == s.durable && s.cached.selection.Some?
            && SelectionReadable(config, s.cached.selection.value)
            && pid in t.procs && t.procs == s.procs[pid := t.procs[pid]]
  {
    hide *;
    RecoveringSees(config, s, pid);
    RemovalFrame(config, s, pid);
  }

  lemma StillUnaware(config: Config, s: State, pid: Pid, other: Pid)
    requires Inv(config, s) && AllReadable(config, s) && Takes(s, Go(pid, Works))
    requires other in s.procs && BeforeRename(s.procs[other])
    ensures var t := Do(config, s, Go(pid, Works));
            var pc := s.procs[other];
            Unaware(t, other, pc.writing, pc.target) && SelectionReadable(config, pc.target)
  {
    hide *;
    AfterRemoval(config, s, pid);
    RenameIsDue(config, s, other);
    NotBoth(s, pid, other);
    IsUnaware(s, Do(config, s, Go(pid, Works)), other);
    TargetReadable(config, s, other);
  }

  lemma RenameIsDue(config: Config, s: State, pid: Pid)
    requires Inv(config, s) && pid in s.procs && BeforeRename(s.procs[pid])
    ensures s.procs[pid].Applying? && s.cached.selection == s.durable.selection
    ensures s.procs[pid].target.version == Version(s.durable.selection) + 1
  {
    assert ProcOk(config, s, s.procs[pid]);
    hide FilesOk, DoneOk, GrantsOk, OneFenced, ProcsOk, Bound, Settled;
  }

  lemma NotBoth(s: State, pid: Pid, other: Pid)
    requires Takes(s, Go(pid, Works)) && other in s.procs && BeforeRename(s.procs[other])
    ensures pid != other
  {
  }

  lemma IsUnaware(s: State, t: State, pid: Pid)
    requires pid in s.procs && BeforeRename(s.procs[pid]) && pid in t.procs && t.procs[pid] == s.procs[pid]
    requires t.cached.marker.None? && t.cached.anchor && t.cached.selection == s.cached.selection
    requires t.durable == s.durable && s.cached.selection == s.durable.selection
    requires s.procs[pid].target.version == Version(s.durable.selection) + 1
    ensures Unaware(t, pid, s.procs[pid].writing, s.procs[pid].target)
  {
  }

  lemma TargetReadable(config: Config, s: State, pid: Pid)
    requires AllReadable(config, s) && pid in s.procs && s.procs[pid].Applying?
    ensures SelectionReadable(config, s.procs[pid].target)
  {
    hide SelectionReadable;
  }

  lemma Loss(config: Config, s: State, grant: Authorization)
    requires grant in s.granted && Version(s.durable.selection) < Version(grant.selection)
    ensures !NothingLost(s)
    ensures Version(Do(config, s, PowerLoss).cached.selection) < Version(grant.selection)
  {
  }

  /** Any other removal, under a policy that readers accept, can go on to a report whose
      grant a power loss then takes back. */
  lemma UnremovableLosesAGrant(config: Config, s: State, pid: Pid) returns (u: State, grant: Authorization)
    requires Inv(config, s) && AllReadable(config, s) && Readable(config, Last(s.log))
    requires Takes(s, Go(pid, Works)) && !Removable(s)
    ensures Leads(config, Do(config, s, Go(pid, Works)), u) && grant in u.granted
    ensures Version(Do(config, u, PowerLoss).cached.selection) < Version(grant.selection)
    ensures !NothingLost(u)
  {
    var t := Do(config, s, Go(pid, Works));
    AfterRemoval(config, s, pid);
    LeadsNowhere(config, t);
    var renamed, selection := t, s.cached.selection.value;
    if other: Pid :| other in s.procs && BeforeRename(s.procs[other]) {
      StillUnaware(config, s, pid, other);
      hide *;
      selection := s.procs[other].target;
      renamed := UnawareRenames(config, t, t, other, s.procs[other].writing, selection);
      VersionOf(t, other, s.procs[other].writing, selection);
    } else {
      UnsyncedIsNewer(config, s);
      hide *;
    }
    IsGranting(config, renamed, selection);
    u, grant := GrantFollows(config, t, renamed, selection);
    Loss(config, u, grant);
  }

  lemma VersionOf(s: State, pid: Pid, writing: Writing, target: Selection)
    requires Unaware(s, pid, writing, target)
    ensures Version(s.durable.selection) < Version(Some(target))
  {
  }

  lemma UnsyncedIsNewer(config: Config, s: State)
    requires Inv(config, s) && s.cached.selection != s.durable.selection
    ensures Version(s.durable.selection) < Version(s.cached.selection)
  {
    hide Bound, Chain, ProcsOk, GrantsOk, DoneOk, OneFenced;
  }

  lemma IsGranting(config: Config, s: State, selection: Selection)
    requires s.cached.marker.None? && s.cached.anchor && s.cached.selection == Some(selection)
    requires SelectionReadable(config, selection) && Readable(config, Last(s.log))
    ensures Granting(config, s, selection)
  {
  }

  /** The exact condition for a recovery to remove the marker it found. */
  lemma RemovalIsSecureExactlyWhenRemovable(config: Config, s: State, pid: Pid)
    requires Inv(config, s) && AllReadable(config, s) && Readable(config, Last(s.log))
    requires Takes(s, Go(pid, Works))
    ensures Secure(config, Do(config, s, Go(pid, Works))) <==> Removable(s)
  {
    hide Inv, AllReadable, Readable, Takes, Removable, Do, NothingLost, CarefulFrom, RunFrom;
    if Removable(s) {
      RemovableIsSecure(config, s, pid);
    } else {
      var u, grant := UnremovableLosesAGrant(config, s, pid);
    }
  }

  /** As the first removal of a run that may be a careless one. */
  lemma NextRemovalIsSecureExactlyWhenRemovable(config: Config, actions: seq<Action>, pid: Pid)
    requires ConfigValid(config) && CarefulRun(config, actions)
    requires Takes(Run(config, actions), Go(pid, Works)) && Readable(config, Last(Run(config, actions).log))
    ensures Secure(config, Do(config, Run(config, actions), Go(pid, Works))) <==> Removable(Run(config, actions))
  {
    hide *;
    EveryCarefulRunIsOk(config, actions);
    EverySelectionIsReadable(config, actions);
    RemovalIsSecureExactlyWhenRemovable(config, Run(config, actions), pid);
  }

  // ---- recoveries that overlap nothing ----

  /** No recovery while anything runs inside the activity fence. */
  ghost predicate Calm(s: State) {
    forall p <- s.procs, q <- s.procs :: s.procs[p].Recovering? ==> !Fenced(s.procs[q])
  }

  ghost predicate CalmRun(config: Config, actions: seq<Action>) {
    actions != [] ==>
      var before := actions[..|actions| - 1];
      CalmRun(config, before) && Calm(Run(config, before))
  }

  predicate AboutToTake(pc: Pc) { pc.Recovering? && pc.recovery.TakeMarker? }

  /** What a recovery has synced is still what shows. */
  ghost predicate Fresh(s: State) {
    forall pid <- s.procs :: AboutToTake(s.procs[pid]) ==> s.cached.selection == s.durable.selection
  }

  lemma TakenAfterSync(config: Config, s: State, pid: Pid, pc: Pc, outcome: Outcome)
    requires pc.Recovering?
    ensures var t := DoGo(config, s, pid, pc, outcome);
            pid in t.procs && AboutToTake(t.procs[pid]) ==> t.cached.selection == t.durable.selection || t == s
  {
    hide HostReadable, Recoverable, RevisionOf, Persisted;
  }

  lemma ApplyRecoversNot(config: Config, s: State, pid: Pid, pc: Pc, outcome: Outcome)
    requires pc.Binding? || pc.Applying?
    ensures var t := DoGo(config, s, pid, pc, outcome);
            pid in t.procs && !t.procs[pid].Recovering? && t.procs == s.procs[pid := t.procs[pid]]
  {
    hide HostReadable, Selectable, Persisted, Target, Written, Possible, Uncertain;
    if pc.Applying? && outcome.Works? && Possible(s, pc.writing) {
      WrittenFrame(s, pc.writing, pc.target);
    }
  }

  lemma WrittenFrame(s: State, writing: Writing, target: Selection)
    ensures Written(s, writing, target).procs == s.procs
  {
  }

  lemma ReportRecoversNot(config: Config, s: State, pid: Pid, pc: Pc, outcome: Outcome)
    requires pc.Reporting? || pc.Fence?
    ensures var t := DoGo(config, s, pid, pc, outcome); pid in t.procs ==> !t.procs[pid].Recovering?
  {
    hide HostReadable, SelectionReadable, RevisionOf, Succeeds, Persisted;
  }

  lemma GoKeepsFresh(config: Config, s: State, pid: Pid, outcome: Outcome)
    requires Calm(s) && Fresh(s) && pid in s.procs
    ensures Fresh(Do(config, s, Go(pid, outcome)))
  {
    var pc := s.procs[pid];
    if pc.Recovering? {
      TakenAfterSync(config, s, pid, pc, outcome);
      OnlyApplyChangesSelection(config, s, pid, pc, outcome);
    } else if pc.Binding? || pc.Applying? {
      ApplyRecoversNot(config, s, pid, pc, outcome);
    } else {
      ReportRecoversNot(config, s, pid, pc, outcome);
      OnlyApplyChangesSelection(config, s, pid, pc, outcome);
    }
    hide DoGo;
  }

  lemma StepKeepsFresh(config: Config, s: State, action: Action)
    requires Calm(s) && Fresh(s)
    ensures Fresh(Do(config, s, action))
  {
    hide Calm, DoGo, Readable, Follows, Persisted;
    if action.Go? && action.pid in s.procs {
      GoKeepsFresh(config, s, action.pid, action.outcome);
    }
  }

  lemma CalmIsCareful(s: State, action: Action)
    requires Calm(s) && Fresh(s)
    ensures Careful(s, action)
  {
  }

  /** Where no recovery overlaps fenced work, every removal is a careful one. */
  lemma {:induction false} CalmRunsAreCareful(config: Config, actions: seq<Action>)
    requires CalmRun(config, actions)
    ensures CarefulRun(config, actions) && Fresh(Run(config, actions))
  {
    if actions == [] {
    } else {
      var before := actions[..|actions| - 1];
      CalmRunsAreCareful(config, before);
      hide Calm, Fresh, Careful, Do;
      CalmIsCareful(Run(config, before), actions[|actions| - 1]);
      StepKeepsFresh(config, Run(config, before), actions[|actions| - 1]);
    }
  }
}
