/**
  Anchor, selection, transaction marker and activity fence as a state machine: reports,
  applies and recovery interleave one file operation at a time, operations may fail, and
  processes crash or power is lost anywhere
  (agent/src/sourceAccessPolicy.ts:355-407, 537-583, 857-947, 1035-1158, 1497-1583).
 */
module SelectionFiles {
  import opened SourcePaths
  import opened HostPolicy
  import opened HostLog
  import opened Selections

  type Pid = nat

  /** The marker is created empty, filled and synced; before that a power loss tears it. */
  datatype Marker = Torn | Unsynced(request: Request) | Whole(request: Request)

  datatype Disk = Disk(anchor: bool, selection: Option<Selection>, marker: Option<Marker>, activity: bool)

  datatype File = AnchorFile | SelectionFile | MarkerFile | ActivityFile

  /** What the caller of a report does with it. */
  datatype Goal = Poll | Before(request: Request) | After(request: Request)

  /** How far the store had come when a report started. */
  datatype Since = Since(version: nat, anchored: bool)

  datatype Job = Report | Apply(request: Request) | Other | Recover(id: string, expected: Revision)

  /** The reads of a report, in the order it makes them. */
  datatype Reading =
    | ReadHost
    | ReadAnchor(host: HostApproval, since: Since)
    | ReadSelection(host: HostApproval, since: Since, anchor: bool)
    | ReadMarker(host: HostApproval, since: Since, selection: Option<Selection>)

  /** The activity fence: taken but not yet durable, held for other work, released. */
  datatype Fencing = Enter(job: Job) | Hold | Leave | SyncLeave | Reactivate

  /** The operations of apply once its checks have passed. */
  datatype Writing =
    | Open | Fill | SyncMarker | SyncEntry | CheckAnchor | PutAnchor | SyncAnchor
    | PutSelection | SyncSelection | Unmark | SyncUnmark | Refence

  /** The operations of recovery. */
  datatype Recovery =
    | RecoverHost(id: string, expected: Revision)
    | RecoverMarker(id: string, host: HostApproval)
    | RecoverAnchor(id: string, host: HostApproval, request: Request)
    | RecoverSelection(id: string, host: HostApproval, request: Request)
    | SyncFiles(request: Request)
    | SyncDirectory(request: Request)
    | TakeMarker(request: Request)
    | SyncTaken(request: Request)
    | PutBack(request: Request)

  datatype Pc =
    | Reporting(goal: Goal, reading: Reading)
    | Fence(fencing: Fencing)
    | Binding(request: Request)
    | Applying(writing: Writing, target: Selection)
    | Recovering(recovery: Recovery)

  /** One report's grant: what it was based on, and how far the store was when it began. */
  datatype Authorization = Authorization(host: HostApproval, selection: Option<Selection>, since: Since)

  /** `latched` holds the processes with the uncertainty latch set. `log` and `busy` are
      what the host policy file shows: committed policies, and whether it is locked.
      `settled` lists the selections whose marker was taken away, version 1 first; `granted`
      and `done` are what reports granted and applies returned as successful. */
  datatype State = State(
    cached: Disk, durable: Disk, procs: map<Pid, Pc>, latched: set<Pid>,
    log: History, busy: bool, settled: seq<Selection>, granted: seq<Authorization>, done: seq<Request>)

  /** `Lapsed` is an expired command lease where the code asks for it. */
  datatype Outcome = Works | Fails | Lapsed

  datatype Action =
    | Begin(pid: Pid, job: Job)
    | Go(pid: Pid, outcome: Outcome)
    | Flush(file: File)
    | PowerLoss
    | Crash(pid: Pid)
    | ClearActivity               // operator review of a fence left behind
    | HostCommit(next: HostApproval)
    | HostBusy(busy: bool)

  const EMPTY := Disk(false, None, None, false)

  function Initial(): State { State(EMPTY, EMPTY, map[], {}, [NOTHING], false, [], [], []) }

  function At(s: State, pid: Pid, pc: Pc): State { s.(procs := s.procs[pid := pc]) }

  function Exit(s: State, pid: Pid): State { s.(procs := s.procs - {pid}) }

  function Latch(s: State, pid: Pid): State { s.(latched := s.latched + {pid}) }

  function Mark(s: State, marker: Option<Marker>): State { s.(cached := s.cached.(marker := marker)) }

  /** Taking the marker away: the transaction is over. */
  function Settle(s: State): State {
    var selection := s.cached.selection;
    Mark(s, None).(settled :=
      if Version(selection) == |s.settled| + 1 then s.settled + [selection.value] else s.settled)
  }

  /** What survives of a marker that is in the directory. */
  function Persisted(marker: Option<Marker>): Option<Marker> {
    if marker.Some? && marker.value.Unsynced? then Some(Torn) else marker
  }

  /** Syncing the data directory. */
  function SyncData(s: State): State {
    s.(durable := s.cached.(marker := Persisted(s.cached.marker)))
  }

  function SinceNow(s: State): Since { Since(Version(s.durable.selection), s.durable.anchor) }

  /** Leaving a report without a grant. */
  function Refuse(s: State, pid: Pid, goal: Goal): State {
    if goal.Poll? then Exit(s, pid) else At(s, pid, Fence(Leave))
  }

  /** The host policy as a reader finds it. */
  predicate HostReadable(config: Config, s: State) { !s.busy && Readable(config, Last(s.log)) }

  /** The request a granting report reports as applied: the replay of one already on
      disk, or the check that follows the write. */
  predicate Succeeds(config: Config, goal: Goal, grant: Authorization) {
    match goal
    case Poll => false
    case Before(request) => Answers(grant.selection, request)
    case After(request) =>
      && grant.selection.Some? && grant.selection.value.id == request.id
      && RevisionOf(config, grant.host) == request.revision
  }

  /** Serving a report's caller once it granted. */
  function Serve(config: Config, s: State, pid: Pid, goal: Goal, grant: Authorization, ok: bool): State {
    var t := s.(granted := s.granted + [grant]);
    if goal.Poll? then Exit(t, pid)
    else if Succeeds(config, goal, grant) then At(t.(done := t.done + [goal.request]), pid, Fence(Leave))
    else if ok && goal.Before? && Version(grant.selection) == goal.request.expected
            && RevisionOf(config, grant.host) == goal.request.revision
    then At(t, pid, Binding(goal.request))
    else At(t, pid, Fence(Leave))
  }

  /** A marker that cannot be read refuses too; here its last read always works, which only
      lets reports grant more. There `ok` is about the lease that apply then asks for. */
  function DoReport(config: Config, s: State, pid: Pid, goal: Goal, reading: Reading, ok: bool): State {
    match reading
    case ReadHost =>
      if ok && HostReadable(config, s) then At(s, pid, Reporting(goal, ReadAnchor(Last(s.log), SinceNow(s))))
      else Refuse(s, pid, goal)
    case ReadAnchor(host, since) =>
      if ok then At(s, pid, Reporting(goal, ReadSelection(host, since, s.cached.anchor))) else Refuse(s, pid, goal)
    case ReadSelection(host, since, anchor) =>
      var selection := s.cached.selection;
      if ok && (if selection.Some? then anchor && SelectionReadable(config, selection.value) else !anchor)
      then At(s, pid, Reporting(goal, ReadMarker(host, since, selection)))
      else Refuse(s, pid, goal)
    case ReadMarker(host, since, selection) =>
      if pid !in s.latched && s.cached.marker.None? then
        Serve(config, s, pid, goal, Authorization(host, selection, since), ok)
      else Refuse(s, pid, goal)
  }

  function DoFence(s: State, pid: Pid, fencing: Fencing, ok: bool): State {
    match fencing
    case Enter(job) =>
      if ok then
        At(SyncData(s), pid, if job.Apply? then Reporting(Before(job.request), ReadHost) else Fence(Hold))
      else Exit(s, pid)
    case Hold => At(s, pid, Fence(Leave))
    case Leave =>
      if ok then At(s.(cached := s.cached.(activity := false)), pid, Fence(SyncLeave)) else Exit(s, pid)
    case SyncLeave => if ok then Exit(SyncData(s), pid) else At(Latch(s, pid), pid, Fence(Reactivate))
    case Reactivate => Exit(if ok then s.(cached := s.cached.(activity := true)) else s, pid)
  }

  function DoBind(config: Config, s: State, pid: Pid, request: Request, ok: bool): State {
    if ok && HostReadable(config, s) && Selectable(config, Last(s.log), request)
    then At(s, pid, Applying(Open, Target(config, Last(s.log), request)))
    else At(s, pid, Fence(Leave))
  }

  function RequestOf(target: Selection): Request {
    Request(target.id, if target.version > 0 then target.version - 1 else 0, target.revision, target.roots)
  }

  /** The operation that follows when this one works. */
  function AfterWriting(s: State, writing: Writing, target: Selection): Pc {
    match writing
    case Open => Applying(Fill, target)
    case Fill => Applying(SyncMarker, target)
    case SyncMarker => Applying(SyncEntry, target)
    case SyncEntry => Applying(CheckAnchor, target)
    case CheckAnchor => Applying(if s.cached.anchor then PutSelection else PutAnchor, target)
    case PutAnchor => Applying(SyncAnchor, target)
    case SyncAnchor => Applying(PutSelection, target)
    case PutSelection => Applying(SyncSelection, target)
    case SyncSelection => Applying(Unmark, target)
    case Unmark => Applying(SyncUnmark, target)
    case SyncUnmark => Reporting(After(RequestOf(target)), ReadHost)
    case Refence => Fence(Leave)
  }

  /** A marker is written through the handle it was created with, whatever its name may
      stand for by now. */
  function Inscribe(s: State, mine: Marker, marker: Marker): State {
    if s.cached.marker == Some(mine) then Mark(s, Some(marker)) else s
  }

  /** What it does to the files. */
  function Written(s: State, writing: Writing, target: Selection): State {
    match writing
    case Open => Mark(s, Some(Torn))
    case Fill => Inscribe(s, Torn, Unsynced(RequestOf(target)))
    case SyncMarker => Inscribe(s, Unsynced(RequestOf(target)), Whole(RequestOf(target)))
    case CheckAnchor => s
    case PutAnchor => s.(cached := s.cached.(anchor := true))
    case PutSelection => s.(cached := s.cached.(selection := Some(target)))
    case Unmark => Settle(s)
    case Refence => Mark(s, Some(Whole(RequestOf(target))))
    case SyncEntry => SyncData(s)
    case SyncAnchor => SyncData(s)
    case SyncSelection => SyncData(s)
    case SyncUnmark => SyncData(s)
  }

  /** The marker is created exclusively, and taking it away needs it to be there. */
  predicate Possible(s: State, writing: Writing) {
    && (writing.Open? ==> s.cached.marker.None?)
    && (writing.Unmark? ==> s.cached.marker.Some?)
  }

  /** Failures that leave it open what is durable set the latch. */
  predicate Uncertain(writing: Writing, outcome: Outcome) {
    writing.SyncEntry? || writing.PutAnchor? || writing.SyncAnchor? || (writing.PutSelection? && outcome.Fails?)
    || writing.SyncSelection? || writing.SyncUnmark?
  }

  function DoWrite(s: State, pid: Pid, writing: Writing, target: Selection, outcome: Outcome): State {
    if outcome.Works? && Possible(s, writing) then
      At(Written(s, writing, target), pid, AfterWriting(s, writing, target))
    else
      At(if Uncertain(writing, outcome) then Latch(s, pid) else s, pid,
         if writing.SyncUnmark? then Applying(Refence, target) else Fence(Leave))
  }

  /** The selection on disk is the one the marker announces, under today's policy. */
  predicate Recoverable(config: Config, s: State, id: string, host: HostApproval, request: Request) {
    && s.cached.selection.Some? && SelectionReadable(config, s.cached.selection.value)
    && Answers(s.cached.selection, request) && request.id == id
    && RevisionOf(config, host) == request.revision
    && forall root <- request.roots ::
         && root in s.cached.selection.value.bindings
         && RootEpoch(config, host, root) == Some(s.cached.selection.value.bindings[root])
         && WithinMaximum(config, host, root)
  }

  function DoRecover(config: Config, s: State, pid: Pid, recovery: Recovery, ok: bool): State {
    if !ok && recovery.SyncTaken? then At(Latch(s, pid), pid, Recovering(PutBack(recovery.request)))
    else if !ok then Exit(s, pid)
    else match recovery
      case RecoverHost(id, expected) =>
        if HostReadable(config, s) && RevisionOf(config, Last(s.log)) == expected
        then At(s, pid, Recovering(RecoverMarker(id, Last(s.log))))
        else Exit(s, pid)
      case RecoverMarker(id, host) =>
        if s.cached.marker.Some? && !s.cached.marker.value.Torn?
        then At(s, pid, Recovering(RecoverAnchor(id, host, s.cached.marker.value.request)))
        else Exit(s, pid)
      case RecoverAnchor(id, host, request) =>
        if s.cached.anchor then At(s, pid, Recovering(RecoverSelection(id, host, request))) else Exit(s, pid)
      case RecoverSelection(id, host, request) =>
        if Recoverable(config, s, id, host, request) then At(s, pid, Recovering(SyncFiles(request))) else Exit(s, pid)
      case SyncFiles(request) => At(s, pid, Recovering(SyncDirectory(request)))
      case SyncDirectory(request) => At(SyncData(s), pid, Recovering(TakeMarker(request)))
      case TakeMarker(request) =>
        if s.cached.marker.Some? then At(Settle(s), pid, Recovering(SyncTaken(request))) else Exit(s, pid)
      case SyncTaken(_) => Exit(SyncData(s), pid).(latched := s.latched - {pid})
      case PutBack(request) => Exit(Mark(s, Some(Whole(request))), pid)
  }

  /** Inside the activity fence. */
  predicate Fenced(pc: Pc) {
    match pc
    case Reporting(goal, _) => !goal.Poll?
    case Fence(fencing) => fencing.Enter? || fencing.Hold? || fencing.Leave?
    case Binding(_) => true
    case Applying(_, _) => true
    case Recovering(_) => false
  }

  ghost predicate Active(s: State) { exists pid <- s.procs :: Fenced(s.procs[pid]) }

  function DoBegin(s: State, pid: Pid, job: Job): State {
    if pid in s.procs then s
    else match job
      case Report => At(s, pid, Reporting(Poll, ReadHost))
      case Recover(id, expected) => At(s, pid, Recovering(RecoverHost(id, expected)))
      case _ =>
        if pid in s.latched || s.cached.activity then s
        else At(s.(cached := s.cached.(activity := true)), pid, Fence(Enter(job)))
  }

  function DoFlush(s: State, file: File): State {
    match file
    case AnchorFile => s.(durable := s.durable.(anchor := s.cached.anchor))
    case SelectionFile => s.(durable := s.durable.(selection := s.cached.selection))
    case MarkerFile => s.(durable := s.durable.(marker := Persisted(s.cached.marker)))
    case ActivityFile => s.(durable := s.durable.(activity := s.cached.activity))
  }

  function DoGo(config: Config, s: State, pid: Pid, pc: Pc, outcome: Outcome): State {
    match pc
    case Reporting(goal, reading) => DoReport(config, s, pid, goal, reading, outcome.Works?)
    case Fence(fencing) => DoFence(s, pid, fencing, outcome.Works?)
    case Binding(request) => DoBind(config, s, pid, request, outcome.Works?)
    case Applying(writing, target) => DoWrite(s, pid, writing, target, outcome)
    case Recovering(recovery) => DoRecover(config, s, pid, recovery, outcome.Works?)
  }

  ghost function Do(config: Config, s: State, action: Action): State {
    match action
    case Begin(pid, job) => DoBegin(s, pid, job)
    case Go(pid, outcome) => if pid in s.procs then DoGo(config, s, pid, s.procs[pid], outcome) else s
    case Flush(file) => DoFlush(s, file)
    case PowerLoss => s.(cached := s.durable, procs := map[], latched := {})
    case Crash(pid) => Exit(s, pid).(latched := s.latched - {pid})
    case ClearActivity => if Active(s) then s else s.(cached := s.cached.(activity := false))
    case HostCommit(next) =>
      if Readable(config, Last(s.log)) && Follows(config, Last(s.log), next) then s.(log := s.log + [next]) else s
    case HostBusy(busy) => s.(busy := busy)
  }

  ghost function RunFrom(config: Config, s: State, actions: seq<Action>): State {
    if actions == [] then s
    else Do(config, RunFrom(config, s, actions[..|actions| - 1]), actions[|actions| - 1])
  }

  ghost function Run(config: Config, actions: seq<Action>): State { RunFrom(config, Initial(), actions) }

  // ---- what every step keeps ----

  predicate Settled(s: State, selection: Option<Selection>) {
    selection.Some? ==>
      0 < selection.value.version <= |s.settled| && s.settled[selection.value.version - 1] == selection.value
  }

  /** The two views of the store. While no marker shows, everything is durable; a selection
      that is not settled shows only behind a marker that is itself durable. */
  ghost predicate FilesOk(config: Config, s: State) {
    var c, d := s.cached, s.durable;
    && Chain(config, s.log)
    && Bound(config, s.log, c.selection) && Bound(config, s.log, d.selection)
    && (c.selection == d.selection || (Version(c.selection) == Version(d.selection) + 1 && Settled(s, d.selection)))
    && (c.marker.None? ==> c.selection == d.selection && c.anchor == d.anchor)
    && (c.selection.Some? ==> d.anchor) && (d.anchor ==> c.anchor)
    && (Settled(s, c.selection)
        || (Version(c.selection) == |s.settled| + 1 && c.marker.Some? && d.marker.Some?))
    && |s.settled| <= Version(d.selection)
  }

  /** A successful request is the one that was settled under its version. */
  predicate DoneOk(s: State) {
    forall request <- s.done ::
      request.expected < |s.settled| && Answers(Some(s.settled[request.expected]), request)
  }

  ghost predicate GrantOk(config: Config, s: State, grant: Authorization) {
    && Settled(s, grant.selection)
    && grant.since.version <= Version(grant.selection)
    && (grant.since.anchored ==> grant.selection.Some?)
    && grant.host in s.log && Bound(config, s.log, grant.selection)
  }

  ghost predicate GrantsOk(config: Config, s: State) {
    forall grant <- s.granted :: GrantOk(config, s, grant)
  }

  /** What apply may rely on at each of its operations. */
  ghost predicate ApplyOk(config: Config, s: State, writing: Writing, target: Selection) {
    var c, d := s.cached, s.durable;
    match writing
    case Open => Bound(config, s.log, Some(target)) && target.version == Version(c.selection) + 1
    case SyncSelection => c.selection == Some(target) && c.anchor
    case Unmark => c.selection == d.selection == Some(target) && c.anchor == d.anchor
    case SyncUnmark => c.selection == d.selection == Some(target) && Bound(config, s.log, c.selection)
    case Refence => c.selection == d.selection == Some(target)
    case _ =>
      && Bound(config, s.log, Some(target)) && target.version == Version(c.selection) + 1
      && c.marker.Some? && c.selection == d.selection && Settled(s, c.selection)
      && (writing.Fill? || writing.SyncMarker? || writing.SyncEntry? || writing.CheckAnchor? ==> c.anchor == d.anchor)
      && (!(writing.Fill? || writing.SyncMarker? || writing.SyncEntry?) ==> d.marker.Some?)
      && (writing.SyncAnchor? ==> c.anchor)
      && (writing.PutSelection? ==> d.anchor)
  }

  /** What a report may rely on: the past it has seen is not undone. */
  ghost predicate ReportOk(config: Config, s: State, goal: Goal, reading: Reading) {
    && (goal.After? ==> s.cached.selection == s.durable.selection && Answers(s.cached.selection, goal.request))
    && (!reading.ReadHost? ==>
          && reading.host in s.log
          && reading.since.version <= Version(s.durable.selection)
          && (reading.since.anchored ==> s.durable.anchor))
    && (reading.ReadSelection? ==> (reading.since.anchored ==> reading.anchor))
    && (reading.ReadMarker? ==>
          && reading.since.version <= Version(reading.selection)
          && (reading.selection == s.cached.selection || Settled(s, reading.selection))
          && (reading.since.anchored ==> reading.selection.Some?)
          && Bound(config, s.log, reading.selection)
          && (!goal.Poll? ==> reading.selection == s.cached.selection))
  }

  predicate RecoverOk(s: State, recovery: Recovery) {
    recovery.SyncFiles? || recovery.SyncDirectory? || recovery.TakeMarker? ==> s.cached.selection.Some?
  }

  /** What one process may rely on. */
  ghost predicate ProcOk(config: Config, s: State, pc: Pc) {
    && (Fenced(pc) ==> s.cached.activity)
    && match pc
       case Reporting(goal, reading) => ReportOk(config, s, goal, reading)
       case Fence(_) => true
       case Binding(request) => request.expected == Version(s.cached.selection)
       case Applying(writing, target) => ApplyOk(config, s, writing, target)
       case Recovering(recovery) => RecoverOk(s, recovery)
  }

  ghost predicate OneFenced(s: State) {
    forall p <- s.procs, q <- s.procs :: Fenced(s.procs[p]) && Fenced(s.procs[q]) ==> p == q
  }

  ghost predicate ProcsOk(config: Config, s: State) {
    forall pid <- s.procs :: ProcOk(config, s, s.procs[pid])
  }

  ghost predicate Inv(config: Config, s: State) {
    FilesOk(config, s) && DoneOk(s) && GrantsOk(config, s) && OneFenced(s) && ProcsOk(config, s)
  }

  /** An apply that has created its marker and not yet renamed its selection. */
  predicate BeforeRename(pc: Pc) {
    pc.Applying? && (pc.writing.Fill? || pc.writing.SyncMarker? || pc.writing.SyncEntry? || pc.writing.CheckAnchor?
                     || pc.writing.PutAnchor? || pc.writing.SyncAnchor? || pc.writing.PutSelection?)
  }

  /** The selection is durable, and nobody is about to rename another behind the marker. */
  ghost predicate Removable(s: State) {
    s.cached.selection == s.durable.selection && forall pid <- s.procs :: !BeforeRename(s.procs[pid])
  }

  /** The step with which a recovery removes a marker. */
  predicate Takes(s: State, action: Action) {
    && action.Go? && action.outcome.Works? && action.pid in s.procs
    && s.procs[action.pid].Recovering? && s.procs[action.pid].recovery.TakeMarker? && s.cached.marker.Some?
  }

  /** All that is asked of recoveries: they remove no marker that is still needed. */
  ghost predicate Careful(s: State, action: Action) { Takes(s, action) ==> Removable(s) }

  // ---- how steps look to the others ----

  /** Nothing ever goes back while the machine runs. */
  ghost predicate Moves(s: State, t: State) {
    && (t.cached.selection == s.cached.selection || Settled(t, s.cached.selection))
    && (s.cached.selection.Some? ==> t.cached.selection.Some?)
    && Version(s.durable.selection) <= Version(t.durable.selection)
    && (s.durable.anchor ==> t.durable.anchor)
    && s.log <= t.log && s.settled <= t.settled
  }

  /** Selection and anchor as they are, and durable at least where they were. */
  predicate SameSelection(s: State, t: State) {
    && t.cached.selection == s.cached.selection && t.cached.anchor == s.cached.anchor
    && (t.durable.selection == s.durable.selection || t.durable.selection == s.cached.selection)
    && (t.durable.anchor == s.durable.anchor || t.durable.anchor == s.cached.anchor)
  }

  /** A marker that shows stays, and stays durable. */
  predicate KeepsMarker(s: State, t: State) {
    && (s.cached.marker.Some? ==> t.cached.marker.Some?)
    && (s.durable.marker.Some? && s.cached.marker.Some? ==> t.durable.marker.Some?)
  }

  lemma BoundGrows(config: Config, log: seq<HostApproval>, more: seq<HostApproval>, selection: Option<Selection>)
    requires log <= more && Bound(config, log, selection)
    ensures Bound(config, more, selection)
  {
    if selection.Some? {
      var i :| 0 <= i < |log| && RevisionOf(config, log[i]) == selection.value.revision
               && selection.value.bindings == Bindings(config, log[i], selection.value.roots);
      assert more[i] == log[i];
    }
  }

  /** What one step does to a process that takes no part in it. */
  lemma OtherKeeps(config: Config, s: State, t: State, pc: Pc)
    requires ProcOk(config, s, pc) && Moves(s, t)
    requires Fenced(pc) ==> SameSelection(s, t) && (BeforeRename(pc) ==> KeepsMarker(s, t))
    requires Fenced(pc) && s.cached.activity ==> t.cached.activity
    ensures ProcOk(config, t, pc)
  {
    match pc
    case Reporting(goal, reading) =>
      if reading.ReadMarker? {
        BoundGrows(config, s.log, t.log, reading.selection);
      }
      hide RevisionOf, Bindings, Answers, Bound;
      assert !reading.ReadHost? && reading.host in s.log ==> reading.host in t.log;
    case Applying(writing, target) =>
      if Bound(config, s.log, Some(target)) {
        BoundGrows(config, s.log, t.log, Some(target));
      }
      hide Bound;
    case Fence(_) =>
    case Binding(_) =>
    case Recovering(_) =>
  }

  predicate FencedAt(s: State, pid: Pid) { pid in s.procs && Fenced(s.procs[pid]) }

  /** The selection is changed only inside the fence, and the marker taken away only
      there or while nobody needs it. */
  ghost predicate Authorized(s: State, t: State, pid: Pid) {
    || FencedAt(s, pid)
    || (SameSelection(s, t) && (KeepsMarker(s, t) || Removable(s)))
  }

  /** The step ends the process or moves it on; the fence is entered only by taking it. */
  ghost predicate Stepped(config: Config, s: State, t: State, pid: Pid) {
    && t.procs == (if pid in t.procs then s.procs[pid := t.procs[pid]] else s.procs - {pid})
    && (pid in t.procs ==>
          && ProcOk(config, t, t.procs[pid])
          && (Fenced(t.procs[pid]) ==> FencedAt(s, pid) || !s.cached.activity))
  }

  ghost predicate GrantsGrow(config: Config, s: State, t: State) {
    || t.granted == s.granted
    || exists grant :: t.granted == s.granted + [grant] && GrantOk(config, t, grant)
  }

  /** What a step of one process may do. */
  ghost predicate Effect(config: Config, s: State, t: State, pid: Pid) {
    && Moves(s, t) && FilesOk(config, t) && DoneOk(t) && GrantsGrow(config, s, t)
    && Authorized(s, t, pid) && Stepped(config, s, t, pid)
    && (s.cached.activity ==> t.cached.activity || FencedAt(s, pid))
  }

  lemma ActivityShows(config: Config, s: State, pc: Pc)
    requires ProcOk(config, s, pc) && Fenced(pc)
    ensures s.cached.activity
  {
  }

  lemma GrantKeeps(config: Config, s: State, t: State, grant: Authorization)
    requires GrantOk(config, s, grant) && Moves(s, t)
    ensures GrantOk(config, t, grant)
  {
    BoundGrows(config, s.log, t.log, grant.selection);
    hide Bound;
  }

  lemma GrantsKeep(config: Config, s: State, t: State)
    requires GrantsOk(config, s) && Moves(s, t) && GrantsGrow(config, s, t)
    ensures GrantsOk(config, t)
  {
    hide Moves, GrantOk;
    forall grant <- s.granted ensures GrantOk(config, t, grant) {
      GrantKeeps(config, s, t, grant);
    }
  }

  lemma OneStep(config: Config, s: State, t: State, pid: Pid)
    requires Inv(config, s) && Effect(config, s, t, pid)
    ensures Inv(config, t)
  {
    hide FilesOk, DoneOk, GrantsOk, GrantsGrow, SameSelection, KeepsMarker, Moves, ProcOk, Fenced, BeforeRename;
    GrantsKeep(config, s, t);
    forall p <- s.procs ensures Fenced(s.procs[p]) ==> s.cached.activity {
      if Fenced(s.procs[p]) {
        ActivityShows(config, s, s.procs[p]);
      }
    }
    forall p <- t.procs ensures ProcOk(config, t, t.procs[p]) {
      if p != pid {
        OtherKeeps(config, s, t, t.procs[p]);
      }
    }
  }

  // ---- the steps ----

  /** All a step needs to know about the state it starts from. */
  ghost predicate From(config: Config, s: State, pid: Pid, pc: Pc) {
    FilesOk(config, s) && DoneOk(s) && pid in s.procs && s.procs[pid] == pc && ProcOk(config, s, pc)
  }

  predicate SameStore(s: State, t: State) {
    t.cached == s.cached && t.durable == s.durable && t.log == s.log && t.settled == s.settled
  }

  lemma SameFiles(config: Config, s: State, t: State)
    requires FilesOk(config, s) && SameStore(s, t)
    ensures FilesOk(config, t)
  {
    hide Bound, Chain;
  }

  lemma SameDone(s: State, t: State)
    requires DoneOk(s) && s.settled <= t.settled && t.done == s.done
    ensures DoneOk(t)
  {
    hide Answers;
  }

  lemma SameRest(config: Config, s: State, t: State)
    requires FilesOk(config, s) && DoneOk(s) && SameStore(s, t) && t.done == s.done
    ensures FilesOk(config, t) && DoneOk(t)
  {
    hide FilesOk, DoneOk;
    SameFiles(config, s, t);
    SameDone(s, t);
  }

  lemma SameProc(config: Config, s: State, t: State, pc: Pc)
    requires ProcOk(config, s, pc)
    requires SameStore(s, t)
    ensures ProcOk(config, t, pc)
  {
    hide Bound, Answers;
  }

  lemma MovesOn(config: Config, s: State, t: State, pid: Pid, pc: Pc)
    requires t.procs == s.procs && ProcOk(config, t, pc) && (Fenced(pc) ==> FencedAt(s, pid))
    ensures Stepped(config, s, At(t, pid, pc), pid)
  {
    SameProc(config, t, At(t, pid, pc), pc);
    hide ProcOk;
  }

  lemma Ends(config: Config, s: State, t: State, pid: Pid)
    requires t.procs == s.procs
    ensures Stepped(config, s, Exit(t, pid), pid)
  {
  }

  /** A step that touches no file. */
  lemma QuietEffect(config: Config, s: State, t: State, pid: Pid)
    requires FilesOk(config, s) && DoneOk(s) && Stepped(config, s, t, pid)
    requires t == s.(procs := t.procs, latched := t.latched)
    ensures Effect(config, s, t, pid)
  {
    SameRest(config, s, t);
    hide FilesOk, DoneOk, Stepped, FencedAt, GrantOk, Removable;
  }

  /** Syncing the data directory keeps everything, whoever does it. */
  lemma SyncIsFine(config: Config, s: State)
    requires FilesOk(config, s) && DoneOk(s)
    ensures FilesOk(config, SyncData(s)) && DoneOk(SyncData(s)) && Moves(s, SyncData(s))
    ensures SameSelection(s, SyncData(s)) && KeepsMarker(s, SyncData(s))
  {
    hide Chain, Bound, Answers;
  }

  lemma SyncedEffect(config: Config, s: State, t: State, pid: Pid)
    requires FilesOk(config, s) && DoneOk(s) && Stepped(config, s, t, pid)
    requires t == SyncData(s).(procs := t.procs, latched := t.latched)
    ensures Effect(config, s, t, pid)
  {
    SyncIsFine(config, s);
    SameRest(config, SyncData(s), t);
    hide FilesOk, DoneOk, Stepped, FencedAt, GrantOk, Removable;
  }

  /** A step that puts up the marker, or writes it. */
  lemma MarkedEffect(config: Config, s: State, t: State, pid: Pid, marker: Marker)
    requires FilesOk(config, s) && DoneOk(s) && Stepped(config, s, t, pid)
    requires t == Mark(s, Some(marker)).(procs := t.procs)
    requires FencedAt(s, pid) || (pid in s.procs && s.procs[pid].Recovering?)
    ensures Effect(config, s, t, pid)
  {
    MarkIsFine(config, s, marker);
    SameRest(config, Mark(s, Some(marker)), t);
    hide FilesOk, DoneOk, Stepped, FencedAt, GrantOk, Removable;
  }

  lemma MarkIsFine(config: Config, s: State, marker: Marker)
    requires FilesOk(config, s) && DoneOk(s)
    ensures FilesOk(config, Mark(s, Some(marker))) && DoneOk(Mark(s, Some(marker)))
  {
    hide Chain, Bound, Answers;
  }

  lemma BeginEffect(config: Config, s: State, pid: Pid, job: Job)
    requires FilesOk(config, s) && DoneOk(s) && pid !in s.procs
    ensures Effect(config, s, DoBegin(s, pid, job), pid)
  {
    hide Chain, Bound, Answers;
  }

  /** What a report has seen is in the past. */
  lemma ReadAdvances(config: Config, s: State, goal: Goal, reading: Reading, next: Reading)
    requires FilesOk(config, s) && ReportOk(config, s, goal, reading)
    requires match reading
             case ReadHost => next == ReadAnchor(Last(s.log), SinceNow(s))
             case ReadAnchor(host, since) => next == ReadSelection(host, since, s.cached.anchor)
             case ReadSelection(host, since, anchor) =>
               next == ReadMarker(host, since, s.cached.selection) && (s.cached.selection.Some? || !anchor)
             case ReadMarker(_, _, _) => false
    ensures ReportOk(config, s, goal, next)
  {
    hide Chain, Answers, Bound;
  }

  lemma RefuseEffect(config: Config, s: State, pid: Pid, goal: Goal, reading: Reading)
    requires From(config, s, pid, Reporting(goal, reading))
    ensures Effect(config, s, Refuse(s, pid, goal), pid)
  {
    hide ReportOk, FilesOk, DoneOk, Effect, Stepped;
    if goal.Poll? { Ends(config, s, s, pid); } else { MovesOn(config, s, s, pid, Fence(Leave)); }
    QuietEffect(config, s, Refuse(s, pid, goal), pid);
  }

  lemma ReadEffect(config: Config, s: State, pid: Pid, goal: Goal, reading: Reading, ok: bool)
    requires From(config, s, pid, Reporting(goal, reading)) && !reading.ReadMarker?
    ensures Effect(config, s, DoReport(config, s, pid, goal, reading, ok), pid)
  {
    var t := DoReport(config, s, pid, goal, reading, ok);
    RefuseEffect(config, s, pid, goal, reading);
    if t != Refuse(s, pid, goal) {
      var next := t.procs[pid].reading;
      ReadAdvances(config, s, goal, reading, next);
      hide ReportOk, FilesOk, DoneOk, Effect, HostReadable, SelectionReadable, Stepped;
      MovesOn(config, s, s, pid, Reporting(goal, next));
      QuietEffect(config, s, t, pid);
    }
  }

  lemma FenceEffect(config: Config, s: State, pid: Pid, fencing: Fencing, ok: bool)
    requires From(config, s, pid, Fence(fencing))
    ensures Effect(config, s, DoFence(s, pid, fencing, ok), pid)
  {
    var t := DoFence(s, pid, fencing, ok);
    hide Bound, DoneOk, FilesOk, Effect;
    if ok && (fencing.Enter? || fencing.SyncLeave?) {
      SyncedEffect(config, s, t, pid);
    } else if ok && (fencing.Leave? || fencing.Reactivate?) {
      ActivityEffect(config, s, t, pid);
    } else {
      QuietEffect(config, s, t, pid);
    }
  }

  lemma ActivityEffect(config: Config, s: State, t: State, pid: Pid)
    requires FilesOk(config, s) && DoneOk(s) && Stepped(config, s, t, pid)
    requires t == s.(cached := s.cached.(activity := t.cached.activity), procs := t.procs)
    requires t.cached.activity || FencedAt(s, pid)
    ensures Effect(config, s, t, pid)
  {
    hide Chain, Bound, Answers, Stepped, FencedAt, GrantOk;
  }

  lemma BindEffect(config: Config, s: State, pid: Pid, request: Request, ok: bool)
    requires From(config, s, pid, Binding(request))
    ensures Effect(config, s, DoBind(config, s, pid, request, ok), pid)
  {
    hide Effect, FilesOk, DoneOk, Stepped, Answers, Bindings, RevisionOf, HostReadable, Selectable, Bound;
    if Selectable(config, Last(s.log), request) {
      TargetIsBound(config, s.log, request);
      MovesOn(config, s, s, pid, Applying(Open, Target(config, Last(s.log), request)));
    }
    MovesOn(config, s, s, pid, Fence(Leave));
    QuietEffect(config, s, DoBind(config, s, pid, request, ok), pid);
  }

  lemma TargetIsBound(config: Config, log: History, request: Request)
    requires Selectable(config, Last(log), request)
    ensures Bound(config, log, Some(Target(config, Last(log), request)))
  {
    hide Bindings, RevisionOf;
    assert RevisionOf(config, log[|log| - 1]) == request.revision;
  }

  /** A report that finds no marker grants a settled version. */
  lemma GrantIsOk(config: Config, s: State, goal: Goal, host: HostApproval, since: Since, selection: Option<Selection>)
    requires FilesOk(config, s) && ReportOk(config, s, goal, ReadMarker(host, since, selection))
    requires s.cached.marker.None?
    ensures GrantOk(config, s, Authorization(host, selection, since))
  {
    hide Chain, Bound, Answers;
  }

  /** A successful apply stands on the durable selection, and no other successful request
      named its version. */
  lemma SuccessIsOk(
    config: Config, s: State, goal: Goal, host: HostApproval, since: Since, selection: Option<Selection>)
    requires FilesOk(config, s) && DoneOk(s) && ReportOk(config, s, goal, ReadMarker(host, since, selection))
    requires s.cached.marker.None? && Succeeds(config, goal, Authorization(host, selection, since))
    ensures Answers(s.cached.selection, goal.request)
    ensures DoneOk(s.(done := s.done + [goal.request]))
  {
    hide Chain, Bound, RevisionOf;
  }

  lemma GrantingEffect(config: Config, s: State, t: State, pid: Pid, grant: Authorization)
    requires FilesOk(config, s) && Stepped(config, s, t, pid) && GrantOk(config, s, grant)
    requires t == s.(procs := t.procs, granted := s.granted + [grant], done := t.done)
    requires DoneOk(s.(done := t.done))
    ensures Effect(config, s, t, pid)
  {
    hide FilesOk, DoneOk, Stepped, FencedAt, Bound;
    SameFiles(config, s, t);
    SameDone(s.(done := t.done), t);
    GrantElsewhere(config, s, t, grant);
  }

  lemma ServeSteps(config: Config, s: State, pid: Pid, goal: Goal, grant: Authorization, ok: bool)
    requires pid in s.procs && (!goal.Poll? ==> Fenced(s.procs[pid]) && s.cached.activity)
    requires !goal.Poll? ==> grant.selection == s.cached.selection
    ensures Stepped(config, s, Serve(config, s, pid, goal, grant, ok), pid)
  {
    hide Succeeds, RevisionOf, Stepped;
    var t := s.(granted := s.granted + [grant]);
    if goal.Poll? {
      Ends(config, s, t, pid);
    } else {
      MovesOn(config, s, t.(done := t.done + [goal.request]), pid, Fence(Leave));
      MovesOn(config, s, t, pid, Fence(Leave));
      if goal.request.expected == Version(grant.selection) {
        MovesOn(config, s, t, pid, Binding(goal.request));
      }
    }
  }

  lemma ServeEffect(
    config: Config, s: State, pid: Pid, goal: Goal, host: HostApproval, since: Since, selection: Option<Selection>,
    ok: bool)
    requires From(config, s, pid, Reporting(goal, ReadMarker(host, since, selection)))
    requires s.cached.marker.None?
    ensures Effect(config, s, Serve(config, s, pid, goal, Authorization(host, selection, since), ok), pid)
  {
    hide Effect, Succeeds, GrantOk, DoneOk, FilesOk, RevisionOf, Stepped, Bound, Answers;
    var grant := Authorization(host, selection, since);
    GrantIsOk(config, s, goal, host, since, selection);
    if Succeeds(config, goal, grant) {
      SuccessIsOk(config, s, goal, host, since, selection);
    }
    ServeSteps(config, s, pid, goal, grant, ok);
    GrantingEffect(config, s, Serve(config, s, pid, goal, grant, ok), pid, grant);
  }

  lemma ReportEffect(config: Config, s: State, pid: Pid, goal: Goal, reading: Reading, ok: bool)
    requires From(config, s, pid, Reporting(goal, reading))
    ensures Effect(config, s, DoReport(config, s, pid, goal, reading, ok), pid)
  {
    hide Effect, Serve, From, Refuse;
    if !reading.ReadMarker? {
      hide DoReport;
      ReadEffect(config, s, pid, goal, reading, ok);
    } else if pid !in s.latched && s.cached.marker.None? {
      ServeEffect(config, s, pid, goal, reading.host, reading.since, reading.selection, ok);
    } else {
      RefuseEffect(config, s, pid, goal, reading);
    }
  }

  /** Up to the rename, each operation of apply establishes what the next may rely on. */
  lemma PreparationAdvances(config: Config, s: State, writing: Writing, target: Selection)
    requires FilesOk(config, s) && ApplyOk(config, s, writing, target) && Possible(s, writing) && s.cached.activity
    requires writing.Open? || (BeforeRename(Applying(writing, target)) && !writing.PutSelection?)
    ensures ProcOk(config, Written(s, writing, target), AfterWriting(s, writing, target))
  {
    hide Chain, Bindings, RevisionOf, Bound, RequestOf;
  }

  /** And so from the rename on. */
  lemma CommitAdvances(config: Config, s: State, writing: Writing, target: Selection)
    requires FilesOk(config, s) && ApplyOk(config, s, writing, target) && Possible(s, writing) && s.cached.activity
    requires !writing.Open? && (BeforeRename(Applying(writing, target)) ==> writing.PutSelection?)
    ensures ProcOk(config, Written(s, writing, target), AfterWriting(s, writing, target))
  {
    hide Chain, Bindings, RevisionOf;
  }

  lemma WriteAdvances(config: Config, s: State, writing: Writing, target: Selection)
    requires FilesOk(config, s) && ApplyOk(config, s, writing, target) && Possible(s, writing) && s.cached.activity
    ensures ProcOk(config, Written(s, writing, target), AfterWriting(s, writing, target))
  {
    hide FilesOk, ApplyOk, ProcOk, Written, AfterWriting, Possible;
    if writing.Open? || (BeforeRename(Applying(writing, target)) && !writing.PutSelection?) {
      PreparationAdvances(config, s, writing, target);
    } else {
      CommitAdvances(config, s, writing, target);
    }
  }

  lemma WriteSteps(config: Config, s: State, pid: Pid, writing: Writing, target: Selection, outcome: Outcome)
    requires From(config, s, pid, Applying(writing, target))
    ensures Stepped(config, s, DoWrite(s, pid, writing, target, outcome), pid)
  {
    hide FilesOk, DoneOk, Bound, Stepped;
    if outcome.Works? && Possible(s, writing) {
      WriteAdvances(config, s, writing, target);
      hide ProcOk;
      MovesOn(config, s, Written(s, writing, target), pid, AfterWriting(s, writing, target));
    } else {
      var t := DoWrite(s, pid, writing, target, outcome);
      MovesOn(config, s, if Uncertain(writing, outcome) then Latch(s, pid) else s, pid, t.procs[pid]);
    }
  }

  lemma PutIsFine(config: Config, s: State, writing: Writing, target: Selection)
    requires FilesOk(config, s) && DoneOk(s) && ApplyOk(config, s, writing, target) && Possible(s, writing)
    requires writing.PutAnchor? || writing.PutSelection? || writing.Unmark?
    ensures var t := Written(s, writing, target); FilesOk(config, t) && DoneOk(t) && Moves(s, t)
  {
    hide Chain, Answers, Bound;
  }

  lemma PutEffect(config: Config, s: State, t: State, pid: Pid, writing: Writing, target: Selection)
    requires From(config, s, pid, Applying(writing, target)) && Possible(s, writing) && Stepped(config, s, t, pid)
    requires writing.PutAnchor? || writing.PutSelection? || writing.Unmark?
    requires t == Written(s, writing, target).(procs := t.procs)
    ensures Effect(config, s, t, pid)
  {
    PutIsFine(config, s, writing, target);
    SameRest(config, Written(s, writing, target), t);
    hide FilesOk, DoneOk, Stepped, GrantOk;
  }

  lemma WriteEffect(config: Config, s: State, pid: Pid, writing: Writing, target: Selection, outcome: Outcome)
    requires From(config, s, pid, Applying(writing, target))
    ensures Effect(config, s, DoWrite(s, pid, writing, target, outcome), pid)
  {
    var t := DoWrite(s, pid, writing, target, outcome);
    WriteSteps(config, s, pid, writing, target, outcome);
    hide Effect, FilesOk, DoneOk, Stepped, ProcOk;
    if !(outcome.Works? && Possible(s, writing)) || writing.CheckAnchor? {
      QuietEffect(config, s, t, pid);
    } else if writing.SyncEntry? || writing.SyncAnchor? || writing.SyncSelection? || writing.SyncUnmark? {
      SyncedEffect(config, s, t, pid);
    } else if writing.PutAnchor? || writing.PutSelection? || writing.Unmark? {
      PutEffect(config, s, t, pid, writing, target);
    } else {
      MarkedEffect(config, s, t, pid, t.cached.marker.value);
    }
  }

  lemma RecoverySteps(config: Config, s: State, pid: Pid, recovery: Recovery, ok: bool)
    requires From(config, s, pid, Recovering(recovery))
    ensures Stepped(config, s, DoRecover(config, s, pid, recovery, ok), pid)
  {
    hide FilesOk, DoneOk, Answers, Bound, RevisionOf, Readable, WithinMaximum, RootEpoch, SelectionReadable;
  }

  /** Behind a marker over a durable selection nothing is unsynced. */
  lemma TakeIsFine(config: Config, s: State)
    requires FilesOk(config, s) && DoneOk(s) && s.cached.selection.Some?
    requires s.cached.selection == s.durable.selection
    ensures FilesOk(config, Settle(s)) && DoneOk(Settle(s)) && Moves(s, Settle(s))
  {
    hide Chain, Answers, Bound;
  }

  lemma TakeEffect(config: Config, s: State, t: State, pid: Pid, request: Request)
    requires From(config, s, pid, Recovering(TakeMarker(request))) && Removable(s)
    requires s.cached.marker.Some? && Stepped(config, s, t, pid)
    requires t == Settle(s).(procs := t.procs)
    ensures Effect(config, s, t, pid)
  {
    TakeIsFine(config, s);
    SameRest(config, Settle(s), t);
    hide FilesOk, DoneOk, Stepped, GrantOk, BeforeRename;
  }

  lemma RecoverEffect(config: Config, s: State, pid: Pid, recovery: Recovery, ok: bool)
    requires From(config, s, pid, Recovering(recovery))
    requires ok && recovery.TakeMarker? && s.cached.marker.Some? ==> Removable(s)
    ensures Effect(config, s, DoRecover(config, s, pid, recovery, ok), pid)
  {
    hide Bound, Chain, RevisionOf;
    var t := DoRecover(config, s, pid, recovery, ok);
    RecoverySteps(config, s, pid, recovery, ok);
    hide Effect, FilesOk, DoneOk, Stepped, ProcOk, HostReadable, Recoverable, Removable;
    if ok && (recovery.SyncDirectory? || recovery.SyncTaken?) {
      SyncedEffect(config, s, t, pid);
    } else if ok && recovery.TakeMarker? && s.cached.marker.Some? {
      TakeEffect(config, s, t, pid, recovery.request);
    } else if ok && recovery.PutBack? {
      MarkedEffect(config, s, t, pid, Whole(recovery.request));
    } else {
      QuietEffect(config, s, t, pid);
    }
  }

  lemma GoEffect(config: Config, s: State, pid: Pid, pc: Pc, outcome: Outcome)
    requires From(config, s, pid, pc) && Careful(s, Go(pid, outcome))
    ensures Effect(config, s, DoGo(config, s, pid, pc, outcome), pid)
  {
    assert s.procs[pid] == pc;
    hide From, Removable, Effect, DoReport, DoFence, DoBind, DoWrite, DoRecover;
    match pc
    case Reporting(goal, reading) => ReportEffect(config, s, pid, goal, reading, outcome.Works?);
    case Fence(fencing) => FenceEffect(config, s, pid, fencing, outcome.Works?);
    case Binding(request) => BindEffect(config, s, pid, request, outcome.Works?);
    case Applying(writing, target) => WriteEffect(config, s, pid, writing, target, outcome);
    case Recovering(recovery) => RecoverEffect(config, s, pid, recovery, outcome.Works?);
  }

  /** A flush, a power loss, a review of the fence or a new policy: no process moves on. */
  lemma NoneSteps(config: Config, s: State, t: State)
    requires Inv(config, s) && Moves(s, t) && FilesOk(config, t) && DoneOk(t)
    requires t.procs == s.procs && t.granted == s.granted && SameSelection(s, t) && KeepsMarker(s, t)
    requires t.cached.activity == s.cached.activity || !Active(s)
    ensures Inv(config, t)
  {
    hide FilesOk, DoneOk, GrantsOk, SameSelection, KeepsMarker, Moves, ProcOk, GrantOk;
    GrantsKeep(config, s, t);
    forall p <- t.procs ensures ProcOk(config, t, t.procs[p]) {
      OtherKeeps(config, s, t, t.procs[p]);
    }
  }

  lemma FlushIsFine(config: Config, s: State, file: File)
    requires FilesOk(config, s) && DoneOk(s)
    ensures var t := DoFlush(s, file); FilesOk(config, t) && DoneOk(t) && Moves(s, t)
    ensures SameSelection(s, DoFlush(s, file)) && KeepsMarker(s, DoFlush(s, file))
  {
    hide Chain, Answers, Bound;
  }

  lemma LongerLogIsFine(config: Config, s: State, next: HostApproval)
    requires FilesOk(config, s) && Readable(config, Last(s.log)) && Follows(config, Last(s.log), next)
    ensures FilesOk(config, s.(log := s.log + [next]))
  {
    var log := s.log + [next];
    hide Bound, Readable, Follows, Chain;
    ChainGrows(config, s.log, next);
    BoundGrows(config, s.log, log, s.cached.selection);
    BoundGrows(config, s.log, log, s.durable.selection);
  }

  lemma CommitKeeps(config: Config, s: State, next: HostApproval)
    requires Inv(config, s) && Readable(config, Last(s.log)) && Follows(config, Last(s.log), next)
    ensures Inv(config, s.(log := s.log + [next]))
  {
    hide FilesOk, DoneOk, GrantsOk, ProcsOk, OneFenced, Readable, Follows;
    var t := s.(log := s.log + [next]);
    LongerLogIsFine(config, s, next);
    SameDone(s, t);
    assert Moves(s, t) && SameSelection(s, t) && KeepsMarker(s, t);
    hide Moves, SameSelection, KeepsMarker;
    NoneSteps(config, s, t);
  }

  lemma PowerLossKeeps(config: Config, s: State)
    requires Inv(config, s)
    ensures Inv(config, Do(config, s, PowerLoss))
  {
    hide *;
    var t := Do(config, s, PowerLoss);
    PowerLossFrame(config, s);
    InvParts(config, s);
    DurableIsFine(config, s);
    SameRest(config, s.(cached := s.durable), t);
    GrantsElsewhere(config, s, t);
    NobodyLeft(config, t);
  }

  lemma PowerLossFrame(config: Config, s: State)
    ensures Do(config, s, PowerLoss) == s.(cached := s.durable, procs := map[], latched := {})
    ensures SameStore(s.(cached := s.durable), Do(config, s, PowerLoss))
  {
  }

  lemma InvParts(config: Config, s: State)
    requires Inv(config, s)
    ensures FilesOk(config, s) && DoneOk(s) && GrantsOk(config, s)
  {
  }

  lemma NobodyLeft(config: Config, s: State)
    requires FilesOk(config, s) && DoneOk(s) && GrantsOk(config, s) && s.procs == map[]
    ensures Inv(config, s)
  {
    hide FilesOk, DoneOk, GrantsOk;
  }

  lemma GrantsElsewhere(config: Config, s: State, t: State)
    requires GrantsOk(config, s) && t.log == s.log && t.settled == s.settled && t.granted == s.granted
    ensures GrantsOk(config, t)
  {
    hide GrantOk;
    forall grant <- t.granted ensures GrantOk(config, t, grant) {
      GrantElsewhere(config, s, t, grant);
    }
  }

  lemma DurableIsFine(config: Config, s: State)
    requires FilesOk(config, s) && DoneOk(s)
    ensures FilesOk(config, s.(cached := s.durable)) && DoneOk(s.(cached := s.durable))
  {
    hide Chain, Bound, Answers;
  }

  lemma GrantElsewhere(config: Config, s: State, t: State, grant: Authorization)
    requires GrantOk(config, s, grant) && t.log == s.log && t.settled == s.settled
    ensures GrantOk(config, t, grant)
  {
    hide Bound;
  }

  lemma CrashEffect(config: Config, s: State, pid: Pid)
    requires FilesOk(config, s) && DoneOk(s)
    ensures Effect(config, s, Do(config, s, Crash(pid)), pid)
  {
    var t := Exit(s, pid).(latched := s.latched - {pid});
    hide FilesOk, DoneOk, Effect, Stepped, ProcOk;
    Ends(config, s, s.(latched := t.latched), pid);
    QuietEffect(config, s, t, pid);
  }

  lemma StepKeepsInv(config: Config, s: State, action: Action)
    requires Inv(config, s) && Careful(s, action)
    ensures Inv(config, Do(config, s, action))
  {
    hide FilesOk, DoneOk, GrantsOk, OneFenced, Careful, Effect, ProcOk, DoGo, DoFlush, Readable, Follows;
    var t := Do(config, s, action);
    match action
    case Begin(pid, job) =>
      if pid !in s.procs {
        hide DoBegin;
        BeginEffect(config, s, pid, job);
        OneStep(config, s, t, pid);
      }
    case Go(pid, outcome) =>
      if pid in s.procs {
        GoEffect(config, s, pid, s.procs[pid], outcome);
        OneStep(config, s, t, pid);
      }
    case Flush(file) =>
      FlushIsFine(config, s, file);
      FlushFrame(s, file);
      NoneSteps(config, s, t);
    case HostCommit(next) =>
      if t != s { CommitKeeps(config, s, next); }
    case HostBusy(_) => RestKeeps(config, s, t);
    case PowerLoss => PowerLossKeeps(config, s);
    case Crash(pid) =>
      CrashEffect(config, s, pid);
      OneStep(config, s, t, pid);
    case ClearActivity => RestKeeps(config, s, t);
  }

  lemma FlushFrame(s: State, file: File)
    ensures var t := DoFlush(s, file);
            t.procs == s.procs && t.granted == s.granted && t.cached == s.cached
  {
  }

  lemma RestKeeps(config: Config, s: State, t: State)
    requires Inv(config, s)
    requires t == s.(busy := t.busy) || (!Active(s) && t == s.(cached := s.cached.(activity := false)))
    ensures Inv(config, t)
  {
    assert FilesOk(config, t) by { hide Chain, Bound; }
    assert DoneOk(t) by { hide FilesOk, Answers; }
    hide FilesOk, DoneOk, GrantsOk, ProcsOk, OneFenced, Active;
    NoneSteps(config, s, t);
  }

  ghost predicate CarefulFrom(config: Config, s: State, actions: seq<Action>) {
    actions != [] ==>
      var before := actions[..|actions| - 1];
      CarefulFrom(config, s, before) && Careful(RunFrom(config, s, before), actions[|actions| - 1])
  }

  ghost predicate CarefulRun(config: Config, actions: seq<Action>) { CarefulFrom(config, Initial(), actions) }

  lemma {:induction false} CarefulStepsKeepInv(config: Config, s: State, actions: seq<Action>)
    requires Inv(config, s) && CarefulFrom(config, s, actions)
    ensures Inv(config, RunFrom(config, s, actions))
  {
    if actions == [] {
    } else {
      CarefulStepsKeepInv(config, s, actions[..|actions| - 1]);
      hide Inv, Do, Careful;
      StepKeepsInv(config, RunFrom(config, s, actions[..|actions| - 1]), actions[|actions| - 1]);
    }
  }

  lemma EveryCarefulRunIsOk(config: Config, actions: seq<Action>)
    requires CarefulRun(config, actions)
    ensures Inv(config, Run(config, actions))
  {
    assert Inv(config, Initial());
    hide Inv, Initial;
    CarefulStepsKeepInv(config, Initial(), actions);
  }
}
