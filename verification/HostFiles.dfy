/**
  The host policy file under its exclusive lock, and the mode-setup receipt, as a state
  machine: one step is one file operation, any number of processes interleave, and
  crash, power loss and failing operations may happen anywhere
  (agent/src/sourceAccessPolicy.ts:620-648, 1197-1237, 1275-1350, 1366-1495).
 */
module HostFiles {
  import opened SourcePaths
  import opened HostPolicy
  import opened HostLog

  type Pid = nat

  datatype Receipt = NoReceipt | Prepared(setup: Setup) | Consumed(id: string)

  datatype Disk = Disk(policy: HostApproval, lock: bool, receipt: Receipt)

  datatype File = PolicyFile | LockFile | ReceiptFile

  /** What an operator or the Agent starts. `version` is that of the selection which a mode
      change finds. */
  datatype Job =
    | Read
    | ChangeRoots(change: Change, expected: Revision)
    | ChangeMode(id: string, mode: Mode, roots: seq<Path>, expected: Revision, version: nat)
    | Prepare(setup: Setup)

  /** Where a process stands: the operation it does next. */
  datatype Pc =
    | Checked                                        // lock seen absent, policy not yet read
    | Locked(job: Job)                               // lock created, to be synced
    | Ready(job: Job)                                // lock durable, current policy to be read
    | ModeRead(job: Job)                             // activity fence taken, receipt to be read
    | Consume(setup: Setup, next: HostApproval)      // receipt to be replaced by its consumption
    | ConsumeSync(setup: Setup, next: HostApproval)
    | Put(next: HostApproval, request: Option<Setup>)  // policy to be renamed into place
    | PutSync(next: HostApproval, request: Option<Setup>)
    | Reread(fenced: bool)                           // policy durable, read once more
    | Unlock
    | UnlockSync
    | Relock                                         // unlock not confirmed, fence to be restored
    | PrepareRead(setup: Setup)
    | PreparePut(setup: Setup)
    | PrepareSync(setup: Setup)

  /** `cached` is what processes see, `durable` what a power loss leaves. `fence` is the
      owner of the activity fence. `log` lists the committed policies, and `seen` what
      readers returned. */
  datatype State = State(
    cached: Disk, durable: Disk, fence: Option<Pid>, procs: map<Pid, Pc>,
    log: seq<HostApproval>, seen: seq<HostApproval>)

  datatype Action =
    | Begin(pid: Pid, job: Job)
    | Go(pid: Pid, ok: bool)   // the next operation, and whether it succeeds
    | Flush(file: File)        // the system writes one file's state back by itself
    | PowerLoss
    | Crash(pid: Pid)
    | ClearLock                // operator review of a lock left behind
    | ClearFence

  function Initial(): State {
    State(Disk(NOTHING, false, NoReceipt), Disk(NOTHING, false, NoReceipt), None, map[], [NOTHING], [])
  }

  function Current(s: State): HostApproval
    requires s.log != []
  {
    s.log[|s.log| - 1]
  }

  function At(s: State, pid: Pid, pc: Pc): State { s.(procs := s.procs[pid := pc]) }

  function Exit(s: State, pid: Pid): State { s.(procs := s.procs - {pid}) }

  /** Leaving the activity fence; a lock that is held stays behind. */
  function Release(s: State, pid: Pid): State { s.(fence := if s.fence == Some(pid) then None else s.fence) }

  function SyncHost(s: State): State {
    s.(durable := s.durable.(policy := s.cached.policy, lock := s.cached.lock))
  }

  predicate HoldsLock(pc: Pc) {
    pc.Locked? || pc.Ready? || pc.ModeRead? || pc.Consume? || pc.ConsumeSync? || pc.Put? || pc.PutSync?
    || pc.Reread? || pc.Unlock?
  }

  predicate HoldsFence(pc: Pc) {
    pc.ModeRead? || pc.Consume? || pc.ConsumeSync? || (pc.Put? && pc.request.Some?)
    || (pc.PutSync? && pc.request.Some?) || (pc.Reread? && pc.fenced)
    || pc.PrepareRead? || pc.PreparePut? || pc.PrepareSync?
  }

  function DoBegin(s: State, pid: Pid, job: Job): State {
    if pid in s.procs then s
    else match job
      case Read => if s.cached.lock then s else At(s, pid, Checked)
      case Prepare(setup) => if s.fence.Some? then s else At(s.(fence := Some(pid)), pid, PrepareRead(setup))
      case _ =>
        if s.cached.lock then s
        else At(s.(cached := s.cached.(lock := true)), pid, Locked(job))
  }

  /** The receipt a mode change may consume: exactly the request it names, for the policy
      and the selection it was prepared under. */
  predicate Matching(config: Config, s: State, job: Job) {
    && job.ChangeMode? && s.cached.receipt.Prepared?
    && var setup := s.cached.receipt.setup;
       && setup.id == job.id && setup.mode == job.mode && setup.roots == job.roots
       && setup.expectedVersion == job.version
       && Readable(config, s.cached.policy)
       && RevisionOf(config, s.cached.policy) == job.expected
       && Allowed(config, s.cached.policy, Delegate(setup))
  }

  function DoGo(config: Config, s: State, pid: Pid, ok: bool): State
    requires pid in s.procs && s.log != []
  {
    match s.procs[pid]
    case Checked =>
      if ok && Readable(config, s.cached.policy) then Exit(s, pid).(seen := s.seen + [s.cached.policy])
      else Exit(s, pid)
    case Locked(job) =>
      if ok then At(SyncHost(s), pid, Ready(job)) else Exit(s, pid)
    case Ready(job) =>
      if job.ChangeMode? then
        if ok && s.fence.None? then At(s.(fence := Some(pid)), pid, ModeRead(job)) else At(s, pid, Unlock)
      else if ok && job.ChangeRoots? && !job.change.Delegate? && Readable(config, s.cached.policy)
              && RevisionOf(config, s.cached.policy) == job.expected && Allowed(config, s.cached.policy, job.change)
      then At(s, pid, Put(Next(s.cached.policy, job.change), None))
      else At(s, pid, Unlock)
    case ModeRead(job) =>
      if ok && Matching(config, s, job) then
        At(s, pid, Consume(s.cached.receipt.setup, Next(s.cached.policy, Delegate(s.cached.receipt.setup))))
      else At(Release(s, pid), pid, Unlock)
    case Consume(setup, next) =>
      if ok then At(s.(cached := s.cached.(receipt := Consumed(setup.id))), pid, ConsumeSync(setup, next))
      else Exit(Release(s, pid), pid)
    case ConsumeSync(setup, next) =>
      if ok then At(s.(durable := s.durable.(receipt := s.cached.receipt)), pid, Put(next, Some(setup)))
      else Exit(Release(s, pid), pid)
    case Put(next, request) =>
      if ok then At(s.(cached := s.cached.(policy := next)), pid, PutSync(next, request))
      else Exit(Release(s, pid), pid)
    case PutSync(next, request) =>
      if ok then At(SyncHost(s).(log := s.log + [next]), pid, Reread(request.Some?))
      else Exit(Release(s, pid), pid)
    case Reread(_) =>
      if ok && Readable(config, s.cached.policy) then At(Release(s, pid), pid, Unlock)
      else Exit(Release(s, pid), pid)
    case Unlock =>
      if ok then At(s.(cached := s.cached.(lock := false)), pid, UnlockSync) else Exit(s, pid)
    case UnlockSync =>
      if ok then Exit(SyncHost(s), pid) else At(s, pid, Relock)
    case Relock =>
      if ok then Exit(s.(cached := s.cached.(lock := true)), pid) else Exit(s, pid)
    case PrepareRead(setup) =>
      if ok && s.cached.receipt != Consumed(setup.id) && s.cached.receipt != Prepared(setup)
      then At(s, pid, PreparePut(setup))
      else Exit(Release(s, pid), pid)
    case PreparePut(setup) =>
      if ok then At(s.(cached := s.cached.(receipt := Prepared(setup))), pid, PrepareSync(setup))
      else Exit(Release(s, pid), pid)
    case PrepareSync(_) =>
      Exit(Release(if ok then s.(durable := s.durable.(receipt := s.cached.receipt)) else s, pid), pid)
  }

  ghost predicate Held(s: State, holds: Pc -> bool) { exists pid <- s.procs :: holds(s.procs[pid]) }

  ghost function Do(config: Config, s: State, action: Action): State
    requires s.log != []
  {
    match action
    case Begin(pid, job) => DoBegin(s, pid, job)
    case Go(pid, ok) => if pid in s.procs then DoGo(config, s, pid, ok) else s
    case Flush(PolicyFile) => s.(durable := s.durable.(policy := s.cached.policy))
    case Flush(LockFile) => s.(durable := s.durable.(lock := s.cached.lock))
    case Flush(ReceiptFile) => s.(durable := s.durable.(receipt := s.cached.receipt))
    case PowerLoss => s.(cached := s.durable, procs := map[])
    case Crash(pid) => Exit(s, pid)
    case ClearLock =>
      if Held(s, HoldsLock) || s.cached.policy != s.durable.policy then s
      else s.(cached := s.cached.(lock := false),
              log := if s.cached.policy == Current(s) then s.log else s.log + [s.cached.policy])
    case ClearFence =>
      if s.fence.Some? && s.fence.value in s.procs && HoldsFence(s.procs[s.fence.value]) then s
      else s.(fence := None)
  }

  ghost function Run(config: Config, actions: seq<Action>): (s: State)
    ensures s.log != []
  {
    if actions == [] then Initial()
    else Do(config, Run(config, actions[..|actions| - 1]), actions[|actions| - 1])
  }

  // ---- what every step keeps ----

  ghost predicate Pending(config: Config, s: State, policy: HostApproval)
    requires s.log != []
  {
    Readable(config, Current(s)) && Follows(config, Current(s), policy)
  }

  /** Both views hold the committed policy or one write on top of it, and an uncommitted
      write only ever shows behind the lock. */
  ghost predicate FilesOk(config: Config, s: State) {
    && Chain(config, s.log)
    && (s.cached.policy == Current(s) || (s.cached.lock && Pending(config, s, s.cached.policy)))
    && (s.durable.policy == Current(s) || (s.durable.policy == s.cached.policy && s.durable.lock))
    && (s.cached.policy == Current(s) || s.durable.lock)
  }

  ghost predicate Settled(s: State) {
    s.log != [] && s.cached.policy == s.durable.policy == Current(s)
  }

  /** The write a consumed request stands for. */
  ghost predicate Requested(config: Config, s: State, setup: Setup, next: HostApproval)
    requires s.log != []
  {
    && Readable(config, Current(s)) && Allowed(config, Current(s), Delegate(setup))
    && next == Next(Current(s), Delegate(setup))
  }

  /** What one process may rely on. */
  ghost predicate ProcOk(config: Config, s: State, pid: Pid, pc: Pc)
    requires s.log != []
  {
    && (HoldsLock(pc) ==> s.cached.lock)
    && (HoldsLock(pc) && !pc.Locked? ==> s.durable.lock)
    && (HoldsLock(pc) && !pc.PutSync? ==> Settled(s))
    && (HoldsFence(pc) ==> s.fence == Some(pid))
    && match pc
       case Consume(setup, next) => s.cached.receipt == Prepared(setup) && Requested(config, s, setup, next)
       case ConsumeSync(setup, next) => s.cached.receipt == Consumed(setup.id) && Requested(config, s, setup, next)
       case Put(next, request) => WriteOk(config, s, next, request)
       case PutSync(next, request) => s.cached.policy == next && WriteOk(config, s, next, request)
       case _ => true
  }

  /** A policy about to be written follows the committed one, and on behalf of a request
      only after that request's consumption is durable. */
  ghost predicate WriteOk(config: Config, s: State, next: HostApproval, request: Option<Setup>)
    requires s.log != []
  {
    && Pending(config, s, next)
    && (request.Some? ==>
          && s.cached.receipt == s.durable.receipt == Consumed(request.value.id)
          && Requested(config, s, request.value, next))
  }

  ghost predicate OneLockHolder(s: State) {
    forall p <- s.procs, q <- s.procs :: HoldsLock(s.procs[p]) && HoldsLock(s.procs[q]) ==> p == q
  }

  ghost predicate Inv(config: Config, s: State) {
    && s.log != []
    && FilesOk(config, s)
    && OneLockHolder(s)
    && forall pid <- s.procs :: ProcOk(config, s, pid, s.procs[pid])
  }

  ghost predicate OthersStay(s: State, t: State, pid: Pid) {
    && t.procs.Keys - {pid} == s.procs.Keys - {pid}
    && forall other <- s.procs :: other != pid ==> other in t.procs && t.procs[other] == s.procs[other]
  }

  predicate SameFiles(s: State, t: State) {
    && t.cached.policy == s.cached.policy && t.durable.policy == s.durable.policy && t.log == s.log
    && (s.cached.lock ==> t.cached.lock) && (s.durable.lock ==> t.durable.lock)
  }

  predicate SameReceipt(s: State, t: State) {
    t.cached.receipt == s.cached.receipt && t.durable.receipt == s.durable.receipt
  }

  predicate HasLock(s: State, pid: Pid) { pid in s.procs && HoldsLock(s.procs[pid]) }

  predicate HasFence(s: State, pid: Pid) { pid in s.procs && HoldsFence(s.procs[pid]) }

  /** Whoever holds neither lock nor fence disturbs nobody: a step may change the policy
      only under the lock, and the receipt only under the fence. */
  lemma OneStep(config: Config, s: State, t: State, pid: Pid)
    requires Inv(config, s) && OthersStay(s, t, pid) && t.log != [] && FilesOk(config, t)
    requires SameFiles(s, t) || HasLock(s, pid)
    requires SameReceipt(s, t) || HasFence(s, pid)
    requires t.fence == s.fence || s.fence == None || s.fence == Some(pid)
    requires pid in t.procs ==> ProcOk(config, t, pid, t.procs[pid])
    requires HasLock(t, pid) ==> HasLock(s, pid) || !s.cached.lock
    ensures Inv(config, t)
  {
    hide FilesOk, Readable, Allowed, Next, Follows;
    forall p <- t.procs ensures p == pid || (p in s.procs && t.procs[p] == s.procs[p]) {
      assert p == pid || p in s.procs.Keys - {pid};
    }
    forall p <- t.procs ensures ProcOk(config, t, p, t.procs[p]) {
      assert p == pid || ProcOk(config, s, p, s.procs[p]);
    }
  }

  lemma BeginKeeps(config: Config, s: State, pid: Pid, job: Job)
    requires Inv(config, s)
    ensures Inv(config, DoBegin(s, pid, job))
  {
    hide Readable, Allowed, Next, Follows, Chain;
    if pid !in s.procs {
      OneStep(config, s, DoBegin(s, pid, job), pid);
    }
  }

  lemma PrepareKeeps(config: Config, s: State, pid: Pid, ok: bool)
    requires Inv(config, s) && pid in s.procs
    requires s.procs[pid].PrepareRead? || s.procs[pid].PreparePut? || s.procs[pid].PrepareSync?
    ensures Inv(config, DoGo(config, s, pid, ok))
  {
    hide Readable, Allowed, Next, Chain, Follows, RevisionOf;
    var t := DoGo(config, s, pid, ok);
    assert ProcOk(config, s, pid, s.procs[pid]);
    assert FilesOk(config, t);
    OneStep(config, s, t, pid);
  }

  lemma ReaderKeeps(config: Config, s: State, pid: Pid, ok: bool)
    requires Inv(config, s) && pid in s.procs && (s.procs[pid].Checked? || s.procs[pid].Relock?)
    ensures Inv(config, DoGo(config, s, pid, ok))
  {
    hide Readable, Allowed, Next, Chain, Follows, RevisionOf;
    var t := DoGo(config, s, pid, ok);
    assert ProcOk(config, s, pid, s.procs[pid]);
    assert FilesOk(config, t);
    OneStep(config, s, t, pid);
  }

  lemma ModeStepKeeps(config: Config, s: State, pid: Pid, ok: bool)
    requires Inv(config, s) && pid in s.procs
    requires s.procs[pid].ModeRead? || s.procs[pid].Consume? || s.procs[pid].ConsumeSync? || s.procs[pid].Reread?
    ensures Inv(config, DoGo(config, s, pid, ok))
  {
    hide Readable, Allowed, Next, Chain, RevisionOf;
    var t := DoGo(config, s, pid, ok);
    assert ProcOk(config, s, pid, s.procs[pid]);
    assert FilesOk(config, t);
    OneStep(config, s, t, pid);
  }

  lemma ReadyKeeps(config: Config, s: State, pid: Pid, ok: bool)
    requires Inv(config, s) && pid in s.procs && s.procs[pid].Ready?
    ensures Inv(config, DoGo(config, s, pid, ok))
  {
    hide Readable, Allowed, Next, Chain, RevisionOf;
    var t := DoGo(config, s, pid, ok);
    assert ProcOk(config, s, pid, s.procs[pid]);
    assert FilesOk(config, t);
    OneStep(config, s, t, pid);
  }

  lemma LockStepKeeps(config: Config, s: State, pid: Pid, ok: bool)
    requires Inv(config, s) && pid in s.procs
    requires s.procs[pid].Locked? || s.procs[pid].Unlock? || s.procs[pid].UnlockSync?
    ensures Inv(config, DoGo(config, s, pid, ok))
  {
    hide Readable, Allowed, Next, Chain, Follows;
    var t := DoGo(config, s, pid, ok);
    assert ProcOk(config, s, pid, s.procs[pid]);
    assert FilesOk(config, t);
    if s.procs[pid].UnlockSync? {
      SyncKeeps(config, s, t, pid);
    } else {
      OneStep(config, s, t, pid);
    }
  }

  /** Writing the host directory back disturbs nobody: what it makes durable is what
      every process already sees. */
  lemma SyncKeeps(config: Config, s: State, t: State, pid: Pid)
    requires Inv(config, s) && OthersStay(s, t, pid) && t.log == s.log && FilesOk(config, t)
    requires !HasLock(s, pid) && !HasLock(t, pid)
    requires t.cached == s.cached && t.durable.receipt == s.durable.receipt && t.fence == s.fence
    requires t.durable.policy in {s.durable.policy, s.cached.policy}
    requires t.durable.lock in {s.durable.lock, s.cached.lock}
    requires pid in t.procs ==> t.procs[pid] == Relock
    ensures Inv(config, t)
  {
    hide FilesOk, Readable, Allowed, Next, Follows;
    forall p <- t.procs ensures p == pid || (p in s.procs && t.procs[p] == s.procs[p]) {
      assert p == pid || p in s.procs.Keys - {pid};
    }
    forall p <- t.procs ensures ProcOk(config, t, p, t.procs[p]) {
      assert p == pid || ProcOk(config, s, p, s.procs[p]);
    }
  }

  lemma PutKeeps(config: Config, s: State, pid: Pid, ok: bool)
    requires Inv(config, s) && pid in s.procs && s.procs[pid].Put?
    ensures Inv(config, DoGo(config, s, pid, ok))
  {
    hide Readable, Allowed, Next, Chain, Follows;
    var t := DoGo(config, s, pid, ok);
    assert ProcOk(config, s, pid, s.procs[pid]);
    assert FilesOk(config, t);
    OneStep(config, s, t, pid);
  }

  lemma CommitKeeps(config: Config, s: State, pid: Pid, ok: bool)
    requires Inv(config, s) && pid in s.procs && s.procs[pid].PutSync?
    ensures Inv(config, DoGo(config, s, pid, ok))
  {
    hide Readable, Allowed, Next;
    var t := DoGo(config, s, pid, ok);
    assert ProcOk(config, s, pid, s.procs[pid]);
    assert FilesOk(config, t);
    hide Follows, Chain;
    OneStep(config, s, t, pid);
  }

  lemma GoKeeps(config: Config, s: State, pid: Pid, ok: bool)
    requires Inv(config, s) && pid in s.procs
    ensures Inv(config, DoGo(config, s, pid, ok))
  {
    hide Inv, DoGo;
    match s.procs[pid]
    case Locked(_) => LockStepKeeps(config, s, pid, ok);
    case Unlock => LockStepKeeps(config, s, pid, ok);
    case UnlockSync => LockStepKeeps(config, s, pid, ok);
    case Ready(_) => ReadyKeeps(config, s, pid, ok);
    case ModeRead(_) => ModeStepKeeps(config, s, pid, ok);
    case Consume(_, _) => ModeStepKeeps(config, s, pid, ok);
    case ConsumeSync(_, _) => ModeStepKeeps(config, s, pid, ok);
    case Reread(_) => ModeStepKeeps(config, s, pid, ok);
    case Put(_, _) => PutKeeps(config, s, pid, ok);
    case PutSync(_, _) => CommitKeeps(config, s, pid, ok);
    case Checked => ReaderKeeps(config, s, pid, ok);
    case Relock => ReaderKeeps(config, s, pid, ok);
    case _ => PrepareKeeps(config, s, pid, ok);
  }

  lemma FlushKeeps(config: Config, s: State, file: File)
    requires Inv(config, s)
    ensures Inv(config, Do(config, s, Flush(file)))
  {
    hide Readable, Allowed, Next, Chain, Follows;
    var t := Do(config, s, Flush(file));
    forall p <- t.procs ensures ProcOk(config, t, p, t.procs[p]) {
      assert ProcOk(config, s, p, s.procs[p]);
    }
  }

  lemma OperatorKeeps(config: Config, s: State, action: Action)
    requires Inv(config, s) && (action.ClearLock? || action.ClearFence?)
    ensures Inv(config, Do(config, s, action))
  {
    hide Readable, Allowed, Next, Follows;
    var t := Do(config, s, action);
    if t != s {
      forall p <- t.procs ensures ProcOk(config, t, p, t.procs[p]) {
        assert ProcOk(config, s, p, s.procs[p]);
      }
    }
  }

  lemma StepKeepsInv(config: Config, s: State, action: Action)
    requires Inv(config, s)
    ensures Inv(config, Do(config, s, action))
  {
    hide Readable, Allowed, Next, Follows, Chain;
    match action
    case Begin(pid, job) => BeginKeeps(config, s, pid, job);
    case Go(pid, ok) => if pid in s.procs { GoKeeps(config, s, pid, ok); }
    case Flush(file) => FlushKeeps(config, s, file);
    case PowerLoss =>
    case Crash(pid) => OneStep(config, s, Exit(s, pid), pid);
    case ClearLock => OperatorKeeps(config, s, action);
    case ClearFence => OperatorKeeps(config, s, action);
  }

  lemma {:induction false} EveryRunIsOk(config: Config, actions: seq<Action>)
    ensures Inv(config, Run(config, actions))
  {
    if actions == [] {
      assert |Maximum(config, NOTHING)| == |Maximum(config, NOTHING)|;
    } else {
      EveryRunIsOk(config, actions[..|actions| - 1]);
      StepKeepsInv(config, Run(config, actions[..|actions| - 1]), actions[|actions| - 1]);
    }
  }

  // ---- over whole runs ----

  /** Without a lock the file on disk is the committed policy, and durable. */
  lemma UnlockedMeansCommitted(config: Config, actions: seq<Action>)
    ensures !Run(config, actions).cached.lock ==> Settled(Run(config, actions))
  {
    EveryRunIsOk(config, actions);
  }

  /** Nothing takes a committed policy back, a power loss included. */
  lemma CommitsAreKept(config: Config, s: State, action: Action)
    requires Inv(config, s)
    ensures s.log <= Do(config, s, action).log && Chain(config, Do(config, s, action).log)
  {
    StepKeepsInv(config, s, action);
    LogGrows(config, s, action);
    ChainOf(config, Do(config, s, action));
  }

  lemma ChainOf(config: Config, s: State)
    requires Inv(config, s)
    ensures Chain(config, s.log)
  {
  }

  lemma LogGrows(config: Config, s: State, action: Action)
    requires s.log != []
    ensures s.log <= Do(config, s, action).log
  {
    hide Readable, Allowed, Next, Held, RevisionOf, Matching;
  }

  /** A rename shows whose sync has not committed it: the writer is still to sync it, or
      failed or died over it. A power loss ends that if it takes the rename back, and the
      operator's review by accepting it. */
  ghost predicate RenameShows(config: Config, actions: seq<Action>) {
    actions != [] &&
      var before := actions[..|actions| - 1];
      StillShows(Run(config, before), actions[|actions| - 1], RenameShows(config, before))
  }

  ghost predicate StillShows(s: State, action: Action, shown: bool) {
    match action
    case Go(pid, ok) =>
      if ok && pid in s.procs && s.procs[pid].Put? then true
      else if ok && pid in s.procs && s.procs[pid].PutSync? then false
      else shown
    case PowerLoss => shown && s.durable.policy == s.cached.policy
    case ClearLock => shown && (Held(s, HoldsLock) || s.cached.policy != s.durable.policy)
    case _ => shown
  }

  lemma OnlyWritersChangePolicy(config: Config, s: State, pid: Pid, ok: bool)
    requires s.log != [] && pid in s.procs && !(ok && (s.procs[pid].Put? || s.procs[pid].PutSync?))
    ensures DoGo(config, s, pid, ok).cached.policy == s.cached.policy && DoGo(config, s, pid, ok).log == s.log
  {
    hide Readable, Allowed, Next, RevisionOf, Matching;
  }

  lemma WriterChangesPolicy(config: Config, s: State, pid: Pid)
    requires s.log != [] && pid in s.procs && ProcOk(config, s, pid, s.procs[pid])
    requires s.procs[pid].Put? || s.procs[pid].PutSync?
    ensures var t := DoGo(config, s, pid, true);
            && t.log != []
            && (s.procs[pid].Put? ==> t.log == s.log && Pending(config, s, t.cached.policy))
            && (s.procs[pid].PutSync? ==> t.cached.policy == Current(t))
  {
    hide Readable, Allowed, Next, RevisionOf, Matching, Follows;
  }

  lemma PendingIsNew(config: Config, s: State, policy: HostApproval)
    requires s.log != [] && Chain(config, s.log) && Pending(config, s, policy)
    ensures policy !in s.log
  {
    VersionIsPosition(config, s.log, |s.log| - 1);
    assert policy.hostVersion == |s.log| by { hide Readable, Allowed; }
    hide Chain, Readable, Follows, Next;
    forall i | 0 <= i < |s.log| ensures s.log[i] != policy {
      VersionIsPosition(config, s.log, i);
    }
  }

  lemma StepShows(config: Config, s: State, action: Action, shown: bool)
    requires Inv(config, s) && (shown <==> s.cached.policy != Current(s))
    ensures var t := Do(config, s, action);
            t.log != [] && (StillShows(s, action, shown) <==> t.cached.policy != Current(t))
  {
    hide Chain, DoGo, Pending, ProcOk, Readable, Held;
    if action.Go? && action.pid in s.procs {
      var pid := action.pid;
      if action.ok && (s.procs[pid].Put? || s.procs[pid].PutSync?) {
        WriterChangesPolicy(config, s, pid);
        if s.procs[pid].Put? {
          PendingIsNew(config, s, Do(config, s, action).cached.policy);
        }
      } else {
        OnlyWritersChangePolicy(config, s, pid, action.ok);
      }
    }
  }

  lemma {:induction false} ShowsExactlyWhenUncommitted(config: Config, actions: seq<Action>)
    ensures RenameShows(config, actions) <==> Run(config, actions).cached.policy != Current(Run(config, actions))
  {
    if actions == [] {
    } else {
      var before := actions[..|actions| - 1];
      ShowsExactlyWhenUncommitted(config, before);
      EveryRunIsOk(config, before);
      hide Inv, Do, StillShows;
      StepShows(config, Run(config, before), actions[|actions| - 1], RenameShows(config, before));
    }
  }

  /** A read returns a committed policy exactly when no such rename shows. */
  lemma ReadIsCommittedExactly(config: Config, actions: seq<Action>, pid: Pid)
    requires var s := Run(config, actions);
             pid in s.procs && s.procs[pid] == Checked && Readable(config, s.cached.policy)
    ensures var s, t := Run(config, actions), Run(config, actions + [Go(pid, true)]);
            && t.seen == s.seen + [s.cached.policy] && t.log == s.log
            && (s.cached.policy in t.log <==> !RenameShows(config, actions))
  {
    var s := Run(config, actions);
    EveryRunIsOk(config, actions);
    ShowsExactlyWhenUncommitted(config, actions);
    var longer, t := RunStep(config, actions, Go(pid, true));
    hide Run, Readable, Chain, Pending, RenameShows;
    if s.cached.policy != Current(s) {
      PendingIsNew(config, s, s.cached.policy);
    }
  }

  /** With the lock absent none shows, so a read in one step with its check is safe. */
  lemma UnlockedReadIsCommitted(config: Config, actions: seq<Action>)
    requires !Run(config, actions).cached.lock
    ensures !RenameShows(config, actions)
  {
    UnlockedMeansCommitted(config, actions);
    ShowsExactlyWhenUncommitted(config, actions);
  }

  /** The step with which a reader gets the policy. */
  predicate Reads(config: Config, s: State, action: Action) {
    && action.Go? && action.ok && action.pid in s.procs && s.procs[action.pid].Checked?
    && Readable(config, s.cached.policy)
  }

  ghost predicate CleanReads(config: Config, actions: seq<Action>) {
    actions != [] ==>
      var before := actions[..|actions| - 1];
      && CleanReads(config, before)
      && (Reads(config, Run(config, before), actions[|actions| - 1]) ==> !RenameShows(config, before))
  }

  /** Where no read meets such a rename, readers only ever return committed policies, so no
      power loss can undo what they saw. */
  lemma {:induction false} CleanReadersSeeCommitted(config: Config, actions: seq<Action>)
    requires CleanReads(config, actions)
    ensures forall policy <- Run(config, actions).seen :: policy in Run(config, actions).log
  {
    if actions != [] {
      var before := actions[..|actions| - 1];
      var s, action := Run(config, before), actions[|actions| - 1];
      CleanReadersSeeCommitted(config, before);
      EveryRunIsOk(config, before);
      ShowsExactlyWhenUncommitted(config, before);
      CommitsAreKept(config, s, action);
      hide Inv, Chain, Do, Reads, RenameShows;
      NewlySeen(config, s, action);
    }
  }

  lemma NewlySeen(config: Config, s: State, action: Action)
    requires s.log != [] && (Reads(config, s, action) ==> s.cached.policy == Current(s))
    ensures forall policy <- Do(config, s, action).seen :: policy in s.seen || policy in s.log
  {
    hide Readable, Allowed, Next, Held, RevisionOf, Matching;
  }

  /** A reader that a writer overtakes between check and read can return a policy that
      is never committed. */
  lemma OvertakenReaderSeesUncommitted() returns (actions: seq<Action>, s: State)
    ensures s == Run(SMALL, actions)
    ensures s.procs == map[] && s.log == [NOTHING] && s.cached.policy == s.durable.policy == NOTHING
    ensures s.seen != [] && s.seen[0] != NOTHING
  {
    var next := Next(NOTHING, Approve(ONE_MORE));
    var job := ChangeRoots(Approve(ONE_MORE), RevisionOf(SMALL, NOTHING));
    OneMoreIsReadable();
    hide Readable, Allowed, RevisionOf, Sorted;
    actions, s := [], Initial();
    actions, s := RunStep(SMALL, actions, Begin(2, Read));
    actions, s := RunStep(SMALL, actions, Begin(1, job));
    actions, s := RunStep(SMALL, actions, Go(1, true));
    assert s.procs[1] == Ready(job) && s.cached.policy == NOTHING;
    actions, s := RunStep(SMALL, actions, Go(1, true));
    assert s.procs[1] == Put(next, None);
    actions, s := RunStep(SMALL, actions, Go(1, true));
    assert s.cached.policy == next && s.procs[2] == Checked && s.log == [NOTHING] && s.durable.policy == NOTHING;
    actions, s := RunStep(SMALL, actions, Go(2, true));
    actions, s := RunStep(SMALL, actions, PowerLoss);
  }

  lemma OneMoreIsReadable()
    ensures Readable(SMALL, NOTHING) && Allowed(SMALL, NOTHING, Approve(ONE_MORE))
    ensures Readable(SMALL, Next(NOTHING, Approve(ONE_MORE)))
  {
    assert Readable(SMALL, NOTHING) by { assert Maximum(SMALL, NOTHING) == {}; }
    OneMoreIsAllowed(NOTHING);
    ApproveIsReadable(SMALL, NOTHING, ONE_MORE);
  }

  lemma RunStep(config: Config, actions: seq<Action>, action: Action) returns (longer: seq<Action>, t: State)
    ensures longer == actions + [action]
    ensures t == Run(config, longer) == Do(config, Run(config, actions), action)
  {
    longer := actions + [action];
    assert longer[..|actions|] == actions;
    t := Run(config, longer);
  }

  /** The write that a mode-setup request asked for. */
  ghost predicate MadeBy(config: Config, host: HostApproval, next: HostApproval, setup: Setup) {
    Allowed(config, host, Delegate(setup)) && next == Next(host, Delegate(setup))
  }

  /** A request changes the policy at most once, in any run. */
  lemma RequestChangesPolicyOnce(config: Config, actions: seq<Action>, setup: Setup, i: nat, j: nat)
    requires i + 1 < |Run(config, actions).log| && j + 1 < |Run(config, actions).log|
    requires MadeBy(config, Run(config, actions).log[i], Run(config, actions).log[i + 1], setup)
    requires MadeBy(config, Run(config, actions).log[j], Run(config, actions).log[j + 1], setup)
    ensures i == j
  {
    EveryRunIsOk(config, actions);
    hide Readable, Next, Follows;
    RevisionsAreUnique(config, Run(config, actions).log, i, j);
  }

  /** Once it has changed the policy it matches no later one, even when its receipt is
      prepared again. */
  lemma UsedRequestNeverMatches(config: Config, actions: seq<Action>, setup: Setup, i: nat)
    requires i + 1 < |Run(config, actions).log|
    requires MadeBy(config, Run(config, actions).log[i], Run(config, actions).log[i + 1], setup)
    ensures !Allowed(config, Current(Run(config, actions)), Delegate(setup))
  {
    EveryRunIsOk(config, actions);
    hide Allowed, Readable, Next, Follows, RevisionOf, Inv;
    ChainOf(config, Run(config, actions));
    UsedInLog(config, Run(config, actions).log, setup, i);
  }

  lemma UsedInLog(config: Config, log: seq<HostApproval>, setup: Setup, i: nat)
    requires Chain(config, log) && i + 1 < |log| && MadeBy(config, log[i], log[i + 1], setup)
    ensures !Allowed(config, log[|log| - 1], Delegate(setup))
  {
    hide Allowed, Readable, Next, Follows, RevisionOf;
    if Allowed(config, log[|log| - 1], Delegate(setup)) {
      ExpectedIsCurrent(config, log[i], setup);
      ExpectedIsCurrent(config, log[|log| - 1], setup);
      RevisionsAreUnique(config, log, i, |log| - 1);
    }
  }

  lemma ExpectedIsCurrent(config: Config, host: HostApproval, setup: Setup)
    requires Allowed(config, host, Delegate(setup))
    ensures setup.expected == RevisionOf(config, host)
  {
  }

  /** A delegation is renamed into place only after the request's consumption is durable. */
  lemma ConsumedBeforeWrite(config: Config, actions: seq<Action>, pid: Pid)
    requires var s := Run(config, actions); pid in s.procs && s.procs[pid].Put? && s.procs[pid].request.Some?
    ensures var s := Run(config, actions);
            var setup := s.procs[pid].request.value;
            && s.durable.receipt == Consumed(setup.id)
            && MadeBy(config, Current(s), s.procs[pid].next, setup)
  {
    EveryRunIsOk(config, actions);
    var s := Run(config, actions);
    assert ProcOk(config, s, pid, s.procs[pid]);
  }
}
