/**
  Host writes that nothing disturbs run to their end
  (agent/src/sourceAccessPolicy.ts:1275-1350, 1366-1495).
 */
module HostScenarios {
  import opened SourcePaths
  import opened HostPolicy
  import opened HostLog
  import opened HostChanges
  import opened HostFiles

  /** `n` operations of one process, all of which succeed. */
  ghost function Alone(config: Config, s: State, pid: Pid, n: nat): (t: State)
    requires s.log != []
    ensures t.log != []
  {
    if n == 0 then s else Do(config, Alone(config, s, pid, n - 1), Go(pid, true))
  }

  /** From `pc` to `next`, changing the state from `s` to `t` but for the process. */
  ghost predicate Gets(config: Config, s: State, pid: Pid, pc: Pc, n: nat, t: State, next: Pc) {
    s.log != [] && Alone(config, At(s, pid, pc), pid, n) == At(t, pid, next)
  }

  lemma Again(s: State, pid: Pid, a: Pc, b: Pc)
    ensures At(At(s, pid, a), pid, b) == At(s, pid, b)
  {
    assert s.procs[pid := a][pid := b] == s.procs[pid := b];
  }

  /** One more operation. */
  lemma GetsMore(config: Config, s: State, pid: Pid, pc: Pc, n: nat, t: State, a: Pc, u: State, b: Pc)
    requires Gets(config, s, pid, pc, n, t, a) && t.log != [] && u.procs == t.procs
    requires DoGo(config, At(t, pid, a), pid, true) == At(At(u, pid, a), pid, b)
    ensures Gets(config, s, pid, pc, n + 1, u, b)
  {
    Again(u, pid, a, b);
    hide DoGo;
  }

  lemma GetsNone(config: Config, s: State, pid: Pid, pc: Pc)
    requires s.log != []
    ensures Gets(config, s, pid, pc, 0, s, pc)
  {
  }

  /** Nothing is being written, and the process is free. */
  predicate Quiet(config: Config, s: State, pid: Pid) {
    && s.log != [] && pid !in s.procs && s.fence.None? && !s.cached.lock
    && s.cached.policy == Current(s) && Readable(config, s.cached.policy)
  }

  /** The new policy is durable and committed behind the lock. */
  function Replaced(s: State, next: HostApproval): State {
    s.(cached := s.cached.(policy := next), durable := s.durable.(policy := next, lock := s.cached.lock),
       log := s.log + [next])
  }

  function Unlocked(s: State): State {
    s.(cached := s.cached.(lock := false), durable := s.durable.(policy := s.cached.policy, lock := false))
  }

  lemma LockGets(config: Config, s: State, pid: Pid, job: Job)
    requires s.log != [] && s.cached.lock
    ensures Gets(config, s, pid, Locked(job), 1, SyncHost(s), Ready(job))
  {
    hide Gets;
    GetsNone(config, s, pid, Locked(job));
    GetsMore(config, s, pid, Locked(job), 0, s, Locked(job), SyncHost(s), Ready(job));
  }

  /** Rename, sync and the closing read, from wherever the rename is due. */
  lemma PutGets(
    config: Config, s: State, pid: Pid, start: Pc, n: nat, t: State, next: HostApproval, request: Option<Setup>)
    requires t.log != [] && Gets(config, s, pid, start, n, t, Put(next, request))
    ensures Gets(config, s, pid, start, n + 2, Replaced(t, next), Reread(request.Some?))
  {
    hide Gets;
    var put := t.(cached := t.cached.(policy := next));
    GetsMore(config, s, pid, start, n, t, Put(next, request), put, PutSync(next, request));
    GetsMore(config, s, pid, start, n + 1, put, PutSync(next, request), Replaced(t, next), Reread(request.Some?));
  }

  lemma RootsGet(config: Config, s: State, pid: Pid, job: Job)
    requires s.log != [] && job.ChangeRoots? && !job.change.Delegate? && Readable(config, s.cached.policy)
    requires RevisionOf(config, s.cached.policy) == job.expected && Allowed(config, s.cached.policy, job.change)
    requires s.cached.lock
    ensures var next := Next(s.cached.policy, job.change);
            Gets(config, s, pid, Locked(job), 4, Replaced(SyncHost(s), next), Reread(false))
  {
    hide Gets, Readable, RevisionOf, Allowed, Next;
    var next := Next(s.cached.policy, job.change);
    var t := SyncHost(s);
    LockGets(config, s, pid, job);
    GetsMore(config, s, pid, Locked(job), 1, t, Ready(job), t, Put(next, None));
    PutGets(config, s, pid, Locked(job), 2, t, next, None);
  }

  /** What is left of the mode setup while the fence is held. */
  function Used(s: State, pid: Pid, setup: Setup): State {
    s.(cached := s.cached.(receipt := Consumed(setup.id)), durable := s.durable.(receipt := Consumed(setup.id)),
       fence := Some(pid))
  }

  lemma ModeGets(config: Config, s: State, pid: Pid, job: Job, setup: Setup)
    requires s.log != [] && s.fence.None? && s.cached.lock && Matching(config, s, job)
    requires s.cached.receipt == Prepared(setup)
    ensures var next := Next(s.cached.policy, Delegate(setup));
            Gets(config, s, pid, Locked(job), 7, Replaced(Used(SyncHost(s), pid, setup), next), Reread(true))
  {
    hide Gets, Readable, RevisionOf, Allowed, Next;
    var next := Next(s.cached.policy, Delegate(setup));
    var t := SyncHost(s);
    var fenced := t.(fence := Some(pid));
    var consumed := fenced.(cached := t.cached.(receipt := Consumed(setup.id)));
    var used := Used(t, pid, setup);
    LockGets(config, s, pid, job);
    GetsMore(config, s, pid, Locked(job), 1, t, Ready(job), fenced, ModeRead(job));
    GetsMore(config, s, pid, Locked(job), 2, fenced, ModeRead(job), fenced, Consume(setup, next));
    GetsMore(config, s, pid, Locked(job), 3, fenced, Consume(setup, next), consumed, ConsumeSync(setup, next));
    GetsMore(config, s, pid, Locked(job), 4, consumed, ConsumeSync(setup, next), used, Put(next, Some(setup)));
    PutGets(config, s, pid, Locked(job), 5, used, next, Some(setup));
  }

  /** From the closing read on: a policy the reader refuses leaves the lock behind. */
  lemma ClosingReadDecides(config: Config, s: State, pid: Pid, fenced: bool)
    requires s.log != [] && pid !in s.procs && s.cached.lock
    ensures Readable(config, s.cached.policy) ==>
              Alone(config, At(s, pid, Reread(fenced)), pid, 3) == Unlocked(Release(s, pid))
    ensures !Readable(config, s.cached.policy) ==>
              Alone(config, At(s, pid, Reread(fenced)), pid, 1) == Release(s, pid)
  {
    hide Readable;
    var t := Release(s, pid);
    var start := At(s, pid, Reread(fenced));
    AloneThree(config, start, pid);
    if Readable(config, s.cached.policy) {
      Again(t, pid, Reread(fenced), Unlock);
      assert Do(config, start, Go(pid, true)) == At(t, pid, Unlock);
      var open := t.(cached := t.cached.(lock := false));
      Again(open, pid, Unlock, UnlockSync);
      assert Do(config, At(t, pid, Unlock), Go(pid, true)) == At(open, pid, UnlockSync);
      assert s.procs[pid := UnlockSync] - {pid} == s.procs;
    } else {
      assert s.procs[pid := Reread(fenced)] - {pid} == s.procs;
    }
  }

  lemma AloneThree(config: Config, s: State, pid: Pid)
    requires s.log != []
    ensures Alone(config, s, pid, 1) == Do(config, s, Go(pid, true))
    ensures Alone(config, s, pid, 3)
         == Do(config, Do(config, Do(config, s, Go(pid, true)), Go(pid, true)), Go(pid, true))
  {
    hide Do;
    assert Alone(config, s, pid, 0) == s;
    assert Alone(config, s, pid, 2) == Do(config, Alone(config, s, pid, 1), Go(pid, true));
  }

  lemma {:induction false} AloneAdds(config: Config, s: State, pid: Pid, m: nat, n: nat)
    requires s.log != []
    ensures Alone(config, s, pid, m + n) == Alone(config, Alone(config, s, pid, m), pid, n)
  {
    hide Do;
    if n > 0 {
      AloneAdds(config, s, pid, m, n - 1);
    }
  }

  /** How a write ends: committed and durable, the lock gone exactly if the reader accepts
      the new policy. */
  ghost predicate Ended(config: Config, s: State, t: State, next: HostApproval) {
    && t.cached.policy == t.durable.policy == next && t.log == s.log + [next]
    && t.procs == s.procs && t.fence.None?
    && t.cached.lock == t.durable.lock == !Readable(config, next)
  }

  lemma WriteEnds(config: Config, s: State, pid: Pid, job: Job, n: nat, u: State, next: HostApproval, fenced: bool)
    returns (m: nat, t: State)
    requires Quiet(config, s, pid) && !job.Read? && !job.Prepare?
    requires Gets(config, s.(cached := s.cached.(lock := true)), pid, Locked(job), n, u, Reread(fenced))
    requires u.log == s.log + [next] && u.procs == s.procs && (u.fence.None? || u.fence == Some(pid))
    requires u.cached.policy == u.durable.policy == next && u.cached.lock && u.durable.lock
    ensures t == Alone(config, Do(config, s, Begin(pid, job)), pid, m) && Ended(config, s, t, next)
    ensures t.cached.receipt == u.cached.receipt && t.durable.receipt == u.durable.receipt
  {
    var begun := Do(config, s, Begin(pid, job));
    assert begun == At(s.(cached := s.cached.(lock := true)), pid, Locked(job)) by { hide Readable; }
    hide Readable, Do, At, DoGo;
    ClosingReadDecides(config, u, pid, fenced);
    var k := if Readable(config, next) then 3 else 1;
    AloneAdds(config, begun, pid, n, k);
    m := n + k;
    t := if Readable(config, next) then Unlocked(Release(u, pid)) else Release(u, pid);
  }

  /** Undisturbed, a change of the approved roots that the writer allows is committed, and
      what is durable has exactly the roots asked for, the kept ones under their epochs and
      the new ones under this write's; the host stays locked afterwards exactly when the
      reader refuses what was written. */
  lemma UndisturbedChangeCommits(config: Config, s: State, pid: Pid, job: Job) returns (n: nat, t: State)
    requires Quiet(config, s, pid) && job.ChangeRoots? && !job.change.Delegate?
    requires RevisionOf(config, s.cached.policy) == job.expected && Allowed(config, s.cached.policy, job.change)
    ensures t == Alone(config, Do(config, s, Begin(pid, job)), pid, n)
    ensures Ended(config, s, t, Next(s.cached.policy, job.change)) && t.cached.receipt == s.cached.receipt
    ensures var host, next, named := s.cached.policy, t.durable.policy, job.change.roots;
            && (job.change.Revoke? ==> forall root :: root in next.roots <==> root in host.roots && root !in named)
            && (job.change.Approve? ==> forall root :: root in next.roots <==> root in host.roots || root in named)
            && next.rootVersions.Keys == Elements(next.roots) && next.hostVersion == host.hostVersion + 1
            && (forall root <- next.roots :: if root in host.roots
                  then root in host.rootVersions && next.rootVersions[root] == host.rootVersions[root]
                  else next.rootVersions[root] == next.hostVersion)
            && next.mode == host.mode && next.delegated == host.delegated
            && next.delegatedVersions == host.delegatedVersions
  {
    assert Sound(config, s.cached.policy) by { hide Allowed, WellFormed; }
    hide Readable, RevisionOf, Allowed, Next, Do, Alone, Gets, Sound;
    if job.change.Revoke? {
      RevokeRemovesExactly(config, s.cached.policy, job.change.roots);
    } else {
      ApproveAddsExactly(config, s.cached.policy, job.change.roots);
    }
    n, t := ChangeCommits(config, s, pid, job);
  }

  lemma ChangeCommits(config: Config, s: State, pid: Pid, job: Job) returns (n: nat, t: State)
    requires Quiet(config, s, pid) && job.ChangeRoots? && !job.change.Delegate?
    requires RevisionOf(config, s.cached.policy) == job.expected && Allowed(config, s.cached.policy, job.change)
    ensures t == Alone(config, Do(config, s, Begin(pid, job)), pid, n)
    ensures Ended(config, s, t, Next(s.cached.policy, job.change)) && t.cached.receipt == s.cached.receipt
  {
    hide Readable, RevisionOf, Allowed, Next, Do, Alone, Ended, Gets;
    var locked := s.(cached := s.cached.(lock := true));
    var next := Next(s.cached.policy, job.change);
    RootsGet(config, locked, pid, job);
    n, t := WriteEnds(config, s, pid, job, 4, Replaced(SyncHost(locked), next), next, false);
  }

  /** The operator's repetition of what the server asked for, under the current policy. */
  predicate Repeats(config: Config, host: HostApproval, setup: Setup, job: Job) {
    job == ChangeMode(setup.id, setup.mode, setup.roots, RevisionOf(config, host), setup.expectedVersion)
  }

  /** Undisturbed, a mode setup whose receipt is prepared is committed once, its receipt
      durably consumed; mode and delegated roots are then those asked for, all under this
      write's version, and the approved roots are as they were. */
  lemma UndisturbedSetupCommits(config: Config, s: State, pid: Pid, job: Job, setup: Setup) returns (n: nat, t: State)
    requires Quiet(config, s, pid) && Repeats(config, s.cached.policy, setup, job)
    requires Allowed(config, s.cached.policy, Delegate(setup)) && s.cached.receipt == Prepared(setup)
    ensures t == Alone(config, Do(config, s, Begin(pid, job)), pid, n)
    ensures Ended(config, s, t, Next(s.cached.policy, Delegate(setup)))
    ensures t.cached.receipt == t.durable.receipt == Consumed(setup.id)
    ensures var host, next := s.cached.policy, t.durable.policy;
            && next.mode == setup.mode && next.delegated == setup.roots && next.hostVersion == host.hostVersion + 1
            && next.delegatedVersions.Keys == Elements(setup.roots)
            && (forall root <- setup.roots :: next.delegatedVersions[root] == next.hostVersion)
            && next.roots == host.roots && next.rootVersions == host.rootVersions
    ensures ConfigValid(config) ==> !t.durable.lock
  {
    DelegateReplacesExactly(s.cached.policy, setup);
    if ConfigValid(config) {
      RevokeAndDelegateAreReadable(config, s.cached.policy, Delegate(setup));
    }
    hide Readable, RevisionOf, Allowed, Next, Do, Alone, Gets;
    var locked := s.(cached := s.cached.(lock := true));
    var next := Next(s.cached.policy, Delegate(setup));
    ModeGets(config, locked, pid, job, setup);
    n, t := WriteEnds(config, s, pid, job, 7, Replaced(Used(SyncHost(locked), pid, setup), next), next, true);
  }

  /** A write that is refused: what there was is durable, and the lock gone. */
  function Refused(s: State): State {
    s.(durable := s.durable.(policy := s.cached.policy, lock := false))
  }

  lemma UnlockEnds(config: Config, s: State, pid: Pid, start: Pc, n: nat, t: State)
    requires s.log != [] && t.log != [] && pid !in t.procs && Gets(config, s, pid, start, n, t, Unlock)
    ensures Alone(config, At(s, pid, start), pid, n + 2) == SyncHost(t.(cached := t.cached.(lock := false)))
  {
    var open := t.(cached := t.cached.(lock := false));
    GetsMore(config, s, pid, start, n, t, Unlock, open, UnlockSync);
    assert t.procs[pid := UnlockSync] - {pid} == t.procs;
    hide SyncHost;
  }

  /** Undisturbed, a change of roots under another policy than the one it names, or one that
      the writer does not allow, is refused. */
  lemma UndisturbedChangeIsRefused(config: Config, s: State, pid: Pid, job: Job) returns (n: nat)
    requires Quiet(config, s, pid) && job.ChangeRoots?
    requires job.change.Delegate? || RevisionOf(config, s.cached.policy) != job.expected
             || !Allowed(config, s.cached.policy, job.change)
    ensures Alone(config, Do(config, s, Begin(pid, job)), pid, n) == Refused(s)
  {
    hide Gets, Readable, RevisionOf, Allowed, Next, Alone;
    var locked := s.(cached := s.cached.(lock := true));
    var t := SyncHost(locked);
    LockGets(config, locked, pid, job);
    GetsMore(config, locked, pid, Locked(job), 1, t, Ready(job), t, Unlock);
    UnlockEnds(config, locked, pid, Locked(job), 2, t);
    n := 4;
  }

  /** So is a mode change that no prepared request stands for: one that was used, that differs
      in what it asks for, or that the writer does not allow. */
  lemma UndisturbedSetupIsRefused(config: Config, s: State, pid: Pid, job: Job) returns (n: nat)
    requires Quiet(config, s, pid) && job.ChangeMode?
    requires s.cached.receipt.Prepared? ==>
               !Repeats(config, s.cached.policy, s.cached.receipt.setup, job)
               || !Allowed(config, s.cached.policy, Delegate(s.cached.receipt.setup))
    ensures Alone(config, Do(config, s, Begin(pid, job)), pid, n) == Refused(s)
  {
    hide Gets, Readable, RevisionOf, Allowed, Next, Alone;
    var locked := s.(cached := s.cached.(lock := true));
    var t := SyncHost(locked);
    var fenced := t.(fence := Some(pid));
    LockGets(config, locked, pid, job);
    GetsMore(config, locked, pid, Locked(job), 1, t, Ready(job), fenced, ModeRead(job));
    GetsMore(config, locked, pid, Locked(job), 2, fenced, ModeRead(job), t, Unlock);
    UnlockEnds(config, locked, pid, Locked(job), 3, t);
    n := 5;
  }

  /** Undisturbed, what the server asks for is prepared durably, unless it is prepared or
      has been used already; nothing else changes. */
  lemma UndisturbedSetupIsPrepared(config: Config, s: State, pid: Pid, setup: Setup) returns (n: nat, t: State)
    requires s.log != [] && pid !in s.procs && s.fence.None?
    ensures t == Alone(config, Do(config, s, Begin(pid, Prepare(setup))), pid, n)
    ensures t == if s.cached.receipt == Consumed(setup.id) || s.cached.receipt == Prepared(setup) then s
                 else s.(cached := s.cached.(receipt := Prepared(setup)),
                         durable := s.durable.(receipt := Prepared(setup)))
  {
    var begun := Do(config, s, Begin(pid, Prepare(setup)));
    AloneThree(config, begun, pid);
    assert s.procs[pid := PrepareRead(setup)] - {pid} == s.procs;
    if s.cached.receipt == Consumed(setup.id) || s.cached.receipt == Prepared(setup) {
      n := 1;
      t := Alone(config, begun, pid, 1);
    } else {
      n := 3;
      var put := At(s.(fence := Some(pid)), pid, PreparePut(setup));
      var written := s.(fence := Some(pid), cached := s.cached.(receipt := Prepared(setup)));
      Again(s.(fence := Some(pid)), pid, PrepareRead(setup), PreparePut(setup));
      assert Do(config, begun, Go(pid, true)) == put;
      Again(written, pid, PreparePut(setup), PrepareSync(setup));
      assert Do(config, put, Go(pid, true)) == At(written, pid, PrepareSync(setup));
      assert s.procs[pid := PrepareSync(setup)] - {pid} == s.procs;
      t := Alone(config, begun, pid, 3);
    }
  }

  /** A reader that nothing disturbs returns the committed policy. */
  lemma UndisturbedReadReturns(config: Config, s: State, pid: Pid)
    requires Quiet(config, s, pid)
    ensures Alone(config, Do(config, s, Begin(pid, Read)), pid, 1) == s.(seen := s.seen + [Current(s)])
  {
    hide Readable;
    AloneThree(config, Do(config, s, Begin(pid, Read)), pid);
    assert s.procs[pid := Checked] - {pid} == s.procs;
  }

  /** Whatever a power loss leaves, an operator's review of lock and fence puts the host to
      rest again, with the policy that survived as the committed one; unless its reader
      refuses it. */
  lemma ReviewEndsPowerLoss(config: Config, s: State, pid: Pid) returns (lost: State, open: State, t: State)
    requires Inv(config, s)
    ensures lost == Do(config, s, PowerLoss) && lost.log != []
    ensures open == Do(config, lost, ClearLock) && open.log != []
    ensures t == Do(config, open, ClearFence) && t.log != []
    ensures t.cached.policy == s.durable.policy == Current(t) && s.log <= t.log
    ensures Readable(config, t.cached.policy) ==> Quiet(config, t, pid)
  {
    hide Readable, Follows, Chain;
    lost := Do(config, s, PowerLoss);
    open := Do(config, lost, ClearLock);
    t := Do(config, open, ClearFence);
  }

  /** An unlock that cannot be confirmed puts the lock back; where that fails too, or the
      process dies, the lock is as it was left. */
  lemma UnconfirmedUnlockIsUndone(config: Config, s: State, pid: Pid, restored: bool)
    requires s.log != [] && pid !in s.procs
    ensures var relock := Do(config, At(s, pid, UnlockSync), Go(pid, false));
            && relock == At(s, pid, Relock)
            && Do(config, relock, Go(pid, restored))
               == if restored then s.(cached := s.cached.(lock := true)) else s
  {
    Again(s, pid, UnlockSync, Relock);
    assert s.procs[pid := Relock] - {pid} == s.procs;
  }

  /** Once the system has written every file back, what shows is durable. */
  lemma WriteBackIsComplete(config: Config, s: State)
    requires s.log != []
    ensures Do(config, Do(config, Do(config, s, Flush(PolicyFile)), Flush(LockFile)), Flush(ReceiptFile))
         == s.(durable := s.cached)
  {
  }
}
