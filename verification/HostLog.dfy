/**
  The history of committed host policies, and what a root's epoch says about it
  (agent/src/sourceAccessPolicy.ts:836-855, 904-923, 1083-1090).
 */
module HostLog {
  import opened SourcePaths
  import opened HostPolicy

  /** An approval or delegation, named by the write that granted it. */
  datatype Grant = Fixed(parent: Path) | Approved(parent: Path, epoch: nat) | Delegated(parent: Path, epoch: nat)

  /** The epoch a root is bound to: 0 under a static root, else the version at which the
      approved or delegated root covering it was granted. */
  function RootEpoch(config: Config, host: HostApproval, root: Path): Option<nat> {
    var grant := GrantFor(config, host, root);
    if grant.None? then None
    else match grant.value
      case Fixed(_) => Some(0)
      case Approved(_, epoch) => Some(epoch)
      case Delegated(_, epoch) => Some(epoch)
  }

  function GrantFor(config: Config, host: HostApproval, root: Path): Option<Grant> {
    var fixed := Covering(config.staticRoots, root);
    var approved := Covering(host.roots, root);
    var delegated := if host.mode == ServerManaged then Covering(host.delegated, root) else None;
    if fixed.Some? then Some(Fixed(fixed.value))
    else if approved.Some? then
      if approved.value in host.rootVersions then Some(Approved(approved.value, host.rootVersions[approved.value]))
      else None
    else if delegated.Some? && delegated.value in host.delegatedVersions then
      Some(Delegated(delegated.value, host.delegatedVersions[delegated.value]))
    else None
  }

  predicate HasGrant(config: Config, host: HostApproval, grant: Grant) {
    match grant
    case Fixed(parent) => parent in config.staticRoots
    case Approved(parent, epoch) =>
      parent in host.roots && parent in host.rootVersions && host.rootVersions[parent] == epoch
    case Delegated(parent, epoch) =>
      host.mode == ServerManaged && parent in host.delegated && parent in host.delegatedVersions
      && host.delegatedVersions[parent] == epoch
  }

  ghost predicate Follows(config: Config, host: HostApproval, next: HostApproval) {
    exists change :: Allowed(config, host, change) && next == Next(host, change)
  }

  /** Committed policies, oldest first. */
  type History = log: seq<HostApproval> | log != [] witness [NOTHING]

  function Last(log: History): HostApproval { log[|log| - 1] }

  /** Every committed policy follows from the one before by one write; the first is the
      missing file. Each was accepted by the reader when the next was written. */
  ghost predicate Chain(config: Config, log: seq<HostApproval>) {
    && log != [] && log[0] == NOTHING
    && (forall i :: 0 <= i < |log| - 1 ==> Readable(config, log[i]) && Follows(config, log[i], log[i + 1]))
  }

  lemma ChainGrows(config: Config, log: History, next: HostApproval)
    requires Chain(config, log) && Readable(config, Last(log)) && Follows(config, Last(log), next)
    ensures Chain(config, log + [next])
  {
    hide Readable, Follows;
  }

  lemma {:induction false} VersionIsPosition(config: Config, log: seq<HostApproval>, i: nat)
    requires Chain(config, log) && i < |log|
    ensures log[i].hostVersion == i
  {
    if i > 0 {
      VersionIsPosition(config, log, i - 1);
      assert Follows(config, log[i - 1], log[i]);
    }
  }

  /** No revision ever recurs: two committed policies with one revision are the same one. */
  lemma RevisionsAreUnique(config: Config, log: seq<HostApproval>, i: nat, j: nat)
    requires Chain(config, log) && i < |log| && j < |log|
    requires RevisionOf(config, log[i]) == RevisionOf(config, log[j])
    ensures i == j
  {
    VersionIsPosition(config, log, i);
    VersionIsPosition(config, log, j);
  }

  ghost predicate Epoch(grant: Grant, epoch: nat) {
    match grant
    case Fixed(_) => epoch == 0
    case Approved(_, e) => epoch == e
    case Delegated(_, e) => epoch == e
  }

  /** A grant in a written policy is either new, and then carries the version of this
      write, or was there before. */
  lemma GrantIsNewOrKept(config: Config, host: HostApproval, change: Change, grant: Grant)
    requires Readable(config, host) && Allowed(config, host, change) && !grant.Fixed?
    requires HasGrant(config, Next(host, change), grant)
    ensures grant.epoch == host.hostVersion + 1 || HasGrant(config, host, grant)
  {
    hide Lexical, NewRootAllowed, Nonoverlapping, ContainsPrivateDirectory, Maximum, Sorted, RevisionOf;
    if grant.Approved? && !change.Delegate? && grant.epoch != host.hostVersion + 1 {
      GrantListAt(config, host);
      CoveredKeys(host.roots, host.rootVersions);
      assert grant.parent in host.rootVersions.Keys;
    }
  }

  /** A grant found anywhere was there ever since the write that made it: it cannot be
      taken away and come back. */
  lemma {:induction false} GrantIsContinuous(config: Config, log: seq<HostApproval>, i: nat, k: nat, grant: Grant)
    requires Chain(config, log) && k <= i < |log| && !grant.Fixed?
    requires HasGrant(config, log[i], grant) && grant.epoch <= k
    ensures HasGrant(config, log[k], grant)
    ensures 0 < grant.epoch
  {
    hide HasGrant, Readable, Allowed, Next;
    if i > 0 {
      VersionIsPosition(config, log, i - 1);
      assert Follows(config, log[i - 1], log[i]);
      var change :| Allowed(config, log[i - 1], change) && log[i] == Next(log[i - 1], change);
      GrantIsNewOrKept(config, log[i - 1], change, grant);
      if k < i {
        GrantIsContinuous(config, log, i - 1, k, grant);
      } else if HasGrant(config, log[i - 1], grant) && grant.epoch < i {
        GrantIsContinuous(config, log, i - 1, i - 1, grant);
      }
    } else {
      NothingGranted(config, grant);
    }
  }

  lemma NothingGranted(config: Config, grant: Grant)
    ensures !grant.Fixed? ==> !HasGrant(config, NOTHING, grant)
  {
  }

  lemma EpochIsBounded(config: Config, log: seq<HostApproval>, i: nat, grant: Grant)
    requires Chain(config, log) && i < |log| && !grant.Fixed? && HasGrant(config, log[i], grant)
    ensures 0 < grant.epoch <= i
    decreases i
  {
    hide HasGrant, Readable, Allowed, Next;
    if i > 0 {
      VersionIsPosition(config, log, i - 1);
      assert Follows(config, log[i - 1], log[i]);
      var change :| Allowed(config, log[i - 1], change) && log[i] == Next(log[i - 1], change);
      GrantIsNewOrKept(config, log[i - 1], change, grant);
      if grant.epoch != i {
        EpochIsBounded(config, log, i - 1, grant);
      }
    } else {
      NothingGranted(config, grant);
    }
  }

  /** One write grants roots of one kind, and they do not overlap: an epoch and a root
      name one grant. */
  lemma OneGrantPerEpoch(config: Config, log: seq<HostApproval>, e: nat, a: Grant, b: Grant, root: Path)
    requires Chain(config, log) && 0 < e < |log| && ConfigValid(config)
    requires !a.Fixed? && !b.Fixed? && a.epoch == b.epoch == e
    requires HasGrant(config, log[e], a) && HasGrant(config, log[e], b)
    requires Within(a.parent, root) && Within(b.parent, root)
    ensures a == b
  {
    hide HasGrant, Readable, Allowed, Next, Within, ConfigValid, WellFormed;
    VersionIsPosition(config, log, e - 1);
    assert Readable(config, log[e - 1]) && Follows(config, log[e - 1], log[e]);
    var change :| Allowed(config, log[e - 1], change) && log[e] == Next(log[e - 1], change);
    WrittenIsWellFormed(config, log[e - 1], change);
    KindOfEpoch(config, log[e - 1], change, a);
    KindOfEpoch(config, log[e - 1], change, b);
    OneParent(config, log[e], a, b, root);
  }

  lemma OneParent(config: Config, host: HostApproval, a: Grant, b: Grant, root: Path)
    requires WellFormed(config, host)
    requires !a.Fixed? && !b.Fixed? && (a.Approved? <==> b.Approved?)
    requires HasGrant(config, host, a) && HasGrant(config, host, b)
    requires Within(a.parent, root) && Within(b.parent, root)
    ensures a.parent == b.parent
  {
    hide NewRootAllowed, Nonoverlapping, ContainsPrivateDirectory, Within, EpochsMatch, RequestId;
    var roots := if a.Approved? then host.roots else host.delegated;
    CoveringIsUnique(roots, root, a.parent);
    CoveringIsUnique(roots, root, b.parent);
  }

  lemma KindOfEpoch(config: Config, host: HostApproval, change: Change, grant: Grant)
    requires Readable(config, host) && !grant.Fixed?
    requires HasGrant(config, Next(host, change), grant) && grant.epoch == host.hostVersion + 1
    ensures grant.Delegated? <==> change.Delegate?
  {
    hide Lexical, NewRootAllowed, Nonoverlapping, ContainsPrivateDirectory, Maximum, Sorted, RevisionOf;
    GrantListAt(config, host);
  }

  lemma GrantForIsHeld(config: Config, host: HostApproval, root: Path)
    requires GrantFor(config, host, root).Some?
    ensures HasGrant(config, host, GrantFor(config, host, root).value)
    ensures Within(GrantFor(config, host, root).value.parent, root)
  {
  }

  /** Equal epochs under two committed policies mean one and the same grant, and that
      it stayed in every policy committed in between. */
  lemma EqualEpochsMeanOneGrant(config: Config, log: seq<HostApproval>, i: nat, j: nat, root: Path)
    requires ConfigValid(config) && Chain(config, log) && i <= j < |log|
    requires RootEpoch(config, log[i], root).Some?
    requires RootEpoch(config, log[i], root) == RootEpoch(config, log[j], root)
    ensures GrantFor(config, log[i], root) == GrantFor(config, log[j], root)
    ensures forall k :: i <= k <= j ==> HasGrant(config, log[k], GrantFor(config, log[i], root).value)
  {
    hide Chain, ConfigValid, HasGrant;
    var a, b := GrantFor(config, log[i], root).value, GrantFor(config, log[j], root).value;
    GrantForIsHeld(config, log[i], root);
    GrantForIsHeld(config, log[j], root);
    if a.Fixed? || b.Fixed? {
      EpochOfGrant(config, log, i, a);
      EpochOfGrant(config, log, j, b);
      FixedStays(config, log, i, j, root);
    } else {
      EpochIsBounded(config, log, i, a);
      EpochIsBounded(config, log, j, b);
      GrantIsContinuous(config, log, i, a.epoch, a);
      GrantIsContinuous(config, log, j, b.epoch, b);
      OneGrantPerEpoch(config, log, a.epoch, a, b, root);
      forall k | i <= k <= j ensures HasGrant(config, log[k], a) {
        GrantIsContinuous(config, log, j, k, b);
      }
    }
  }

  lemma EpochOfGrant(config: Config, log: seq<HostApproval>, i: nat, grant: Grant)
    requires Chain(config, log) && i < |log| && HasGrant(config, log[i], grant)
    ensures Epoch(grant, 0) <==> grant.Fixed?
  {
    if !grant.Fixed? {
      EpochIsBounded(config, log, i, grant);
    }
  }

  lemma FixedStays(config: Config, log: seq<HostApproval>, i: nat, j: nat, root: Path)
    requires i <= j < |log|
    requires GrantFor(config, log[i], root).Some? && GrantFor(config, log[i], root).value.Fixed?
    ensures GrantFor(config, log[i], root) == GrantFor(config, log[j], root)
    ensures forall k :: i <= k <= j ==> HasGrant(config, log[k], GrantFor(config, log[i], root).value)
  {
  }

  lemma EpochOfApproval(host: HostApproval, root: Path)
    requires root in host.roots
    ensures var again := Next(Next(host, Revoke([root])), Approve([root]));
            root in again.roots && root in again.rootVersions && again.rootVersions[root] == host.hostVersion + 2
  {
    hide Without, Sorted;
    var revoked := Next(host, Revoke([root]));
    assert root !in revoked.roots by { assert root in [root]; }
    assert root in Elements(revoked.roots + [root]);
    assert root in Sorted(revoked.roots + [root]) <==> root in Elements(Sorted(revoked.roots + [root]));
  }

  /** Outside the static roots, an approved root's epoch is its own version. */
  lemma ApprovedEpoch(config: Config, host: HostApproval, root: Path)
    requires WellFormed(config, host) && root in host.roots
    requires forall parent <- config.staticRoots :: !Within(parent, root)
    ensures root in host.rootVersions && RootEpoch(config, host, root) == Some(host.rootVersions[root])
  {
    hide NewRootAllowed, Nonoverlapping, ContainsPrivateDirectory, RequestId, Lexical;
    LexicalIsNotEmpty();
    CoveringIsUnique(host.roots, root, root);
  }

  lemma LexicalIsNotEmpty()
    ensures !Lexical("")
  {
  }

  lemma NotUnderStatic(config: Config, host: HostApproval, root: Path)
    requires Allowed(config, host, Approve([root]))
    ensures forall parent <- config.staticRoots :: !Within(parent, root)
  {
    hide Lexical, NewRootAllowed, Within, Nonoverlapping;
    assert root in [root];
  }

  /** Revoking a root and approving it again is a new grant: a selection bound before holds
      the old epoch, and no longer matches. */
  lemma ApprovedAgainIsNew(config: Config, host: HostApproval, root: Path)
    requires ConfigValid(config) && WellFormed(config, host) && Readable(config, host) && root in host.roots
    requires Allowed(config, host, Revoke([root]))
    requires Allowed(config, Next(host, Revoke([root])), Approve([root]))
    ensures var again := Next(Next(host, Revoke([root])), Approve([root]));
            && RootEpoch(config, again, root) == Some(host.hostVersion + 2)
            && RootEpoch(config, host, root).Some? && RootEpoch(config, host, root).value <= host.hostVersion
  {
    var revoked := Next(host, Revoke([root]));
    hide *;
    RevokeAndDelegateAreReadable(config, host, Revoke([root]));
    WrittenIsWellFormed(config, revoked, Approve([root]));
    NotUnderStatic(config, revoked, root);
    EpochOfApproval(host, root);
    ApprovedEpoch(config, host, root);
    ApprovedEpoch(config, Next(revoked, Approve([root])), root);
    EpochInBounds(config, host, root);
  }

  lemma EpochInBounds(config: Config, host: HostApproval, root: Path)
    requires WellFormed(config, host) && root in host.roots
    ensures root in host.rootVersions && host.rootVersions[root] <= host.hostVersion
  {
    hide NewRootAllowed, Nonoverlapping, ContainsPrivateDirectory, RequestId, Lexical;
  }

  const APPROVED := Next(NOTHING, Approve(ONE_MORE))
  const REVOKED := Next(APPROVED, Revoke(ONE_MORE))
  const APPROVED_AGAIN := Next(REVOKED, Approve(ONE_MORE))

  lemma RevocationIsAllowed()
    ensures APPROVED.roots == ONE_MORE == [ONE_MORE[0]] && REVOKED.roots == [] && REVOKED.hostVersion == 2
    ensures Allowed(SMALL, NOTHING, Approve(ONE_MORE)) && Allowed(SMALL, APPROVED, Revoke(ONE_MORE))
  {
    hide Lexical, NewRootAllowed, ContainsPrivateDirectory, Within;
    OneMoreIsAllowed(NOTHING);
    ShortRootsAreFine();
    assert forall root <- ONE_MORE :: root == SHORT_ROOTS[32] && root in SHORT_ROOTS;
  }

  lemma ApprovedAgainIsReached()
    ensures ConfigValid(SMALL) && Readable(SMALL, NOTHING) && Readable(SMALL, APPROVED) && Readable(SMALL, REVOKED)
    ensures Allowed(SMALL, REVOKED, Approve(ONE_MORE))
  {
    FullDelegationIsAllowed();
    RevocationIsAllowed();
    hide Lexical, NewRootAllowed, ContainsPrivateDirectory, Within, Readable, RevisionOf, Allowed, ConfigValid;
    ApproveIsReadable(SMALL, NOTHING, ONE_MORE);
    RevokeAndDelegateAreReadable(SMALL, APPROVED, Revoke(ONE_MORE));
    OneMoreIsAllowed(REVOKED);
  }

  /** Such a history exists: approved, revoked, approved again. */
  lemma ApprovedAgain()
    ensures Chain(SMALL, [NOTHING, APPROVED, REVOKED, APPROVED_AGAIN])
  {
    RevocationIsAllowed();
    ApprovedAgainIsReached();
    hide Readable, Allowed, Next;
    assert Follows(SMALL, NOTHING, APPROVED) && Follows(SMALL, APPROVED, REVOKED);
    assert Follows(SMALL, REVOKED, APPROVED_AGAIN);
  }
}
