/**
  Exactly which roots are effective: in a policy, across a change, and over histories and
  runs (agent/src/sourceAccessPolicy.ts:836-855, 890-927, 1064-1090).
 */
module EffectiveRoots {
  import opened Text
  import opened SourcePaths
  import opened RootPaths
  import opened HostPolicy
  import opened HostLog
  import opened HostChanges
  import opened Selections

  /** Under server management a root must name no private directory. */
  predicate Unobjectionable(host: HostApproval, root: Path) {
    host.mode == ServerManaged ==>
      forall part <- Split(root, '/') :: part != ".ssh" && part != ".aws" && part != ".gnupg" && part != ".kube"
  }

  lemma UnobjectionableIs(host: HostApproval, root: Path)
    ensures Unobjectionable(host, root) <==> !Sensitive(host, root)
  {
    hide Split;
  }

  // ---- the grant a root is under ----

  ghost predicate UnderStatic(config: Config, root: Path) {
    exists parent <- config.staticRoots :: Within(parent, root)
  }

  ghost predicate UnderApproved(host: HostApproval, root: Path) { exists parent <- host.roots :: Within(parent, root) }

  ghost predicate UnderDelegated(host: HostApproval, root: Path) {
    host.mode == ServerManaged && exists parent <- host.delegated :: Within(parent, root)
  }

  /** Static roots come first, then approved ones, then delegated ones. */
  ghost predicate Governs(config: Config, host: HostApproval, grant: Grant, root: Path) {
    && HasGrant(config, host, grant) && Within(grant.parent, root)
    && (!grant.Fixed? ==> !UnderStatic(config, root))
    && (grant.Delegated? ==> !UnderApproved(host, root))
  }

  lemma ListedAreNotEmpty(config: Config, host: HostApproval)
    requires Sound(config, host)
    ensures forall root <- host.roots :: root != ""
    ensures forall root <- host.delegated :: root != ""
  {
    SoundLists(config, host);
    hide Sound, Nonoverlapping, NewRootAllowed, EpochsMatch;
  }

  lemma GoverningIsFound(config: Config, host: HostApproval, root: Path, grant: Grant)
    requires Sound(config, host) && !UnderStatic(config, root) && Governs(config, host, grant, root)
    ensures GrantFor(config, host, root) == Some(grant)
  {
    SoundLists(config, host);
    ListedAreNotEmpty(config, host);
    CoveringIsUnder(config, host, root);
    hide Sound, Within, GrantList, Nonoverlapping, Covering, UnderApproved;
    if grant.Approved? {
      CoveringIsUnique(host.roots, root, grant.parent);
    } else {
      CoveringIsUnique(host.delegated, root, grant.parent);
    }
  }

  lemma FoundGoverns(config: Config, host: HostApproval, root: Path, grant: Grant)
    requires !UnderStatic(config, root) && GrantFor(config, host, root) == Some(grant)
    ensures Governs(config, host, grant, root)
  {
    CoveringIsUnder(config, host, root);
    hide Within, Covering, UnderStatic, UnderApproved, UnderDelegated;
  }

  /** The grant found for a root outside the static ones is the one that governs it. */
  lemma GrantForGoverns(config: Config, host: HostApproval, root: Path, grant: Grant)
    requires Sound(config, host) && !UnderStatic(config, root)
    ensures GrantFor(config, host, root) == Some(grant) <==> Governs(config, host, grant, root)
  {
    hide *;
    if Governs(config, host, grant, root) { GoverningIsFound(config, host, root, grant); }
    if GrantFor(config, host, root) == Some(grant) { FoundGoverns(config, host, root, grant); }
  }

  lemma KeysAreRoots(config: Config, host: HostApproval)
    requires Sound(config, host)
    ensures forall root :: root in host.rootVersions <==> root in host.roots
    ensures forall root :: root in host.delegatedVersions <==> root in host.delegated
  {
    RootsHaveVersions(config, host);
    SoundLists(config, host);
    hide Sound, GrantList;
    forall root ensures root in host.delegatedVersions <==> root in host.delegated {
      assert root in host.delegatedVersions <==> root in Elements(host.delegated);
    }
  }

  lemma UnderStaticIsFixed(config: Config, host: HostApproval, root: Path)
    ensures UnderStatic(config, root)
       <==> GrantFor(config, host, root).Some? && GrantFor(config, host, root).value.Fixed?
    ensures UnderStatic(config, root) ==> RootEpoch(config, host, root) == Some(0)
  {
    hide Within;
  }

  lemma MaximumIsUnder(config: Config, host: HostApproval, root: Path)
    ensures WithinMaximum(config, host, root)
       <==> UnderStatic(config, root) || UnderApproved(host, root) || UnderDelegated(host, root)
  {
    hide Within;
    forall parent ensures parent in Maximum(config, host)
                     <==> || parent in config.staticRoots || parent in host.roots
                          || (host.mode == ServerManaged && parent in host.delegated) {
      assert parent in Elements(config.staticRoots) <==> parent in config.staticRoots;
      assert parent in Elements(host.roots) <==> parent in host.roots;
      assert parent in Elements(host.delegated) <==> parent in host.delegated;
    }
  }

  lemma CoveringIsUnder(config: Config, host: HostApproval, root: Path)
    ensures Covering(config.staticRoots, root).Some? <==> UnderStatic(config, root)
    ensures Covering(host.roots, root).Some? <==> UnderApproved(host, root)
    ensures host.mode == ServerManaged ==> (Covering(host.delegated, root).Some? <==> UnderDelegated(host, root))
    ensures host.mode != ServerManaged ==> !UnderDelegated(host, root)
  {
    hide Within, Covering;
  }

  lemma EpochIsUnder(config: Config, host: HostApproval, root: Path)
    requires Sound(config, host)
    ensures RootEpoch(config, host, root).Some?
       <==> UnderStatic(config, root) || UnderApproved(host, root) || UnderDelegated(host, root)
  {
    KeysAreRoots(config, host);
    CoveringIsUnder(config, host, root);
    hide Sound, Within, Covering, UnderStatic, UnderApproved, UnderDelegated;
  }

  /** A root has an epoch exactly when it is within the maximum. */
  lemma EpochExactlyWithinMaximum(config: Config, host: HostApproval, root: Path)
    requires Sound(config, host)
    ensures RootEpoch(config, host, root).Some? <==> WithinMaximum(config, host, root)
    ensures RootEpoch(config, host, root).Some? <==> GrantFor(config, host, root).Some?
  {
    MaximumIsUnder(config, host, root);
    EpochIsUnder(config, host, root);
    hide WithinMaximum, UnderStatic, UnderApproved, UnderDelegated, GrantFor;
  }

  // ---- one policy ----

  /** Without a selection the static roots are effective, whatever the host approves. */
  lemma StaticRootsAreEffective(config: Config, host: HostApproval, root: Path)
    ensures Effective(config, host, None, root) <==> root in config.staticRoots && Unobjectionable(host, root)
  {
    UnobjectionableIs(host, root);
    hide Sensitive, Unobjectionable;
    if root in config.staticRoots {
      assert Within(root, root) && UnderStatic(config, root);
      hide Within;
      MaximumIsUnder(config, host, root);
    }
  }

  /** A selected root is effective exactly while the epoch it was bound to is its epoch,
      private directories under server management aside; no other part of the policy, and no
      revision, has a say. */
  lemma EffectiveIsByEpoch(config: Config, host: HostApproval, selection: Selection, root: Path)
    requires Sound(config, host) && root in selection.roots && root in selection.bindings
    ensures Effective(config, host, Some(selection), root)
       <==> Unobjectionable(host, root) && RootEpoch(config, host, root) == Some(selection.bindings[root])
  {
    UnobjectionableIs(host, root);
    hide Sensitive, Unobjectionable, Sound;
    EpochExactlyWithinMaximum(config, host, root);
    hide RootEpoch, WithinMaximum;
  }

  // ---- across one change ----

  lemma GovernsOn(config: Config, host: HostApproval, change: Change, root: Path, grant: Grant)
    requires Sound(config, host) && !change.Delegate? && forall named <- change.roots :: !Within(named, root)
    ensures Governs(config, Next(host, change), grant, root) <==> Governs(config, host, grant, root)
  {
    hide Within, Sound, HasGrant;
    if change.Revoke? {
      RevokeRemovesExactly(config, host, change.roots);
      GrantsAfterRevoke(config, host, change.roots, grant);
    } else {
      ApproveAddsExactly(config, host, change.roots);
      GrantsAfterApprove(config, host, change.roots, grant);
    }
    hide Next;
    assert UnderApproved(Next(host, change), root) <==> UnderApproved(host, root);
  }

  /** A change none of whose roots contains a root leaves the root's grant and epoch. */
  lemma UnrelatedChangeKeepsGrant(config: Config, host: HostApproval, change: Change, root: Path)
    requires Sound(config, host) && Sound(config, Next(host, change))
    requires !change.Delegate? && forall named <- change.roots :: !Within(named, root)
    ensures GrantFor(config, Next(host, change), root) == GrantFor(config, host, root)
    ensures RootEpoch(config, Next(host, change), root) == RootEpoch(config, host, root)
  {
    var next := Next(host, change);
    var before, after := GrantFor(config, host, root), GrantFor(config, next, root);
    UnderStaticIsFixed(config, host, root);
    UnderStaticIsFixed(config, next, root);
    if UnderStatic(config, root) {
      hide Sound, Next, Within;
      assert before == after;
    } else {
      if before.Some? {
        GrantForGoverns(config, host, root, before.value);
        GovernsOn(config, host, change, root, before.value);
        GrantForGoverns(config, next, root, before.value);
      }
      if after.Some? {
        GrantForGoverns(config, next, root, after.value);
        GovernsOn(config, host, change, root, after.value);
        GrantForGoverns(config, host, root, after.value);
      }
      hide Sound, Next, GrantFor, Governs;
    }
  }

  /** So it stays effective: approving or revoking something else takes nothing away. */
  lemma UnrelatedChangeKeepsEffective(
    config: Config, host: HostApproval, change: Change, selection: Option<Selection>, root: Path)
    requires Readable(config, host) && Allowed(config, host, change)
    requires !change.Delegate? && forall named <- change.roots :: !Within(named, root)
    ensures Effective(config, Next(host, change), selection, root) <==> Effective(config, host, selection, root)
  {
    WrittenIsWellFormed(config, host, change);
    var next := Next(host, change);
    assert Sound(config, host) && Sound(config, next) by { hide WellFormed, Allowed; }
    assert Unobjectionable(next, root) == Unobjectionable(host, root) && Sensitive(next, root) == Sensitive(host, root);
    hide Readable, Allowed, Sound, Unobjectionable;
    if selection.None? {
      StaticRootsAreEffective(config, host, root);
      StaticRootsAreEffective(config, next, root);
    } else {
      UnrelatedChangeKeepsGrant(config, host, change, root);
      if root in selection.value.roots && root in selection.value.bindings {
        EffectiveIsByEpoch(config, host, selection.value, root);
        EffectiveIsByEpoch(config, next, selection.value, root);
      }
    }
    hide Next, Sensitive, RootEpoch, WithinMaximum;
  }

  // ---- over histories ----

  lemma SoundAt(config: Config, log: seq<HostApproval>, i: nat)
    requires Chain(config, log) && i < |log|
    ensures Sound(config, log[i])
  {
    if i > 0 {
      assert Readable(config, log[i - 1]) && Follows(config, log[i - 1], log[i]);
      var change :| Allowed(config, log[i - 1], change) && log[i] == Next(log[i - 1], change);
      WrittenIsWellFormed(config, log[i - 1], change);
    }
  }

  ghost predicate Unrelated(host: HostApproval, next: HostApproval, root: Path) {
    exists change ::
      next == Next(host, change) && !change.Delegate? && forall named <- change.roots :: !Within(named, root)
  }

  /** Through any number of changes that do not touch it, an effective root stays effective,
      and one that is not does not become so. */
  lemma {:induction false} UnrelatedHistoryKeepsEffective(
    config: Config, log: seq<HostApproval>, i: nat, j: nat, selection: Selection, root: Path)
    requires Chain(config, log) && i <= j < |log| && root in selection.roots && root in selection.bindings
    requires forall k :: i <= k < j ==> Unrelated(log[k], log[k + 1], root)
    ensures Effective(config, log[j], Some(selection), root) <==> Effective(config, log[i], Some(selection), root)
    ensures RootEpoch(config, log[j], root) == RootEpoch(config, log[i], root) && log[j].mode == log[i].mode
    decreases j
  {
    if i < j {
      hide Chain, Effective, RootEpoch, Within, Sound, Sensitive;
      UnrelatedHistoryKeepsEffective(config, log, i, j - 1, selection, root);
      SoundAt(config, log, j - 1);
      SoundAt(config, log, j);
      assert Unrelated(log[j - 1], log[j], root);
      var change :| log[j] == Next(log[j - 1], change) && !change.Delegate?
                    && forall named <- change.roots :: !Within(named, root);
      UnrelatedChangeKeepsGrant(config, log[j - 1], change, root);
      EffectiveIsByEpoch(config, log[j - 1], selection, root);
      EffectiveIsByEpoch(config, log[j], selection, root);
    }
  }

  /** The selection was bound under the i-th policy. */
  predicate BoundAt(config: Config, host: HostApproval, selection: Selection) {
    RevisionOf(config, host) == selection.revision && selection.bindings == Bindings(config, host, selection.roots)
  }

  /** A root that was selected under a grant is effective in another policy exactly if that
      grant is held there, and governs it: a delegation is overridden by an approval. A grant
      held later was held all the time. */
  lemma EffectiveExactlyWhileGranted(
    config: Config, log: seq<HostApproval>, i: nat, j: nat, selection: Selection, root: Path, grant: Grant)
    requires ConfigValid(config) && Chain(config, log) && i < |log| && j < |log|
    requires BoundAt(config, log[i], selection) && root in selection.roots
    requires GrantFor(config, log[i], root) == Some(grant)
    ensures Effective(config, log[j], Some(selection), root)
       <==> && Unobjectionable(log[j], root) && HasGrant(config, log[j], grant)
            && (grant.Delegated? ==> !UnderApproved(log[j], root))
    ensures i <= j ==>
              (HasGrant(config, log[j], grant) <==> forall k :: i <= k <= j ==> HasGrant(config, log[k], grant))
  {
    SoundAt(config, log, i);
    SoundAt(config, log, j);
    BoundEpoch(config, log[i], selection, root);
    EffectiveIsByEpoch(config, log[j], selection, root);
    UnderStaticIsFixed(config, log[i], root);
    UnderStaticIsFixed(config, log[j], root);
    hide Chain, ConfigValid, Unobjectionable, Sound, BoundAt, Effective, Within;
    GrantForIsHeld(config, log[i], root);
    SameEpochSameGrant(config, log, i, j, root);
    if !grant.Fixed? {
      GrantForGoverns(config, log[i], root, grant);
      GrantForGoverns(config, log[j], root, grant);
      hide GrantFor, UnderStatic, UnderApproved, HasGrant;
      if i <= j && HasGrant(config, log[j], grant) {
        EpochIsBounded(config, log, i, grant);
        forall k | i <= k <= j ensures HasGrant(config, log[k], grant) {
          GrantIsContinuous(config, log, j, k, grant);
        }
      }
    }
  }

  lemma BoundEpoch(config: Config, host: HostApproval, selection: Selection, root: Path)
    requires BoundAt(config, host, selection) && root in selection.roots && GrantFor(config, host, root).Some?
    ensures root in selection.bindings && RootEpoch(config, host, root) == Some(selection.bindings[root])
  {
    hide RevisionOf;
  }

  lemma SameEpochSameGrant(config: Config, log: seq<HostApproval>, i: nat, j: nat, root: Path)
    requires ConfigValid(config) && Chain(config, log) && i < |log| && j < |log|
    requires GrantFor(config, log[i], root).Some?
    ensures RootEpoch(config, log[i], root) == RootEpoch(config, log[j], root)
       <==> GrantFor(config, log[i], root) == GrantFor(config, log[j], root)
  {
    hide Chain, ConfigValid, GrantFor;
    if RootEpoch(config, log[i], root) == RootEpoch(config, log[j], root) {
      if i <= j {
        EqualEpochsMeanOneGrant(config, log, i, j, root);
      } else {
        EqualEpochsMeanOneGrant(config, log, j, i, root);
      }
    }
  }

  // ---- what may be selected, and what is kept out ----

  lemma BelowGrantIsNew(config: Config, host: HostApproval, root: Path)
    requires config.dataDir != "" && Sound(config, host) && root != ""
    requires UnderApproved(host, root) || UnderDelegated(host, root)
    ensures NewRootAllowed(config.dataDir, root)
  {
    SoundLists(config, host);
    ListedAreNotEmpty(config, host);
    hide Sound, Within, NewRootAllowed, Nonoverlapping, Lexical, EpochsMatch;
    var parent :| (parent in host.roots || parent in host.delegated) && Within(parent, root);
    AllowedBelow(config.dataDir, parent, root);
  }

  /** Which of a request's roots are accepted: any directory below an approved or delegated
      root, and below a static one what a new root may be. */
  ghost predicate Selected(config: Config, host: HostApproval, root: Path) {
    && Unobjectionable(host, root)
    && (root in config.staticRoots || UnderApproved(host, root) || UnderDelegated(host, root)
        || (UnderStatic(config, root) && NewRootAllowed(config.dataDir, root)))
  }

  lemma SelectableRoot(config: Config, host: HostApproval, root: Path)
    requires config.dataDir != "" && Sound(config, host) && root != ""
    ensures Selected(config, host, root)
       <==> && !Sensitive(host, root)
            && (NewRootAllowed(config.dataDir, root) || root in config.staticRoots || root in host.roots)
            && WithinMaximum(config, host, root)
  {
    UnobjectionableIs(host, root);
    MaximumIsUnder(config, host, root);
    if UnderApproved(host, root) || UnderDelegated(host, root) {
      BelowGrantIsNew(config, host, root);
    }
    assert Within(root, root);
    hide Sensitive, Unobjectionable, Within, NewRootAllowed, WithinMaximum, UnderDelegated, Sound;
  }

  /** A request may be selected exactly when its form is right, it names the current policy
      and each of its roots is such a one. */
  lemma SelectableExactly(config: Config, host: HostApproval, request: Request)
    requires ConfigValid(config) && Sound(config, host)
    ensures Selectable(config, host, request)
       <==> && RequestId(request.id) && request.expected < MAX_SAFE - 1
            && ValidRoots(request.roots) && Nonoverlapping(request.roots)
            && RevisionOf(config, host) == request.revision
            && forall root <- request.roots :: Selected(config, host, root)
  {
    LexicalIsNotEmpty();
    hide Sound, Nonoverlapping, RequestId, RevisionOf, Selected, Sensitive, NewRootAllowed, WithinMaximum, Lexical;
    forall root <- request.roots | root != ""
      ensures Selected(config, host, root)
         <==> && !Sensitive(host, root)
              && (NewRootAllowed(config.dataDir, root) || root in config.staticRoots || root in host.roots)
              && WithinMaximum(config, host, root)
    {
      SelectableRoot(config, host, root);
    }
  }

  /** An effective root outside the static ones neither contains nor lies in the agent's data
      or a protected tree, and under server management names no private directory. */
  lemma EffectiveIsApart(config: Config, host: HostApproval, selection: Selection, root: Path)
    requires ConfigValid(config) && Sound(config, host) && Effective(config, host, Some(selection), root)
    requires !UnderStatic(config, root)
    ensures !Within(config.dataDir, root) && !Within(root, config.dataDir)
    ensures forall tree <- DENIED_TREES :: !Within(tree, root) && !Within(root, tree)
    ensures forall other <- DENIED_ROOTS :: !Within(root, other)
    ensures host.mode == ServerManaged ==>
              forall part <- Split(root, '/') :: part !in {".ssh", ".aws", ".gnupg", ".kube"}
  {
    MaximumIsUnder(config, host, root);
    ListedAreNotEmpty(config, host);
    assert root != "";
    BelowGrantIsNew(config, host, root);
    hide DENIED_ROOTS, DENIED_TREES;
    AllowedIsApart(root);
    hide Within, UnderStatic, UnderApproved, WithinMaximum, Sound;
  }
}
