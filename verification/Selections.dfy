/**
  One applied selection of source roots: what may be selected, what apply writes, what
  the reader accepts back, and which roots a report makes effective
  (agent/src/sourceAccessPolicy.ts:777-834, 890-927, 961-1003, 1064-1090, 1126-1134).
 */
module Selections {
  import opened SourcePaths
  import opened HostPolicy
  import opened HostLog

  datatype Request = Request(id: string, expected: nat, revision: Revision, roots: seq<Path>)

  datatype Selection = Selection(
    version: nat, id: string, revision: Revision, roots: seq<Path>, bindings: map<Path, nat>)

  function Version(selection: Option<Selection>): nat {
    if selection.Some? then selection.value.version else 0
  }

  /** The reader's checks on a stored selection. */
  predicate SelectionReadable(config: Config, selection: Selection) {
    && 0 < selection.version <= MAX_SAFE && RequestId(selection.id)
    && ValidRoots(selection.roots) && Nonoverlapping(selection.roots)
    && (forall root <- selection.roots :: NewSourceRootAllowed(root) || root in config.staticRoots)
    && |selection.bindings| == |selection.roots|
    && forall root <- selection.roots :: root in selection.bindings
  }

  /** A root inside what the host allows; under server management never a private one. */
  predicate WithinMaximum(config: Config, host: HostApproval, root: Path) {
    exists parent <- Maximum(config, host) :: Within(parent, root)
  }

  predicate Sensitive(host: HostApproval, root: Path) {
    host.mode == ServerManaged && ContainsPrivateDirectory(root)
  }

  /** What validation and the final policy read demand of a request's roots. */
  predicate Selectable(config: Config, host: HostApproval, request: Request) {
    && RequestId(request.id) && request.expected < MAX_SAFE - 1
    && ValidRoots(request.roots) && Nonoverlapping(request.roots)
    && RevisionOf(config, host) == request.revision
    && forall root <- request.roots ::
         && !Sensitive(host, root)
         && (NewRootAllowed(config.dataDir, root) || root in config.staticRoots || root in host.roots)
         && WithinMaximum(config, host, root)
  }

  function Bindings(config: Config, host: HostApproval, roots: seq<Path>): map<Path, nat> {
    map root | root in roots && RootEpoch(config, host, root).Some? :: RootEpoch(config, host, root).value
  }

  /** The selection a request turns into. */
  function Target(config: Config, host: HostApproval, request: Request): Selection {
    Selection(request.expected + 1, request.id, request.revision, request.roots, Bindings(config, host, request.roots))
  }

  predicate Answers(selection: Option<Selection>, request: Request) {
    && selection.Some?
    && selection.value.id == request.id && selection.value.version == request.expected + 1
    && selection.value.revision == request.revision && selection.value.roots == request.roots
  }

  /** The roots a report may return as effective; without a selection the static ones. */
  predicate Effective(config: Config, host: HostApproval, selection: Option<Selection>, root: Path) {
    && root in (if selection.Some? then selection.value.roots else config.staticRoots)
    && !Sensitive(host, root)
    && WithinMaximum(config, host, root)
    && (selection.Some? ==>
          && root in selection.value.bindings
          && RootEpoch(config, host, root) == Some(selection.value.bindings[root]))
  }

  /** Bound to a committed policy, root by root. */
  ghost predicate Bound(config: Config, log: seq<HostApproval>, selection: Option<Selection>) {
    selection.Some? ==>
      && 0 < selection.value.version
      && exists i :: 0 <= i < |log| && RevisionOf(config, log[i]) == selection.value.revision
                  && selection.value.bindings == Bindings(config, log[i], selection.value.roots)
  }

  /** A root within the maximum always has an epoch, so binding never fails for it. */
  lemma MaximumHasEpoch(config: Config, host: HostApproval, root: Path)
    requires Readable(config, host) && WithinMaximum(config, host, root)
    ensures RootEpoch(config, host, root).Some?
  {
    hide Nonoverlapping, NewRootAllowed, Lexical, RequestId, Within;
    var parent :| parent in Maximum(config, host) && Within(parent, root);
    GrantListAt(config, host);
  }

  /** What apply writes, the reader accepts with the same meaning. */
  lemma TargetIsReadable(config: Config, host: HostApproval, request: Request)
    requires ConfigValid(config) && Readable(config, host) && Selectable(config, host, request)
    ensures SelectionReadable(config, Target(config, host, request))
    ensures Answers(Some(Target(config, host, request)), request)
    ensures forall root <- request.roots :: Effective(config, host, Some(Target(config, host, request)), root)
  {
    hide Nonoverlapping, ContainsPrivateDirectory, RequestId, RevisionOf, Within, Lexical, RootEpoch, WithinMaximum,
         NewSourceRootAllowed;
    var bindings := Bindings(config, host, request.roots);
    forall root <- request.roots ensures RootEpoch(config, host, root).Some? {
      MaximumHasEpoch(config, host, root);
    }
    assert bindings.Keys == Elements(request.roots);
    NonoverlappingCount(request.roots);
    assert |bindings| == |bindings.Keys|;
    forall root <- request.roots | root in host.roots ensures NewSourceRootAllowed(root) {
      GrantListAt(config, host);
    }
  }

  /** An effective root was bound to a grant that has been in every policy committed
      between the one it was bound under and the one the report read. */
  lemma EffectiveRootKeptItsGrant(
    config: Config, log: seq<HostApproval>, j: nat, selection: Selection, root: Path) returns (i: nat, grant: Grant)
    requires ConfigValid(config) && Chain(config, log) && j < |log|
    requires Bound(config, log, Some(selection)) && Effective(config, log[j], Some(selection), root)
    ensures i < |log| && RevisionOf(config, log[i]) == selection.revision
    ensures Within(grant.parent, root) && Epoch(grant, selection.bindings[root])
    ensures forall k :: i <= k <= j || j <= k <= i ==> HasGrant(config, log[k], grant)
  {
    hide Chain, ConfigValid, HasGrant, RevisionOf, Within, WithinMaximum, ContainsPrivateDirectory;
    i :| 0 <= i < |log| && RevisionOf(config, log[i]) == selection.revision
         && selection.bindings == Bindings(config, log[i], selection.roots);
    assert RootEpoch(config, log[i], root) == Some(selection.bindings[root]);
    grant := GrantFor(config, log[i], root).value;
    GrantForIsHeld(config, log[i], root);
    if i <= j {
      EqualEpochsMeanOneGrant(config, log, i, j, root);
    } else {
      EqualEpochsMeanOneGrant(config, log, j, i, root);
    }
  }
}
