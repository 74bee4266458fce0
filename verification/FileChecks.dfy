/**
  What the readers of host policy and selection accept, told by the contents of the files
  instead of the readers' counting (agent/src/sourceAccessPolicy.ts:656-755, 777-834).
 */
module FileChecks {
  import opened Text
  import opened SourcePaths
  import opened RootPaths
  import opened HostPolicy
  import opened HostChanges
  import opened Selections

  predicate IdChar(c: char) { 'a' <= c <= 'z' || 'A' <= c <= 'Z' || '0' <= c <= '9' || c == '_' || c == '-' }

  predicate Id(id: string) { 8 <= |id| <= 128 && forall c <- id :: IdChar(c) }

  /** At most 32 roots in the accepted spelling, none under another. */
  predicate RootList(roots: seq<Path>) {
    && |roots| <= 32 && (forall root <- roots :: Spelled(root))
    && forall i, j :: 0 <= i < j < |roots| ==> !Within(roots[i], roots[j]) && !Within(roots[j], roots[i])
  }

  /** A version for each root and no other, none later than the file's. */
  predicate VersionsOf(roots: seq<Path>, versions: map<Path, nat>, hostVersion: nat) {
    versions.Keys == (set root | root in roots) && forall root <- versions :: 1 <= versions[root] <= hostVersion
  }

  predicate NewRoot(config: Config, root: Path) {
    && root !in DENIED_ROOTS && (forall tree <- DENIED_TREES :: !Within(tree, root))
    && !Within(config.dataDir, root) && !Within(root, config.dataDir)
  }

  lemma RootListIs(roots: seq<Path>)
    ensures RootList(roots) <==> ValidRoots(roots) && Nonoverlapping(roots)
  {
    forall root <- roots ensures Spelled(root) <==> Lexical(root) {
      LexicalIsSpelled(root);
    }
    hide Spelled, Lexical, Within;
  }

  lemma VersionsAre(roots: seq<Path>, versions: map<Path, nat>, hostVersion: nat)
    requires Nonoverlapping(roots)
    ensures VersionsOf(roots, versions, hostVersion) <==> EpochsMatch(roots, versions, hostVersion)
  {
    assert Elements(roots) == set root | root in roots;
    if EpochsMatch(roots, versions, hostVersion) {
      CoveredKeys(roots, versions);
      hide Nonoverlapping;
      assert forall root <- versions :: root in versions.Keys && root in roots;
    }
    if VersionsOf(roots, versions, hostVersion) {
      MapSize(roots, versions);
      hide Nonoverlapping;
      assert forall root <- roots :: root in versions.Keys;
    }
  }

  /** One list of granted roots. */
  predicate Granted(config: Config, roots: seq<Path>, versions: map<Path, nat>, hostVersion: nat) {
    RootList(roots) && (forall root <- roots :: NewRoot(config, root)) && VersionsOf(roots, versions, hostVersion)
  }

  lemma GrantedIs(config: Config, roots: seq<Path>, versions: map<Path, nat>, hostVersion: nat)
    ensures Granted(config, roots, versions, hostVersion) <==> GrantList(config, roots, versions, hostVersion)
  {
    RootListIs(roots);
    if Nonoverlapping(roots) {
      VersionsAre(roots, versions, hostVersion);
    }
    assert forall root <- roots :: NewRoot(config, root) <==> NewRootAllowed(config.dataDir, root);
    hide NewRoot, NewRootAllowed, RootList, VersionsOf, EpochsMatch, ValidRoots, Nonoverlapping;
  }

  lemma IdIs(id: string)
    ensures Id(id) <==> RequestId(id)
  {
  }

  predicate NothingPrivate(roots: seq<Path>) {
    forall root <- roots, part <- {".ssh", ".aws", ".gnupg", ".kube"} :: part !in Split(root, '/')
  }

  lemma NothingPrivateIs(roots: seq<Path>)
    ensures NothingPrivate(roots) <==> NoPrivate(roots)
  {
    hide Split;
  }

  /** A host policy is accepted exactly when its version is a positive safe integer, its
      approved roots and their versions fit, and the rest is absent in the first format, or in
      the second names its last setup, its mode and the delegated roots that go with it. */
  lemma HostPolicyIsReadExactly(config: Config, host: HostApproval)
    ensures WellFormed(config, host)
       <==> && 1 <= host.hostVersion <= 9007199254740991
            && Granted(config, host.roots, host.rootVersions, host.hostVersion)
            && (if host.version2
                then && Id(host.lastSetup) && Granted(config, host.delegated, host.delegatedVersions, host.hostVersion)
                     && NothingPrivate(host.delegated)
                     && (host.mode == ServerManaged ==> host.delegated != [])
                     && (host.mode == HostApproved ==> host.delegated == [])
                else host == HostApproval(false, host.hostVersion, host.roots, host.rootVersions, HostApproved, [],
                                          map[], ""))
  {
    GrantedIs(config, host.roots, host.rootVersions, host.hostVersion);
    GrantedIs(config, host.delegated, host.delegatedVersions, host.hostVersion);
    IdIs(host.lastSetup);
    NothingPrivateIs(host.delegated);
    hide GrantList, Granted, RequestId, Id, NoPrivate, NothingPrivate;
  }

  /** A mode setup is allowed exactly when it has a request id and was prepared for the current
      policy, its roots are public new ones apart from each other, some exactly under server
      management, and static, approved and delegated roots together are at most 32. */
  lemma SetupIsAllowedExactly(config: Config, host: HostApproval, setup: Setup)
    ensures Allowed(config, host, Delegate(setup))
       <==> && host.hostVersion < 9007199254740991 && Id(setup.id) && setup.expected == RevisionOf(config, host)
            && RootList(setup.roots) && (forall root <- setup.roots :: NewRoot(config, root))
            && NothingPrivate(setup.roots) && (setup.mode == ServerManaged <==> |setup.roots| > 0)
            && |(set root | root in config.staticRoots + host.roots + setup.roots)| <= 32
  {
    RootListIs(setup.roots);
    IdIs(setup.id);
    NothingPrivateIs(setup.roots);
    assert Elements(config.staticRoots) + Elements(host.roots) + Elements(setup.roots)
        == set root | root in config.staticRoots + host.roots + setup.roots;
    assert forall root <- setup.roots :: NewRoot(config, root) <==> NewRootAllowed(config.dataDir, root);
    hide RequestId, Id, RootList, ValidRoots, Nonoverlapping, NoPrivate, NothingPrivate, NewRoot, NewRootAllowed,
         RevisionOf, NewRoots;
  }

  /** A selection is accepted exactly when its version is a positive safe integer, its request
      has a name, its roots are such as may be selected or are static, and each of them, and
      nothing else, has an epoch. */
  lemma SelectionIsReadExactly(config: Config, selection: Selection)
    ensures SelectionReadable(config, selection)
       <==> && 1 <= selection.version <= 9007199254740991 && Id(selection.id) && RootList(selection.roots)
            && (forall root <- selection.roots :: root in config.staticRoots
                  || (root !in DENIED_ROOTS && forall tree <- DENIED_TREES :: !Within(tree, root)))
            && selection.bindings.Keys == (set root | root in selection.roots)
  {
    RootListIs(selection.roots);
    IdIs(selection.id);
    assert Elements(selection.roots) == set root | root in selection.roots;
    if Nonoverlapping(selection.roots) {
      BindingsAre(selection);
    }
    hide RequestId, Id, RootList, ValidRoots, Nonoverlapping, Within;
  }

  lemma BindingsAre(selection: Selection)
    requires Nonoverlapping(selection.roots)
    ensures selection.bindings.Keys == Elements(selection.roots)
       <==> |selection.bindings| == |selection.roots| && forall root <- selection.roots :: root in selection.bindings
  {
    if |selection.bindings| == |selection.roots| && forall root <- selection.roots :: root in selection.bindings {
      CoveredKeys(selection.roots, selection.bindings);
    }
    if selection.bindings.Keys == Elements(selection.roots) {
      MapSize(selection.roots, selection.bindings);
      hide Nonoverlapping;
      assert forall root <- selection.roots :: root in selection.bindings.Keys;
    }
  }
}
