/**
  The host approval file: what the reader accepts, and what the two writers produce
  (agent/src/sourceAccessPolicy.ts:620-775, 836-855, 1308-1340, 1370-1419).
  Hashes are injective, so a revision is the tuple that the source hashes.
 */
module HostPolicy {
  import opened Text
  import opened SourcePaths

  const MAX_SAFE: nat := 9007199254740991

  /** Fixed local configuration. Static roots are listed once each. */
  datatype Config = Config(dataDir: Path, staticRoots: seq<Path>)

  datatype Mode = HostApproved | ServerManaged

  datatype HostApproval = HostApproval(
    version2: bool, hostVersion: nat, roots: seq<Path>, rootVersions: map<Path, nat>,
    mode: Mode, delegated: seq<Path>, delegatedVersions: map<Path, nat>, lastSetup: string)

  /** The meaning of a missing file. */
  const NOTHING := HostApproval(false, 0, [], map[], HostApproved, [], map[], "")

  datatype Extension = Extension(mode: Mode, delegated: seq<Path>, delegatedVersions: map<Path, nat>, lastSetup: string)

  datatype Revision = Revision(
    hostVersion: nat, allowed: set<Path>, rootVersions: map<Path, nat>, extension: Option<Extension>)

  ghost predicate ConfigValid(config: Config) {
    && (forall root <- config.staticRoots :: Lexical(root))
    && |Elements(config.staticRoots)| == |config.staticRoots|
    && config.dataDir != ""
  }

  /** Everything that may be selected from: static, approved and delegated roots. */
  function Maximum(config: Config, host: HostApproval): set<Path> {
    Elements(config.staticRoots) + Elements(host.roots)
    + if host.mode == ServerManaged then Elements(host.delegated) else {}
  }

  function RevisionOf(config: Config, host: HostApproval): Revision {
    Revision(host.hostVersion, Maximum(config, host), host.rootVersions,
             if host.version2
             then Some(Extension(host.mode, host.delegated, host.delegatedVersions, host.lastSetup))
             else None)
  }

  predicate RequestId(id: string) {
    8 <= |id| <= 128 && forall c <- id :: 'a' <= c <= 'z' || 'A' <= c <= 'Z' || '0' <= c <= '9' || c == '_' || c == '-'
  }

  predicate EpochsMatch(roots: seq<Path>, epochs: map<Path, nat>, hostVersion: nat) {
    |epochs| == |roots| && forall root <- roots :: root in epochs && 0 < epochs[root] <= hostVersion
  }

  /** One list of roots with the version each was granted at. */
  predicate GrantList(config: Config, roots: seq<Path>, epochs: map<Path, nat>, hostVersion: nat) {
    && ValidRoots(roots) && Nonoverlapping(roots)
    && (forall root <- roots :: NewRootAllowed(config.dataDir, root))
    && EpochsMatch(roots, epochs, hostVersion)
  }

  predicate NoPrivate(roots: seq<Path>) { forall root <- roots :: !ContainsPrivateDirectory(root) }

  /** The reader's checks on a file that exists, but for the limit on all roots. */
  predicate WellFormed(config: Config, host: HostApproval) {
    && 0 < host.hostVersion <= MAX_SAFE
    && GrantList(config, host.roots, host.rootVersions, host.hostVersion)
    && if host.version2 then
         && RequestId(host.lastSetup)
         && GrantList(config, host.delegated, host.delegatedVersions, host.hostVersion)
         && NoPrivate(host.delegated)
         && (host.mode == ServerManaged <==> host.delegated != [])
       else
         host.mode == HostApproved && host.delegated == [] && host.delegatedVersions == map[] && host.lastSetup == ""
  }

  predicate WithinLimit(config: Config, host: HostApproval) { |Maximum(config, host)| <= MAX_ROOTS }

  predicate Readable(config: Config, host: HostApproval) {
    (host == NOTHING || WellFormed(config, host)) && WithinLimit(config, host)
  }

  // ---- writers ----

  /** A drain receipt's content: what the server asked the operator to set up. */
  datatype Setup = Setup(id: string, mode: Mode, roots: seq<Path>, expected: Revision, expectedVersion: nat)

  datatype Change = Approve(roots: seq<Path>) | Revoke(roots: seq<Path>) | Delegate(setup: Setup)

  predicate Less(a: string, b: string) {
    b != "" && (a == "" || a[0] < b[0] || (a[0] == b[0] && Less(a[1..], b[1..])))
  }

  function Insert(root: Path, sorted: seq<Path>): (longer: seq<Path>)
    ensures |longer| == |sorted| + 1
    ensures multiset(longer) == multiset{root} + multiset(sorted)
  {
    if sorted == [] || Less(root, sorted[0]) then
      assert multiset([root] + sorted) == multiset{root} + multiset(sorted);
      [root] + sorted
    else
      assert sorted == [sorted[0]] + sorted[1..];
      [sorted[0]] + Insert(root, sorted[1..])
  }

  /** Listed once each, in order. */
  function Sorted(roots: seq<Path>): (sorted: seq<Path>)
    ensures Elements(sorted) == Elements(roots)
    ensures |sorted| <= |roots|
  {
    if roots == [] then []
    else
      var rest := Sorted(roots[1..]);
      assert Elements(roots) == {roots[0]} + Elements(roots[1..]);
      if roots[0] in Elements(rest) then rest else InsertKeeps(roots[0], rest); Insert(roots[0], rest)
  }

  lemma InsertKeeps(root: Path, sorted: seq<Path>)
    ensures Elements(Insert(root, sorted)) == {root} + Elements(sorted)
  {
    forall other ensures other in Insert(root, sorted) <==> other == root || other in sorted {
      assert other in Insert(root, sorted) <==> other in multiset(Insert(root, sorted));
      assert other in sorted <==> other in multiset(sorted);
    }
  }

  function Without(roots: seq<Path>, removed: seq<Path>): (kept: seq<Path>)
    ensures |kept| <= |roots|
    ensures forall root :: root in kept <==> root in roots && root !in removed
  {
    if roots == [] then []
    else (if roots[0] in removed then [] else [roots[0]]) + Without(roots[1..], removed)
  }

  function NewRoots(host: HostApproval, change: Change): seq<Path> {
    match change
    case Approve(roots) => Sorted(host.roots + roots)
    case Revoke(roots) => Without(host.roots, roots)
    case Delegate(_) => host.roots
  }

  function Next(host: HostApproval, change: Change): HostApproval {
    var version := host.hostVersion + 1;
    if change.Delegate? then
      var setup := change.setup;
      host.(version2 := true, hostVersion := version, mode := setup.mode, delegated := setup.roots,
            delegatedVersions := map root | root in setup.roots :: version, lastSetup := setup.id)
    else
      var roots := NewRoots(host, change);
      host.(hostVersion := version, roots := roots,
            rootVersions := map root | root in roots ::
              if root in host.rootVersions then host.rootVersions[root] else version)
  }

  /** The writers' checks on top of a readable current policy; that every directory
      resolves to itself is left to the file system. */
  predicate Allowed(config: Config, host: HostApproval, change: Change) {
    && host.hostVersion < MAX_SAFE
    && match change
       case Approve(roots) =>
         && roots != [] && ValidRoots(roots) && Nonoverlapping(roots)
         && (forall root <- roots :: NewRootAllowed(config.dataDir, root))
         && Nonoverlapping(NewRoots(host, change))
         && (forall root <- roots, parent <- config.staticRoots :: !Within(parent, root))
         && |NewRoots(host, change)| + |config.staticRoots| <= MAX_ROOTS
       case Revoke(roots) =>
         && roots != [] && ValidRoots(roots) && Nonoverlapping(roots)
         && (forall root <- roots :: NewRootAllowed(config.dataDir, root) && root in host.roots)
         && |NewRoots(host, change)| + |config.staticRoots| <= MAX_ROOTS
       case Delegate(setup) =>
         && RequestId(setup.id)
         && ValidRoots(setup.roots) && Nonoverlapping(setup.roots)
         && (setup.mode == ServerManaged <==> setup.roots != [])
         && (forall root <- setup.roots :: NewRootAllowed(config.dataDir, root))
         && NoPrivate(setup.roots)
         && |Elements(config.staticRoots) + Elements(host.roots) + Elements(setup.roots)| <= MAX_ROOTS
         && setup.expected == RevisionOf(config, host)
  }

  lemma MapSize(roots: seq<Path>, epochs: map<Path, nat>)
    requires Nonoverlapping(roots) && epochs.Keys == Elements(roots)
    ensures |epochs| == |roots|
  {
    NonoverlappingCount(roots);
    assert |epochs| == |epochs.Keys|;
  }

  lemma {:induction false} WithoutKeepsApart(roots: seq<Path>, removed: seq<Path>)
    requires Nonoverlapping(roots)
    ensures Nonoverlapping(Without(roots, removed))
  {
    if roots != [] {
      var rest := roots[1..];
      assert forall i :: 0 <= i < |rest| ==> rest[i] == roots[i + 1];
      WithoutKeepsApart(rest, removed);
      var kept := Without(rest, removed);
      forall other <- kept ensures !Within(roots[0], other) && !Within(other, roots[0]) {
        var i :| 0 <= i < |rest| && rest[i] == other;
        assert roots[i + 1] == other;
      }
    }
  }

  /** Lists of roots that are granted now, or kept from before with their version. */
  lemma NewGrantList(
    config: Config, former: seq<Path>, epochs: map<Path, nat>, version: nat, roots: seq<Path>, renewed: map<Path, nat>)
    requires GrantList(config, former, epochs, version)
    requires ValidRoots(roots) && Nonoverlapping(roots)
    requires forall root <- roots :: NewRootAllowed(config.dataDir, root)
    requires renewed.Keys == Elements(roots)
    requires forall root <- roots :: renewed[root] == version + 1 || (root in epochs && renewed[root] == epochs[root])
    ensures GrantList(config, roots, renewed, version + 1)
  {
    hide Nonoverlapping, Lexical, NewRootAllowed;
    MapSize(roots, renewed);
    CoveredKeys(former, epochs);
    assert forall root <- roots :: 0 < renewed[root] <= version + 1;
  }

  lemma FreshGrantList(config: Config, roots: seq<Path>, epochs: map<Path, nat>, version: nat)
    requires ValidRoots(roots) && Nonoverlapping(roots) && 0 < version
    requires forall root <- roots :: NewRootAllowed(config.dataDir, root)
    requires forall root :: root in epochs <==> root in roots
    requires forall root <- roots :: epochs[root] == version
    ensures GrantList(config, roots, epochs, version)
  {
    hide Nonoverlapping, Lexical, NewRootAllowed;
    assert epochs.Keys == Elements(roots);
    MapSize(roots, epochs);
  }

  lemma CoveredKeys(roots: seq<Path>, epochs: map<Path, nat>)
    requires Nonoverlapping(roots) && |epochs| == |roots| && forall root <- roots :: root in epochs
    ensures epochs.Keys == Elements(roots)
  {
    NonoverlappingCount(roots);
    assert Elements(roots) <= epochs.Keys;
    SameSize(Elements(roots), epochs.Keys);
  }

  lemma SameSize(a: set<Path>, b: set<Path>)
    requires a <= b && |a| == |b|
    ensures a == b
  {
    assert b == a + (b - a);
    assert |b - a| == 0;
  }

  lemma GrantListAt(config: Config, host: HostApproval)
    requires Readable(config, host)
    ensures GrantList(config, host.roots, host.rootVersions, host.hostVersion)
    ensures GrantList(config, [], map[], host.hostVersion)
  {
  }

  lemma DelegatedIsWellFormed(config: Config, host: HostApproval, change: Change)
    requires Readable(config, host) && Allowed(config, host, change) && change.Delegate?
    ensures WellFormed(config, Next(host, change))
  {
    hide Lexical, NewRootAllowed, RequestId, RevisionOf, GrantList, Maximum, Nonoverlapping, ValidRoots, NoPrivate,
         NewRoots;
    GrantListAt(config, host);
    FreshGrantList(config, change.setup.roots, Next(host, change).delegatedVersions, host.hostVersion + 1);
    KeepGrantList(config, host.roots, host.rootVersions, host.hostVersion);
  }

  lemma ChangedRootsAreListed(config: Config, host: HostApproval, change: Change)
    requires Readable(config, host) && Allowed(config, host, change) && !change.Delegate?
    ensures var next := Next(host, change); GrantList(config, next.roots, next.rootVersions, next.hostVersion)
  {
    hide Lexical, NewRootAllowed, RequestId, GrantList, Maximum, Nonoverlapping, NewRoots;
    var next := Next(host, change);
    GrantListAt(config, host);
    NewRootsAreListed(config, host, change);
    assert next.rootVersions.Keys == Elements(next.roots);
    NewGrantList(config, host.roots, host.rootVersions, host.hostVersion, next.roots, next.rootVersions);
  }

  /** Whatever a writer writes, the reader accepts, up to its limit on all roots. */
  lemma WrittenIsWellFormed(config: Config, host: HostApproval, change: Change)
    requires Readable(config, host) && Allowed(config, host, change)
    ensures WellFormed(config, Next(host, change))
  {
    if change.Delegate? {
      DelegatedIsWellFormed(config, host, change);
    } else {
      ChangedRootsAreListed(config, host, change);
      hide Lexical, NewRootAllowed, RequestId, GrantList, Maximum, Nonoverlapping, NewRoots, NoPrivate, ValidRoots;
      if host.version2 {
        KeepGrantList(config, host.delegated, host.delegatedVersions, host.hostVersion);
      }
    }
  }

  lemma KeepGrantList(config: Config, roots: seq<Path>, epochs: map<Path, nat>, version: nat)
    requires GrantList(config, roots, epochs, version)
    ensures GrantList(config, roots, epochs, version + 1)
  {
  }

  lemma NewRootsAreListed(config: Config, host: HostApproval, change: Change)
    requires !change.Delegate? && Allowed(config, host, change)
    requires GrantList(config, host.roots, host.rootVersions, host.hostVersion)
    ensures ValidRoots(NewRoots(host, change)) && Nonoverlapping(NewRoots(host, change))
    ensures forall root <- NewRoots(host, change) :: NewRootAllowed(config.dataDir, root)
  {
    hide Lexical, NewRootAllowed;
    var roots := NewRoots(host, change);
    assert forall root <- roots :: root in Elements(roots);
    if change.Revoke? {
      WithoutKeepsApart(host.roots, change.roots);
    } else {
      assert forall root :: root in Elements(host.roots + change.roots) ==> root in host.roots || root in change.roots;
    }
  }

  /** Revoking and changing the mode always leave a file the reader accepts. */
  lemma RevokeAndDelegateAreReadable(config: Config, host: HostApproval, change: Change)
    requires ConfigValid(config) && Readable(config, host) && Allowed(config, host, change)
    requires !change.Approve?
    ensures Readable(config, Next(host, change))
  {
    var next := Next(host, change);
    WrittenIsWellFormed(config, host, change);
    if change.Revoke? {
      SubsetSize(Maximum(config, next), Maximum(config, host));
    } else {
      SubsetSize(Maximum(config, next),
                 Elements(config.staticRoots) + Elements(host.roots) + Elements(change.setup.roots));
    }
  }

  lemma {:induction false} SubsetSize(a: set<Path>, b: set<Path>)
    requires a <= b
    ensures |a| <= |b|
  {
    assert b == a + (b - a);
  }

  /** The approval writer does not count delegated roots, the reader does: an approval is
      readable afterwards exactly when all roots together stay within the limit, which is
      always so while nothing is delegated. */
  lemma ApproveIsReadable(config: Config, host: HostApproval, roots: seq<Path>)
    requires ConfigValid(config) && Readable(config, host) && Allowed(config, host, Approve(roots))
    ensures Readable(config, Next(host, Approve(roots)))
       <==> |Elements(config.staticRoots) + Elements(host.roots + roots) + Elements(host.delegated)| <= MAX_ROOTS
    ensures host.delegated == [] ==> Readable(config, Next(host, Approve(roots)))
  {
    var next := Next(host, Approve(roots));
    WrittenIsWellFormed(config, host, Approve(roots));
    hide Allowed, Readable, ConfigValid;
    ApprovedMaximum(config, host, roots);
    UnionSize(Elements(config.staticRoots), Elements(next.roots));
  }

  lemma ApprovedMaximum(config: Config, host: HostApproval, roots: seq<Path>)
    requires Readable(config, host)
    requires Nonoverlapping(Next(host, Approve(roots)).roots)
    ensures Maximum(config, Next(host, Approve(roots)))
         == Elements(config.staticRoots) + Elements(host.roots + roots) + Elements(host.delegated)
    ensures |Elements(Next(host, Approve(roots)).roots)| == |Next(host, Approve(roots)).roots|
  {
    hide GrantList;
    NonoverlappingCount(Next(host, Approve(roots)).roots);
  }

  lemma UnionSize(a: set<Path>, b: set<Path>)
    ensures |a + b| <= |a| + |b|
  {
    assert a + b == a + (b - a);
    SubsetSize(b - a, b);
  }

  function ShortRoot(n: nat): Path
    requires n < 33
  {
    ['/', ('0' as int + n) as char]
  }

  lemma ShortRootIsFine(n: nat)
    requires n < 33
    ensures Lexical(ShortRoot(n)) && NewRootAllowed("/data", ShortRoot(n)) && !ContainsPrivateDirectory(ShortRoot(n))
  {
    var root := ShortRoot(n);
    var name := root[1..];
    SplitOfPlain(name, '/');
    SplitOfConcat("", name, '/');
    assert root == "" + ['/'] + name && Split("", '/') == [""];
    assert Split(root, '/') == ["", name] && |name| == 1;
    assert Units(root) == Units(root[..1]) + Units(root[1..]) <= 4 by {
      assert Units(root[1..]) == 1 + Units(root[2..]);
    }
    assert forall tree <- DENIED_TREES :: |tree| >= 4;
    assert root !in DENIED_ROOTS by {
      assert forall other <- DENIED_ROOTS :: |other| != 2;
    }
    assert "/data"[2] == 'a';
    assert (root + "/")[2] != "/data"[2];
  }

  const SMALL := Config("/data", [])
  const SHORT_ROOTS: seq<Path> := seq(33, n requires 0 <= n < 33 => ShortRoot(n))
  const FULL := Setup("setup-01", ServerManaged, SHORT_ROOTS[..32], RevisionOf(SMALL, NOTHING), 0)
  const ONE_MORE: seq<Path> := [SHORT_ROOTS[32]]

  lemma ShortRootsAreFine()
    ensures Nonoverlapping(SHORT_ROOTS)
    ensures forall root <- SHORT_ROOTS ::
              Lexical(root) && NewRootAllowed("/data", root) && !ContainsPrivateDirectory(root)
  {
    forall n | 0 <= n < 33
      ensures Lexical(SHORT_ROOTS[n]) && NewRootAllowed("/data", SHORT_ROOTS[n])
      ensures !ContainsPrivateDirectory(SHORT_ROOTS[n])
    {
      ShortRootIsFine(n);
    }
    forall i, j | 0 <= i < 33 && 0 <= j < 33 && i != j ensures !Within(SHORT_ROOTS[j], SHORT_ROOTS[i]) {
      assert SHORT_ROOTS[i][1] != SHORT_ROOTS[j][1];
    }
  }

  lemma FullDelegationIsAllowed()
    ensures ConfigValid(SMALL) && Readable(SMALL, NOTHING) && Allowed(SMALL, NOTHING, Delegate(FULL))
  {
    hide Lexical, NewRootAllowed, ContainsPrivateDirectory, Within;
    ShortRootsAreFine();
    assert forall root <- FULL.roots :: root in SHORT_ROOTS;
    NonoverlappingCount(FULL.roots);
    assert Elements([]) == {};
    assert Elements(SMALL.staticRoots) + Elements(NOTHING.roots) + Elements(FULL.roots) == Elements(FULL.roots);
    assert Maximum(SMALL, NOTHING) == {};
  }

  lemma OneMoreIsAllowed(host: HostApproval)
    requires host.roots == [] && host.hostVersion < MAX_SAFE
    ensures Allowed(SMALL, host, Approve(ONE_MORE))
    ensures NewRoots(host, Approve(ONE_MORE)) == ONE_MORE
  {
    hide Lexical, NewRootAllowed, ContainsPrivateDirectory, Within;
    ShortRootsAreFine();
    assert forall root <- ONE_MORE :: root == SHORT_ROOTS[32] && root in SHORT_ROOTS;
    assert [] + ONE_MORE == ONE_MORE;
    assert Sorted(ONE_MORE) == ONE_MORE by {
      assert ONE_MORE[1..] == [] && Sorted([]) == [] && Elements([]) == {};
    }
  }

  lemma OneTooMany()
    ensures |Elements(SMALL.staticRoots) + Elements(NOTHING.roots + ONE_MORE) + Elements(FULL.roots)| == 33
  {
    hide Lexical, NewRootAllowed, ContainsPrivateDirectory, Within, Nonoverlapping;
    ShortRootsAreFine();
    NonoverlappingCount(SHORT_ROOTS);
    assert NOTHING.roots + ONE_MORE == ONE_MORE && SHORT_ROOTS == FULL.roots + ONE_MORE;
    assert Elements(SHORT_ROOTS) == Elements(SMALL.staticRoots) + Elements(ONE_MORE) + Elements(FULL.roots);
  }

  const DELEGATED_HOST := Next(NOTHING, Delegate(FULL))

  /** A full delegation and one approval on top: accepted by the writer, and refused by
      every later read. */
  lemma ApprovalPastTheLimit()
    ensures Readable(SMALL, DELEGATED_HOST) && Allowed(SMALL, DELEGATED_HOST, Approve(ONE_MORE))
    ensures !Readable(SMALL, Next(DELEGATED_HOST, Approve(ONE_MORE)))
  {
    FullDelegationIsAllowed();
    RevokeAndDelegateAreReadable(SMALL, NOTHING, Delegate(FULL));
    OneMoreIsAllowed(DELEGATED_HOST);
    assert DELEGATED_HOST.roots == NOTHING.roots && DELEGATED_HOST.delegated == FULL.roots;
    hide Lexical, NewRootAllowed, ContainsPrivateDirectory, Within, Allowed, Readable, Sorted, Next;
    ApproveIsReadable(SMALL, DELEGATED_HOST, ONE_MORE);
    OneTooMany();
  }
}
