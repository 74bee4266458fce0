/**
  What each write of the host policy does to the roots, their epochs and the grants, and
  which writes must be allowed (agent/src/sourceAccessPolicy.ts:656-775, 1308-1340, 1370-1419).
 */
module HostChanges {
  import opened Text
  import opened SourcePaths
  import opened HostPolicy
  import opened HostLog

  /** A policy as the reader accepts it, but for the limit on all roots. */
  predicate Sound(config: Config, host: HostApproval) { host == NOTHING || WellFormed(config, host) }

  lemma SoundLists(config: Config, host: HostApproval)
    requires Sound(config, host)
    ensures GrantList(config, host.roots, host.rootVersions, host.hostVersion)
    ensures GrantList(config, host.delegated, host.delegatedVersions, host.hostVersion)
    ensures host.rootVersions.Keys == Elements(host.roots)
    ensures host.delegatedVersions.Keys == Elements(host.delegated)
  {
    assert Nonoverlapping([]) && ValidRoots([]);
    hide Lexical, NewRootAllowed, Nonoverlapping, ContainsPrivateDirectory, RequestId, ValidRoots;
    CoveredKeys(host.roots, host.rootVersions);
    CoveredKeys(host.delegated, host.delegatedVersions);
  }

  lemma RootsHaveVersions(config: Config, host: HostApproval)
    requires Sound(config, host)
    ensures forall root :: root in host.rootVersions <==> root in host.roots
  {
    SoundLists(config, host);
    hide Sound, GrantList;
    forall root ensures root in host.rootVersions <==> root in host.roots {
      assert root in host.rootVersions <==> root in Elements(host.roots);
    }
  }

  // ---- roots and epochs ----

  lemma VersionsAfter(host: HostApproval, change: Change)
    requires !change.Delegate?
    ensures var next := Next(host, change);
            && next.roots == NewRoots(host, change) && next.rootVersions.Keys == Elements(next.roots)
            && (forall root <- next.roots :: next.rootVersions[root]
                  == if root in host.rootVersions then host.rootVersions[root] else host.hostVersion + 1)
            && next == host.(hostVersion := host.hostVersion + 1, roots := next.roots,
                             rootVersions := next.rootVersions)
  {
    hide NewRoots;
  }

  lemma RootsAfterRevoke(host: HostApproval, roots: seq<Path>, root: Path)
    ensures root in NewRoots(host, Revoke(roots)) <==> root in host.roots && root !in roots
  {
    hide Without;
  }

  lemma RootsAfterApprove(host: HostApproval, roots: seq<Path>, root: Path)
    ensures root in NewRoots(host, Approve(roots)) <==> root in host.roots || root in roots
  {
    hide Sorted;
    assert root in NewRoots(host, Approve(roots)) <==> root in Elements(Sorted(host.roots + roots));
  }

  /** A revocation takes away the roots it names, all of them and no other; what stays
      keeps its epoch. */
  lemma RevokeRemovesExactly(config: Config, host: HostApproval, roots: seq<Path>)
    requires Sound(config, host)
    ensures var next := Next(host, Revoke(roots));
            && (forall root :: root in next.roots <==> root in host.roots && root !in roots)
            && next.rootVersions.Keys == Elements(next.roots)
            && (forall root <- next.roots ::
                  root in host.rootVersions && next.rootVersions[root] == host.rootVersions[root])
            && next == host.(hostVersion := host.hostVersion + 1, roots := next.roots,
                             rootVersions := next.rootVersions)
  {
    RootsHaveVersions(config, host);
    VersionsAfter(host, Revoke(roots));
    hide Sound, NewRoots, Next;
    forall root ensures root in NewRoots(host, Revoke(roots)) <==> root in host.roots && root !in roots {
      RootsAfterRevoke(host, roots, root);
    }
  }

  /** An approval adds the roots it names, all of them and no other, each new one under the
      version of this write; what was there keeps its epoch. */
  lemma ApproveAddsExactly(config: Config, host: HostApproval, roots: seq<Path>)
    requires Sound(config, host)
    ensures var next := Next(host, Approve(roots));
            && (forall root :: root in next.roots <==> root in host.roots || root in roots)
            && next.rootVersions.Keys == Elements(next.roots)
            && (forall root <- host.roots ::
                  root in host.rootVersions && next.rootVersions[root] == host.rootVersions[root])
            && (forall root <- roots :: root !in host.roots ==> next.rootVersions[root] == host.hostVersion + 1)
            && next == host.(hostVersion := host.hostVersion + 1, roots := next.roots,
                             rootVersions := next.rootVersions)
  {
    RootsHaveVersions(config, host);
    VersionsAfter(host, Approve(roots));
    hide Sound, NewRoots, Next;
    forall root ensures root in NewRoots(host, Approve(roots)) <==> root in host.roots || root in roots {
      RootsAfterApprove(host, roots, root);
    }
  }

  /** A mode change replaces mode and delegated roots, all under the version of this write,
      and touches no approved root. */
  lemma DelegateReplacesExactly(host: HostApproval, setup: Setup)
    ensures var next := Next(host, Delegate(setup));
            && next.mode == setup.mode && next.delegated == setup.roots && next.lastSetup == setup.id && next.version2
            && next.delegatedVersions.Keys == Elements(setup.roots)
            && (forall root <- setup.roots :: next.delegatedVersions[root] == host.hostVersion + 1)
            && next.hostVersion == host.hostVersion + 1
            && next.roots == host.roots && next.rootVersions == host.rootVersions
  {
  }

  // ---- grants ----

  /** A revocation ends the grants of its roots and no other. */
  lemma GrantsAfterRevoke(config: Config, host: HostApproval, roots: seq<Path>, grant: Grant)
    requires Sound(config, host)
    ensures HasGrant(config, Next(host, Revoke(roots)), grant)
       <==> HasGrant(config, host, grant) && !(grant.Approved? && grant.parent in roots)
  {
    RevokeRemovesExactly(config, host, roots);
    SoundLists(config, host);
    hide Sound, GrantList, Next;
    assert grant.parent in Next(host, Revoke(roots)).roots
       <==> grant.parent in Elements(Next(host, Revoke(roots)).roots);
  }

  /** An approval starts a grant for each of its roots that had none, and ends none. */
  lemma GrantsAfterApprove(config: Config, host: HostApproval, roots: seq<Path>, grant: Grant)
    requires Sound(config, host)
    ensures HasGrant(config, Next(host, Approve(roots)), grant)
       <==> || HasGrant(config, host, grant)
            || (grant.Approved? && grant.parent in roots && grant.parent !in host.roots
                && grant.epoch == host.hostVersion + 1)
  {
    ApproveAddsExactly(config, host, roots);
    SoundLists(config, host);
    hide Sound, GrantList, Next;
    assert grant.parent in Next(host, Approve(roots)).roots
       <==> grant.parent in Elements(Next(host, Approve(roots)).roots);
  }

  /** A mode change ends every delegation and starts those it names. */
  lemma GrantsAfterDelegate(config: Config, host: HostApproval, setup: Setup, grant: Grant)
    ensures HasGrant(config, Next(host, Delegate(setup)), grant)
       <==> if grant.Delegated? then
              setup.mode == ServerManaged && grant.parent in setup.roots && grant.epoch == host.hostVersion + 1
            else HasGrant(config, host, grant)
  {
  }

  // ---- the order of the written roots ----

  /** A proper beginning comes first, else the first character that differs decides. */
  lemma {:induction false} LessIsLexicographic(a: string, b: string)
    ensures Less(a, b)
       <==> (a <= b && a != b) || exists k :: 0 <= k < |a| && k < |b| && a[..k] == b[..k] && a[k] < b[k]
  {
    if a != "" && b != "" && a[0] == b[0] {
      LessIsLexicographic(a[1..], b[1..]);
      assert a == [a[0]] + a[1..] && b == [b[0]] + b[1..];
      if k :| 0 <= k < |a[1..]| && k < |b[1..]| && a[1..][..k] == b[1..][..k] && a[1..][k] < b[1..][k] {
        assert a[..k + 1] == [a[0]] + a[1..][..k] && b[..k + 1] == [b[0]] + b[1..][..k];
      }
      if k :| 0 <= k < |a| && k < |b| && a[..k] == b[..k] && a[k] < b[k] {
        assert a[1..][..k - 1] == a[..k][1..] && b[1..][..k - 1] == b[..k][1..];
      }
    } else if a != "" && b != "" && a[0] < b[0] {
      assert a[..0] == b[..0];
    } else if a != "" && b != "" {
      assert forall k :: 0 < k <= |a| && k <= |b| ==> a[..k][0] != b[..k][0];
    }
  }

  lemma {:induction false} LessIsTransitive(a: string, b: string, c: string)
    requires Less(a, b) && Less(b, c)
    ensures Less(a, c)
  {
    if a != "" && a[0] == b[0] == c[0] {
      LessIsTransitive(a[1..], b[1..], c[1..]);
    }
  }

  lemma {:induction false} LessIsTotal(a: string, b: string)
    ensures Less(a, b) || Less(b, a) || a == b
    ensures !(Less(a, b) && Less(b, a))
    ensures !Less(a, a)
  {
    if a != "" && b != "" {
      LessIsTotal(a[1..], b[1..]);
      assert a == [a[0]] + a[1..] && b == [b[0]] + b[1..];
    }
    if a != "" {
      LessIsTotal(a[1..], a[1..]);
    }
  }

  predicate Ascending(roots: seq<Path>) { forall i, j :: 0 <= i < j < |roots| ==> Less(roots[i], roots[j]) }

  lemma {:induction false} InsertAscends(root: Path, sorted: seq<Path>)
    requires Ascending(sorted) && root !in sorted
    ensures Ascending(Insert(root, sorted))
  {
    hide Less;
    if sorted == [] {
    } else if Less(root, sorted[0]) {
      forall j | 0 < j < |sorted| ensures Less(root, sorted[j]) {
        LessIsTransitive(root, sorted[0], sorted[j]);
      }
    } else {
      var rest := sorted[1..];
      LessIsTotal(root, sorted[0]);
      assert Ascending(rest) by { assert forall i :: 0 <= i < |rest| ==> rest[i] == sorted[i + 1]; }
      InsertAscends(root, rest);
      InsertKeeps(root, rest);
      var longer := Insert(root, rest);
      forall j | 0 <= j < |longer| ensures Less(sorted[0], longer[j]) {
        assert longer[j] in Elements(longer);
        if longer[j] != root {
          var i :| 0 <= i < |rest| && rest[i] == longer[j];
          assert sorted[i + 1] == rest[i];
        }
      }
    }
  }

  /** The written roots are in order, each once. */
  lemma {:induction false} SortedAscends(roots: seq<Path>)
    ensures Ascending(Sorted(roots))
  {
    if roots != [] {
      var rest := Sorted(roots[1..]);
      SortedAscends(roots[1..]);
      if roots[0] !in rest {
        assert roots[0] !in Elements(rest);
        hide Less, Insert;
        InsertAscends(roots[0], rest);
      }
    }
  }

  lemma AscendingHead(a: seq<Path>, b: seq<Path>)
    requires Ascending(a) && Ascending(b) && Elements(a) == Elements(b) && a != []
    ensures b != [] && a[0] == b[0] && Elements(a[1..]) == Elements(b[1..])
  {
    hide Less;
    assert a[0] in Elements(b);
    assert b[0] in Elements(a);
    var i :| 0 <= i < |b| && b[i] == a[0];
    var j :| 0 <= j < |a| && a[j] == b[0];
    LessIsTotal(a[0], b[0]);
    forall root ensures root in Elements(a[1..]) <==> root in Elements(b[1..]) {
      LessIsTotal(root, root);
      OnlyOnce(a, root);
      OnlyOnce(b, root);
    }
  }

  lemma OnlyOnce(sorted: seq<Path>, root: Path)
    requires Ascending(sorted) && sorted != []
    ensures root in Elements(sorted[1..]) <==> root in Elements(sorted) && root != sorted[0]
  {
    hide Less;
    assert sorted == [sorted[0]] + sorted[1..];
    if root in sorted[1..] {
      var i :| 0 <= i < |sorted[1..]| && sorted[1..][i] == root;
      assert sorted[i + 1] == root;
      LessIsTotal(root, root);
    }
  }

  lemma NoElements(roots: seq<Path>)
    ensures Elements(roots) == {} ==> roots == []
  {
    if roots != [] {
      assert roots[0] in Elements(roots);
    }
  }

  /** What is written depends on which roots there are, not on how they were listed. */
  lemma {:induction false} AscendingIsUnique(a: seq<Path>, b: seq<Path>)
    requires Ascending(a) && Ascending(b) && Elements(a) == Elements(b)
    ensures a == b
  {
    hide Less;
    if a == [] {
      NoElements(b);
    } else {
      AscendingHead(a, b);
      assert Ascending(a[1..]) by { assert forall i :: 0 <= i < |a[1..]| ==> a[1..][i] == a[i + 1]; }
      assert Ascending(b[1..]) by { assert forall i :: 0 <= i < |b[1..]| ==> b[1..][i] == b[i + 1]; }
      AscendingIsUnique(a[1..], b[1..]);
      assert a == [a[0]] + a[1..] && b == [b[0]] + b[1..];
    }
  }

  lemma SortingIgnoresOrder(a: seq<Path>, b: seq<Path>)
    requires Elements(a) == Elements(b)
    ensures Sorted(a) == Sorted(b)
  {
    hide Sorted, Less;
    SortedAscends(a);
    SortedAscends(b);
    AscendingIsUnique(Sorted(a), Sorted(b));
  }

  // ---- which writes are allowed ----

  lemma {:induction false} AscendingCounts(sorted: seq<Path>)
    requires Ascending(sorted)
    ensures |Elements(sorted)| == |sorted|
  {
    if sorted != [] {
      hide Less;
      var rest := sorted[1..];
      assert Ascending(rest) by { assert forall i :: 0 <= i < |rest| ==> rest[i] == sorted[i + 1]; }
      AscendingCounts(rest);
      OnlyOnce(sorted, sorted[0]);
      assert Elements(sorted) == {sorted[0]} + Elements(rest);
    }
  }

  predicate Apart(a: Path, b: Path) { a == b || (!Within(a, b) && !Within(b, a)) }

  lemma AscendingApart(sorted: seq<Path>)
    requires Ascending(sorted)
    ensures Nonoverlapping(sorted) <==> forall a <- sorted, b <- sorted :: Apart(a, b)
  {
    hide Less, Within;
    if Nonoverlapping(sorted) {
      forall a <- sorted, b <- sorted ensures Apart(a, b) {
        var i :| 0 <= i < |sorted| && sorted[i] == a;
        var j :| 0 <= j < |sorted| && sorted[j] == b;
      }
    }
    if forall a <- sorted, b <- sorted :: Apart(a, b) {
      forall i, j | 0 <= i < |sorted| && 0 <= j < |sorted| && i != j ensures !Within(sorted[j], sorted[i]) {
        LessIsTotal(sorted[i], sorted[i]);
        assert sorted[i] in sorted && sorted[j] in sorted && sorted[i] != sorted[j];
      }
    }
  }

  lemma ListApart(roots: seq<Path>)
    requires Nonoverlapping(roots)
    ensures forall a <- roots, b <- roots :: Apart(a, b)
  {
    hide Within;
    forall a <- roots, b <- roots ensures Apart(a, b) {
      var i :| 0 <= i < |roots| && roots[i] == a;
      var j :| 0 <= j < |roots| && roots[j] == b;
    }
  }

  /** What the writer checks of an approval, root by root. */
  predicate Approvable(config: Config, host: HostApproval, roots: seq<Path>) {
    && host.hostVersion < MAX_SAFE && roots != [] && ValidRoots(roots) && Nonoverlapping(roots)
    && (forall root <- roots :: NewRootAllowed(config.dataDir, root))
    && (forall root <- roots, other <- host.roots :: Apart(root, other))
    && (forall root <- roots, parent <- config.staticRoots :: !Within(parent, root))
    && |Elements(host.roots + roots)| + |config.staticRoots| <= MAX_ROOTS
  }

  lemma UnionApart(host: HostApproval, roots: seq<Path>)
    requires Nonoverlapping(host.roots) && Nonoverlapping(roots)
    ensures Nonoverlapping(Sorted(host.roots + roots))
       <==> forall root <- roots, other <- host.roots :: Apart(root, other)
    ensures |Sorted(host.roots + roots)| == |Elements(host.roots + roots)|
  {
    var sorted := Sorted(host.roots + roots);
    SortedAscends(host.roots + roots);
    AscendingApart(sorted);
    AscendingCounts(sorted);
    ListApart(roots);
    ListApart(host.roots);
    hide Sorted, Within, Less, Apart, Nonoverlapping;
    forall root ensures root in sorted <==> root in host.roots || root in roots {
      assert root in sorted <==> root in Elements(sorted);
      assert root in Elements(host.roots + roots) <==> root in host.roots || root in roots;
    }
    assert forall a, b :: Apart(a, b) == Apart(b, a) by { ApartIsSymmetric(); }
  }

  lemma ApartIsSymmetric()
    ensures forall a, b :: Apart(a, b) == Apart(b, a)
  {
    hide Within;
  }

  /** An approval is allowed exactly when each of its roots is a new kind of root that
      overlaps no approved one but itself and lies under no static one, within the limit. */
  lemma ApproveIsAllowedExactly(config: Config, host: HostApproval, roots: seq<Path>)
    requires Sound(config, host)
    ensures Allowed(config, host, Approve(roots)) <==> Approvable(config, host, roots)
  {
    SoundLists(config, host);
    hide Within, Sorted, NewRootAllowed, Lexical, Sound, Apart;
    if Nonoverlapping(roots) {
      assert Nonoverlapping(host.roots);
      hide Nonoverlapping, GrantList;
      UnionApart(host, roots);
    }
  }

  /** What the writer checks of a revocation. */
  predicate Revocable(config: Config, host: HostApproval, roots: seq<Path>) {
    && host.hostVersion < MAX_SAFE && roots != [] && (forall root <- roots :: root in host.roots)
    && |Elements(roots)| == |roots|
    && |Elements(host.roots) - Elements(roots)| + |config.staticRoots| <= MAX_ROOTS
  }

  lemma AllowedIsRevocable(config: Config, host: HostApproval, roots: seq<Path>)
    requires Sound(config, host) && Allowed(config, host, Revoke(roots))
    ensures Revocable(config, host, roots)
  {
    SoundLists(config, host);
    NonoverlappingCount(roots);
    RemainingCount(host.roots, roots);
    hide Within, NewRootAllowed, Lexical, Sound, Nonoverlapping, Without, GrantList, ValidRoots;
  }

  lemma RevocableIsAllowed(config: Config, host: HostApproval, roots: seq<Path>)
    requires Sound(config, host) && Revocable(config, host, roots)
    ensures Allowed(config, host, Revoke(roots))
  {
    SoundLists(config, host);
    Named(host.roots, roots);
    RemainingCount(host.roots, roots);
    RevokedAreFine(config, host, roots);
    hide *;
    RevokeChecked(config, host, roots);
  }

  lemma RevokeChecked(config: Config, host: HostApproval, roots: seq<Path>)
    requires Revocable(config, host, roots) && ValidRoots(roots) && Nonoverlapping(roots)
    requires forall root <- roots :: NewRootAllowed(config.dataDir, root)
    requires |Without(host.roots, roots)| == |Elements(host.roots) - Elements(roots)|
    ensures Allowed(config, host, Revoke(roots))
  {
    hide Within, NewRootAllowed, Lexical, Nonoverlapping, Without, ValidRoots, RequestId, RevisionOf, NoPrivate;
  }

  /** A revocation is allowed exactly when it names approved roots, each once, and static and
      remaining roots are within the limit. */
  lemma RevokeIsAllowedExactly(config: Config, host: HostApproval, roots: seq<Path>)
    requires Sound(config, host)
    ensures Allowed(config, host, Revoke(roots)) <==> Revocable(config, host, roots)
  {
    hide *;
    if Allowed(config, host, Revoke(roots)) { AllowedIsRevocable(config, host, roots); }
    if Revocable(config, host, roots) { RevocableIsAllowed(config, host, roots); }
  }

  lemma RevokedAreFine(config: Config, host: HostApproval, roots: seq<Path>)
    requires GrantList(config, host.roots, host.rootVersions, host.hostVersion)
    requires forall root <- roots :: root in host.roots
    ensures forall root <- roots :: Lexical(root) && NewRootAllowed(config.dataDir, root)
    ensures |roots| <= MAX_ROOTS ==> ValidRoots(roots)
  {
    hide Within, NewRootAllowed, Lexical, Nonoverlapping;
  }

  lemma RemainingCount(former: seq<Path>, roots: seq<Path>)
    requires Nonoverlapping(former)
    ensures |Without(former, roots)| == |Elements(former) - Elements(roots)|
  {
    WithoutKeepsApart(former, roots);
    NonoverlappingCount(Without(former, roots));
    assert Elements(Without(former, roots)) == Elements(former) - Elements(roots);
  }

  /** Some of a list of roots that do not overlap, listed once each. */
  lemma Named(former: seq<Path>, roots: seq<Path>)
    requires Nonoverlapping(former) && |former| <= MAX_ROOTS && forall root <- roots :: root in former
    ensures Nonoverlapping(roots) <==> |Elements(roots)| == |roots|
    ensures |Elements(roots)| == |roots| ==> |roots| <= MAX_ROOTS
  {
    ListApart(former);
    NonoverlappingCount(former);
    if Nonoverlapping(roots) {
      NonoverlappingCount(roots);
    }
    if |Elements(roots)| == |roots| {
      SubsetSize(Elements(roots), Elements(former));
      forall i, j | 0 <= i < |roots| && 0 <= j < |roots| && i != j ensures !Within(roots[j], roots[i]) {
        if roots[i] == roots[j] { RepeatCounts(roots, i, j); }
        assert roots[i] in roots && roots[j] in roots && Apart(roots[i], roots[j]);
      }
    }
  }

  lemma RepeatCounts(roots: seq<Path>, i: nat, j: nat)
    requires i < |roots| && j < |roots| && i != j && roots[i] == roots[j]
    ensures |Elements(roots)| < |roots|
  {
    var rest := roots[..j] + roots[j + 1..];
    forall root ensures root in Elements(roots) <==> root in Elements(rest) {
      if root in roots {
        var k :| 0 <= k < |roots| && roots[k] == root;
        var m := if k == j then i else k;
        assert roots[m] == root && m != j;
        assert rest[if m < j then m else m - 1] == root;
      }
    }
    ElementsAtMost(rest);
    assert Elements(roots) == Elements(rest);
  }

  lemma {:induction false} ElementsAtMost(roots: seq<Path>)
    ensures |Elements(roots)| <= |roots|
  {
    if roots != [] {
      ElementsAtMost(roots[1..]);
      assert Elements(roots) == {roots[0]} + Elements(roots[1..]);
    }
  }

  /** The operator can always take a delegation back. */
  lemma DelegationCanEnd(config: Config, host: HostApproval, id: string, version: nat)
    requires ConfigValid(config) && Readable(config, host) && host.hostVersion < MAX_SAFE && RequestId(id)
    ensures var setup := Setup(id, HostApproved, [], RevisionOf(config, host), version);
            && Allowed(config, host, Delegate(setup)) && Readable(config, Next(host, Delegate(setup)))
            && forall grant: Grant :: grant.Delegated? ==> !HasGrant(config, Next(host, Delegate(setup)), grant)
  {
    var setup := Setup(id, HostApproved, [], RevisionOf(config, host), version);
    var fewer := Elements(config.staticRoots) + Elements(host.roots) + Elements(setup.roots);
    assert fewer <= Maximum(config, host);
    SubsetSize(fewer, Maximum(config, host));
    hide RequestId, RevisionOf, Maximum;
    RevokeAndDelegateAreReadable(config, host, Delegate(setup));
  }
}
