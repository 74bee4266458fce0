/** Lexical source roots (agent/src/sourceAccessPolicy.ts:19-119, 153-157). */
module SourcePaths {
  import opened Text

  type Path = string

  datatype Option<T> = None | Some(value: T)

  const MAX_ROOTS := 32
  const MAX_PATH := 1024

  const DENIED_ROOTS := {
    "/", "/home", "/srv", "/var", "/var/www", "/opt", "/mnt", "/media", "/run", "/usr", "/usr/local",
    "/usr/share", "/usr/lib", "/bin", "/sbin", "/lib", "/lib64", "/var/lib", "/var/log", "/var/cache",
    "/tmp", "/var/tmp", "/run/user", "/lost+found"
  }

  const DENIED_TREES := {
    "/etc", "/proc", "/sys", "/dev", "/boot", "/root", "/var/lib/pluton-agent", "/opt/pluton-agent",
    "/var/lib/pluton-agent-upgrades"
  }

  predicate Within(root: Path, candidate: Path) {
    candidate == root || (if root == "/" then "/" else root + "/") <= candidate
  }

  predicate Plain(c: char) {
    32 <= c as int && c as int != 127 && c != '\\' && c != ','
  }

  /** The accepted spelling of an absolute path: normalized, no trailing slash. */
  predicate Lexical(path: Path) {
    && path != "" && path[0] == '/' && Units(path) <= MAX_PATH
    && (forall c <- path :: Plain(c))
    && (path == "/" || forall part <- Split(path, '/')[1..] :: part != "" && part != "." && part != "..")
  }

  predicate ValidRoots(roots: seq<Path>) {
    |roots| <= MAX_ROOTS && forall root <- roots :: Lexical(root)
  }

  predicate NewSourceRootAllowed(candidate: Path) {
    candidate !in DENIED_ROOTS && forall tree <- DENIED_TREES :: !Within(tree, candidate)
  }

  predicate NewRootAllowed(dataDir: Path, candidate: Path) {
    NewSourceRootAllowed(candidate) && !Within(dataDir, candidate) && !Within(candidate, dataDir)
  }

  predicate ContainsPrivateDirectory(candidate: Path) {
    exists part <- Split(candidate, '/') :: part in {".ssh", ".aws", ".gnupg", ".kube"}
  }

  predicate Nonoverlapping(roots: seq<Path>) {
    forall i, j :: 0 <= i < |roots| && 0 <= j < |roots| && i != j ==> !Within(roots[j], roots[i])
  }

  /** Of two roots that cover one path, one covers the other. */
  lemma CoversAreNested(a: Path, b: Path, x: Path)
    requires a != "" && b != "" && |a| <= |b|
    requires Within(a, x) && Within(b, x)
    ensures Within(a, b)
  {
    assert b <= x && a <= x;
    assert b[..|a|] == a == x[..|a|];
    if a != "/" && |a| < |b| {
      assert (a + "/")[|a|] == x[|a|] == b[|a|];
      assert b[..|a| + 1] == a + "/";
    }
  }

  /** The first listed root that covers a path. */
  function Covering(roots: seq<Path>, path: Path): (root: Option<Path>)
    ensures root.Some? ==> root.value in roots && Within(root.value, path)
    ensures root.None? ==> forall other <- roots :: !Within(other, path)
  {
    if roots == [] then None
    else if Within(roots[0], path) then Some(roots[0])
    else Covering(roots[1..], path)
  }

  /** Among roots that do not overlap at most one covers a path, so which one is found
      does not depend on their order. */
  lemma CoveringIsUnique(roots: seq<Path>, path: Path, root: Path)
    requires Nonoverlapping(roots) && (forall other <- roots :: other != "")
    requires root in roots && Within(root, path)
    ensures Covering(roots, path) == Some(root)
  {
    var found := Covering(roots, path).value;
    if found != root {
      var i :| 0 <= i < |roots| && roots[i] == found;
      var j :| 0 <= j < |roots| && roots[j] == root;
      if |found| <= |root| {
        CoversAreNested(found, root, path);
      } else {
        CoversAreNested(root, found, path);
      }
    }
  }

  lemma CoveringIgnoresOrder(roots: seq<Path>, reordered: seq<Path>, path: Path)
    requires Nonoverlapping(roots) && (forall root <- roots :: root != "")
    requires forall root :: root in roots <==> root in reordered
    ensures Covering(roots, path) == Covering(reordered, path)
  {
    if Covering(reordered, path).Some? {
      CoveringIsUnique(roots, path, Covering(reordered, path).value);
    }
  }

  function Elements(roots: seq<Path>): set<Path> { set root | root in roots }

  /** Roots that do not overlap are distinct, so a list counts like the set. */
  lemma {:induction false} NonoverlappingCount(roots: seq<Path>)
    requires Nonoverlapping(roots)
    ensures |Elements(roots)| == |roots|
  {
    if roots != [] {
      var rest := roots[1..];
      assert forall i :: 0 <= i < |rest| ==> rest[i] == roots[i + 1];
      NonoverlappingCount(rest);
      assert Elements(roots) == {roots[0]} + Elements(rest);
      assert roots[0] !in Elements(rest);
    }
  }
}
