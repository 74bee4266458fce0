/**
  What the lexical rules on source roots come to: spelling, containment, and distance from
  the protected directories (agent/src/sourceAccessPolicy.ts:30-119, 153-157).
 */
module RootPaths {
  import opened Text
  import opened SourcePaths
  import opened ResticParent

  // ---- containment ----

  /** One root contains a path exactly when its components begin the path's: `/a` contains
      `/a/b` and not `/ab`. */
  lemma WithinIsByComponent(root: Path, candidate: Path)
    requires root != "/"
    ensures Within(root, candidate) <==> Split(root, '/') <= Split(candidate, '/')
  {
    if Within(root, candidate) && candidate != root {
      var rest := candidate[|root| + 1..];
      assert candidate == root + ['/'] + rest;
      SplitOfConcat(root, rest, '/');
    }
    if Split(root, '/') <= Split(candidate, '/') {
      var parts := Split(candidate, '/');
      JoinOfSplit(root, '/');
      JoinOfSplit(candidate, '/');
      var n := |Split(root, '/')|;
      if n < |parts| {
        assert parts == parts[..n] + parts[n..] && parts[..n] == Split(root, '/');
        JoinOfConcat(parts[..n], parts[n..], '/');
        assert candidate == root + ['/'] + Join(parts[n..], '/');
      } else {
        assert parts == Split(root, '/');
      }
    }
  }

  lemma WithinIsTransitive(a: Path, b: Path, c: Path)
    requires a != "" && b != "" && Within(a, b) && Within(b, c)
    ensures Within(a, c)
  {
    if a != b && b != c {
      assert a + "/" <= b || a == "/";
      assert b <= c;
    }
  }

  lemma OneAbove(a: Path, b: Path, path: Path)
    requires a != "" && b != ""
    ensures Within(a, path) && Within(b, path) ==> Within(a, b) || Within(b, a)
  {
    if Within(a, path) && Within(b, path) {
      if |a| <= |b| {
        CoversAreNested(a, b, path);
      } else {
        CoversAreNested(b, a, path);
      }
    }
  }

  /** Roots do not overlap exactly when no path lies under two of them. */
  lemma NonoverlappingIsDisjoint(roots: seq<Path>)
    requires forall root <- roots :: root != ""
    ensures Nonoverlapping(roots)
       <==> forall i, j, path :: 0 <= i < |roots| && 0 <= j < |roots| && i != j
                                 ==> !(Within(roots[i], path) && Within(roots[j], path))
  {
    if Nonoverlapping(roots) {
      forall i, j, path | 0 <= i < |roots| && 0 <= j < |roots| && i != j
        ensures !(Within(roots[i], path) && Within(roots[j], path))
      {
        assert roots[i] in roots && roots[j] in roots;
        OneAbove(roots[i], roots[j], path);
      }
    } else {
      var i, j :| 0 <= i < |roots| && 0 <= j < |roots| && i != j && Within(roots[j], roots[i]);
      assert Within(roots[i], roots[i]);
    }
  }

  // ---- spelling ----

  /** The source's own list of refusals. */
  predicate Spelled(path: Path) {
    && path != "" && path[0] == '/' && !("//" <= path) && !(path != "/" && path[|path| - 1] == '/')
    && Units(path) <= MAX_PATH
    && (forall c <- path :: 32 <= c as int && c as int != 127 && c != '\\' && c != ',')
    && "." !in Split(path, '/') && ".." !in Split(path, '/')
    && Normalize(path) == path
  }

  lemma {:induction false} ResolvedIsPlain(parts: seq<string>)
    requires forall part <- parts :: '/' !in part
    ensures forall part <- Resolved(parts, false) :: part != "" && part != "." && part != ".." && '/' !in part
  {
    if parts != [] {
      var init := parts[..|parts| - 1];
      assert forall part <- init :: part in parts;
      ResolvedIsPlain(init);
    }
  }

  lemma NormalizedParts(path: Path)
    requires path != "" && path[0] == '/' && path != "/" && path[|path| - 1] != '/' && Normalize(path) == path
    ensures forall part <- Split(path, '/')[1..] :: part != "" && part != "." && part != ".."
  {
    var parts := Resolved(Split(path, '/'), false);
    ResolvedIsPlain(Split(path, '/'));
    hide Resolved;
    assert path == "/" + Join(parts, '/');
    SplitOfJoin(parts, '/');
    assert path == "" + ['/'] + Join(parts, '/');
    SplitOfConcat("", Join(parts, '/'), '/');
    assert Split(path, '/')[1..] == parts;
  }

  lemma RootParts(path: Path)
    requires path != "" && path[0] == '/'
    ensures Split(path, '/')[0] == "" && Split(path, '/') == [""] + Split(path, '/')[1..]
    ensures "//" <= path ==> Split(path, '/')[1] == "" && path != "/"
  {
    assert "//" <= path ==> path[1] == '/';
  }

  lemma LexicalIsNormal(path: Path)
    requires Lexical(path) && path != "/"
    ensures Spelled(path)
  {
    RootParts(path);
    var parts := Split(path, '/')[1..];
    assert parts[0] in parts;
    assert forall part <- Split(path, '/') :: part == "" || part in parts;
    assert parts[|parts| - 1] in parts;
    LastOfTrailing(path);
    PlainIsNormal(path, parts);
    hide Normalize, Split;
    assert !("//" <= path);
    assert path[|path| - 1] != '/';
    assert "." !in Split(path, '/') && ".." !in Split(path, '/');
  }

  lemma NormalIsLexical(path: Path)
    requires Spelled(path) && path != "/"
    ensures Lexical(path)
  {
    hide Normalize, Split;
    NormalizedParts(path);
  }

  /** The accepted paths are exactly those the source does not refuse. */
  lemma LexicalIsSpelled(path: Path)
    ensures Lexical(path) <==> Spelled(path)
  {
    if path == "/" {
      SlashIsNormal();
      hide Normalize;
      assert Split("/", '/') == ["", ""] by { assert "/"[1..] == ""; }
      assert Units("/") == 1 by { assert "/"[1..] == ""; }
    } else {
      hide Normalize, Split, Units;
      if Lexical(path) { LexicalIsNormal(path); }
      if Spelled(path) { NormalIsLexical(path); }
    }
  }

  lemma SlashIsNormal()
    ensures Normalize("/") == "/"
  {
    assert Split("/", '/') == ["", ""] by { assert "/"[1..] == ""; }
    assert ["", ""][..1] == [""] && [""][..0] == [];
    assert Resolved([], false) == [] && Resolved([""], false) == [] && Resolved(["", ""], false) == [];
  }

  // ---- protected directories ----

  /** A name directly below the root directory. */
  predicate TopLevel(path: Path) { path != "" && '/' !in path[1..] }

  lemma NothingAboveTop(path: Path, above: Path)
    requires TopLevel(path) && above != ""
    ensures !(above + "/" <= path)
  {
    assert (above + "/")[|above|] == '/';
    assert |above| < |path| ==> path[1..][|above| - 1] == path[|above|];
  }

  /** Above `parent/name` lies only what is `parent` or above it. */
  lemma AboveChild(path: Path, parent: Path, name: string, above: Path)
    requires path == parent + "/" + name && '/' !in name && parent != "" && above != "" && above + "/" <= path
    ensures above == parent || above + "/" <= parent
  {
    assert (above + "/")[|above|] == '/';
    assert forall i :: |parent| < i < |path| ==> path[i] == name[i - |parent| - 1];
    if |above| < |parent| {
      assert above + "/" == path[..|above| + 1] == parent[..|above| + 1];
    } else {
      assert above == path[..|above|] == parent;
    }
  }

  const TOP: set<Path> := {
    "/", "/home", "/srv", "/var", "/opt", "/mnt", "/media", "/run", "/usr", "/bin", "/sbin", "/lib", "/lib64", "/tmp",
    "/lost+found", "/etc", "/proc", "/sys", "/dev", "/boot", "/root"
  }

  /** What else is protected. */
  const INNER: set<Path> := {
    "/var/www", "/usr/local", "/usr/share", "/usr/lib", "/var/lib", "/var/log", "/var/cache", "/var/tmp", "/run/user",
    "/var/lib/pluton-agent", "/opt/pluton-agent", "/var/lib/pluton-agent-upgrades"
  }

  lemma TopIsTop()
    ensures forall path <- TOP :: TopLevel(path)
  {
  }

  predicate Child(path: Path, parent: Path, name: string) { path == parent + "/" + name && '/' !in name }

  lemma InnerOfVar(path: Path)
    requires path in INNER && |path| < 15 && path[..4] == "/var"
    ensures Child(path, path[..4], path[5..])
  {
  }

  lemma InnerOfUsr(path: Path)
    requires path in INNER && |path| < 15 && path[..4] != "/var"
    ensures Child(path, path[..4], path[5..])
    ensures path[..4] == "/usr" || path[..4] == "/run"
  {
  }

  const AGENT := "pluton-agent"
  const UPGRADES := "pluton-agent-upgrades"

  lemma AgentPaths()
    ensures "/opt/pluton-agent" == "/opt" + "/" + AGENT && "/var/lib/pluton-agent" == "/var/lib" + "/" + AGENT
    ensures '/' !in AGENT
  {
  }

  lemma UpgradePath()
    ensures "/var/lib/pluton-agent-upgrades" == "/var/lib" + "/" + UPGRADES && '/' !in UPGRADES
  {
  }

  lemma InnerLong(path: Path)
    requires path in INNER && |path| >= 15
    ensures path == "/opt/pluton-agent" || path == "/var/lib/pluton-agent" || path == "/var/lib/pluton-agent-upgrades"
  {
  }

  lemma InnerOfAgent(path: Path) returns (parent: Path, name: string)
    requires path in INNER && |path| >= 15
    ensures parent == "/var/lib" || parent == "/opt"
    ensures path == parent + "/" + name && '/' !in name
  {
    InnerLong(path);
    AgentPaths();
    UpgradePath();
    hide *;
    parent := if path == "/opt/pluton-agent" then "/opt" else "/var/lib";
    name := if path == "/opt/pluton-agent" || path == "/var/lib/pluton-agent" then AGENT else UPGRADES;
  }

  lemma InnerIsInner(path: Path) returns (parent: Path, name: string)
    requires path in INNER
    ensures path == parent + "/" + name && '/' !in name
    ensures parent == "/var/lib" || parent in {"/var", "/usr", "/run", "/opt"}
  {
    if |path| >= 15 {
      parent, name := InnerOfAgent(path);
    } else {
      if path[..4] == "/var" { InnerOfVar(path); } else { InnerOfUsr(path); }
      hide INNER;
      parent, name := path[..4], path[5..];
    }
  }

  lemma TopAndInner()
    ensures forall path :: path in DENIED_ROOTS || path in DENIED_TREES <==> path in TOP || path in INNER
    ensures {"/var", "/usr", "/run", "/opt", "/var/lib"} <= DENIED_ROOTS
    ensures {"/var", "/usr", "/run", "/opt"} <= TOP && "/var/lib" == "/var" + "/" + "lib"
  {
  }

  lemma AboveIsDenied(path: Path, above: Path)
    requires (path in DENIED_ROOTS || path in DENIED_TREES) && above != "" && above + "/" <= path
    ensures above in DENIED_ROOTS
  {
    TopAndInner();
    TopIsTop();
    hide DENIED_ROOTS, DENIED_TREES, TOP, INNER, TopLevel;
    if path in TOP {
      NothingAboveTop(path, above);
    } else {
      var parent, name := InnerIsInner(path);
      AboveChild(path, parent, name, above);
      if above != parent {
        if parent == "/var/lib" {
          AboveChild(parent, "/var", "lib", above);
          if above != "/var" { NothingAboveTop("/var", above); }
        } else {
          NothingAboveTop(parent, above);
        }
      }
    }
  }

  /** No root that is allowed contains a protected directory, and none lies in a protected
      tree. */
  lemma AllowedIsApart(candidate: Path)
    requires candidate != "" && NewSourceRootAllowed(candidate)
    ensures forall tree <- DENIED_TREES :: !Within(tree, candidate) && !Within(candidate, tree)
    ensures forall root <- DENIED_ROOTS :: !Within(candidate, root)
  {
    TopAndInner();
    assert "/" in DENIED_ROOTS;
    hide DENIED_ROOTS, DENIED_TREES;
    assert forall tree <- DENIED_TREES :: Within(tree, tree);
    forall path | path in DENIED_TREES || path in DENIED_ROOTS ensures !Within(candidate, path) {
      if Within(candidate, path) && candidate != path {
        AboveIsDenied(path, candidate);
      }
    }
  }

  /** What lies below an allowed root is allowed itself. */
  lemma AllowedBelow(dataDir: Path, root: Path, below: Path)
    requires dataDir != "" && root != "" && below != ""
    requires NewRootAllowed(dataDir, root) && Within(root, below)
    ensures NewRootAllowed(dataDir, below)
  {
    AllowedIsApart(root);
    hide DENIED_ROOTS, DENIED_TREES;
    if Within(below, dataDir) {
      WithinIsTransitive(root, below, dataDir);
    }
    ApartBelow(dataDir, root, below);
    forall tree <- DENIED_TREES ensures !Within(tree, below) {
      ApartBelow(tree, root, below);
    }
  }

  lemma ApartBelow(tree: Path, root: Path, below: Path)
    requires tree != "" && root != "" && below != "" && Within(root, below)
    requires !Within(tree, root) && !Within(root, tree)
    ensures !Within(tree, below)
  {
    if Within(tree, below) {
      if |tree| <= |root| {
        CoversAreNested(tree, root, below);
      } else {
        CoversAreNested(root, tree, below);
      }
    }
  }
}
