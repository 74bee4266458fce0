/**
  The parent snapshot of a backup: which snapshots of the repository are compatible, and
  which of them is taken (agent/src/resticParent.ts:22-112).
 */
module ResticParent {
  import opened Text
  import opened SourcePaths

  // ---- path normalization, as the platform's `posix.normalize` does it ----

  function Resolved(parts: seq<string>, above: bool): seq<string> {
    if parts == [] then []
    else
      var done, part := Resolved(parts[..|parts| - 1], above), parts[|parts| - 1];
      if part == "" || part == "." then done
      else if part != ".." then done + [part]
      else if done != [] && done[|done| - 1] != ".." then done[..|done| - 1]
      else if above then done + [part]
      else done
  }

  function Normalize(path: Path): Path {
    if path == "" then "."
    else
      var absolute, trailing := path[0] == '/', path[|path| - 1] == '/';
      var parts := Resolved(Split(path, '/'), !absolute);
      if parts == [] then (if absolute then "/" else if trailing then "./" else ".")
      else (if absolute then "/" else "") + Join(parts, '/') + (if trailing then "/" else "")
  }

  // ---- snapshots and receipts ----

  /** A field that may be missing or of another type. */
  type Field = Option<string>

  /** What the repository lists; `time` is the parsed date, if it is one. */
  datatype Snapshot =
    | Snapshot(id: Field, tree: Field, hostname: Field, time: Option<int>,
               tags: Option<seq<Field>>, paths: Option<seq<Field>>)
    | Malformed

  datatype Receipt = Receipt(success: bool, snapshotId: Field)

  datatype Input = Input(
    successfulIds: seq<string>, planId: string, source: Path, hostname: string, jobsRoot: Path,
    artifacts: seq<string>, now: int)

  predicate Word(s: string) {
    s != "" && forall c <- s :: 'a' <= c <= 'z' || 'A' <= c <= 'Z' || '0' <= c <= '9' || c == '_' || c == '-'
  }

  predicate Hex(s: string) { |s| == 64 && forall c <- s :: 'a' <= c <= 'f' || '0' <= c <= '9' }

  predicate StartsWith(s: string, prefix: string) { prefix <= s }

  predicate JobName(s: string) { StartsWith(s, "job-") && Word(s[4..]) }

  predicate BackupTag(s: string) { StartsWith(s, "pluton-backup-") && Word(s[14..]) }

  function Count<T(==)>(items: seq<T>, item: T): nat { multiset(items)[item] }

  /** Listed once each, where first seen. */
  function Distinct(ids: seq<string>): seq<string> {
    if ids == [] then []
    else
      var done := Distinct(ids[..|ids| - 1]);
      if ids[|ids| - 1] in done then done else done + [ids[|ids| - 1]]
  }

  function Reported(receipts: seq<Receipt>): seq<string> {
    if receipts == [] then []
    else
      var receipt := receipts[0];
      var id := receipt.snapshotId;
      (if receipt.success && id.Some? && Hex(id.value) then [id.value] else []) + Reported(receipts[1..])
  }

  function SuccessfulSnapshotIds(receipts: seq<Receipt>): seq<string> {
    var ids := Distinct(Reported(receipts));
    if |ids| > 16 then ids[|ids| - 16..] else ids
  }

  // ---- the paths of a snapshot ----

  /** Where an artifact lies in the workspace of a job. */
  function Placed(root: Path, job: string, artifact: string): Path { root + "/" + job + "/" + artifact }

  function SlashAt(s: string): (at: int)
    ensures at == -1 || 0 <= at < |s|
  {
    if s == "" then -1 else if s[0] == '/' then 0 else var rest := SlashAt(s[1..]); if rest < 0 then -1 else rest + 1
  }

  datatype Place = Place(job: string, artifact: string)

  /** Job and artifact of a path below the root. Without a slash, the source's slicing
      leaves the whole text as the artifact and all but its last character as the job. */
  function PlaceIn(relative: string): Place {
    var slash := SlashAt(relative);
    Place(if slash >= 0 then relative[..slash] else if relative == "" then "" else relative[..|relative| - 1],
          relative[slash + 1..])
  }

  /** The place that an item names, if its path is normalized and its job is one. */
  function PlaceOf(root: Path, item: Field): Option<Place> {
    if item.None? || Normalize(item.value) != item.value || !(root + "/" <= item.value) then None
    else
      var place := PlaceIn(item.value[|root| + 1..]);
      if JobName(place.job) then Some(place) else None
  }

  /** An artifact still missing, in the workspace of those before. */
  predicate Fits(place: Option<Place>, remaining: set<string>, workspace: Option<string>) {
    && place.Some? && place.value.artifact in remaining
    && (workspace.None? || workspace.value == place.value.job)
  }

  /** The scan over a snapshot's paths: every item but the source takes one artifact away,
      all of them in one workspace. */
  function Scan(root: Path, source: Path, items: seq<Field>, remaining: set<string>, workspace: Option<string>): bool {
    if items == [] then remaining == {}
    else if items[0] == Some(source) then Scan(root, source, items[1..], remaining, workspace)
    else
      var place := PlaceOf(root, items[0]);
      && Fits(place, remaining, workspace)
      && Scan(root, source, items[1..], remaining - {place.value.artifact}, Some(place.value.job))
  }

  method ScanPaths(root: Path, source: Path, items: seq<Field>, artifacts: seq<string>) returns (ok: bool)
    ensures ok == Scan(root, source, items, Elements(artifacts), None)
  {
    var remaining := Elements(artifacts);
    var workspace: Option<string> := None;
    for k := 0 to |items|
      invariant Scan(root, source, items, Elements(artifacts), None)
             == Scan(root, source, items[k..], remaining, workspace)
    {
      assert items[k..][1..] == items[k + 1..];
      if items[k] != Some(source) {
        var place := PlaceOf(root, items[k]);
        if place.None? || place.value.artifact !in remaining {
          return false;
        }
        if workspace.Some? && workspace.value != place.value.job {
          return false;
        }
        remaining := remaining - {place.value.artifact};
        workspace := Some(place.value.job);
      }
    }
    ok := remaining == {};
  }

  // ---- accepted paths are a permutation ----

  function Others(source: Path, items: seq<Field>): seq<Field> {
    if items == [] then []
    else (if items[0] == Some(source) then [] else [items[0]]) + Others(source, items[1..])
  }

  function Paths(root: Path, job: string, artifacts: seq<string>): (paths: seq<Field>)
    ensures |paths| == |artifacts|
    ensures forall i :: 0 <= i < |artifacts| ==> paths[i] == Some(Placed(root, job, artifacts[i]))
  {
    seq(|artifacts|, i requires 0 <= i < |artifacts| => Some(Placed(root, job, artifacts[i])))
  }

  predicate NoDuplicates(items: seq<string>) { |Elements(items)| == |items| }

  predicate ArrangedAs(
    root: Path, source: Path, items: seq<Field>, remaining: set<string>, job: string, order: seq<string>)
  {
    && NoDuplicates(order) && Elements(order) == remaining
    && Others(source, items) == Paths(root, job, order)
    && forall artifact <- order :: Normalize(Placed(root, job, artifact)) == Placed(root, job, artifact)
  }

  /** Under one job, in some order, exactly the given artifacts. */
  ghost predicate Arranged(
    root: Path, source: Path, items: seq<Field>, remaining: set<string>, workspace: Option<string>)
  {
    exists job: string, order: seq<string> ::
      && ArrangedAs(root, source, items, remaining, job, order)
      && JobName(job) && (workspace.None? || workspace.value == job)
  }

  /** An artifact without a slash whose own name, short of its last character, is a job's. */
  predicate Disguised(artifact: string) {
    '/' !in artifact && artifact != "" && JobName(artifact[..|artifact| - 1])
  }

  lemma {:induction false} SlashIsFirst(job: string, artifact: string)
    requires '/' !in job
    ensures SlashAt(job + "/" + artifact) == |job|
  {
    var s := job + "/" + artifact;
    if job == "" {
      assert s[0] == '/';
    } else {
      assert s[0] == job[0] && job[0] in job && s[1..] == job[1..] + "/" + artifact;
      SlashIsFirst(job[1..], artifact);
    }
  }

  lemma {:induction false} SlashFound(s: string)
    ensures if '/' in s then 0 <= SlashAt(s) < |s| && s[SlashAt(s)] == '/' else SlashAt(s) == -1
  {
    if s != "" {
      assert s == [s[0]] + s[1..];
      SlashFound(s[1..]);
    }
  }

  /** A placed artifact is found where it was put. */
  lemma PlaceOfPlaced(root: Path, job: string, artifact: string)
    requires JobName(job) && Normalize(Placed(root, job, artifact)) == Placed(root, job, artifact)
    ensures PlaceOf(root, Some(Placed(root, job, artifact))) == Some(Place(job, artifact))
  {
    hide Normalize;
    var item := Placed(root, job, artifact);
    var relative := job + "/" + artifact;
    assert '/' !in job by { assert job == "job-" + job[4..]; }
    assert item == root + "/" + relative;
    assert item[|root| + 1..] == relative;
    SlashIsFirst(job, artifact);
    assert relative[..|job|] == job && relative[|job| + 1..] == artifact;
  }

  lemma PlacedAt(root: Path, relative: string, slash: nat)
    requires slash < |relative| && relative[slash] == '/'
    ensures root + "/" + relative == Placed(root, relative[..slash], relative[slash + 1..])
  {
    var job, artifact := relative[..slash], relative[slash + 1..];
    assert relative == job + "/" + artifact;
    assert root + "/" + (job + "/" + artifact) == root + "/" + job + "/" + artifact;
  }

  lemma PlacedOfRelative(root: Path, relative: string)
    requires JobName(PlaceIn(relative).job) && !Disguised(PlaceIn(relative).artifact)
    ensures root + "/" + relative == Placed(root, PlaceIn(relative).job, PlaceIn(relative).artifact)
  {
    hide JobName, Placed, SlashAt;
    SlashFound(relative);
    if '/' in relative {
      PlacedAt(root, relative, SlashAt(relative));
    } else {
      JobNameIsLong("");
    }
  }

  /** What is found was put there, unless the artifact is a disguised one. */
  lemma PlacedOfPlace(root: Path, item: Field)
    requires PlaceOf(root, item).Some? && !Disguised(PlaceOf(root, item).value.artifact)
    ensures var place := PlaceOf(root, item).value;
            && JobName(place.job) && item == Some(Placed(root, place.job, place.artifact))
            && Normalize(item.value) == item.value
  {
    hide Normalize, JobName, Placed, PlaceIn, Disguised;
    var relative := item.value[|root| + 1..];
    assert item.value == root + "/" + relative;
    PlacedOfRelative(root, relative);
  }

  lemma JobNameIsLong(job: string)
    ensures JobName(job) ==> |job| > 4 && '/' !in job
  {
    if JobName(job) {
      assert job == "job-" + job[4..];
    }
  }

  lemma {:induction false} ScanIsArranged(
    root: Path, source: Path, items: seq<Field>, remaining: set<string>, workspace: Option<string>)
    requires forall artifact <- remaining :: !Disguised(artifact)
    requires workspace.Some? ==> JobName(workspace.value)
    ensures Scan(root, source, items, remaining, workspace) <==> Arranged(root, source, items, remaining, workspace)
  {
    hide Arranged, PlaceOf;
    if items == [] {
      NothingArranged(root, source, remaining, workspace);
    } else if items[0] == Some(source) {
      ScanIsArranged(root, source, items[1..], remaining, workspace);
      SourceIsSkipped(root, source, items, remaining, workspace);
    } else {
      var place := PlaceOf(root, items[0]);
      if place.Some? && place.value.artifact in remaining {
        PlacedOfPlace(root, items[0]);
        ScanIsArranged(root, source, items[1..], remaining - {place.value.artifact}, Some(place.value.job));
      }
      ItemIsPlaced(root, source, items, remaining, workspace);
    }
  }

  lemma SourceIsSkipped(
    root: Path, source: Path, items: seq<Field>, remaining: set<string>, workspace: Option<string>)
    requires items != [] && items[0] == Some(source)
    ensures Arranged(root, source, items, remaining, workspace)
       <==> Arranged(root, source, items[1..], remaining, workspace)
  {
    hide Normalize, JobName, Paths, Placed;
    assert Others(source, items) == Others(source, items[1..]);
    assert forall job, order :: ArrangedAs(root, source, items, remaining, job, order)
                           <==> ArrangedAs(root, source, items[1..], remaining, job, order);
    hide ArrangedAs;
  }

  lemma ItemIsPlaced(root: Path, source: Path, items: seq<Field>, remaining: set<string>, workspace: Option<string>)
    requires items != [] && items[0] != Some(source)
    requires forall artifact <- remaining :: !Disguised(artifact)
    ensures Arranged(root, source, items, remaining, workspace)
       <==> var place := PlaceOf(root, items[0]);
            && Fits(place, remaining, workspace)
            && Arranged(root, source, items[1..], remaining - {place.value.artifact}, Some(place.value.job))
  {
    hide Arranged, PlaceOf, Normalize, JobName, Placed, Disguised;
    var place := PlaceOf(root, items[0]);
    if Arranged(root, source, items, remaining, workspace) {
      ArrangedShorter(root, source, items, remaining, workspace);
    } else if Fits(place, remaining, workspace) {
      PlacedOfPlace(root, items[0]);
      if Arranged(root, source, items[1..], remaining - {place.value.artifact}, Some(place.value.job)) {
        ArrangedLonger(root, source, items, remaining, workspace, place.value);
      }
    }
  }

  lemma NothingArranged(root: Path, source: Path, remaining: set<string>, workspace: Option<string>)
    requires workspace.Some? ==> JobName(workspace.value)
    ensures Arranged(root, source, [], remaining, workspace) <==> remaining == {}
  {
    if remaining == {} {
      var job := if workspace.Some? then workspace.value else "job-a";
      assert JobName(job) && ArrangedAs(root, source, [], {}, job, []);
    }
  }

  lemma ArrangedLonger(
    root: Path, source: Path, items: seq<Field>, remaining: set<string>, workspace: Option<string>, place: Place)
    requires items != [] && items[0] != Some(source) && place.artifact in remaining
    requires items[0] == Some(Placed(root, place.job, place.artifact)) && Normalize(items[0].value) == items[0].value
    requires workspace.None? || workspace.value == place.job
    requires Arranged(root, source, items[1..], remaining - {place.artifact}, Some(place.job))
    ensures Arranged(root, source, items, remaining, workspace)
  {
    hide Normalize, JobName, ArrangedAs, Placed;
    var job, order :|
      ArrangedAs(root, source, items[1..], remaining - {place.artifact}, job, order)
      && JobName(job) && place.job == job;
    ArrangedOneMore(root, source, items, remaining, job, order, place.artifact);
  }

  lemma ElementsOfLonger(first: string, rest: seq<string>)
    ensures Elements([first] + rest) == {first} + Elements(rest)
  {
  }

  lemma PathsOfLonger(root: Path, job: string, first: string, rest: seq<string>)
    ensures Paths(root, job, [first] + rest) == [Some(Placed(root, job, first))] + Paths(root, job, rest)
  {
    hide Placed;
  }

  lemma ArrangedOneMore(
    root: Path, source: Path, items: seq<Field>, remaining: set<string>, job: string, order: seq<string>,
    artifact: string)
    requires items != [] && items[0] != Some(source) && artifact in remaining
    requires items[0] == Some(Placed(root, job, artifact)) && Normalize(items[0].value) == items[0].value
    requires ArrangedAs(root, source, items[1..], remaining - {artifact}, job, order)
    ensures ArrangedAs(root, source, items, remaining, job, [artifact] + order)
  {
    hide Normalize, Placed, Elements;
    ElementsOfLonger(artifact, order);
    assert {artifact} + (remaining - {artifact}) == remaining;
    PathsOfLonger(root, job, artifact, order);
  }

  lemma ArrangedShorter(root: Path, source: Path, items: seq<Field>, remaining: set<string>, workspace: Option<string>)
    requires items != [] && items[0] != Some(source)
    requires Arranged(root, source, items, remaining, workspace)
    ensures var place := PlaceOf(root, items[0]);
            && Fits(place, remaining, workspace)
            && Arranged(root, source, items[1..], remaining - {place.value.artifact}, Some(place.value.job))
  {
    hide Normalize, JobName, Placed, PlaceOf, Others, Elements, Paths;
    var job, order :|
      ArrangedAs(root, source, items, remaining, job, order)
      && JobName(job) && (workspace.None? || workspace.value == job);
    OthersOfLonger(source, items);
    assert |order| == |Paths(root, job, order)|;
    var first, rest := order[0], order[1..];
    assert order == [first] + rest;
    ElementsOfLonger(first, rest);
    PathsOfLonger(root, job, first, rest);
    FirstIsNew(order);
    assert Paths(root, job, order)[0] == Some(Placed(root, job, first));
    PlaceOfPlaced(root, job, first);
    assert ArrangedAs(root, source, items[1..], remaining - {first}, job, rest);
  }

  lemma OthersOfLonger(source: Path, items: seq<Field>)
    requires items != [] && items[0] != Some(source)
    ensures Others(source, items) == [items[0]] + Others(source, items[1..])
  {
  }

  lemma FirstIsNew(order: seq<string>)
    requires order != [] && NoDuplicates(order)
    ensures order[0] !in Elements(order[1..]) && NoDuplicates(order[1..])
  {
    var rest := order[1..];
    assert Elements(order) == {order[0]} + Elements(rest);
    FewElements(rest);
    assert order[0] in Elements(rest) ==> Elements(order) == Elements(rest);
  }

  lemma {:induction false} FewElements(items: seq<string>)
    ensures |Elements(items)| <= |items|
  {
    if items != [] {
      FewElements(items[1..]);
      assert Elements(items) == {items[0]} + Elements(items[1..]);
    }
  }

  lemma {:induction false} OthersCount(source: Path, items: seq<Field>)
    ensures |Others(source, items)| + Count(items, Some(source)) == |items|
  {
    if items != [] {
      OthersCount(source, items[1..]);
      assert items == [items[0]] + items[1..];
      assert multiset(items) == multiset{items[0]} + multiset(items[1..]);
    }
  }

  lemma {:induction false} OnceEach(items: seq<string>, item: string)
    requires NoDuplicates(items)
    ensures multiset(items)[item] == if item in items then 1 else 0
  {
    if items != [] {
      FirstIsNew(items);
      OnceEach(items[1..], item);
      assert items == [items[0]] + items[1..];
      assert multiset(items) == multiset{items[0]} + multiset(items[1..]);
    }
  }

  /** Without duplicates, the same elements make a permutation. */
  lemma SameElements(a: seq<string>, b: seq<string>)
    requires NoDuplicates(a)
    ensures NoDuplicates(b) && Elements(a) == Elements(b) <==> multiset(a) == multiset(b)
  {
    if NoDuplicates(b) && Elements(a) == Elements(b) {
      forall item: string ensures multiset(a)[item] == multiset(b)[item] {
        OnceEach(a, item);
        OnceEach(b, item);
        assert item in a <==> item in Elements(a);
        assert item in b <==> item in Elements(b);
      }
      assert multiset(a) == multiset(b);
    }
    if multiset(a) == multiset(b) {
      assert forall item: string :: (item in a <==> item in multiset(a)) && (item in b <==> item in multiset(b));
      assert Elements(a) == Elements(b);
      assert |multiset(a)| == |a| && |multiset(b)| == |b|;
    }
  }

  /** The checks on a snapshot's list of paths. */
  predicate PathsAccepted(root: Path, source: Path, paths: seq<Field>, artifacts: seq<string>) {
    && |paths| == |artifacts| + 1 && Count(paths, Some(source)) == 1
    && Scan(root, source, paths, Elements(artifacts), None)
  }

  /** The source once, and every artifact once, in any order, all in the workspace of one
      job, each under its normalized path. */
  predicate Rearranged(
    root: Path, source: Path, paths: seq<Field>, artifacts: seq<string>, job: string, order: seq<string>)
  {
    && JobName(job) && Count(paths, Some(source)) == 1
    && NoDuplicates(artifacts) && multiset(order) == multiset(artifacts)
    && Others(source, paths) == Paths(root, job, order)
    && forall artifact <- order :: Normalize(Placed(root, job, artifact)) == Placed(root, job, artifact)
  }

  ghost predicate IsRearranged(root: Path, source: Path, paths: seq<Field>, artifacts: seq<string>) {
    exists job: string, order: seq<string> :: Rearranged(root, source, paths, artifacts, job, order)
  }

  lemma AcceptedExactlyWhenRearranged(root: Path, source: Path, paths: seq<Field>, artifacts: seq<string>)
    requires forall artifact <- artifacts :: !Disguised(artifact)
    ensures PathsAccepted(root, source, paths, artifacts) <==> IsRearranged(root, source, paths, artifacts)
  {
    hide Disguised, JobName, Normalize, Placed, Scan, Others;
    ScanIsArranged(root, source, paths, Elements(artifacts), None);
    OthersCount(source, paths);
    if PathsAccepted(root, source, paths, artifacts) {
      var job, order :| ArrangedAs(root, source, paths, Elements(artifacts), job, order) && JobName(job);
      assert |order| == |artifacts|;
      SameElements(order, artifacts);
      assert Rearranged(root, source, paths, artifacts, job, order);
    }
    if job: string, order: seq<string> :| Rearranged(root, source, paths, artifacts, job, order) {
      SameElements(artifacts, order);
      assert |multiset(order)| == |order| && |multiset(artifacts)| == |artifacts|;
      assert ArrangedAs(root, source, paths, Elements(artifacts), job, order);
    }
  }

  /** A disguised artifact lying directly under the root passes for one in a workspace. */
  lemma DisguisedArtifactIsAccepted(root: Path, source: Path, artifact: string)
    requires Disguised(artifact)
    requires root + "/" + artifact != source && Normalize(root + "/" + artifact) == root + "/" + artifact
    ensures PathsAccepted(root, source, [Some(source), Some(root + "/" + artifact)], [artifact])
    ensures forall job: string :: JobName(job) ==> root + "/" + artifact != Placed(root, job, artifact)
  {
    hide Normalize, JobName;
    var item: Path := root + "/" + artifact;
    assert item[|root| + 1..] == artifact;
    SlashFound(artifact);
    assert artifact[0..] == artifact;
    assert PlaceOf(root, Some(item)) == Some(Place(artifact[..|artifact| - 1], artifact));
    var items: seq<Field> := [Some(source), Some(item)];
    assert items[1..] == [Some(item)] && [Some(item)][1..] == [];
    assert Elements([artifact]) - {artifact} == {};
    assert Scan(root, source, items[1..], Elements([artifact]), None);
    assert forall job: string :: |Placed(root, job, artifact)| > |item|;
  }

  // ---- choosing ----

  predicate PlanTag(tag: Field) { tag.Some? && StartsWith(tag.value, "pluton-plan-") }

  function PlanTags(tags: seq<Field>): nat {
    if tags == [] then 0 else (if PlanTag(tags[0]) then 1 else 0) + PlanTags(tags[1..])
  }

  predicate Compatible(input: Input, snapshot: Snapshot) {
    && snapshot.Snapshot?
    && snapshot.id.Some? && Hex(snapshot.id.value) && snapshot.id.value in input.successfulIds
    && snapshot.tree.Some? && Hex(snapshot.tree.value)
    && snapshot.hostname == Some(input.hostname)
    && snapshot.time.Some? && snapshot.time.value <= input.now
    && snapshot.tags.Some? && Some("pluton-plan-" + input.planId) in snapshot.tags.value
    && PlanTags(snapshot.tags.value) == 1
    && (exists tag <- snapshot.tags.value :: tag.Some? && BackupTag(tag.value))
    && snapshot.paths.Some?
    && PathsAccepted(Normalize(input.jobsRoot), input.source, snapshot.paths.value, input.artifacts)
  }

  function CompatibleOnes(input: Input, snapshots: seq<Snapshot>): (found: seq<Snapshot>)
    ensures forall snapshot :: snapshot in found <==> snapshot in snapshots && Compatible(input, snapshot)
  {
    if snapshots == [] then []
    else (if Compatible(input, snapshots[0]) then [snapshots[0]] else []) + CompatibleOnes(input, snapshots[1..])
  }

  function IndexOf(ids: seq<string>, id: string): int {
    if ids == [] then -1
    else if ids[0] == id then 0
    else var rest := IndexOf(ids[1..], id); if rest < 0 then -1 else rest + 1
  }

  /** Newer, or as new and received later. */
  predicate Before(input: Input, a: Snapshot, b: Snapshot)
    requires Compatible(input, a) && Compatible(input, b)
  {
    || a.time.value > b.time.value
    || (a.time.value == b.time.value
        && IndexOf(input.successfulIds, a.id.value) > IndexOf(input.successfulIds, b.id.value))
  }

  /** Stable insertion: behind everything that need not come after it. */
  function Insert(input: Input, snapshot: Snapshot, sorted: seq<Snapshot>): (longer: seq<Snapshot>)
    requires Compatible(input, snapshot) && forall other <- sorted :: Compatible(input, other)
    ensures longer != [] && forall other :: other in longer <==> other == snapshot || other in sorted
    ensures |longer| == |sorted| + 1
  {
    if sorted == [] then [snapshot]
    else if Before(input, snapshot, sorted[0]) then [snapshot] + sorted
    else [sorted[0]] + Insert(input, snapshot, sorted[1..])
  }

  function Sorted(input: Input, found: seq<Snapshot>): (sorted: seq<Snapshot>)
    requires forall snapshot <- found :: Compatible(input, snapshot)
    ensures |sorted| == |found| && forall snapshot :: snapshot in sorted <==> snapshot in found
  {
    if found == [] then []
    else Insert(input, found[|found| - 1], Sorted(input, found[..|found| - 1]))
  }

  /** The parent a backup names, if any; `snapshots` is absent when the listing is no list. */
  function CompatibleResticParent(input: Input, snapshots: Option<seq<Snapshot>>): Option<string> {
    if snapshots.None? then None
    else
      var sorted := Sorted(input, CompatibleOnes(input, snapshots.value));
      if sorted == [] then None
      else
        assert sorted[0] in sorted;
        sorted[0].id
  }

  lemma InsertKeepsFirst(input: Input, snapshot: Snapshot, sorted: seq<Snapshot>)
    requires Compatible(input, snapshot) && forall other <- sorted :: Compatible(input, other)
    requires forall other <- sorted :: !Before(input, other, sorted[0])
    ensures forall other <- Insert(input, snapshot, sorted) ::
              !Before(input, other, Insert(input, snapshot, sorted)[0])
  {
    hide Compatible, IndexOf;
  }

  lemma {:induction false} FirstIsNewest(input: Input, found: seq<Snapshot>)
    requires forall snapshot <- found :: Compatible(input, snapshot)
    ensures forall snapshot <- found :: !Before(input, snapshot, Sorted(input, found)[0])
  {
    hide Compatible, Before;
    if found != [] {
      FirstIsNewest(input, found[..|found| - 1]);
      InsertKeepsFirst(input, found[|found| - 1], Sorted(input, found[..|found| - 1]));
    }
  }

  lemma {:induction false} OnePlanTag(tags: seq<Field>)
    ensures PlanTags(tags) == 0 <==> forall tag <- tags :: !PlanTag(tag)
    ensures PlanTags(tags) <= 1
       <==> forall i, j :: 0 <= i < j < |tags| ==> !PlanTag(tags[i]) || !PlanTag(tags[j])
  {
    hide PlanTag;
    if tags != [] {
      OnePlanTag(tags[1..]);
      assert tags == [tags[0]] + tags[1..];
      assert forall i :: 0 < i < |tags| ==> tags[i] == tags[1..][i - 1];
      assert forall i :: 0 <= i < |tags| - 1 ==> tags[1..][i] == tags[i + 1];
    }
  }

  /** What a parent must be: a whole snapshot of this host and this plan alone, made by some
      backup of the agent, not in the future, of exactly these paths. */
  lemma CompatibleIsOurs(input: Input, snapshot: Snapshot)
    requires Compatible(input, snapshot)
    ensures snapshot.id.value in input.successfulIds && Hex(snapshot.id.value) && Hex(snapshot.tree.value)
    ensures snapshot.hostname == Some(input.hostname) && snapshot.time.value <= input.now
    ensures Some("pluton-plan-" + input.planId) in snapshot.tags.value
    ensures forall tag <- snapshot.tags.value ::
              tag.Some? && "pluton-plan-" <= tag.value ==> tag.value == "pluton-plan-" + input.planId
    ensures exists tag <- snapshot.tags.value :: tag.Some? && "pluton-backup-" <= tag.value && Word(tag.value[14..])
    ensures PathsAccepted(Normalize(input.jobsRoot), input.source, snapshot.paths.value, input.artifacts)
  {
    var tags, plan := snapshot.tags.value, Some("pluton-plan-" + input.planId);
    OnePlanTag(tags);
    hide PathsAccepted, Hex, Word, PlanTags;
    assert "pluton-plan-" <= plan.value && PlanTag(plan);
    var i :| 0 <= i < |tags| && tags[i] == plan;
    forall tag <- tags | tag.Some? && "pluton-plan-" <= tag.value ensures tag == plan {
      var j :| 0 <= j < |tags| && tags[j] == tag;
    }
  }

  lemma OwnTags(planId: string, backupId: string)
    requires Word(backupId)
    ensures PlanTags([Some("pluton-plan-" + planId), Some("pluton-backup-" + backupId)]) == 1
    ensures BackupTag("pluton-backup-" + backupId)
  {
    var plan, backup := "pluton-plan-" + planId, "pluton-backup-" + backupId;
    var tags: seq<Field> := [Some(plan), Some(backup)];
    assert backup[14..] == backupId;
    assert "pluton-plan-" <= plan && PlanTag(Some(plan));
    assert backup[7] == "pluton-backup-"[7] == 'b' && "pluton-plan-"[7] == 'p';
    assert !PlanTag(Some(backup));
    hide PlanTag, Word;
    assert PlanTags([]) == 0 && [Some(backup)][1..] == [] && tags[1..] == [Some(backup)];
    assert PlanTags([Some(backup)]) == 0;
  }

  /** And the snapshot that a backup of this plan makes on this host is such a one, whatever
      the order in which its paths are listed. */
  lemma OwnSnapshotIsCompatible(
    input: Input, id: string, tree: string, time: int, backupId: string, paths: seq<Field>, job: string,
    order: seq<string>)
    requires Hex(id) && Hex(tree) && id in input.successfulIds && time <= input.now && Word(backupId)
    requires forall artifact <- input.artifacts :: !Disguised(artifact)
    requires Rearranged(Normalize(input.jobsRoot), input.source, paths, input.artifacts, job, order)
    ensures Compatible(input, Snapshot(Some(id), Some(tree), Some(input.hostname), Some(time),
                                       Some([Some("pluton-plan-" + input.planId), Some("pluton-backup-" + backupId)]),
                                       Some(paths)))
  {
    var plan, backup := "pluton-plan-" + input.planId, "pluton-backup-" + backupId;
    OwnTags(input.planId, backupId);
    OwnPaths(input, paths, job, order);
    hide Disguised, Rearranged, PathsAccepted, Normalize, PlanTags, Hex, Word, BackupTag;
    var tags: seq<Field> := [Some(plan), Some(backup)];
    assert Some(plan) in tags && Some(backup) in tags;
    TagsAreFine(tags, backup);
  }

  lemma OwnPaths(input: Input, paths: seq<Field>, job: string, order: seq<string>)
    requires forall artifact <- input.artifacts :: !Disguised(artifact)
    requires Rearranged(Normalize(input.jobsRoot), input.source, paths, input.artifacts, job, order)
    ensures PathsAccepted(Normalize(input.jobsRoot), input.source, paths, input.artifacts)
  {
    hide Disguised, Rearranged, PathsAccepted, Normalize;
    AcceptedExactlyWhenRearranged(Normalize(input.jobsRoot), input.source, paths, input.artifacts);
  }

  lemma TagsAreFine(tags: seq<Field>, backup: string)
    requires Some(backup) in tags && BackupTag(backup)
    ensures exists tag <- tags :: tag.Some? && BackupTag(tag.value)
  {
    hide BackupTag;
  }

  /** The chosen parent is a listed, compatible snapshot of which a local receipt exists,
      and no compatible one is newer, or as new with a later receipt; none is chosen exactly
      when none is compatible. */
  lemma ParentIsNewest(input: Input, snapshots: seq<Snapshot>)
    ensures var parent := CompatibleResticParent(input, Some(snapshots));
            && (parent.None? <==> forall snapshot <- snapshots :: !Compatible(input, snapshot))
            && (parent.Some? ==>
                  && parent.value in input.successfulIds
                  && exists chosen <- snapshots ::
                       && Compatible(input, chosen) && chosen.id == parent
                       && forall other <- snapshots :: Compatible(input, other) ==>
                            && other.time.value <= chosen.time.value
                            && (other.time == chosen.time ==>
                                  IndexOf(input.successfulIds, other.id.value)
                                  <= IndexOf(input.successfulIds, chosen.id.value)))
  {
    var found := CompatibleOnes(input, snapshots);
    FirstIsNewest(input, found);
    hide PathsAccepted, Hex, BackupTag, PlanTags, IndexOf;
    var sorted := Sorted(input, found);
    if sorted != [] {
      assert sorted[0] in sorted && sorted[0] in snapshots && Compatible(input, sorted[0]);
    }
  }

  /** Where an id stands among the eligible ones, the oldest receipt first. */
  lemma {:induction false} IndexIsFirst(ids: seq<string>, id: string)
    ensures id in ids ==> 0 <= IndexOf(ids, id) < |ids| && ids[IndexOf(ids, id)] == id
    ensures id !in ids ==> IndexOf(ids, id) == -1
    ensures forall k :: 0 <= k < IndexOf(ids, id) ==> ids[k] != id
  {
    if ids != [] {
      IndexIsFirst(ids[1..], id);
      assert ids == [ids[0]] + ids[1..];
    }
  }

  ghost predicate Receipted(receipts: seq<Receipt>, id: string) {
    Hex(id) && exists receipt <- receipts :: receipt.success && receipt.snapshotId == Some(id)
  }

  /** Only ids of local, successful receipts are eligible: at most sixteen, once each, and
      all of them when there are no more. */
  lemma EligibleIdsAreReceipted(receipts: seq<Receipt>)
    ensures var ids := SuccessfulSnapshotIds(receipts);
            && |ids| <= 16
            && (forall i, j :: 0 <= i < j < |ids| ==> ids[i] != ids[j])
            && (forall id <- ids :: Receipted(receipts, id))
            && (|Distinct(Reported(receipts))| <= 16 ==> forall id :: Receipted(receipts, id) ==> id in ids)
  {
    DistinctIds(Reported(receipts));
    ReportedIds(receipts);
    hide Receipted, Reported, Distinct;
    var all, ids := Distinct(Reported(receipts)), SuccessfulSnapshotIds(receipts);
    forall id <- ids ensures id in all {
      var i :| 0 <= i < |ids| && ids[i] == id;
      assert all[|all| - |ids| + i] == id;
    }
  }

  lemma {:induction false} DistinctIds(ids: seq<string>)
    ensures forall id :: id in Distinct(ids) <==> id in ids
    ensures forall i, j :: 0 <= i < j < |Distinct(ids)| ==> Distinct(ids)[i] != Distinct(ids)[j]
  {
    if ids != [] {
      DistinctIds(ids[..|ids| - 1]);
      assert ids == ids[..|ids| - 1] + [ids[|ids| - 1]];
    }
  }

  lemma {:induction false} ReportedIds(receipts: seq<Receipt>)
    ensures forall id :: id in Reported(receipts) <==> Receipted(receipts, id)
  {
    hide Hex;
    if receipts != [] {
      ReportedIds(receipts[1..]);
      assert receipts == [receipts[0]] + receipts[1..];
    }
  }

  // ---- when the paths are normalized anyway ----

  predicate PlainPart(part: string) { part != "" && part != "." && part != ".." }

  lemma {:induction false} PlainIsResolved(parts: seq<string>)
    requires forall part <- parts :: PlainPart(part)
    ensures Resolved([""] + parts, false) == parts
  {
    if parts == [] {
      assert Resolved([""][..0], false) == [];
      assert [""] + parts == [""];
    } else {
      var init := parts[..|parts| - 1];
      PlainIsResolved(init);
      assert ([""] + parts)[..|parts|] == [""] + init;
      assert parts[|parts| - 1] in parts;
    }
  }

  lemma PlainIsNormal(path: Path, parts: seq<string>)
    requires Split(path, '/') == [""] + parts && parts != [] && forall part <- parts :: PlainPart(part)
    ensures Normalize(path) == path
  {
    PlainIsResolved(parts);
    JoinOfSplit(path, '/');
    assert ([""] + parts)[1..] == parts;
    assert path == "/" + Join(parts, '/');
    LastOfTrailing(path);
    hide Resolved, Join;
    assert parts[|parts| - 1] in parts;
  }

  lemma LastOfTrailing(path: Path)
    ensures path != "" && path[|path| - 1] == '/' ==> Split(path, '/')[|Split(path, '/')| - 1] == ""
  {
    if path != "" && path[|path| - 1] == '/' {
      var init := path[..|path| - 1];
      assert path == init + "/" + "";
      SplitOfConcat(init, "", '/');
    }
  }

  /** Below a workspace root in its accepted spelling, an artifact of plain names lies under
      a normalized path. */
  lemma PlacedIsNormal(root: Path, job: string, artifact: string)
    requires Lexical(root) && root != "/" && JobName(job)
    requires forall part <- Split(artifact, '/') :: PlainPart(part)
    ensures Normalize(Placed(root, job, artifact)) == Placed(root, job, artifact)
  {
    hide Normalize, Lexical, JobName;
    PartsOfPlaced(root, job, artifact);
    LexicalParts(root);
    JobNameIsLong(job);
    var parts := Split(root, '/')[1..] + [job] + Split(artifact, '/');
    assert [""] + parts == Split(root, '/') + [job] + Split(artifact, '/');
    hide Placed;
    PlainIsNormal(Placed(root, job, artifact), parts);
  }

  lemma PartsOfPlaced(root: Path, job: string, artifact: string)
    requires JobName(job)
    ensures Split(Placed(root, job, artifact), '/') == Split(root, '/') + [job] + Split(artifact, '/')
  {
    JobNameIsLong(job);
    hide Split, JobName;
    SplitOfConcat(root + "/" + job, artifact, '/');
    SplitOfConcat(root, job, '/');
    SplitOfPlain(job, '/');
  }

  lemma LexicalParts(root: Path)
    requires Lexical(root) && root != "/"
    ensures Split(root, '/')[0] == "" && forall part <- Split(root, '/')[1..] :: PlainPart(part)
  {
  }

  // ---- and exactly which artifacts are safe ----

  lemma {:induction false} ScanCounts(
    root: Path, source: Path, items: seq<Field>, remaining: set<string>, workspace: Option<string>)
    requires Scan(root, source, items, remaining, workspace)
    ensures |Others(source, items)| == |remaining|
  {
    hide PlaceOf;
    if items == [] {
    } else if items[0] == Some(source) {
      ScanCounts(root, source, items[1..], remaining, workspace);
    } else {
      var place := PlaceOf(root, items[0]).value;
      ScanCounts(root, source, items[1..], remaining - {place.artifact}, Some(place.job));
    }
  }

  /** An artifact listed twice is never accepted. */
  lemma DuplicatesAreRefused(root: Path, source: Path, paths: seq<Field>, artifacts: seq<string>)
    requires PathsAccepted(root, source, paths, artifacts)
    ensures NoDuplicates(artifacts)
  {
    hide Scan, Others;
    ScanCounts(root, source, paths, Elements(artifacts), None);
    OthersCount(source, paths);
  }

  predicate PlainArtifact(artifact: string) { forall part <- Split(artifact, '/') :: PlainPart(part) }

  /** Paths below the workspace root, none of them the source. */
  lemma {:induction false} NoneIsSource(source: Path, items: seq<Field>)
    requires forall item <- items :: item != Some(source)
    ensures Others(source, items) == items
  {
    if items != [] {
      assert items[0] in items && items == [items[0]] + items[1..] && forall item <- items[1..] :: item in items;
      NoneIsSource(source, items[1..]);
    }
  }

  lemma PlacedIsBelow(root: Path, source: Path, job: string, artifact: string)
    requires !(root + "/" <= source)
    ensures Placed(root, job, artifact) != source
  {
    assert Placed(root, job, artifact) == root + "/" + (job + "/" + artifact);
  }

  lemma {:induction false} ScanPlaced(root: Path, source: Path, job: string, order: seq<string>)
    requires Lexical(root) && root != "/" && JobName(job) && !(root + "/" <= source)
    requires NoDuplicates(order) && forall artifact <- order :: PlainArtifact(artifact)
    ensures Scan(root, source, Paths(root, job, order), Elements(order), Some(job))
  {
    hide JobName, Lexical, Placed, PlaceOf, Normalize;
    var paths := Paths(root, job, order);
    if order != [] {
      var first, rest := order[0], order[1..];
      assert order == [first] + rest;
      PathsOfLonger(root, job, first, rest);
      FirstIsNew(order);
      ElementsOfLonger(first, rest);
      assert Elements(order) - {first} == Elements(rest);
      ScanPlaced(root, source, job, rest);
      PlacedIsNormal(root, job, first);
      PlaceOfPlaced(root, job, first);
      PlacedIsBelow(root, source, job, first);
      assert paths[0] == Some(Placed(root, job, first)) && paths[1..] == Paths(root, job, rest);
    }
  }

  /** A disguised artifact directly under the root is taken for one in a workspace. */
  lemma DisguisedPlace(root: Path, artifact: string)
    requires Lexical(root) && root != "/" && Disguised(artifact) && PlainArtifact(artifact)
    ensures PlaceOf(root, Some(root + "/" + artifact)) == Some(Place(artifact[..|artifact| - 1], artifact))
  {
    SplitOfPlain(artifact, '/');
    SplitOfConcat(root, artifact, '/');
    LexicalParts(root);
    var parts := Split(root, '/')[1..] + [artifact];
    var path := root + "/" + artifact;
    assert Split(path, '/') == [""] + parts;
    hide Normalize, JobName, Lexical;
    PlainIsNormal(path, parts);
    SlashFound(artifact);
    assert path[|root| + 1..] == artifact && artifact[0..] == artifact;
  }

  lemma NotPlaced(root: Path, job: string, artifact: string, other: string)
    requires '/' !in other
    ensures root + "/" + other != Placed(root, job, artifact)
  {
    var path, k := root + "/" + other, |root| + 1 + |job|;
    assert Placed(root, job, artifact)[k] == '/';
    assert k < |path| ==> path[k] == other[|job|] && other[|job|] in other;
  }

  lemma WithoutOne(artifacts: seq<string>, i: nat) returns (rest: seq<string>)
    requires NoDuplicates(artifacts) && i < |artifacts|
    ensures NoDuplicates(rest) && Elements(rest) == Elements(artifacts) - {artifacts[i]} && |rest| == |artifacts| - 1
  {
    rest := artifacts[..i] + artifacts[i + 1..];
    forall other: string ensures other in Elements(rest) <==> other in Elements(artifacts) && other != artifacts[i] {
      OnceEach(artifacts, artifacts[i]);
      assert artifacts == artifacts[..i] + [artifacts[i]] + artifacts[i + 1..];
      assert multiset(artifacts) == multiset(rest) + multiset{artifacts[i]};
      assert other in rest <==> other in multiset(rest);
      assert other in artifacts <==> other in multiset(artifacts);
      if other != artifacts[i] {
        assert multiset(artifacts)[other] == multiset(rest)[other];
      } else {
        assert multiset(rest)[other] == 0;
      }
    }
    InItself(artifacts, i);
    assert Elements(rest) == Elements(artifacts) - {artifacts[i]};
  }

  /** Paths that are accepted although one artifact lies outside every workspace. */
  lemma DisguisedIsMistaken(root: Path, source: Path, artifacts: seq<string>, i: nat) returns (paths: seq<Field>)
    requires Lexical(root) && root != "/" && !(root + "/" <= source)
    requires NoDuplicates(artifacts) && forall artifact <- artifacts :: PlainArtifact(artifact)
    requires i < |artifacts| && Disguised(artifacts[i])
    ensures PathsAccepted(root, source, paths, artifacts) && !IsRearranged(root, source, paths, artifacts)
  {
    hide Lexical, JobName, PlainArtifact, PlaceOf, Placed, Normalize, Elements;
    var disguised := artifacts[i];
    var job, item: Field := disguised[..|disguised| - 1], Some(root + "/" + disguised);
    var rest := WithoutOne(artifacts, i);
    forall artifact <- rest ensures artifact in artifacts {
      InElements(rest, artifacts, artifact);
    }
    assert disguised in Elements(artifacts) by { InItself(artifacts, i); }
    var placed := Paths(root, job, rest);
    ScanPlaced(root, source, job, rest);
    DisguisedPlace(root, disguised);
    var others := [item] + placed;
    paths := [Some(source)] + others;
    assert paths[1..] == others && others[1..] == placed && others[0] == item;
    assert item != Some(source);
    assert Scan(root, source, others, Elements(artifacts), None);
    assert Scan(root, source, paths, Elements(artifacts), None);
    forall other <- others ensures other != Some(source) {
      if k: nat :| k < |rest| && other == placed[k] {
        PlacedIsBelow(root, source, job, rest[k]);
      }
    }
    NoneIsSource(source, others);
    OthersCount(source, paths);
    if order: seq<string>, name: string :| Rearranged(root, source, paths, artifacts, name, order) {
      assert Paths(root, name, order)[0] == item;
      NotPlaced(root, name, order[0], disguised);
    }
  }

  lemma InElements(some: seq<string>, all: seq<string>, artifact: string)
    requires Elements(some) <= Elements(all) && artifact in some
    ensures artifact in all
  {
    assert artifact in Elements(some);
  }

  lemma InItself(artifacts: seq<string>, i: nat)
    requires i < |artifacts|
    ensures artifacts[i] in Elements(artifacts)
  {
  }

  /** For artifacts of plain names and a source outside the workspaces: every list of paths
      is decided correctly if and only if no artifact is disguised, unless one is listed
      twice and nothing is accepted. */
  lemma DecidedExactlyWhenNoneDisguised(root: Path, source: Path, artifacts: seq<string>)
    requires Lexical(root) && root != "/" && !(root + "/" <= source)
    requires forall artifact <- artifacts :: PlainArtifact(artifact)
    ensures (forall paths ::
               PathsAccepted(root, source, paths, artifacts) <==> IsRearranged(root, source, paths, artifacts))
       <==> !NoDuplicates(artifacts) || forall artifact <- artifacts :: !Disguised(artifact)
  {
    hide Lexical, PlainArtifact, Disguised, PathsAccepted;
    if !NoDuplicates(artifacts) {
      forall paths ensures !PathsAccepted(root, source, paths, artifacts) {
        if PathsAccepted(root, source, paths, artifacts) {
          DuplicatesAreRefused(root, source, paths, artifacts);
        }
      }
    } else if i: nat :| i < |artifacts| && Disguised(artifacts[i]) {
      var paths := DisguisedIsMistaken(root, source, artifacts, i);
    } else {
      forall paths
        ensures PathsAccepted(root, source, paths, artifacts) <==> IsRearranged(root, source, paths, artifacts)
      {
        AcceptedExactlyWhenRearranged(root, source, paths, artifacts);
      }
    }
  }
}
