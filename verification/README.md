# Verified model of the backup agent

A Dafny model of the remote agent of this repository (`agent/src`) and proofs of what it
promises about host files, authorization, exclusions and backups. `dafny verify
dfyconfig.toml` checks everything.

| file | models |
|---|---|
| `Text.dfy`, `Wildcards.dfy` | splitting and joining; one declarative wildcard relation, used for characters and for path components |
| `SegmentMatcher.dfy`, `PathMatcher.dfy`, `Exclusions.dfy`, `PatternRules.dfy`, `StarredNames.dfy` | the exclusion engine: the greedy scan of one component, the set of states over a path, parsing and what it accepts, the arguments for Restic, and where the two consumers part |
| `SourceScan.dfy` | the bounded scan of a source tree |
| `SourcePaths.dfy`, `RootPaths.dfy` | source roots, and what their lexical rules come to |
| `HostPolicy.dfy`, `HostChanges.dfy`, `FileChecks.dfy`, `HostLog.dfy` | the host approval file, its writers and readers, what each write changes, and the history of committed policies with its grants and epochs |
| `HostFiles.dfy`, `HostScenarios.dfy` | the host policy under its lock and the mode-setup receipt, as a state machine, and writes that run to their end |
| `Selections.dfy`, `EffectiveRoots.dfy` | one selection, and exactly which roots may be selected and are effective |
| `SelectionFiles.dfy`, `SelectionRuns.dfy`, `EveryRun.dfy`, `Removals.dfy`, `SelectionScenarios.dfy`, `Endings.dfy`, `Recoveries.dfy` | anchor, selection, transaction marker, activity fence and uncertainty latch: the machine and its invariant, what holds over careful and over all runs, when a recovery may remove a marker, and runs and recoveries that end well or badly |
| `Receipts.dfy`, `ProgressDelivery.dfy` | the command loop's receipts and its progress events |
| `StatusRetry.dfy` | the retries of the command status |
| `ResticParent.dfy`, `BackupRun.dfy`, `CredentialFiles.dfy` | the parent snapshot, one whole backup, and the credential files |

Loops and objects are methods and classes proved against functions. The two stores are state
machines on values: one step is one file operation, any number of processes take turns, every
operation may fail, and a process may crash or power be lost between any two. `cached` is what
processes see and `durable` what a power loss leaves; a file's content becomes durable by its
own sync or write-back, a directory entry by syncing the directory, and the system may write
any file back at any time.

What the proofs turned up:

- The scan of one component is exact on a value if and only if the value contains no `*`
  (`ExactOnStarFreeValues`): literals are compared before the star is looked at. So by the
  pattern `*` Restic leaves out a file `*a` and the scan does not (`StarFileDivides`), and the
  two agree on a path for all patterns exactly when it contains no `*`
  (`AgreeExactlyOnStarFreePaths`).
- Parsing exclusions is not idempotent (`ParsedAgain`, `ParsingIsNotIdempotent`).
- An approval on top of delegated roots can exceed the limit that only the reader applies to
  all of them; every later read then refuses the file, and the host stays locked
  (`ApproveIsReadable`, `ApprovalPastTheLimit`, `UndisturbedChangeCommits`).
- `hostPolicy` looks for the lock and reads the file in two steps. A writer that starts in
  between lets a reader return a policy that is never committed
  (`OvertakenReaderSeesUncommitted`). A held lock alone does no harm: a read returns a
  committed policy exactly when no rename shows that its sync has not committed
  (`ReadIsCommittedExactly`).
- `recoverSelection` takes no activity fence. A recovery that outlives the crash it was started
  for can remove the marker of a later apply, and a report then grants a selection that a power
  loss takes back (`OverlappingRecoveryBreaksDurability`). A removal is safe exactly when the
  selection is durable and no apply stands before its rename; after every other one a granted
  version can be lost (`RemovalIsSecureExactlyWhenRemovable`). Durability of grants and
  successes, and one selection and one success per version (`GrantedStaysDurable`,
  `SuccessStands`, `OneSelectionPerVersion`, `OneSuccessPerVersion`), ask just that of each removal, and where no recovery overlaps fenced
  work it holds by itself (`CalmRunsAreCareful`). Anchors, freshness of reports, the grants
  behind effective roots and the repetition of requests hold in every run (`EveryRun.dfy`).
- A selected root stays effective exactly while the grant of its binding is held and governs
  it (`EffectiveExactlyWhileGranted`). An approval that contains a delegated root takes over:
  selections bound to the delegation lose it though nothing was revoked.
- A command can be executed twice after a failed save of its receipt or after an operator
  removed the fence of a crashed run, and within the last hundred completions only then
  (`LostReceiptRepeats`, `ExecutedAgainOnlyWhenForgotten`).
- The parent scan splits a path without a slash so that an artifact named like a job passes
  directly below the jobs root (`DisguisedIsMistaken`). All paths are decided correctly exactly
  when no artifact is so named (`DecidedExactlyWhenNoneDisguised`); those with a slash, as the
  lifecycle makes them, are not.
- Without a lifecycle, a storage configuration that cannot be removed turns a finished backup
  into a failure (`ExecuteFilesystemBackup`).
- A comment in `dumpDatabase` says that credentials must be gone before the post hook starts. A
  removal that fails ends the preparation, but the hook still runs: it meets a credential file
  exactly when a removal failed (`ExecuteFilesystemBackup`, `FailedRemovalMeetsPostHook`).

## Model

| member | source | states |
|---|---|---|
| `SegmentMatcher.SegmentMatches` | agent/src/backupExclusions.ts:47-68 | The loop over one component: an accepted value is one the glob relation describes; for a value without `*` both directions hold; it takes at most (value + 1) * (pattern + value + 1) turns |
| `SegmentMatcher.TurnsAreQuadratic` | agent/src/backupExclusions.ts:55-65 | From any loop state the remaining turns are bounded: the end of the last star's run only grows, and between two fallbacks the scan only moves forward |
| `SegmentMatcher.AcceptsIsSound` | agent/src/backupExclusions.ts:47-68 | Whatever pattern and value, acceptance implies the declarative relation (`*` any run, `?` one character) |
| `SegmentMatcher.AcceptsIsComplete` | agent/src/backupExclusions.ts:60-63 | For values without `*`, retrying only the last star finds every match; a pattern without `*` finds every match on any value |
| `SegmentMatcher.StarInValueIsMissed` | agent/src/backupExclusions.ts:55-60 | For every value that contains `*` there is a pattern it matches and the scan refuses, because literals are compared before the star is looked at |
| `SegmentMatcher.ExactOnStarFreeValues` | agent/src/backupExclusions.ts:47-68 | The scan decides all patterns correctly on a value if and only if the value contains no `*` |
| `SegmentMatcher.StarPatternMissesStarFile` | agent/src/backupExclusions.ts:55-60 | The instance: pattern `*`, value `*a` |
| `PathMatcher.PathMatches` | agent/src/backupExclusions.ts:70-91 | True exactly when some non-empty prefix of the path's components is accepted with `**` standing for any number of components; what it accepts the glob relation describes, and it accepts all of that where the path has no `*` or the pattern none outside `**` |
| `PathMatcher.Expand` | agent/src/backupExclusions.ts:73-77 | Iterating the set while it grows gives its closure under passing over `**`, and nothing else |
| `PathMatcher.Advance` | agent/src/backupExclusions.ts:80-85 | From the states after some components, the states one component later before closure: `**` stays, a matching token moves on |
| `PathMatcher.NextStates` | agent/src/backupExclusions.ts:80-86 | If the state set is exactly the reachable states after k components, it is exactly those after k + 1 |
| `PathMatcher.ReachedInitially` | agent/src/backupExclusions.ts:72-78 | Which states are reachable before the first component |
| `PathMatcher.ReachedNext` | agent/src/backupExclusions.ts:80-86 | Which states one more component makes reachable, in terms of the declarative relation |
| `PathMatcher.NoStateStays` | agent/src/backupExclusions.ts:88 | Once no state is left, none comes back, however the path goes on |
| `PathMatcher.GivingUpIsSound` | agent/src/backupExclusions.ts:88 | So giving up early never loses a match |
| `PathMatcher.PrunesIsDescribed` | agent/src/backupExclusions.ts:70-91 | Whatever the scan accepts the glob reading accepts, and the two agree on components without `*` and for patterns without a single star |
| `PathMatcher.DescendantsArePruned` | agent/src/backupExclusions.ts:87 | A match on a path is a match on everything below it |
| `Exclusions.ParseBackupExclusions` | agent/src/backupExclusions.ts:9-45 | Refuses as a whole or returns every normalized pattern once, in first-seen order |
| `Exclusions.CheckPattern` | agent/src/backupExclusions.ts:18-37 | The checks on one pattern: size, alphabet, no empty or dotted part, at most one `**` once trailing ones are dropped |
| `Exclusions.ParsedAreGood` | agent/src/backupExclusions.ts:22-41 | Every pattern of an accepted list passed those checks |
| `PatternRules.AcceptedExactly` | agent/src/backupExclusions.ts:9-45 | A list is accepted if and only if it has at most 100 items of together at most 16384 code units, none with a control character, and each describes a pattern: at most 512 code units of the alphabet, no empty or dotted component, two stars only as a whole component, and nothing but more of them after a second one |
| `PatternRules.GoodIsDescribed` | agent/src/backupExclusions.ts:18-37 | The parser's checks on one pattern, with its dropped tail and its counting, are exactly that description |
| `Exclusions.ParsedExactly` | agent/src/backupExclusions.ts:9-45 | What an accepted list names: each normalized item and nothing else |
| `Exclusions.ParsedInOrder` | agent/src/backupExclusions.ts:12-44 | In the order in which the items first name them |
| `Exclusions.NormalIsTrimmed` | agent/src/backupExclusions.ts:18 | Normalizing takes away all white space at both ends and then at most one slash |
| `Exclusions.ParsedAgain` | agent/src/backupExclusions.ts:18 | Parsing an accepted pattern again keeps it if and only if it does not end in a blank |
| `Exclusions.ParsingIsNotIdempotent` | agent/src/backupExclusions.ts:18 | `name /` becomes `name ` and that becomes `name` |
| `Exclusions.CompiledExclusions` | agent/src/backupExclusions.ts:95-111 | The compiled filter: false for absolute paths and those that go up, else true exactly when some pattern prunes the path; what a pattern prunes is told by the rows below |
| `Exclusions.ExclusionCoversSubtree` | agent/src/backupExclusions.ts:87-110 | What the filter excludes it excludes with everything below |
| `Exclusions.BareNameMatchesAnyDepth` | agent/src/backupExclusions.ts:98-100 | A pattern without a slash excludes a path exactly when one of its components matches |
| `Exclusions.SlashPatternStartsAtSource` | agent/src/backupExclusions.ts:98-100 | A pattern with a slash excludes a path exactly when it prunes it from the selected source on |
| `Exclusions.SlashPatternMatchesInPlace` | agent/src/backupExclusions.ts:98-110 | Without `**` it excludes exactly the paths whose first components its tokens match one by one: `build/cache` leaves `src/build/cache` alone |
| `Exclusions.SourceResticExclusions` | agent/src/backupExclusions.ts:122-144 | The arguments for Restic: refused exactly for a source that is not absolute, goes up or has a control or wildcard character in it, or for a refused list; else one anchored argument per pattern, in order |
| `Exclusions.AnchorShifts` | agent/src/backupExclusions.ts:143 | A literal source directory in front shifts a pattern below it and changes nothing else |
| `Exclusions.TailDoesNotMatter` | agent/src/backupExclusions.ts:139-142 | Dropping trailing `**` components never changes what is pruned |
| `Exclusions.ArgumentAgrees` | agent/src/backupExclusions.ts:135-143 | One anchored argument, read under the glob relation, excludes a path below the source exactly when its pattern does |
| `Exclusions.SlashArgumentStartsAtSource` | agent/src/backupExclusions.ts:135-143 | The argument of a pattern with a slash excludes, below the source, exactly what the pattern describes from the source on |
| `Exclusions.BareArgumentMatchesAnyDepth` | agent/src/backupExclusions.ts:135-143 | The argument of a bare name excludes exactly the paths with a component it describes |
| `Exclusions.ScanAndResticAgree` | agent/src/backupExclusions.ts:95-144 | For every accepted list and every relative path: what the scan leaves out some Restic argument made from the same list leaves out too, and conversely if the path contains no `*`, or if no pattern of the list does outside its `**` |
| `StarredNames.AgreeExactlyOnStarFreePaths` | agent/src/backupExclusions.ts:95-144 | Scan and Restic agree on a path for every accepted list if and only if the path contains no `*`, for every path of up to 508 characters |
| `StarredNames.StarredPathDivides` | agent/src/backupExclusions.ts:55-60 | For every such path with a `*` an accepted pattern by which Restic leaves the path out and the scan does not |
| `StarredNames.StarFileDivides` | agent/src/backupExclusions.ts:55-60 | The plainest case: the list `*`, a file `*a`, the source `/src` |
| `SourceScan.PreflightSource` | agent/src/filesystemPolicy.ts:156-273 | A scan that reports complete checked exactly the visible entries, once each; any scan checked no more, never one that either list excludes, and never more than was asked for or 10000; the outcome, counts included, is that of the unlimited walk of the tree under limit and clock; a source that is a link, special or unreadable fails as such |
| `SourceScan.ListDirectory` | agent/src/filesystemPolicy.ts:230-270 | Listing one directory keeps the balance of what was checked, what is pending and what is left, and leaves the ending of the walk as it was |
| `SourceScan.EndingIsFirstStop` | agent/src/filesystemPolicy.ts:230-270 | A walk is complete if and only if no entry, excluded ones included, meets a reached limit, a late clock or a fault and no directory was moved, and then reports all its counts; else it ends at the first that does, for that reason, with the counts up to there, the limit before the clock before the fault |
| `SourceScan.TallyCounts` | agent/src/filesystemPolicy.ts:253-260 | The report counts the source and the checked entries, the links among them, and the excluded entries |
| `SourceScan.WalkLooksAtAll` | agent/src/filesystemPolicy.ts:228-262 | An unlimited walk looks at every entry below no excluded one and takes it for what it is: excluded, special, unreadable, a link or checked |
| `SourceScan.WalkLooksAtNothingElse` | agent/src/filesystemPolicy.ts:228-262 | And at nothing else |
| `SourceScan.CompleteMeansReadable` | agent/src/filesystemPolicy.ts:190-210 | A scan reported complete has no special and no unreadable entry among those no exclusion matches |
| `SourceScan.BothListsExclude` | agent/src/filesystemPolicy.ts:253 | The agent's mandatory exclusions count like the user's: together they exclude as one list |
| `SourceScan.NextEntry` | agent/src/filesystemPolicy.ts:242-260 | Each branch for one entry keeps that balance |
| `SourceScan.NothingBelowExcluded` | agent/src/filesystemPolicy.ts:253-256 | Below an excluded entry every entry is excluded itself, so skipping it loses nothing |
| `SourceScan.VisibleIsUnexcluded` | agent/src/filesystemPolicy.ts:228-260 | For every tree, the entries visible to the walk are exactly those of the tree that no exclusion matches, in the same order |
| `RootPaths.WithinIsByComponent` | agent/src/sourceAccessPolicy.ts:74-79 | A root contains a path exactly when its components begin the path's: `/a` contains `/a/b` and not `/ab` |
| `RootPaths.LexicalIsSpelled` | agent/src/sourceAccessPolicy.ts:81-105 | The accepted spelling is exactly what the source's list of refusals leaves over, with posix normalization among them |
| `RootPaths.NonoverlappingIsDisjoint` | agent/src/sourceAccessPolicy.ts:114-119 | Roots do not overlap exactly when no path lies under two of them |
| `RootPaths.AllowedIsApart` | agent/src/sourceAccessPolicy.ts:107-112 | A root that is allowed neither lies in a protected tree nor contains a protected directory, though only the former is checked |
| `RootPaths.AllowedBelow` | agent/src/sourceAccessPolicy.ts:107-112 | What lies below an allowed root is allowed itself |
| `SourcePaths.CoversAreNested` | agent/src/sourceAccessPolicy.ts:74-79 | Of two roots that contain one path, one contains the other |
| `SourcePaths.CoveringIsUnique` | agent/src/sourceAccessPolicy.ts:114-119 | Among non-overlapping roots at most one contains a path, so the first found is that one |
| `SourcePaths.CoveringIgnoresOrder` | agent/src/sourceAccessPolicy.ts:836-855 | So the root an epoch is taken from does not depend on the order of the list |
| `SourcePaths.NonoverlappingCount` | agent/src/sourceAccessPolicy.ts:114-119 | Non-overlapping roots are distinct, so the reader's count of epochs is the count of roots |
| `FileChecks.HostPolicyIsReadExactly` | agent/src/sourceAccessPolicy.ts:656-745 | The reader accepts exactly the host policies with a safe version, roots in the accepted spelling apart from each other and from what is protected, a version in range for each root and no other, and in the second format a named last setup and public delegated roots exactly under server management |
| `FileChecks.SelectionIsReadExactly` | agent/src/sourceAccessPolicy.ts:777-834 | And exactly the selections with a safe version, a request id, such roots or static ones, and an epoch for each root and no other |
| `FileChecks.SetupIsAllowedExactly` | agent/src/sourceAccessPolicy.ts:1279-1340 | A mode setup is allowed if and only if it was prepared for the current policy, its roots are public new ones apart from each other, some exactly under server management, and all roots together are at most 32 |
| `HostPolicy.WrittenIsWellFormed` | agent/src/sourceAccessPolicy.ts:1308-1340 | Every policy either writer produces passes all of the reader's checks but the limit on all roots together |
| `HostPolicy.DelegatedIsWellFormed` | agent/src/sourceAccessPolicy.ts:1308-1340 | The same for a change of the authorization mode alone |
| `HostPolicy.RevokeAndDelegateAreReadable` | agent/src/sourceAccessPolicy.ts:656-755 | Revocations and mode changes are always accepted by the reader |
| `HostPolicy.ApproveIsReadable` | agent/src/sourceAccessPolicy.ts:1400-1417 | An approval is accepted if and only if static, approved and delegated roots together stay within the limit; always when nothing is delegated |
| `HostPolicy.ApprovalPastTheLimit` | agent/src/sourceAccessPolicy.ts:1404 | A concrete approval that the writer accepts and every later read refuses: thirty-two delegated roots and one more |
| `HostChanges.RevokeRemovesExactly` | agent/src/sourceAccessPolicy.ts:1370-1419 | A revocation removes exactly the roots it names, keeps the epochs of the others, and changes nothing else but the version |
| `HostChanges.ApproveAddsExactly` | agent/src/sourceAccessPolicy.ts:1370-1419 | An approval adds exactly the roots it names, the new ones under the version of this write, and keeps the epochs of the others |
| `HostChanges.DelegateReplacesExactly` | agent/src/sourceAccessPolicy.ts:1315-1340 | A mode change replaces mode and delegated roots, all under the version of this write, and no approved root |
| `HostChanges.GrantsAfterRevoke` | agent/src/sourceAccessPolicy.ts:1370-1419 | In terms of grants: a revocation ends those of its roots and no other |
| `HostChanges.GrantsAfterApprove` | agent/src/sourceAccessPolicy.ts:1370-1419 | An approval starts one for each of its roots that had none, and ends none |
| `HostChanges.GrantsAfterDelegate` | agent/src/sourceAccessPolicy.ts:1315-1340 | A mode change ends every delegation and starts those it names |
| `HostChanges.ApproveIsAllowedExactly` | agent/src/sourceAccessPolicy.ts:1370-1406 | An approval is allowed if and only if its roots are new kinds of roots, apart from each other, from static parents and from all approved roots but themselves, within the limit |
| `HostChanges.RevokeIsAllowedExactly` | agent/src/sourceAccessPolicy.ts:1370-1406 | A revocation is allowed if and only if it names approved roots, each once, and static and remaining roots are within the limit |
| `HostChanges.DelegationCanEnd` | agent/src/sourceAccessPolicy.ts:1308-1340 | The operator can always take a delegation back: the change is allowed, readable and leaves no delegation |
| `HostChanges.SortingIgnoresOrder` | agent/src/sourceAccessPolicy.ts:1385-1386 | The roots written depend on which there are, not on how they were listed |
| `HostChanges.SortedAscends` | agent/src/sourceAccessPolicy.ts:1385-1386 | They are written in strictly ascending order |
| `HostChanges.LessIsLexicographic` | agent/src/sourceAccessPolicy.ts:1385-1386 | A proper beginning comes first, else the first character that differs decides |
| `HostLog.VersionIsPosition` | agent/src/sourceAccessPolicy.ts:1315-1340 | The version of a committed policy counts the writes before it |
| `HostLog.RevisionsAreUnique` | agent/src/sourceAccessPolicy.ts:756-770 | No revision recurs among the committed policies |
| `HostLog.GrantIsNewOrKept` | agent/src/sourceAccessPolicy.ts:1327-1339 | A grant in a written policy carries this write's version or was there before |
| `HostLog.GrantIsContinuous` | agent/src/sourceAccessPolicy.ts:1381-1417 | A grant found anywhere has been in every policy since the write that made it |
| `HostLog.EpochIsBounded` | agent/src/sourceAccessPolicy.ts:836-855 | An epoch is positive and at most the version of the policy it is found in |
| `HostLog.OneGrantPerEpoch` | agent/src/sourceAccessPolicy.ts:1327-1339 | Two grants with one epoch that cover one root are the same grant |
| `HostLog.EqualEpochsMeanOneGrant` | agent/src/sourceAccessPolicy.ts:836-855 | A root with equal epochs under two committed policies is covered by one grant that every policy in between holds: revoking and approving again never restores an old epoch |
| `HostLog.GrantForIsHeld` | agent/src/sourceAccessPolicy.ts:836-855 | The grant an epoch is taken from is in the policy and covers the root |
| `HostLog.ApprovedAgainIsNew` | agent/src/sourceAccessPolicy.ts:1381-1417 | Revoking a root and approving it again gives it a later epoch than any binding made before |
| `HostLog.ApprovedAgain` | agent/src/sourceAccessPolicy.ts:1381-1417 | A concrete history that is approved, revoked and approved again |
| `HostFiles.EveryRunIsOk` | agent/src/sourceAccessPolicy.ts:1275-1350 | Over every interleaving, crash, power loss and failing operation: cached and durable policy are the committed one or one write on top of it, and an uncommitted write shows only behind a durable lock |
| `HostFiles.StepKeepsInv` | agent/src/sourceAccessPolicy.ts:1430-1495 | Every single step keeps that invariant |
| `HostFiles.UnlockedMeansCommitted` | agent/src/sourceAccessPolicy.ts:1480-1493 | While the lock file is absent the policy file holds the committed policy |
| `HostFiles.CommitsAreKept` | agent/src/sourceAccessPolicy.ts:1408-1420 | A step leaves the committed policies alone or appends one that follows by an allowed write; no crash takes one back |
| `HostFiles.ShowsExactlyWhenUncommitted` | agent/src/sourceAccessPolicy.ts:1408-1420 | In every run, told from the steps alone: the policy file shows something uncommitted if and only if a rename of it has neither been committed by its sync nor undone by a power loss or an operator's clearing |
| `HostFiles.ReadIsCommittedExactly` | agent/src/sourceAccessPolicy.ts:627-648 | A read returns a committed policy if and only if no such rename shows, whoever holds the lock |
| `HostFiles.UnlockedReadIsCommitted` | agent/src/sourceAccessPolicy.ts:627-634 | While the lock file is absent none shows |
| `HostFiles.CleanReadersSeeCommitted` | agent/src/sourceAccessPolicy.ts:627-648 | In a run in which no read meets such a rename, every policy ever read is in the committed log |
| `HostFiles.OvertakenReaderSeesUncommitted` | agent/src/sourceAccessPolicy.ts:627-648 | A run in which a reader returns a policy that a power loss then takes back before it is committed |
| `HostFiles.RequestChangesPolicyOnce` | agent/src/sourceAccessPolicy.ts:1279-1342 | In any run a mode-setup request accounts for at most one write of the policy |
| `HostFiles.UsedRequestNeverMatches` | agent/src/sourceAccessPolicy.ts:1279-1306 | Once it has, it matches no later policy, even if its receipt is prepared again |
| `HostFiles.ConsumedBeforeWrite` | agent/src/sourceAccessPolicy.ts:1308-1342 | Whenever a mode change is about to rename the policy, the consumption of its receipt is durable |
| `HostScenarios.UndisturbedChangeCommits` | agent/src/sourceAccessPolicy.ts:1366-1427 | An allowed change of the approved roots that nothing disturbs is committed and durable: exactly the roots asked for, kept epochs kept, new ones at the new version, the delegation as it was; the lock stays exactly if the reader refuses the new policy |
| `HostScenarios.UndisturbedSetupCommits` | agent/src/sourceAccessPolicy.ts:1275-1350 | A mode setup whose receipt is prepared, repeated by the operator under the current policy and allowed, is committed and durable: mode and delegated roots as asked for, approved roots as they were, its receipt durably consumed, the lock gone |
| `HostScenarios.UndisturbedSetupIsPrepared` | agent/src/sourceAccessPolicy.ts:1197-1237 | What the server asks for is prepared durably, unless it is prepared or was used already; nothing else changes |
| `HostScenarios.UndisturbedChangeIsRefused` | agent/src/sourceAccessPolicy.ts:1366-1427 | A change of roots under another policy than it names, or one that is not allowed, is refused: the policy stays, the lock goes |
| `HostScenarios.UndisturbedSetupIsRefused` | agent/src/sourceAccessPolicy.ts:1275-1310 | So is a mode change that no prepared request stands for, in every detail, or that is not allowed |
| `HostScenarios.UnconfirmedUnlockIsUndone` | agent/src/sourceAccessPolicy.ts:1480-1495 | An unlock whose sync fails puts the lock back |
| `HostScenarios.UndisturbedReadReturns` | agent/src/sourceAccessPolicy.ts:620-648 | An undisturbed reader returns the committed policy |
| `HostScenarios.ReviewEndsPowerLoss` | agent/src/sourceAccessPolicy.ts:1480-1495 | Whatever a power loss leaves, an operator's review of lock and fence puts the host to rest under the policy that survived |
| `HostScenarios.ClosingReadDecides` | agent/src/sourceAccessPolicy.ts:1420-1493 | The read after a write decides whether the lock is removed |
| `Selections.TargetIsReadable` | agent/src/sourceAccessPolicy.ts:1126-1134 | What apply writes, the reader accepts, as an answer to the request, with every requested root effective under the policy it was bound to |
| `Selections.MaximumHasEpoch` | agent/src/sourceAccessPolicy.ts:1083-1090 | A root within the host's maximum always has an epoch, so binding does not fail for it |
| `Selections.EffectiveRootKeptItsGrant` | agent/src/sourceAccessPolicy.ts:904-923 | A root is effective only if the grant it was bound to is in every policy between the one bound under and the one read |
| `EffectiveRoots.GrantForGoverns` | agent/src/sourceAccessPolicy.ts:836-855 | Outside the static roots the grant an epoch is taken from is the one that is held, contains the root, and, if a delegation, is overridden by no approval |
| `EffectiveRoots.EpochExactlyWithinMaximum` | agent/src/sourceAccessPolicy.ts:836-855 | A root has an epoch if and only if it is within the maximum |
| `EffectiveRoots.StaticRootsAreEffective` | agent/src/sourceAccessPolicy.ts:890-903 | Without a selection exactly the static roots are effective, private ones under server management aside |
| `EffectiveRoots.EffectiveIsByEpoch` | agent/src/sourceAccessPolicy.ts:904-923 | A selected root is effective if and only if its epoch is the one it was bound to, private ones under server management aside; nothing else in the policy has a say |
| `EffectiveRoots.UnrelatedChangeKeepsEffective` | agent/src/sourceAccessPolicy.ts:904-923 | Approving or revoking roots that do not contain a root leaves it effective, or not, as it was |
| `EffectiveRoots.UnrelatedHistoryKeepsEffective` | agent/src/sourceAccessPolicy.ts:904-923 | The same through any history of such changes |
| `EffectiveRoots.EffectiveExactlyWhileGranted` | agent/src/sourceAccessPolicy.ts:904-923 | Over committed histories: a selected root is effective under a policy if and only if the grant of its binding is held there and governs it; a grant held later was held all the time |
| `EffectiveRoots.SelectableExactly` | agent/src/sourceAccessPolicy.ts:949-1003 | A request may be selected if and only if its form is right, it names the current policy, and each root is static, lies below an approved or delegated root, or below a static one as a new root may |
| `EffectiveRoots.EffectiveIsApart` | agent/src/sourceAccessPolicy.ts:904-923 | An effective root outside the static ones is apart from the agent's data and from everything protected |
| `SelectionFiles.EveryCarefulRunIsOk` | agent/src/sourceAccessPolicy.ts:1035-1158 | The invariant of anchor, selection, marker, fence and latch over every run in which recoveries remove a marker only from a durable selection that no apply is about to replace; they may overlap anything otherwise |
| `SelectionFiles.StepKeepsInv` | agent/src/sourceAccessPolicy.ts:1035-1158 | Every step but a careless removal keeps it: each file operation of apply, report and recovery, failing or not, crash, power loss, write-back and a new host policy |
| `SelectionFiles.OtherKeeps` | agent/src/sourceAccessPolicy.ts:857-947 | What one step leaves standing of what another process relies on |
| `SelectionFiles.WriteAdvances` | agent/src/sourceAccessPolicy.ts:1093-1139 | Each operation of apply establishes what the next one needs |
| `SelectionFiles.GrantIsOk` | agent/src/sourceAccessPolicy.ts:881-889 | A report that read the selection before it found no marker grants a settled selection, no older than what was durable when it began |
| `SelectionFiles.SuccessIsOk` | agent/src/sourceAccessPolicy.ts:1140-1147 | A successful apply stands on the selection settled under its version |
| `SelectionFiles.SyncIsFine` | agent/src/sourceAccessPolicy.ts:1516-1531 | Syncing the data directory keeps everything, whoever does it |
| `SelectionFiles.PowerLossKeeps` | agent/src/sourceAccessPolicy.ts:537-583 | Losing every unsynced operation and every process keeps the invariant |
| `SelectionRuns.GrantedStaysDurable` | agent/src/sourceAccessPolicy.ts:881-889 | A granted selection is durable then and ever after: no later crash or power loss brings the store below its version |
| `SelectionRuns.OneSelectionPerVersion` | agent/src/sourceAccessPolicy.ts:1126-1139 | Over a whole run, two grants of one version granted the same selection |
| `SelectionRuns.NothingGrantedWhileUncertain` | agent/src/sourceAccessPolicy.ts:882-889 | While the marker shows, or in a process with the latch set, no step grants and no apply succeeds |
| `SelectionRuns.NothingGrantedUntilRemoved` | agent/src/sourceAccessPolicy.ts:882-889 | Over whole runs: from the moment a marker is durable until an apply or a recovery removes it, no report grants and no apply succeeds, whatever crashes, power losses and repeats come between |
| `SelectionRuns.SuccessStands` | agent/src/sourceAccessPolicy.ts:1140-1147 | The step on which apply succeeds finds its request in both views of the store and no marker, and after a write grants it under the policy it named |
| `SelectionRuns.OneSuccessPerVersion` | agent/src/sourceAccessPolicy.ts:1070-1082 | Two successful requests never name the same expected version; what succeeded is at most the durable version, and is the durable selection if it names it |
| `SelectionRuns.RecoveryChangesNoSelection` | agent/src/sourceAccessPolicy.ts:1533-1582 | No step of a recovery changes the selection or the anchor, nor starts to write them |
| `SelectionRuns.OnlyApplyChangesSelection` | agent/src/sourceAccessPolicy.ts:1119-1134 | Only an apply that has passed its checks does |
| `SelectionRuns.EverySelectionIsReadable` | agent/src/sourceAccessPolicy.ts:814-833 | In every run the selection file, cached and durable, is one the reader accepts |
| `EveryRun.EveryRunHolds` | agent/src/sourceAccessPolicy.ts:1035-1158 | Over every run, careless recoveries included: what shows is never older than what is durable and was bound to a committed policy, one process at most is inside the fence, and no report has seen anything older than what was durable when it began |
| `EveryRun.AnchorStays` | agent/src/sourceAccessPolicy.ts:1119-1124 | A durable anchor stays, and shows, through every crash, power loss and recovery |
| `EveryRun.ReportsAreFresh` | agent/src/sourceAccessPolicy.ts:777-790 | In every run: a report grants no less than was durable at its start, and never the static roots if the anchor was durable then |
| `EveryRun.EffectiveRootsKeptTheirGrant` | agent/src/sourceAccessPolicy.ts:904-927 | Over every run: a root effective in a granted selection is under a grant that stayed in the host policy continuously between binding and report |
| `EveryRun.EffectiveInEveryRun` | agent/src/sourceAccessPolicy.ts:904-927 | Over every run, which selected roots a report makes effective: exactly those whose grant at the binding is held and governs in the policy reported on |
| `EveryRun.EffectiveRootsAreApart` | agent/src/sourceAccessPolicy.ts:904-927 | Over every run, effective roots outside the static ones are apart from the agent's data and the protected trees, and name no private directory under server management |
| `EveryRun.RepeatChangesNothing` | agent/src/sourceAccessPolicy.ts:1035-1053 | In every run, each step of a repeated request that is already applied changes neither view of any file and goes on reading or straight to leaving the fence |
| `EveryRun.StepHolds` | agent/src/sourceAccessPolicy.ts:1497-1583 | Every step keeps that invariant, with no condition on removals of a marker |
| `Removals.RemovalIsSecureExactlyWhenRemovable` | agent/src/sourceAccessPolicy.ts:1497-1514 | A recovery's removal of the marker, in any state of the invariant under a host policy readers accept: no careful continuation ever leaves the durable selection below a granted version if and only if the selection is durable and no process stands before its rename |
| `Removals.NextRemovalIsSecureExactlyWhenRemovable` | agent/src/sourceAccessPolicy.ts:1533-1582 | The same for the next removal after any careful run |
| `Removals.RemovableIsSecure` | agent/src/sourceAccessPolicy.ts:1497-1514 | The half that needs no policy: such a removal is followed by no loss |
| `Removals.UnremovableLosesAGrant` | agent/src/sourceAccessPolicy.ts:881-889 | After any other removal there is a continuation in which a report grants a version that a power loss takes back |
| `Removals.CalmRunsAreCareful` | agent/src/sourceAccessPolicy.ts:1533-1582 | Where no recovery overlaps fenced work, every removal meets the condition by itself |
| `SelectionScenarios.UndisturbedApplySucceeds` | agent/src/sourceAccessPolicy.ts:1035-1147 | From a store at rest, a request that may be selected and names the current version succeeds if nothing disturbs it: its roots durable under the next version, no marker, no fence, the store at rest |
| `SelectionScenarios.RepeatSucceeds` | agent/src/sourceAccessPolicy.ts:1035-1053 | Repeating it then succeeds too and leaves every file as it was |
| `Endings.UndisturbedReportEnds` | agent/src/sourceAccessPolicy.ts:857-947 | An undisturbed report grants if and only if policy and selection can be read and neither marker nor latch is in the way: the policy and the selection that are there |
| `Endings.UndisturbedApplyEnds` | agent/src/sourceAccessPolicy.ts:1035-1147 | From a store at rest every request comes to one of three ends: applied before, it succeeds and changes nothing; due and selectable, it is applied; else it is refused and the files stay |
| `Endings.UndisturbedWorkEnds` | agent/src/sourceAccessPolicy.ts:355-407 | Other work inside the fence leaves the files as they were and the fence down |
| `Endings.LatchedExactly` | agent/src/sourceAccessPolicy.ts:537-583 | Over every run: a process is latched if and only if a sync or rename of its own failed since it started or recovered, and then begins no fenced work |
| `Recoveries.UndisturbedRecoveryEnds` | agent/src/sourceAccessPolicy.ts:1533-1583 | A recovery that nothing disturbs: if its checks are met it leaves no marker, everything that showed durable and settled, its latch cleared, and once the fence is cleared the store at rest; if not, everything as it was, the marker in place |
| `Recoveries.OnlyTheNamedIsRecovered` | agent/src/sourceAccessPolicy.ts:1545-1563 | What is recovered is the transaction named by the operator: marker, selection and policy agree on request, version, revision and roots, and every root still has the epoch it was bound to |
| `Recoveries.CrashedApplyIsRecovered` | agent/src/sourceAccessPolicy.ts:1126-1139 | An apply that crashes right behind its rename is completed by a recovery: what was requested is durable and only the fence is left to be cleared |
| `Recoveries.FailedRecoveryIsGuarded` | agent/src/sourceAccessPolicy.ts:1497-1514 | Whatever operations fail, a recovery that has ended leaves the marker in place, or its removal durable, or the process latched |
| `SelectionScenarios.OverlappingRecoveryBreaksDurability` | agent/src/sourceAccessPolicy.ts:1533-1582 | A run in which a recovery, started for one apply, takes the marker of the next one: a report grants version 2 and a power loss brings the store back to version 1 |
| `Receipts.Agent.RunOnce` | agent/src/runtime.ts:72-83 | One poll inside the activity fence has the effect of `After`, whatever fails or crashes; what that is the rows below tell |
| `Receipts.Agent.RunOnceWork` | agent/src/runtime.ts:85-298 | What happens inside the fence, and whether the process dies there |
| `Receipts.RepliesTellTheOutcome` | agent/src/runtime.ts:120-128 | A poll in which all goes well sends one completion: for a command not on record that of its own execution, with its success, its details and one more than its events as number; for another the one saved for it last |
| `Receipts.SavedReportsAPoll` | agent/src/runtime.ts:289-298 | Over every run each receipt saved or sent has command, success, details and number of one of the polls |
| `Receipts.FenceStandsExactly` | agent/src/runtime.ts:72-83 | A poll leaves the fence up if and only if it died at a point it came by, or putting it up or taking it down failed; then no later poll does anything until it is cleared |
| `Receipts.NothingBeforeAcknowledge` | agent/src/runtime.ts:110-133 | A poll that stops before the acknowledgement changes nothing but the fence |
| `Receipts.EveryRunKeepsLog` | agent/src/runtime.ts:60-70 | Whatever goes wrong, the stored log is the last hundred receipts saved, without duplicate ids, and every completion sent is a saved one |
| `Receipts.SavingKeepsOrder` | agent/src/runtime.ts:64-69 | Filtering, appending and cutting to a hundred gives exactly the most recent receipts |
| `Receipts.ExecutedExactlyWhenForgotten` | agent/src/runtime.ts:120-128 | A command is executed if and only if none of the last hundred receipts is its own; otherwise a saved receipt of it is sent unchanged |
| `Receipts.RepliesAgree` | agent/src/runtime.ts:289-298 | Two different completions sent for one command were saved more than a hundred completions apart |
| `Receipts.ExecutedAgainOnlyWhenForgotten` | agent/src/runtime.ts:289-298 | With crashes at any step, no failed save and no fence removed by an operator, a hundred other executions lie between two of one command |
| `Receipts.LostReceiptRepeats` | agent/src/runtime.ts:291-295 | Both conditions are needed: a failed save, or a fence removed after a crash, lets the next poll execute again; the standing fence prevents it |
| `ProgressDelivery.Delivery.Enqueue` | agent/src/progressDelivery.ts:11-14 | Merges the event over the pending one and starts the loop only if it is not running |
| `ProgressDelivery.Delivery.Drain` | agent/src/progressDelivery.ts:21-25 | The head of the loop: end, wait for the interval, or send |
| `ProgressDelivery.Delivery.Send` | agent/src/progressDelivery.ts:25-29 | Takes what is pending, stamps the time and numbers the event |
| `ProgressDelivery.Delivery.Wake` | agent/src/progressDelivery.ts:24-29 | When the timer fires, what is pending by then is sent |
| `ProgressDelivery.Delivery.Settle` | agent/src/progressDelivery.ts:28-36 | A send that ends, well or not, continues the loop |
| `ProgressDelivery.Delivery.Finalize` | agent/src/progressDelivery.ts:15-19 | The end of the loop restarts it if something came in meanwhile |
| `ProgressDelivery.EveryRunIsOk` | agent/src/progressDelivery.ts:11-41 | In every run the sends are merges of consecutive blocks of the enqueued events, paced, numbered, at most one in flight, and nothing is pending unless the loop will see it |
| `ProgressDelivery.NothingIsLost` | agent/src/progressDelivery.ts:12 | The merge of all sent events with what is pending laid over it is the merge of all enqueued events |
| `ProgressDelivery.OneInFlight` | agent/src/progressDelivery.ts:13 | At most one send has not settled, and pending events never meet an idle loop |
| `ProgressDelivery.DrainIsPunctual` | agent/src/progressDelivery.ts:21-29 | What is pending is sent at once when nothing was sent yet or the interval is over, else the timer is set for just then |
| `ProgressDelivery.FlushIsNearer` | agent/src/progressDelivery.ts:16-19 | Until the loop has ended exactly one continuation is due, and each brings the end nearer |
| `ProgressDelivery.FlushReturns` | agent/src/progressDelivery.ts:39-41 | From any point of a run flush returns after at most four continuations |
| `ProgressDelivery.AfterFlush` | agent/src/runtime.ts:289-290 | After flush everything enqueued has been sent and settled, the events are numbered 1 to n and the counter stands at n, sends a full interval apart |
| `StatusRetry.Client.ReadCommandStatus` | agent/src/client.ts:155-248 | The loop returns the outcome of `Asked`, told below in terms of the answers, and never reaches the error behind it; the lease table changes for this command alone and only on an accepted reply |
| `StatusRetry.CallFollowsAnswers` | agent/src/client.ts:155-248 | A whole call, told by answers and times: each attempt ends as it was answered; it says whether to cancel if and only if the answer came in time and its lease is acceptable, and then says what the server said; another attempt follows exactly after 429, a 5xx, a timeout or a network failure, after 250 and then 750 milliseconds, inside budget and lease; the lease known afterwards is the accepted one, or a minute from the second it was asked for, or the one before |
| `StatusRetry.AttemptAnswers` | agent/src/client.ts:176-230 | One attempt: how long it waits, and which error an answer that is not accepted is reported as |
| `StatusRetry.OnceIsSound` | agent/src/client.ts:162-246 | One round, whatever the server does: the attempt lies inside budget and lease, and is repeated exactly when it may be |
| `StatusRetry.CallIsBounded` | agent/src/client.ts:155-175 | At most three attempts, over within 15000 milliseconds, no attempt starts or ends beyond the known lease, and none is made exactly when the lease is over |
| `StatusRetry.StaysInside` | agent/src/client.ts:163-175 | The same bounds from any attempt on |
| `StatusRetry.RetriesExactlyWhenItMay` | agent/src/client.ts:231-246 | Another attempt follows exactly after one of the four retryable failures with an attempt left and its start inside budget and lease, after the fixed delay; the call ends as its last attempt did |
| `ResticParent.ScanPaths` | agent/src/resticParent.ts:82-104 | The loop that takes artifacts away computes the scan of all paths |
| `ResticParent.AcceptedExactlyWhenRearranged` | agent/src/resticParent.ts:76-104 | Unless an artifact is disguised as a job, the paths are accepted if and only if they are the source once and every artifact once, in any order, under one job, each path normalized; duplicate artifacts are never accepted |
| `ResticParent.DisguisedArtifactIsAccepted` | agent/src/resticParent.ts:92-100 | An artifact without a slash, named like a job but for its last character, is accepted directly under the jobs root |
| `ResticParent.DecidedExactlyWhenNoneDisguised` | agent/src/resticParent.ts:76-104 | For artifacts of plain names, none listed twice, and a source outside the workspaces: all lists of paths are decided correctly if and only if no artifact is disguised |
| `ResticParent.DisguisedIsMistaken` | agent/src/resticParent.ts:92-100 | With a disguised artifact anywhere in the list, paths that are accepted although no job holds them all |
| `ResticParent.DuplicatesAreRefused` | agent/src/resticParent.ts:82-104 | If an artifact is listed twice, no paths are accepted |
| `ResticParent.PlacedIsNormal` | agent/src/resticParent.ts:86-91 | Below a jobs root in accepted spelling, artifacts of plain names always lie under normalized paths |
| `ResticParent.ParentIsNewest` | agent/src/resticParent.ts:50-112 | The parent is a listed compatible snapshot with a local receipt, none compatible is newer or as new with a later receipt, and there is none exactly when none is compatible |
| `ResticParent.CompatibleIsOurs` | agent/src/resticParent.ts:50-76 | A compatible snapshot is a whole one of this host and this plan alone, made by a backup of the agent, not in the future, of accepted paths |
| `ResticParent.OwnSnapshotIsCompatible` | agent/src/resticParent.ts:50-104 | And the snapshot that a backup of this plan makes on this host is compatible, whatever the order of its paths |
| `ResticParent.EligibleIdsAreReceipted` | agent/src/resticParent.ts:22-37 | Eligible ids come from successful receipts, at most sixteen, once each |
| `BackupRun.ExecuteFilesystemBackup` | agent/src/backupFilesystem.ts:1355-1825 | Over every script of answers: Restic's backup starts only if the repository was asked for and lacks this snapshot, a named pre-backup hook has run, every named database has been dumped in order, the server was asked once more, no credential file is left, a repository that may be made has opened or been made, a parent was looked for where there are receipts, the latest verification is good with no failed parent lookup since, and the source check came right before; nothing is asked for that the payload does not name; a post hook that is named runs once a job was made; init only when asked for, after a repository that does not open and an empty or missing target; with a lifecycle, success if and only if the snapshot was confirmed, whatever hooks and clean-up do; a credential file that could not be removed fails the backup, and a post hook meets one if and only if a removal failed; without one also only if the storage configuration could be removed |
| `BackupRun.Operate` | agent/src/backupFilesystem.ts:1409-1804 | The body before clean-up: a result exactly when the snapshot is confirmed, and exactly when no answer was unfavourable |
| `BackupRun.WriteSnapshot` | agent/src/backupFilesystem.ts:1552-1803 | The repository is opened or made and verified before anything is written; a result exactly when the snapshot is confirmed |
| `BackupRun.RunRestic` | agent/src/backupFilesystem.ts:1706-1803 | From a verified repository: the last source check, the snapshot and its confirmation; anything less leaves no result |
| `BackupRun.EnsureManagedRepository` | agent/src/backupFilesystem.ts:979-1056 | A repository is made only where the listing was empty or the directory missing |
| `BackupRun.Initialize` | agent/src/backupFilesystem.ts:1031-1055 | An initialization that failed is accepted exactly if the repository opens afterwards |
| `BackupRun.VerifyAndFindParent` | agent/src/backupFilesystem.ts:1573-1705 | Goes on only verified |
| `BackupRun.SeekParent` | agent/src/backupFilesystem.ts:1594-1705 | A parent lookup that failed without a verdict on the repository is followed by another verification; any other failure stops the backup |
| `BackupRun.PrepareJob` | agent/src/backupLifecycle.ts:231-252 | Goes on only with the named hook run, every named database dumped and every credential file gone |
| `BackupRun.DumpDatabase` | agent/src/backupLifecycle.ts:254-435 | A dump counts only when it was made, found good and its credential file is gone; at worst that one file is left, exactly when its removal failed |
| `BackupRun.CleanUpJob` | agent/src/backupLifecycle.ts:437-465 | Runs the post hook first, with no credential file left exactly when no removal of one failed; asks for the workspace's removal last, and where that worked none is left |
| `BackupRun.FailedRemovalMeetsPostHook` | agent/src/backupLifecycle.ts:420-432 | A script in which the removal of a credential file fails: the backup fails, and the post hook runs while the file may still be there |
| `BackupRun.WarningsTell` | agent/src/backupLifecycle.ts:437-465 | The warnings of a backup are exactly the failures of its post hook and of its clean-up |
| `BackupRun.MetOnlyIfLeft` | agent/src/backupLifecycle.ts:420-421 | In every safe trace a post hook that meets a credential file follows a failed removal |
| `CredentialFiles.PasswordFileRoundTrip` | agent/src/backupLifecycle.ts:47-55 | The PostgreSQL password line is read back as the fields it was made of |
| `CredentialFiles.DefaultsValueRoundTrip` | agent/src/backupLifecycle.ts:65-77 | A MySQL option value is read back as it was, ending at its closing quote |

## Left out

- `SourceAccessPolicy` as a class with methods that update fields: what matters there is how its
  methods interleave between two file operations, so each operation is a step on values; the
  uncertainty latches are `latched`, and where a method stands is its `Pc`.
- HTTP, TLS, signatures and process spawning: their outcomes are inputs; hashes are injective,
  so a revision is the tuple that is hashed.
- POSIX ownership and modes, symbolic link resolution and the inventory: inputs, or passed over
  where they only add refusals. A report's check that an effective root still resolves to
  itself can only remove roots.
- JSON text, file sizes and temporary files: a file holds a value or is absent; the marker alone
  may be torn.
- The Unicode classes of the pattern alphabet: a predicate `letter`, for all its meanings.
- What Restic itself makes of its exclude arguments: they are read under the same wildcard
  relation as the scan's patterns.
- StarredNames.AgreeExactlyOnStarFreePaths: for paths of names as a directory listing has them
  and of at most 508 characters, since the pattern that tells the two consumers apart is up to
  four characters longer than the path and patterns end at 512.
- SelectionFiles.EveryCarefulRunIsOk: assumes of each removal of a marker by a recovery what
  `Removable` says. `recoverSelection` does not check it; `RemovalIsSecureExactlyWhenRemovable`
  proves that nothing less will do, for one removal under a host policy that readers accept.
- SourceScan.PreflightSource: the clock is asked once per entry, as a function of the entries
  looked at so far; that it does not go back is not needed.
- The host policy is read in one step in `SelectionFiles`: that a read yields a committed policy
  is proved in `HostFiles`, under the condition stated there.
- The two reports with which apply begins are one there: nothing that the first one grants is
  used by the second, and both are made inside the fence.
- The operator's removal of a lock or fence is a step that waits until no process holds it and,
  for the host lock, until the policy file is durable.
- Static roots are fixed configuration, listed once each.
- Power loss in the command loop: the receipt file is renamed without a sync, so its claims are
  about process crashes. The loop's platform is Linux; elsewhere it has no fence.
- The one request in flight per command in `commandStatus`, and clocks that move during code:
  in `StatusRetry` only requests and sleeps take time.
- Timers fire no earlier than asked and the clock does not go back, in `ProgressDelivery`.
- Which arguments Restic is given in a backup, other than exclusions and the parent.
- The wildcard `*` of the PostgreSQL password file, which the source says is never an input,
  and lines with line breaks, which are refused before.
- The answers `validate` gives for each root of a source request, of which only whether all are
  approved matters here; provider texts and their classification, the upgrade hold,
  the backend, the frontend and the deployment scripts.
