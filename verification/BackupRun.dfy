/**
  One filesystem backup over every answer its tools, its checks and its clean-up may give
  (agent/src/backupFilesystem.ts:790-845, 979-1056, 1355-1825;
  agent/src/backupLifecycle.ts:81-107, 231-252, 254-465).
 */
module BackupRun {
  import opened SourcePaths

  /** What the backup asks of the outside, in the words of the source. `Validate` is all that
      comes before the temporary storage configuration. */
  datatype Call =
    | Validate | MakeTemporary | Lookup
    | CreateJob | PreHook | MakeDirectories
    | MakeClientHome(n: nat) | WriteCredentials(n: nat) | Dump(n: nat) | RemoveCredentials(n: nat)
    | Status
    | Probe | Listing | Init | Reprobe
    | Verify | FindParent | ParentStatus
    | Recheck | Backup | Confirm
    | PostHook | RemoveWorkspace | RemoveTemporary

  /** `Works` is success, or yes; `Declines` an answer that is not an error in itself, such as
      no such snapshot; `Breaks` an error. `Exits` is how the target listing ended: its exit
      code, whether it printed nothing, and whether its failure was classified. */
  datatype Answer = Works | Declines | Breaks | Exits(code: int, silent: bool, classified: bool)

  datatype Event = Event(call: Call, answer: Answer)

  type Trace = seq<Event>

  /** The answer to the n-th call. */
  type Script = nat -> Answer

  datatype Lifecycle = Lifecycle(preHook: bool, postHook: bool, databases: nat)

  datatype Payload = Payload(initialize: bool, lifecycle: Option<Lifecycle>, receipts: bool)

  datatype Warning = PostBackup | Cleanup

  datatype Outcome = Success(warnings: seq<Warning>) | Failure

  /** The target holds nothing: an empty listing, or the exit code for a missing directory. */
  predicate EmptyOrMissing(answer: Answer) {
    answer.Exits? && answer.silent && (answer.code == 0 || (answer.code == 3 && !answer.classified))
  }

  // ---- what a trace has come to ----

  /** The latest repository verification succeeded, and no parent lookup failed since. */
  predicate Verified(trace: Trace) {
    trace != [] &&
      var last := trace[|trace| - 1];
      if last.call.Verify? then last.answer.Works?
      else if last.call.FindParent? then last.answer.Works? && Verified(trace[..|trace| - 1])
      else Verified(trace[..|trace| - 1])
  }

  /** Database credential files that may be on disk: even a failed write may leave one. */
  function Credentials(trace: Trace): set<nat> {
    if trace == [] then {}
    else
      var before, last := Credentials(trace[..|trace| - 1]), trace[|trace| - 1];
      match last.call
      case WriteCredentials(n) => before + {n}
      case RemoveCredentials(n) => if last.answer.Works? then before - {n} else before
      case RemoveWorkspace => if last.answer.Works? then {} else before
      case _ => before
  }

  /** Some credential file that had been written could not be removed when its dump ended. */
  predicate LeftBehind(trace: Trace) {
    trace != [] &&
      var before, last := trace[..|trace| - 1], trace[|trace| - 1];
      LeftBehind(before)
      || (last.call.RemoveCredentials? && !last.answer.Works? && last.call.n in Credentials(before))
  }

  /** The credential files are gone exactly when no removal failed. */
  predicate Accounted(trace: Trace) { Credentials(trace) == {} <==> !LeftBehind(trace) }

  /** Databases whose dump was made and found good. */
  function Dumps(trace: Trace): set<nat> {
    if trace == [] then {}
    else
      var before, last := Dumps(trace[..|trace| - 1]), trace[|trace| - 1];
      if last.call.Dump? && last.answer.Works? then before + {last.call.n} else before
  }

  /** The repository was asked for a snapshot of this backup, and has none. */
  predicate Missing(trace: Trace) {
    trace != [] &&
      var last := trace[|trace| - 1];
      if last.call.Lookup? then last.answer.Declines? else Missing(trace[..|trace| - 1])
  }

  /** The databases a payload names, numbered from one. */
  function Named(payload: Payload): set<nat> {
    if payload.lifecycle.Some? then UpTo(payload.lifecycle.value.databases) else {}
  }

  function UpTo(n: nat): set<nat> { if n == 0 then {} else UpTo(n - 1) + {n} }

  /** Warnings of the clean-up, in order. */
  function Warnings(trace: Trace): seq<Warning> {
    if trace == [] then []
    else
      var before, last := Warnings(trace[..|trace| - 1]), trace[|trace| - 1];
      if last.answer.Works? then before
      else match last.call
        case PostHook => before + [PostBackup]
        case RemoveWorkspace => before + [Cleanup]
        case RemoveTemporary => before + [Cleanup]
        case _ => before
  }

  /** An answer that lets the backup go on. The clean-up cannot stop it, and a failed
      initialization is judged by the look that follows. */
  predicate Favourable(event: Event) {
    match event.call
    case Lookup => event.answer.Works? || event.answer.Declines?
    case Probe => event.answer.Works? || event.answer.Declines?
    case FindParent => event.answer.Works? || event.answer.Declines?
    case ParentStatus => !event.answer.Breaks?
    case Listing => EmptyOrMissing(event.answer)
    case Init => true
    case PostHook => true
    case RemoveWorkspace => true
    case RemoveTemporary => true
    case _ => event.answer.Works?
  }

  predicate Blocked(trace: Trace) {
    trace != [] && (!Favourable(trace[|trace| - 1]) || Blocked(trace[..|trace| - 1]))
  }

  /** A hook that is named has run, and run well. */
  predicate Hooked(payload: Payload, trace: Trace) {
    payload.lifecycle.Some? && payload.lifecycle.value.preHook ==> Event(PreHook, Works) in trace
  }

  /** A job was made, its dumps as well, and the server still wants the backup. */
  predicate Prepared(payload: Payload, trace: Trace) {
    && Hooked(payload, trace)
    && (payload.lifecycle.Some? ==> Event(CreateJob, Works) in trace && Event(Status, Works) in trace)
  }

  /** A repository that is to be made where there is none has opened or been made. */
  predicate Opened(payload: Payload, trace: Trace) {
    payload.initialize ==>
      Event(Probe, Works) in trace || Event(Init, Works) in trace || Event(Reprobe, Works) in trace
  }

  /** Where there are local receipts, a parent was looked for; and after a lookup that failed
      the server was asked whether the backup is still wanted. */
  predicate Sought(payload: Payload, trace: Trace) {
    payload.receipts ==>
      || Event(FindParent, Works) in trace
      || ((exists event <- trace :: event.call.FindParent?)
          && exists event <- trace :: event.call.ParentStatus? && !event.answer.Breaks?)
  }

  /** What must have happened before a call, or must be named in the payload: nothing is asked
      for that it does not name. */
  predicate AllowedAfter(payload: Payload, before: Trace, call: Call) {
    match call
    case MakeTemporary => before == [Event(Validate, Works)]
    case Lookup => before == [Event(Validate, Works), Event(MakeTemporary, Works)]
    case CreateJob => payload.lifecycle.Some? && Missing(before)
    case PreHook => payload.lifecycle.Some? && payload.lifecycle.value.preHook
    case Dump(n) => n in Named(payload) && n > 0 && Dumps(before) == UpTo(n - 1) && Hooked(payload, before)
    case Status => Dumps(before) == Named(payload) && Credentials(before) == {} && Hooked(payload, before)
    case Probe => payload.initialize
    case Init =>
      && payload.initialize && |before| >= 2 && before[|before| - 2] == Event(Probe, Declines)
      && before[|before| - 1].call.Listing? && EmptyOrMissing(before[|before| - 1].answer)
    case FindParent => payload.receipts && Verified(before)
    case Backup =>
      && Missing(before) && Verified(before) && Dumps(before) == Named(payload) && Credentials(before) == {}
      && Prepared(payload, before) && Opened(payload, before) && Sought(payload, before)
      && before[|before| - 1] == Event(Recheck, Works)
    case Confirm => payload.lifecycle.Some? && (Backup in Outcomes(before) || Lookup in Outcomes(before))
    case PostHook => payload.lifecycle.Some? && payload.lifecycle.value.postHook && Accounted(before)
    case _ => true
  }

  lemma Grown(payload: Payload, trace: Trace, longer: Trace)
    requires trace <= longer
    ensures Hooked(payload, trace) ==> Hooked(payload, longer)
    ensures Prepared(payload, trace) ==> Prepared(payload, longer)
    ensures Opened(payload, trace) ==> Opened(payload, longer)
    ensures Sought(payload, trace) ==> Sought(payload, longer)
  {
    assert forall event <- trace :: event in longer;
  }

  ghost predicate Safe(payload: Payload, trace: Trace) {
    forall k: nat :: k < |trace| ==> AllowedAfter(payload, trace[..k], trace[k].call)
  }

  predicate Preparatory(call: Call) {
    !call.Lookup? && !call.Backup? && !call.Confirm? && !call.CreateJob? && !call.MakeTemporary?
    && !call.PostHook? && !call.RemoveWorkspace? && !call.RemoveTemporary?
  }

  /** The calls, other than preparations, that were answered with success. */
  function Outcomes(trace: Trace): set<Call> {
    if trace == [] then {}
    else
      var before, last := Outcomes(trace[..|trace| - 1]), trace[|trace| - 1];
      if last.answer.Works? && !Preparatory(last.call) then before + {last.call} else before
  }

  /** A snapshot of this backup is known to be in the repository: with a lifecycle only once
      it has been confirmed there. */
  predicate Confirmed(payload: Payload, trace: Trace) {
    if payload.lifecycle.Some? then Confirm in Outcomes(trace)
    else Backup in Outcomes(trace) || Lookup in Outcomes(trace)
  }

  /** Only preparations were added. */
  ghost predicate Prepares(trace: Trace, longer: Trace) {
    && trace <= longer && Outcomes(longer) == Outcomes(trace) && Warnings(longer) == Warnings(trace)
    && Missing(longer) == Missing(trace)
  }

  /** And no database was touched. */
  ghost predicate Keeps(trace: Trace, longer: Trace) {
    && Prepares(trace, longer) && Credentials(longer) == Credentials(trace) && Dumps(longer) == Dumps(trace)
    && LeftBehind(longer) == LeftBehind(trace)
  }

  lemma OneMore(payload: Payload, trace: Trace, event: Event)
    ensures (trace + [event])[..|trace|] == trace
    ensures Safe(payload, trace) && AllowedAfter(payload, trace, event.call) ==> Safe(payload, trace + [event])
  {
    var longer := trace + [event];
    assert longer[..|trace|] == trace;
    if Safe(payload, trace) && AllowedAfter(payload, trace, event.call) {
      forall k: nat | k < |longer| ensures AllowedAfter(payload, longer[..k], longer[k].call) {
        if k < |trace| {
          assert longer[..k] == trace[..k];
        }
      }
    }
  }

  method Ask(payload: Payload, call: Call, script: Script, trace: Trace) returns (longer: Trace, answer: Answer)
    requires Safe(payload, trace) && AllowedAfter(payload, trace, call)
    ensures longer == trace + [Event(call, answer)] && longer[..|trace|] == trace && Safe(payload, longer)
    ensures answer == script(|trace|)
    ensures LeftBehind(longer) == (LeftBehind(trace)
              || (call.RemoveCredentials? && !answer.Works? && call.n in Credentials(trace)))
    ensures !call.Verify? && !call.FindParent? ==> Verified(longer) == Verified(trace)
    ensures call.Verify? ==> Verified(longer) == answer.Works?
    ensures call.FindParent? ==> Verified(longer) == (answer.Works? && Verified(trace))
    ensures Missing(longer) == if call.Lookup? then answer.Declines? else Missing(trace)
    ensures Dumps(longer) == if call.Dump? && answer.Works? then Dumps(trace) + {call.n} else Dumps(trace)
    ensures Blocked(longer) == (Blocked(trace) || !Favourable(Event(call, answer)))
    ensures Outcomes(longer) == Outcomes(trace) + if answer.Works? && !Preparatory(call) then {call} else {}
    ensures Preparatory(call) || call in {MakeTemporary, Lookup, CreateJob, Backup, Confirm} ==>
              Warnings(longer) == Warnings(trace)
    ensures call.WriteCredentials? ==> Credentials(longer) == Credentials(trace) + {call.n}
    ensures call.RemoveCredentials? ==>
              Credentials(longer) == if answer.Works? then Credentials(trace) - {call.n} else Credentials(trace)
    ensures !call.WriteCredentials? && !call.RemoveCredentials? && !call.RemoveWorkspace? ==>
              Credentials(longer) == Credentials(trace)
  {
    answer := script(|trace|);
    OneMore(payload, trace, Event(call, answer));
    longer := trace + [Event(call, answer)];
  }

  lemma Unconditional(payload: Payload, trace: Trace, call: Call)
    requires call.ParentStatus? || call.Verify? || call.Recheck? || call.MakeDirectories? || call.MakeClientHome?
             || call.WriteCredentials? || call.RemoveCredentials? || call.Listing? || call.Reprobe?
    ensures AllowedAfter(payload, trace, call)
  {
  }

  lemma DumpIsAllowed(payload: Payload, trace: Trace, n: nat)
    requires n in Named(payload) && n > 0 && Dumps(trace) == UpTo(n - 1) && Hooked(payload, trace)
    ensures AllowedAfter(payload, trace, Dump(n))
  {
  }

  /** A dump whose every step works but for the removal of its credential file. */
  predicate FailsToRemove(script: Script, at: nat) {
    script(at).Works? && script(at + 1).Works? && script(at + 2).Works? && !script(at + 3).Works?
  }

  /** The steps of a dump, up to the last: whatever fails may leave the credential file. */
  method MakeDump(payload: Payload, n: nat, script: Script, before: Trace) returns (trace: Trace, ok: bool)
    requires Safe(payload, before) && !Blocked(before)
    requires n in Named(payload) && n > 0 && Dumps(before) == UpTo(n - 1) && Hooked(payload, before)
    ensures Safe(payload, trace) && Prepares(before, trace) && (ok <==> !Blocked(trace))
    ensures Dumps(trace) == if ok then Dumps(before) + {n} else Dumps(before)
    ensures Credentials(before) <= Credentials(trace) <= Credentials(before) + {n}
    ensures LeftBehind(trace) == LeftBehind(before)
    ensures FailsToRemove(script, |before|) ==> ok && |trace| == |before| + 3 && n in Credentials(trace)
  {
    hide Safe, Credentials, Warnings, Verified, Outcomes, Blocked, Dumps, Missing, LeftBehind,
         Hooked, Prepared, Opened, Sought, AllowedAfter, Named, UpTo;
    var answer;
    Unconditional(payload, before, MakeClientHome(n));
    trace, answer := Ask(payload, MakeClientHome(n), script, before);
    ok := answer.Works?;
    if ok {
      Unconditional(payload, trace, WriteCredentials(n));
      trace, answer := Ask(payload, WriteCredentials(n), script, trace);
      ok := answer.Works?;
      if ok {
        Grown(payload, before, trace);
        DumpIsAllowed(payload, trace, n);
        trace, answer := Ask(payload, Dump(n), script, trace);
        ok := answer.Works?;
      }
    }
  }

  /** dumpDatabase: the credential file is removed whether or not the dump worked, and a
      dump only counts when it is gone. */
  method DumpDatabase(payload: Payload, n: nat, script: Script, before: Trace) returns (trace: Trace, ok: bool)
    requires Safe(payload, before) && !Blocked(before)
    requires n in Named(payload) && n > 0 && Dumps(before) == UpTo(n - 1) && Hooked(payload, before)
    ensures Safe(payload, trace) && Prepares(before, trace) && (ok <==> !Blocked(trace))
    ensures ok ==> n !in Credentials(trace) && Dumps(trace) == Dumps(before) + {n}
    ensures Credentials(before) - {n} <= Credentials(trace) <= Credentials(before) + {n}
    ensures LeftBehind(trace) <==> LeftBehind(before) || n in Credentials(trace)
    ensures FailsToRemove(script, |before|) ==> n in Credentials(trace)
  {
    hide Safe, Credentials, Warnings, Verified, Outcomes, Blocked, Dumps, Missing, LeftBehind,
         Hooked, Prepared, Opened, Sought;
    var answer;
    trace, ok := MakeDump(payload, n, script, before);
    trace, answer := Ask(payload, RemoveCredentials(n), script, trace);
    ok := ok && answer.Works?;
  }

  /** One database after another. */
  method DumpAll(payload: Payload, databases: nat, script: Script, before: Trace) returns (trace: Trace, ok: bool)
    requires Safe(payload, before) && !Blocked(before) && Dumps(before) == {} && Hooked(payload, before)
    requires payload.lifecycle.Some? && payload.lifecycle.value.databases == databases
    requires Credentials(before) == {} && !LeftBehind(before)
    ensures Safe(payload, trace) && Prepares(before, trace) && (ok <==> !Blocked(trace))
    ensures ok ==> Credentials(trace) == {} && Dumps(trace) == UpTo(databases)
    ensures Accounted(trace)
    ensures databases > 0 && FailsToRemove(script, |before|) ==> LeftBehind(trace)
  {
    hide Safe, Credentials, Warnings, Verified, Outcomes, Blocked, Dumps, Missing, LeftBehind,
         Hooked, Prepared, Opened, Sought, AllowedAfter, Named;
    trace, ok := before, true;
    for n := 1 to databases + 1
      invariant Safe(payload, trace) && Prepares(before, trace)
      invariant ok && !Blocked(trace) && Dumps(trace) == UpTo(n - 1)
      invariant Credentials(trace) == {} && !LeftBehind(trace)
      invariant FailsToRemove(script, |before|) ==> n == 1 && trace == before
    {
      Grown(payload, before, trace);
      NamedIs(payload, n);
      trace, ok := DumpDatabase(payload, n, script, trace);
      if !ok {
        return;
      }
    }
  }

  /** prepare: the hook, then the databases. */
  method PrepareJob(payload: Payload, lifecycle: Lifecycle, script: Script, before: Trace)
    returns (trace: Trace, ok: bool)
    requires Safe(payload, before) && !Blocked(before) && Dumps(before) == {} && payload.lifecycle == Some(lifecycle)
    requires Credentials(before) == {} && !LeftBehind(before)
    ensures Safe(payload, trace) && Prepares(before, trace) && (ok <==> !Blocked(trace))
    ensures ok ==> Credentials(trace) == {} && Dumps(trace) == Named(payload) && Hooked(payload, trace)
    ensures Accounted(trace)
    ensures (!lifecycle.preHook && lifecycle.databases > 0 && script(|before|).Works?
             && FailsToRemove(script, |before| + 1)) ==> LeftBehind(trace)
  {
    hide Safe, Credentials, Warnings, Verified, Outcomes, Blocked, Dumps, Missing, LeftBehind,
         Hooked, Prepared, Opened, Sought, AllowedAfter;
    trace, ok := before, true;
    var answer;
    if lifecycle.preHook {
      HookIsAllowed(payload, trace);
      trace, answer := Ask(payload, PreHook, script, trace);
      if !answer.Works? {
        return trace, false;
      }
    }
    HookIsNamed(payload, trace);
    if lifecycle.databases == 0 {
      return;
    }
    ghost var hooked := trace;
    Unconditional(payload, trace, MakeDirectories);
    trace, answer := Ask(payload, MakeDirectories, script, trace);
    if !answer.Works? {
      return trace, false;
    }
    Grown(payload, hooked, trace);
    hooked := trace;
    trace, ok := DumpAll(payload, lifecycle.databases, script, trace);
    Grown(payload, hooked, trace);
  }

  lemma HookIsAllowed(payload: Payload, trace: Trace)
    requires payload.lifecycle.Some? && payload.lifecycle.value.preHook
    ensures AllowedAfter(payload, trace, PreHook)
  {
  }

  lemma HookIsNamed(payload: Payload, trace: Trace)
    requires payload.lifecycle.Some?
    requires payload.lifecycle.value.preHook ==> trace != [] && trace[|trace| - 1] == Event(PreHook, Works)
    ensures Hooked(payload, trace)
  {
  }

  lemma {:induction false} UpToIs(n: nat, k: nat)
    ensures n in UpTo(k) <==> 1 <= n <= k
  {
    if k > 0 {
      UpToIs(n, k - 1);
    }
  }

  lemma NamedIs(payload: Payload, n: nat)
    ensures n in Named(payload) <==> payload.lifecycle.Some? && 1 <= n <= payload.lifecycle.value.databases
  {
    if payload.lifecycle.Some? {
      UpToIs(n, payload.lifecycle.value.databases);
    }
  }

  /** An initialization whose answer was lost is made good by a repository that opens. */
  method Initialize(payload: Payload, script: Script, before: Trace) returns (trace: Trace, ok: bool)
    requires Safe(payload, before) && !Blocked(before) && AllowedAfter(payload, before, Init)
    ensures Safe(payload, trace) && Keeps(before, trace) && (ok <==> !Blocked(trace))
    ensures ok ==> Opened(payload, trace)
  {
    hide Safe, Credentials, Warnings, Verified, Outcomes, Blocked, Dumps, Missing, LeftBehind,
         Hooked, Prepared, Sought;
    var answer;
    trace, answer := Ask(payload, Init, script, before);
    ok := answer.Works?;
    if !ok {
      trace, answer := Ask(payload, Reprobe, script, trace);
      ok := answer.Works?;
    }
  }

  /** ensureManagedRepository: a repository that does not open is made only where the target
      is empty; one whose making was interrupted is taken if it opens now. */
  method EnsureManagedRepository(payload: Payload, script: Script, before: Trace) returns (trace: Trace, ok: bool)
    requires Safe(payload, before) && !Blocked(before)
    ensures Safe(payload, trace) && Keeps(before, trace) && (ok <==> !Blocked(trace))
    ensures !payload.initialize ==> trace == before && ok
    ensures ok ==> Opened(payload, trace)
  {
    hide Safe, Credentials, Warnings, Verified, Outcomes, Blocked, Dumps, Missing, LeftBehind,
         Hooked, Prepared, Sought, AllowedAfter;
    if !payload.initialize {
      return before, true;
    }
    var answer;
    ProbeIsAllowed(payload, before);
    trace, answer := Ask(payload, Probe, script, before);
    if !answer.Declines? {
      return trace, answer.Works?;
    }
    Unconditional(payload, trace, Listing);
    trace, answer := Ask(payload, Listing, script, trace);
    if !EmptyOrMissing(answer) {
      return trace, false;
    }
    InitIsAllowed(payload, trace);
    trace, ok := Initialize(payload, script, trace);
  }

  lemma ProbeIsAllowed(payload: Payload, trace: Trace)
    requires payload.initialize
    ensures AllowedAfter(payload, trace, Probe)
  {
  }

  lemma InitIsAllowed(payload: Payload, trace: Trace)
    requires payload.initialize && |trace| >= 2 && trace[|trace| - 2] == Event(Probe, Declines)
    requires trace[|trace| - 1].call.Listing? && EmptyOrMissing(trace[|trace| - 1].answer)
    ensures AllowedAfter(payload, trace, Init)
  {
  }

  /** After a lookup that failed: one that told nothing is made up for. */
  method VerifyAgain(payload: Payload, toldNothing: bool, script: Script, before: Trace)
    returns (trace: Trace, ok: bool)
    requires Safe(payload, before) && Blocked(before) == !toldNothing
    requires before != [] && before[|before| - 1].call.FindParent?
    ensures Safe(payload, trace) && Keeps(before, trace) && (ok <==> !Blocked(trace))
    ensures ok ==> Verified(trace) && Sought(payload, trace)
  {
    hide Safe, Credentials, Warnings, Verified, Outcomes, Blocked, Dumps, Missing, LeftBehind, AllowedAfter, Sought;
    var answer;
    Unconditional(payload, before, ParentStatus);
    trace, answer := Ask(payload, ParentStatus, script, before);
    if answer.Breaks? || !toldNothing {
      return trace, false;
    }
    ghost var asked := trace;
    Unconditional(payload, trace, Verify);
    trace, answer := Ask(payload, Verify, script, trace);
    ok := answer.Works?;
    StatusIsAsked(payload, asked);
    Grown(payload, asked, trace);
  }

  lemma StatusIsAsked(payload: Payload, trace: Trace)
    requires |trace| >= 2 && trace[|trace| - 2].call.FindParent?
    requires trace[|trace| - 1].call.ParentStatus? && !trace[|trace| - 1].answer.Breaks?
    ensures Sought(payload, trace)
  {
    assert trace[|trace| - 2] in trace && trace[|trace| - 1] in trace;
  }

  /** The search for a parent in a verified repository. A lookup that fails without telling
      anything about the repository is made up for by another verification. */
  method SeekParent(payload: Payload, script: Script, before: Trace) returns (trace: Trace, ok: bool)
    requires Safe(payload, before) && !Blocked(before) && Verified(before) && payload.receipts
    ensures Safe(payload, trace) && Keeps(before, trace) && (ok <==> !Blocked(trace))
    ensures ok ==> Verified(trace) && Sought(payload, trace)
  {
    hide Safe, Credentials, Warnings, Verified, Outcomes, Blocked, Dumps, Missing, LeftBehind,
         Hooked, Prepared, Opened, Sought;
    var found;
    trace, found := Ask(payload, FindParent, script, before);
    if found.Works? || found.Breaks? {
      ok := found.Works?;
      ParentIsFound(payload, trace);
      return;
    }
    trace, ok := VerifyAgain(payload, found.Declines?, script, trace);
  }

  lemma NoneSought(payload: Payload, trace: Trace)
    ensures !payload.receipts ==> Sought(payload, trace)
  {
  }

  lemma ParentIsFound(payload: Payload, trace: Trace)
    requires trace != [] && trace[|trace| - 1].call.FindParent?
    ensures trace[|trace| - 1].answer.Works? ==> Sought(payload, trace)
  {
  }

  /** Verification and, where there are local receipts, the search for a parent. */
  method VerifyAndFindParent(payload: Payload, script: Script, before: Trace) returns (trace: Trace, ok: bool)
    requires Safe(payload, before) && !Blocked(before)
    ensures Safe(payload, trace) && Keeps(before, trace) && (ok <==> !Blocked(trace))
    ensures ok ==> Verified(trace) && Sought(payload, trace)
  {
    hide Safe, Credentials, Warnings, Verified, Outcomes, Blocked, Dumps, Missing, LeftBehind,
         Hooked, Prepared, Opened, Sought;
    var answer;
    trace, answer := Ask(payload, Verify, script, before);
    ok := answer.Works?;
    if ok && payload.receipts {
      trace, ok := SeekParent(payload, script, trace);
    }
    NoneSought(payload, trace);
  }

  /** The last check of the source, the snapshot, and for a job its confirmation. */
  method RunRestic(payload: Payload, script: Script, before: Trace) returns (trace: Trace, completed: bool)
    requires Safe(payload, before) && !Blocked(before) && Credentials(before) == {} && Missing(before)
    requires Dumps(before) == Named(payload) && Verified(before)
    requires Prepared(payload, before) && Opened(payload, before) && Sought(payload, before)
    requires Outcomes(before) !! {Lookup, Backup, Confirm} && !LeftBehind(before)
    ensures Safe(payload, trace) && Warnings(trace) == Warnings(before)
    ensures Credentials(trace) == {} && !LeftBehind(trace)
    ensures Outcomes(before) <= Outcomes(trace) <= Outcomes(before) + {Backup, Confirm}
    ensures completed <==> Confirmed(payload, trace)
    ensures completed <==> !Blocked(trace)
  {
    hide Safe, Credentials, Warnings, Verified, Outcomes, Blocked, Dumps, Missing, LeftBehind,
         Hooked, Prepared, Opened, Sought, AllowedAfter;
    var answer;
    completed := false;
    Unconditional(payload, before, Recheck);
    trace, answer := Ask(payload, Recheck, script, before);
    if answer.Works? {
      Grown(payload, before, trace);
      BackupIsAllowed(payload, trace);
      trace, answer := Ask(payload, Backup, script, trace);
      completed := answer.Works?;
      if completed && payload.lifecycle.Some? {
        ConfirmIsAllowed(payload, trace);
        trace, answer := Ask(payload, Confirm, script, trace);
        completed := answer.Works?;
      }
    }
  }

  lemma BackupIsAllowed(payload: Payload, trace: Trace)
    requires Missing(trace) && Verified(trace) && Dumps(trace) == Named(payload) && Credentials(trace) == {}
    requires Prepared(payload, trace) && Opened(payload, trace) && Sought(payload, trace)
    requires trace != [] && trace[|trace| - 1] == Event(Recheck, Works)
    ensures AllowedAfter(payload, trace, Backup)
  {
  }

  lemma ConfirmIsAllowed(payload: Payload, trace: Trace)
    requires payload.lifecycle.Some? && (Backup in Outcomes(trace) || Lookup in Outcomes(trace))
    ensures AllowedAfter(payload, trace, Confirm)
  {
  }

  /** The repository is made or opened, and verified, before anything is written to it. */
  method WriteSnapshot(payload: Payload, script: Script, before: Trace) returns (trace: Trace, completed: bool)
    requires Safe(payload, before) && !Blocked(before) && Credentials(before) == {} && Missing(before)
    requires Dumps(before) == Named(payload) && Prepared(payload, before)
    requires Outcomes(before) !! {Lookup, Backup, Confirm} && !LeftBehind(before)
    ensures Safe(payload, trace) && Warnings(trace) == Warnings(before)
    ensures Credentials(trace) == {} && !LeftBehind(trace)
    ensures Outcomes(before) <= Outcomes(trace) <= Outcomes(before) + {Backup, Confirm}
    ensures completed <==> Confirmed(payload, trace)
    ensures completed <==> !Blocked(trace)
  {
    hide Safe, Credentials, Warnings, Verified, Outcomes, Blocked, Dumps, Missing, LeftBehind,
         Hooked, Prepared, Opened, Sought;
    var ok;
    trace, ok := EnsureManagedRepository(payload, script, before);
    if ok {
      ghost var made := trace;
      trace, ok := VerifyAndFindParent(payload, script, trace);
      Grown(payload, before, trace);
      Grown(payload, made, trace);
    }
    completed := false;
    if ok {
      trace, completed := RunRestic(payload, script, trace);
    }
  }

  /** From the making of the job on, everything works up to the first removal. */
  predicate Leaves(payload: Payload, script: Script, at: nat) {
    && payload.lifecycle.Some? && !payload.lifecycle.value.preHook && payload.lifecycle.value.databases > 0
    && script(at).Works? && script(at + 1).Works? && FailsToRemove(script, at + 2)
  }

  /** The job and all that comes before the repository: `ok` unless anything failed. */
  method MakeJob(payload: Payload, lifecycle: Lifecycle, script: Script, before: Trace)
    returns (trace: Trace, job: bool, ok: bool)
    requires Safe(payload, before) && !Blocked(before) && Credentials(before) == {} && Missing(before)
    requires Dumps(before) == {} && !LeftBehind(before) && payload.lifecycle == Some(lifecycle)
    ensures Safe(payload, trace) && Warnings(trace) == Warnings(before) && Missing(trace)
    ensures Accounted(trace) && (LeftBehind(trace) ==> job)
    ensures Leaves(payload, script, |before|) ==> LeftBehind(trace)
    ensures Outcomes(trace) == Outcomes(before) + if job then {CreateJob} else {}
    ensures ok <==> !Blocked(trace)
    ensures ok ==> job && Prepared(payload, trace) && Credentials(trace) == {} && !LeftBehind(trace)
    ensures ok ==> Dumps(trace) == Named(payload)
  {
    hide Safe, Credentials, Warnings, Verified, Outcomes, Blocked, Dumps, Missing, LeftBehind,
         Hooked, Prepared, Opened, Sought;
    var answer;
    trace, answer := Ask(payload, CreateJob, script, before);
    job, ok := answer.Works?, false;
    if !job {
      return;
    }
    ghost var made := trace;
    trace, ok := PrepareJob(payload, lifecycle, script, trace);
    if !ok {
      return;
    }
    ghost var dumped := trace;
    trace, answer := Ask(payload, Status, script, trace);
    ok := answer.Works?;
    Grown(payload, dumped, trace);
    if ok {
      JobIsPrepared(payload, made, trace);
    }
  }

  /** What there is to do when there is no snapshot of this backup yet. */
  method BackUp(payload: Payload, script: Script, before: Trace) returns (trace: Trace, job: bool, completed: bool)
    requires Safe(payload, before) && !Blocked(before) && Credentials(before) == {} && Missing(before)
    requires Dumps(before) == {} && Outcomes(before) == {MakeTemporary} && !LeftBehind(before)
    ensures Safe(payload, trace) && Warnings(trace) == Warnings(before)
    ensures Accounted(trace)
    ensures LeftBehind(trace) ==> job
    ensures Leaves(payload, script, |before|) ==> LeftBehind(trace)
    ensures {MakeTemporary} <= Outcomes(trace) <= {MakeTemporary, CreateJob, Backup, Confirm}
    ensures completed <==> Confirmed(payload, trace)
    ensures completed <==> !Blocked(trace)
    ensures job <==> CreateJob in Outcomes(trace)
    ensures job ==> payload.lifecycle.Some?
  {
    NoJobIsPrepared(payload, before);
    hide Safe, Credentials, Warnings, Verified, Outcomes, Blocked, Dumps, Missing, LeftBehind,
         Hooked, Prepared, Opened, Sought;
    trace, job, completed := before, false, false;
    if payload.lifecycle.Some? {
      var ok;
      trace, job, ok := MakeJob(payload, payload.lifecycle.value, script, before);
      if !ok {
        return;
      }
    }
    trace, completed := WriteSnapshot(payload, script, trace);
  }

  lemma JobIsPrepared(payload: Payload, made: Trace, trace: Trace)
    requires made != [] && made[|made| - 1] == Event(CreateJob, Works) && made <= trace
    requires trace[|trace| - 1] == Event(Status, Works) && Hooked(payload, trace)
    ensures Prepared(payload, trace)
  {
    assert trace[|made| - 1] == Event(CreateJob, Works);
  }

  lemma NoJobIsPrepared(payload: Payload, trace: Trace)
    ensures payload.lifecycle.None? ==> Prepared(payload, trace)
  {
  }

  lemma NothingYet(payload: Payload)
    ensures Safe(payload, []) && Warnings([]) == [] && Outcomes([]) == {} && Credentials([]) == {} && !Blocked([])
    ensures Dumps([]) == {} && !Missing([]) && !LeftBehind([])
  {
  }

  /** A snapshot of this backup from before is looked for first. */
  method LookUp(payload: Payload, script: Script, before: Trace) returns (trace: Trace, job: bool, completed: bool)
    requires Safe(payload, before) && !Blocked(before) && Credentials(before) == {} && Dumps(before) == {}
    requires before == [Event(Validate, Works), Event(MakeTemporary, Works)]
    requires Outcomes(before) == {MakeTemporary} && !LeftBehind(before)
    ensures Safe(payload, trace) && Warnings(trace) == Warnings(before) && Accounted(trace)
    ensures {MakeTemporary} <= Outcomes(trace) <= {MakeTemporary, Lookup, CreateJob, Backup, Confirm}
    ensures completed <==> Confirmed(payload, trace)
    ensures completed <==> !Blocked(trace)
    ensures job <==> CreateJob in Outcomes(trace)
    ensures job ==> payload.lifecycle.Some?
    ensures LeftBehind(trace) ==> job
    ensures script(|before|).Declines? && Leaves(payload, script, |before| + 1) ==> LeftBehind(trace)
  {
    hide Safe, Credentials, Warnings, Verified, Outcomes, Blocked, Dumps, Missing, LeftBehind, Leaves,
         Hooked, Prepared, Opened, Sought;
    job, completed := false, false;
    var answer;
    trace, answer := Ask(payload, Lookup, script, before);
    if answer.Works? {
      completed := true;
      if payload.lifecycle.Some? {
        trace, answer := Ask(payload, Confirm, script, trace);
        completed := answer.Works?;
      }
    } else if answer.Declines? {
      trace, job, completed := BackUp(payload, script, trace);
    }
  }

  /** The body of executeFilesystemBackup. `temporary` and `job` say what is to be cleaned
      up, `completed` whether there is a result to return. */
  method Operate(payload: Payload, script: Script) returns (trace: Trace, temporary: bool, job: bool, completed: bool)
    ensures Safe(payload, trace) && Warnings(trace) == [] && Accounted(trace)
    ensures Outcomes(trace) <= {MakeTemporary, Lookup, CreateJob, Backup, Confirm}
    ensures completed <==> Confirmed(payload, trace)
    ensures completed <==> !Blocked(trace)
    ensures temporary <==> MakeTemporary in Outcomes(trace)
    ensures job <==> CreateJob in Outcomes(trace)
    ensures completed || job ==> temporary
    ensures job ==> payload.lifecycle.Some?
    ensures LeftBehind(trace) ==> job
    ensures Botched(payload, script) ==> LeftBehind(trace)
  {
    trace, temporary, job, completed := [], false, false, false;
    var answer;
    NothingYet(payload);
    hide Safe, Credentials, Warnings, Verified, Outcomes, Blocked, Dumps, Missing, LeftBehind, Leaves,
         Hooked, Prepared, Opened, Sought;
    trace, answer := Ask(payload, Validate, script, trace);
    if answer.Works? {
      trace, answer := Ask(payload, MakeTemporary, script, trace);
      temporary := answer.Works?;
      if temporary {
        trace, job, completed := LookUp(payload, script, trace);
      }
    }
  }

  /** Everything works, and the repository lacks the snapshot, up to the first removal of a
      credential file. */
  predicate Botched(payload: Payload, script: Script) {
    script(0).Works? && script(1).Works? && script(2).Declines? && Leaves(payload, script, 3)
  }

  /** The post hook runs while a credential file may still be there. */
  ghost predicate HookMeetsCredentials(trace: Trace) {
    exists k: nat :: k < |trace| && trace[k].call.PostHook? && Credentials(trace[..k]) != {}
  }

  lemma {:induction false} StaysBehind(trace: Trace, k: nat)
    requires k <= |trace| && LeftBehind(trace[..k])
    ensures LeftBehind(trace)
  {
    if k < |trace| {
      assert trace[..|trace| - 1][..k] == trace[..k];
      StaysBehind(trace[..|trace| - 1], k);
    } else {
      assert trace[..k] == trace;
    }
  }

  lemma {:induction false} LeftIsBlocked(trace: Trace)
    requires LeftBehind(trace)
    ensures Blocked(trace)
  {
    hide Credentials;
    if LeftBehind(trace[..|trace| - 1]) {
      LeftIsBlocked(trace[..|trace| - 1]);
    }
  }

  lemma MetOnlyIfLeft(payload: Payload, trace: Trace)
    requires Safe(payload, trace) && HookMeetsCredentials(trace)
    ensures LeftBehind(trace)
  {
    var k: nat :| k < |trace| && trace[k].call.PostHook? && Credentials(trace[..k]) != {};
    assert AllowedAfter(payload, trace[..k], trace[k].call);
    StaysBehind(trace, k);
  }

  lemma MetIfLeft(before: Trace, trace: Trace)
    requires before < trace && trace[|before|].call.PostHook? && Accounted(before) && LeftBehind(before)
    ensures HookMeetsCredentials(trace)
  {
    assert trace[..|before|] == before;
  }

  /** cleanup: the post hook and the workspace; neither can fail the backup. */
  method CleanUpJob(payload: Payload, lifecycle: Lifecycle, script: Script, before: Trace) returns (trace: Trace)
    requires Safe(payload, before) && Accounted(before) && payload.lifecycle == Some(lifecycle)
    ensures Safe(payload, trace) && before < trace && trace[|trace| - 1].call.RemoveWorkspace?
    ensures lifecycle.postHook ==> trace[|before|].call.PostHook?
    ensures Blocked(trace) == Blocked(before) && LeftBehind(trace) == LeftBehind(before)
    ensures Outcomes(before) <= Outcomes(trace) <= Outcomes(before) + {PostHook, RemoveWorkspace}
    ensures trace[|trace| - 1].answer.Works? ==> Credentials(trace) == {}
  {
    hide Safe, Warnings, Verified, Outcomes, Blocked, Dumps, Missing, LeftBehind,
         Hooked, Prepared, Opened, Sought;
    trace := before;
    var answer;
    if lifecycle.postHook {
      trace, answer := Ask(payload, PostHook, script, trace);
    }
    trace, answer := Ask(payload, RemoveWorkspace, script, trace);
  }

  /** The workspace's removal was asked for last but one; where it worked, no credential
      file is left. */
  predicate JobCleaned(trace: Trace) {
    && |trace| >= 2 && trace[|trace| - 2].call.RemoveWorkspace?
    && (trace[|trace| - 2].answer.Works? ==> Credentials(trace) == {})
  }

  /** The storage configuration goes last. */
  method RemoveConfiguration(payload: Payload, script: Script, before: Trace) returns (trace: Trace, removed: bool)
    requires Safe(payload, before) && RemoveTemporary !in Outcomes(before)
    ensures Safe(payload, trace) && before < trace && trace[|trace| - 1].call.RemoveTemporary?
    ensures Blocked(trace) == Blocked(before) && LeftBehind(trace) == LeftBehind(before)
    ensures Outcomes(trace) == Outcomes(before) + if removed then {RemoveTemporary} else {}
    ensures (before != [] && before[|before| - 1].call.RemoveWorkspace?
             && (before[|before| - 1].answer.Works? ==> Credentials(before) == {})) ==> JobCleaned(trace)
  {
    hide Safe, Warnings, Verified, Outcomes, Credentials, Blocked, Dumps, Missing, LeftBehind,
         Hooked, Prepared, Opened, Sought;
    var answer;
    trace, answer := Ask(payload, RemoveTemporary, script, before);
    removed := answer.Works?;
  }

  /** executeFilesystemBackup. The repository is written only as `Safe` allows. With a
      lifecycle the outcome is success exactly when the snapshot was confirmed, whatever
      hooks and clean-up did; without one a storage configuration that could not be removed
      turns success into failure. Nothing else stops a backup than an unfavourable answer. */
  method ExecuteFilesystemBackup(payload: Payload, script: Script) returns (trace: Trace, outcome: Outcome)
    ensures Safe(payload, trace)
    ensures outcome.Success? <==>
              Confirmed(payload, trace) && (payload.lifecycle.Some? || RemoveTemporary in Outcomes(trace))
    ensures Confirmed(payload, trace) <==> !Blocked(trace)
    ensures outcome.Success? ==> outcome.warnings == Warnings(trace)
    ensures MakeTemporary in Outcomes(trace) ==> trace != [] && trace[|trace| - 1].call.RemoveTemporary?
    ensures CreateJob in Outcomes(trace) ==> JobCleaned(trace)
    ensures HookMeetsCredentials(trace) ==> LeftBehind(trace)
    ensures LeftBehind(trace) ==> outcome.Failure?
    ensures CreateJob in Outcomes(trace) && payload.lifecycle.Some? && payload.lifecycle.value.postHook ==>
              exists event <- trace :: event.call.PostHook?
    ensures (payload.lifecycle.Some? && payload.lifecycle.value.postHook && LeftBehind(trace)) ==>
              HookMeetsCredentials(trace)
    ensures Botched(payload, script) ==> LeftBehind(trace)
  {
    var temporary, job, completed;
    trace, temporary, job, completed := Operate(payload, script);
    hide Safe, Warnings, Verified, Outcomes, Credentials, JobCleaned, Blocked, Dumps, Missing, LeftBehind, Accounted;
    ghost var operated := trace;
    if job {
      trace := CleanUpJob(payload, payload.lifecycle.value, script, trace);
    }
    ghost var cleaned := trace;
    if temporary {
      var removed;
      trace, removed := RemoveConfiguration(payload, script, trace);
      if !removed && payload.lifecycle.None? {
        completed := false;
      }
    }
    outcome := if completed then Success(Warnings(trace)) else Failure;
    assert forall event <- cleaned :: event in trace;
    assert job && payload.lifecycle.value.postHook ==> cleaned[|operated|] in cleaned;
    if HookMeetsCredentials(trace) {
      MetOnlyIfLeft(payload, trace);
    }
    if LeftBehind(trace) {
      LeftIsBlocked(trace);
      if payload.lifecycle.value.postHook {
        MetIfLeft(operated, trace);
      }
    }
  }

  /** One dump, a post hook, and a credential file that cannot be removed: the backup ends
      there, and the hook still runs. */
  method FailedRemovalMeetsPostHook() returns (trace: Trace, outcome: Outcome)
    ensures HookMeetsCredentials(trace) && outcome.Failure?
  {
    var payload := Payload(false, Some(Lifecycle(false, true, 1)), false);
    var script := (k: nat) => if k == 2 then Declines else if k == 8 then Breaks else Works;
    trace, outcome := ExecuteFilesystemBackup(payload, script);
  }

  /** The warnings of a backup are exactly what went wrong in its clean-up. */
  lemma {:induction false} WarningsTell(trace: Trace)
    ensures PostBackup in Warnings(trace) <==> exists event <- trace :: event.call.PostHook? && !event.answer.Works?
    ensures Cleanup in Warnings(trace)
       <==> exists event <- trace ::
              (event.call.RemoveWorkspace? || event.call.RemoveTemporary?) && !event.answer.Works?
  {
    if trace != [] {
      var before, last := trace[..|trace| - 1], trace[|trace| - 1];
      WarningsTell(before);
      assert trace == before + [last];
    }
  }
}
