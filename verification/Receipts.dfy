/**
  At most one execution per command: one poll of the command loop with a crash or failure
  at every step, and the log of the last hundred completions
  (agent/src/runtime.ts:51-83, 85-128, 289-298; agent/src/sourceAccessPolicy.ts:355-407).
 */
module Receipts {
  import opened SourcePaths

  const LIMIT := 100

  type Id = string

  /** A stored completion: what the server is told about a command, now and on replay. */
  datatype Receipt = Receipt(id: Id, sequence: nat, success: bool, details: string)

  datatype Command = Command(id: Id, supported: bool)

  /** Where a poll may go wrong. `Check` is everything before a command is looked at,
      `Execute` the execution itself, whose failures are completions too. */
  datatype Point = Prepare | Check | Replay | Acknowledge | Execute | Save | Complete | Leave

  datatype Trouble = Fine | Fails(point: Point) | Crashes(point: Point)

  /** One call of runOnce: what the server hands out, how execution ends after `events`
      progress events, and what goes wrong. `held` ends the call before the fence. */
  datatype Turn = Turn(
    held: bool, command: Option<Command>, events: nat, success: bool, details: string, trouble: Trouble)

  /** The activity fence, the receipts on disk, and what happened so far: the executions
      begun, the receipts saved and the completions sent. */
  datatype State = State(
    fence: bool, stored: seq<Receipt>, executed: seq<Id>, saved: seq<Receipt>, replies: seq<Receipt>)

  const INITIAL := State(false, [], [], [], [])

  function Find(log: seq<Receipt>, id: Id): (found: Option<Receipt>)
    ensures found.Some? ==> found.value in log && found.value.id == id
    ensures found.None? ==> forall receipt <- log :: receipt.id != id
  {
    if log == [] then None else if log[0].id == id then Some(log[0]) else Find(log[1..], id)
  }

  function Without(log: seq<Receipt>, id: Id): seq<Receipt> {
    if log == [] then []
    else (if log[0].id == id then [] else [log[0]]) + Without(log[1..], id)
  }

  function Recent<T>(log: seq<T>): seq<T> { if |log| <= LIMIT then log else log[|log| - LIMIT..] }

  function Remember(log: seq<Receipt>, receipt: Receipt): seq<Receipt> {
    Recent(Without(log, receipt.id) + [receipt])
  }

  predicate Hits(trouble: Trouble, point: Point) { trouble == Fails(point) || trouble == Crashes(point) }

  function ReceiptOf(turn: Turn): Receipt
    requires turn.command.Some?
  {
    Receipt(turn.command.value.id, turn.events + 1, turn.success, turn.details)
  }

  /** A command that is not on record: acknowledge, execute, save, and only then complete. */
  function Performed(s: State, turn: Turn): State
    requires turn.command.Some?
  {
    if Hits(turn.trouble, Acknowledge) then s
    else
      var t := s.(executed := s.executed + [turn.command.value.id]);
      if turn.trouble == Crashes(Execute) || Hits(turn.trouble, Save) then t
      else
        var receipt := ReceiptOf(turn);
        var u := t.(stored := Remember(s.stored, receipt), saved := s.saved + [receipt]);
        if turn.trouble == Crashes(Complete) then u else u.(replies := s.replies + [receipt])
  }

  /** Everything a poll does inside the fence. */
  function Worked(s: State, turn: Turn): State {
    if Hits(turn.trouble, Check) || turn.command.None? || !turn.command.value.supported then s
    else
      var prior := Find(s.stored, turn.command.value.id);
      if prior.None? then Performed(s, turn)
      else if turn.trouble == Crashes(Replay) then s
      else s.(replies := s.replies + [prior.value])
  }

  /** Whether the poll crashes on the way: each point is only reached when those before it
      let the poll through. */
  predicate CrashesIn(s: State, turn: Turn) {
    && turn.trouble.Crashes?
    && match turn.trouble.point
       case Prepare => false
       case Check => true
       case Leave => false
       case point =>
         turn.command.Some? && turn.command.value.supported
         && (point == Replay <==> Find(s.stored, turn.command.value.id).Some?)
  }

  function After(s: State, turn: Turn): State {
    if turn.held || s.fence then s
    else if Hits(turn.trouble, Prepare) then s.(fence := true)
    else Worked(s, turn).(fence := CrashesIn(s, turn) || Hits(turn.trouble, Leave))
  }

  class Agent {
    var fence: bool
    var completedCommands: seq<Receipt>
    ghost var executed: seq<Id>
    ghost var saved: seq<Receipt>
    ghost var replies: seq<Receipt>

    ghost function Abstract(): State
      reads this
    {
      State(fence, completedCommands, executed, saved, replies)
    }

    constructor ()
      ensures Abstract() == INITIAL
    {
      fence, completedCommands := false, [];
      executed, saved, replies := [], [], [];
    }

    /** runOnce: the fence goes up, and comes down unless the process dies in between. */
    method RunOnce(turn: Turn)
      modifies this
      ensures Abstract() == After(old(Abstract()), turn)
    {
      if turn.held || fence {
        return;
      }
      fence := true;
      if turn.trouble == Fails(Prepare) || turn.trouble == Crashes(Prepare) {
        return;
      }
      var crashed := RunOnceWork(turn);
      if !crashed && turn.trouble != Fails(Leave) && turn.trouble != Crashes(Leave) {
        fence := false;
      }
    }

    method RunOnceWork(turn: Turn) returns (crashed: bool)
      modifies this
      ensures Abstract() == Worked(old(Abstract()), turn)
      ensures crashed == CrashesIn(old(Abstract()), turn)
    {
      crashed := turn.trouble == Crashes(Check);
      if crashed || turn.trouble == Fails(Check) || turn.command.None? || !turn.command.value.supported {
        return;
      }
      var id := turn.command.value.id;
      var prior := Find(completedCommands, id);
      if prior.Some? {
        crashed := turn.trouble == Crashes(Replay);
        if !crashed {
          replies := replies + [prior.value];
        }
        return;
      }
      crashed := turn.trouble == Crashes(Acknowledge);
      if crashed || turn.trouble == Fails(Acknowledge) {
        return;
      }
      executed := executed + [id];
      crashed := turn.trouble == Crashes(Execute);
      if crashed {
        return;
      }
      var completion := Receipt(id, turn.events + 1, turn.success, turn.details);
      crashed := turn.trouble == Crashes(Save);
      if crashed || turn.trouble == Fails(Save) {
        return;
      }
      completedCommands := Remember(completedCommands, completion);
      saved := saved + [completion];
      crashed := turn.trouble == Crashes(Complete);
      if !crashed {
        replies := replies + [completion];
      }
    }
  }

  // ---- runs ----

  datatype Event = Poll(turn: Turn) | ClearFence

  function Step(s: State, event: Event): State {
    match event
    case Poll(turn) => After(s, turn)
    case ClearFence => s.(fence := false)
  }

  function Run(events: seq<Event>): State {
    if events == [] then INITIAL else Step(Run(events[..|events| - 1]), events[|events| - 1])
  }

  function Ids(log: seq<Receipt>): (ids: seq<Id>)
    ensures |ids| == |log| && forall i :: 0 <= i < |log| ==> ids[i] == log[i].id
  {
    seq(|log|, i requires 0 <= i < |log| => log[i].id)
  }

  /** No id within a hundred places of itself. */
  predicate Spaced(ids: seq<Id>) {
    forall i, j :: 0 <= i < j < |ids| && j - i <= LIMIT ==> ids[i] != ids[j]
  }

  /** The log on disk is the latest receipts saved. */
  ghost predicate LogOk(s: State) {
    && s.stored == Recent(s.saved) && Spaced(Ids(s.saved))
    && forall reply <- s.replies :: reply in s.saved
  }

  lemma {:induction false} WithoutNew(log: seq<Receipt>, id: Id)
    requires forall receipt <- log :: receipt.id != id
    ensures Without(log, id) == log
  {
    if log != [] {
      WithoutNew(log[1..], id);
      assert log == [log[0]] + log[1..];
    }
  }

  lemma RecentGrows<T>(log: seq<T>, next: T)
    ensures Recent(Recent(log) + [next]) == Recent(log + [next])
  {
  }

  lemma SavingKeepsOrder(saved: seq<Receipt>, receipt: Receipt)
    requires Spaced(Ids(saved)) && Find(Recent(saved), receipt.id).None?
    ensures Remember(Recent(saved), receipt) == Recent(saved + [receipt])
    ensures Spaced(Ids(saved + [receipt]))
  {
    hide Spaced, Without, Find, Recent;
    WithoutNew(Recent(saved), receipt.id);
    RecentGrows(saved, receipt);
    NewIsSpaced(Ids(saved), receipt.id, saved);
    assert Ids(saved + [receipt]) == Ids(saved) + [receipt.id];
  }

  lemma NewIsSpaced(ids: seq<Id>, id: Id, saved: seq<Receipt>)
    requires ids == Ids(saved) && Spaced(ids) && Find(Recent(saved), id).None?
    ensures Spaced(ids + [id])
  {
    forall i | 0 <= i < |ids| && |ids| - i <= LIMIT ensures ids[i] != id {
      assert saved[i] in Recent(saved) by {
        if |saved| > LIMIT {
          assert Recent(saved)[i - (|saved| - LIMIT)] == saved[i];
        }
      }
    }
  }

  lemma InRecent(saved: seq<Receipt>, receipt: Receipt)
    requires receipt in Recent(saved)
    ensures receipt in saved
  {
  }

  lemma PerformingKeepsLog(s: State, turn: Turn)
    requires LogOk(s) && turn.command.Some? && Find(s.stored, turn.command.value.id).None?
    ensures LogOk(Performed(s, turn))
  {
    hide Spaced, Recent, Remember, Ids;
    SavingKeepsOrder(s.saved, ReceiptOf(turn));
  }

  lemma StepKeepsLog(s: State, event: Event)
    requires LogOk(s)
    ensures LogOk(Step(s, event))
  {
    hide Spaced, Recent, Performed, Ids;
    if event.Poll? && event.turn.command.Some? {
      var prior := Find(s.stored, event.turn.command.value.id);
      if prior.None? {
        PerformingKeepsLog(s, event.turn);
      } else {
        InRecent(s.saved, prior.value);
      }
    }
  }

  /** Whatever goes wrong, the log is the last hundred receipts saved, without duplicates,
      and every completion sent is a saved one. */
  lemma {:induction false} EveryRunKeepsLog(events: seq<Event>)
    ensures LogOk(Run(events))
    ensures |Run(events).stored| <= LIMIT
    ensures forall i, j :: 0 <= i < j < |Run(events).stored| ==> Run(events).stored[i].id != Run(events).stored[j].id
  {
    if events != [] {
      EveryRunKeepsLog(events[..|events| - 1]);
      StepKeepsLog(Run(events[..|events| - 1]), events[|events| - 1]);
    }
    StoredIsDistinct(Run(events));
    hide Run;
  }

  lemma StoredIsDistinct(s: State)
    requires LogOk(s)
    ensures |s.stored| <= LIMIT
    ensures forall i, j :: 0 <= i < j < |s.stored| ==> s.stored[i].id != s.stored[j].id
  {
    var offset := |s.saved| - |s.stored|;
    forall i, j | 0 <= i < j < |s.stored| ensures s.stored[i].id != s.stored[j].id {
      assert s.stored[i] == s.saved[offset + i] && s.stored[j] == s.saved[offset + j];
      assert Ids(s.saved)[offset + i] != Ids(s.saved)[offset + j];
    }
  }

  /** A command that gets through to its execution is executed exactly when none of the
      last hundred saved receipts is its own; otherwise its receipt is sent as it was saved. */
  lemma ExecutedExactlyWhenForgotten(events: seq<Event>, turn: Turn)
    requires !turn.held && !Run(events).fence && turn.command.Some? && turn.command.value.supported
    requires turn.trouble.Fine?
    ensures var s, t, id := Run(events), Run(events + [Poll(turn)]), turn.command.value.id;
            && (t.executed == s.executed + [id] <==> id !in Ids(Recent(s.saved)))
            && (t.executed == s.executed <==> id in Ids(Recent(s.saved)))
            && t.replies != [] && t.replies[|t.replies| - 1].id == id && t.replies[|t.replies| - 1] in t.saved
            && (id in Ids(Recent(s.saved)) ==> t.saved == s.saved)
  {
    EveryRunKeepsLog(events);
    var s := Run(events);
    assert (events + [Poll(turn)])[..|events|] == events;
    assert Run(events + [Poll(turn)]) == After(s, turn);
    hide Run;
    AfterFine(s, turn);
  }

  lemma AfterFine(s: State, turn: Turn)
    requires LogOk(s) && !turn.held && !s.fence && turn.command.Some? && turn.command.value.supported
    requires turn.trouble.Fine?
    ensures var t, id := After(s, turn), turn.command.value.id;
            && (t.executed == s.executed + [id] <==> id !in Ids(Recent(s.saved)))
            && (t.executed == s.executed <==> id in Ids(Recent(s.saved)))
            && t.replies != [] && t.replies[|t.replies| - 1].id == id && t.replies[|t.replies| - 1] in t.saved
            && (id in Ids(Recent(s.saved)) ==> t.saved == s.saved)
  {
    hide Spaced, Recent, Remember;
    var id := turn.command.value.id;
    var prior := Find(s.stored, id);
    if prior.Some? {
      var i :| 0 <= i < |s.stored| && s.stored[i] == prior.value;
      assert Ids(s.stored)[i] == id;
      InRecent(s.saved, prior.value);
    }
  }

  /** A poll in which everything works and whose command is not on record sends, and saves,
      how its own execution ended: this success, these details, one more than its progress
      events. A poll whose command is on record sends the receipt saved for it last. */
  lemma RepliesTellTheOutcome(events: seq<Event>, turn: Turn)
    requires !turn.held && !Run(events).fence && turn.command.Some? && turn.command.value.supported
    requires turn.trouble.Fine?
    ensures var s, t, id := Run(events), Run(events + [Poll(turn)]), turn.command.value.id;
            && t.replies == s.replies + [t.replies[|s.replies|]] && !t.fence
            && (id !in Ids(Recent(s.saved)) ==>
                  && t.replies[|s.replies|] == Receipt(id, turn.events + 1, turn.success, turn.details)
                  && t.saved == s.saved + [t.replies[|s.replies|]])
            && (id in Ids(Recent(s.saved)) ==>
                  exists i :: 0 <= i < |s.saved| && |s.saved| - i <= LIMIT && s.saved[i] == t.replies[|s.replies|]
                              && s.saved[i].id == id && forall j :: i < j < |s.saved| ==> s.saved[j].id != id)
  {
    EveryRunKeepsLog(events);
    var s := Run(events);
    assert (events + [Poll(turn)])[..|events|] == events;
    assert Run(events + [Poll(turn)]) == After(s, turn);
    hide Run;
    RepliesAfterFine(s, turn);
  }

  lemma RepliesAfterFine(s: State, turn: Turn)
    requires LogOk(s) && !turn.held && !s.fence && turn.command.Some? && turn.command.value.supported
    requires turn.trouble.Fine?
    ensures var t, id := After(s, turn), turn.command.value.id;
            && t.replies == s.replies + [t.replies[|s.replies|]] && !t.fence
            && (id !in Ids(Recent(s.saved)) ==>
                  && t.replies[|s.replies|] == Receipt(id, turn.events + 1, turn.success, turn.details)
                  && t.saved == s.saved + [t.replies[|s.replies|]])
            && (id in Ids(Recent(s.saved)) ==>
                  exists i :: 0 <= i < |s.saved| && |s.saved| - i <= LIMIT && s.saved[i] == t.replies[|s.replies|]
                              && s.saved[i].id == id && forall j :: i < j < |s.saved| ==> s.saved[j].id != id)
  {
    var id := turn.command.value.id;
    var prior := Find(s.stored, id);
    FineStep(s, turn);
    if prior.Some? {
      OnRecord(s.saved, id, prior.value);
    } else {
      NotOnRecord(s.stored, id);
    }
    hide *;
  }

  lemma FineStep(s: State, turn: Turn)
    requires !turn.held && !s.fence && turn.command.Some? && turn.command.value.supported && turn.trouble.Fine?
    ensures var t, prior := After(s, turn), Find(s.stored, turn.command.value.id);
            var receipt := Receipt(turn.command.value.id, turn.events + 1, turn.success, turn.details);
            && !t.fence
            && t.replies == s.replies + [if prior.Some? then prior.value else receipt]
            && t.saved == s.saved + if prior.Some? then [] else [receipt]
  {
    hide Remember, Find;
  }

  lemma NotOnRecord(log: seq<Receipt>, id: Id)
    requires Find(log, id).None?
    ensures id !in Ids(log)
  {
  }

  /** A receipt found among the last hundred is the last saved for its command. */
  lemma OnRecord(saved: seq<Receipt>, id: Id, receipt: Receipt)
    requires Spaced(Ids(saved)) && receipt in Recent(saved) && receipt.id == id
    ensures id in Ids(Recent(saved))
    ensures exists i :: 0 <= i < |saved| && |saved| - i <= LIMIT && saved[i] == receipt
                        && forall j :: i < j < |saved| ==> saved[j].id != id
  {
    var k :| 0 <= k < |Recent(saved)| && Recent(saved)[k] == receipt;
    assert Ids(Recent(saved))[k] == id;
    var i := |saved| - |Recent(saved)| + k;
    assert saved[i] == receipt;
    forall j | i < j < |saved| ensures saved[j].id != id {
      assert Ids(saved)[i] != Ids(saved)[j];
    }
  }

  /** A poll of this command that ran to its completion with this outcome. */
  predicate Reports(event: Event, receipt: Receipt) {
    && event.Poll? && event.turn.command.Some? && event.turn.command.value.id == receipt.id
    && receipt.sequence == event.turn.events + 1
    && receipt.success == event.turn.success && receipt.details == event.turn.details
  }

  lemma SavedAfter(s: State, event: Event, receipt: Receipt)
    requires receipt in Step(s, event).saved
    ensures receipt in s.saved || Reports(event, receipt)
  {
    hide Remember, Find;
  }

  /** Over every run, whatever was saved or sent for a command reports the outcome of one of
      its polls. */
  lemma {:induction false} SavedReportsAPoll(events: seq<Event>, receipt: Receipt)
    requires receipt in Run(events).saved || receipt in Run(events).replies
    ensures exists event <- events :: Reports(event, receipt)
  {
    EveryRunKeepsLog(events);
    var before, last := events[..|events| - 1], events[|events| - 1];
    assert last in events && forall event <- before :: event in events;
    hide Step, LogOk, Reports;
    SavedAfter(Run(before), last, receipt);
    if !Reports(last, receipt) {
      SavedReportsAPoll(before, receipt);
    }
  }

  /** How far a poll gets on its own: acknowledging, executing and saving are for commands not
      on record, and a replay is for the others. */
  predicate Passes(s: State, turn: Turn, point: Point) {
    match point
    case Prepare => true
    case Check => true
    case Leave => true
    case Replay => turn.command.Some? && turn.command.value.supported && OnFile(s, turn.command.value.id)
    case _ => turn.command.Some? && turn.command.value.supported && !OnFile(s, turn.command.value.id)
  }

  predicate OnFile(s: State, id: Id) { exists receipt <- s.stored :: receipt.id == id }

  /** A poll leaves the fence standing exactly when it died at a point it came by, or could
      not finish putting the fence up or taking it down; then no later poll does anything
      until an operator clears it. */
  lemma FenceStandsExactly(s: State, turn: Turn, next: Turn)
    requires !turn.held && !s.fence
    ensures After(s, turn).fence
       <==> || (turn.trouble.Crashes? && Passes(s, turn, turn.trouble.point))
            || turn.trouble == Fails(Prepare) || turn.trouble == Fails(Leave)
    ensures After(s, turn).fence ==> After(After(s, turn), next) == After(s, turn)
  {
    hide Remember, Find;
    if turn.command.Some? {
      assert Find(s.stored, turn.command.value.id).Some? ==>
               Find(s.stored, turn.command.value.id).value in s.stored;
    }
  }

  /** Nothing is executed that was not acknowledged, and nothing else is begun by a poll that
      stops before that. */
  lemma NothingBeforeAcknowledge(s: State, turn: Turn)
    requires turn.held || s.fence || turn.command.None? || !turn.command.value.supported
             || (!turn.trouble.Fine? && turn.trouble.point in {Prepare, Check, Acknowledge}
                 && (turn.trouble.point == Acknowledge ==> Find(s.stored, turn.command.value.id).None?))
    ensures After(s, turn) == s.(fence := After(s, turn).fence)
  {
  }

  /** Two different completions sent for one command were saved more than a hundred
      completions apart. */
  lemma RepliesAgree(events: seq<Event>, a: Receipt, b: Receipt) returns (i: nat, j: nat)
    requires a in Run(events).replies && b in Run(events).replies && a.id == b.id && a != b
    ensures i < |Run(events).saved| && Run(events).saved[i] == a
    ensures j < |Run(events).saved| && Run(events).saved[j] == b
    ensures j - i > LIMIT || i - j > LIMIT
  {
    EveryRunKeepsLog(events);
    var saved := Run(events).saved;
    i :| 0 <= i < |saved| && saved[i] == a;
    j :| 0 <= j < |saved| && saved[j] == b;
    hide Run, Recent;
    assert Ids(saved)[i] == Ids(saved)[j];
  }

  /** No receipt is lost: no save fails, and nobody removes the fence a crash leaves. */
  predicate Undisturbed(events: seq<Event>) {
    forall event <- events :: event.Poll? && event.turn.trouble != Fails(Save)
  }

  /** What was executed was saved, but for a last execution behind a standing fence. */
  ghost predicate ExecutedOk(s: State) {
    || s.executed == Ids(s.saved)
    || (s.fence && s.executed != [] && s.executed[..|s.executed| - 1] == Ids(s.saved) && Spaced(s.executed))
  }

  lemma PerformingKeepsExecuted(s: State, turn: Turn)
    requires LogOk(s) && s.executed == Ids(s.saved) && turn.trouble != Fails(Save)
    requires turn.command.Some? && Find(s.stored, turn.command.value.id).None?
    ensures var t := Performed(s, turn);
            || t.executed == Ids(t.saved)
            || (t.executed != [] && t.executed[..|t.executed| - 1] == Ids(t.saved) && Spaced(t.executed)
                && turn.trouble.Crashes? && turn.trouble.point in {Execute, Save})
  {
    hide Spaced, Recent, Remember;
    var id := turn.command.value.id;
    NewIsSpaced(Ids(s.saved), id, s.saved);
    assert Ids(s.saved + [ReceiptOf(turn)]) == Ids(s.saved) + [id];
    assert (s.executed + [id])[..|s.executed|] == s.executed;
  }

  lemma StepKeepsExecuted(s: State, turn: Turn)
    requires LogOk(s) && ExecutedOk(s) && turn.trouble != Fails(Save)
    ensures ExecutedOk(After(s, turn))
  {
    hide Spaced, Recent, Performed, Ids;
    if !turn.held && !s.fence && turn.command.Some? && Find(s.stored, turn.command.value.id).None? {
      PerformingKeepsExecuted(s, turn);
    }
  }

  lemma {:induction false} UndisturbedRunIsOk(events: seq<Event>)
    requires Undisturbed(events)
    ensures ExecutedOk(Run(events))
  {
    if events != [] {
      var before := events[..|events| - 1];
      assert events[|events| - 1] in events;
      assert forall event <- before :: event in events;
      UndisturbedRunIsOk(before);
      EveryRunKeepsLog(before);
      hide ExecutedOk, LogOk, After;
      StepKeepsExecuted(Run(before), events[|events| - 1].turn);
    }
  }

  /** Crashes at any step notwithstanding, a command is executed again only when a hundred
      other executions lie in between. */
  lemma ExecutedAgainOnlyWhenForgotten(events: seq<Event>, i: nat, j: nat)
    requires Undisturbed(events) && i < j < |Run(events).executed|
    requires Run(events).executed[i] == Run(events).executed[j]
    ensures j - i > LIMIT
  {
    UndisturbedRunIsOk(events);
    EveryRunKeepsLog(events);
    hide Run, Undisturbed;
  }

  lemma OneMore(events: seq<Event>, event: Event)
    ensures Run(events + [event]) == Step(Run(events), event)
  {
    assert (events + [event])[..|events|] == events;
  }

  function PollOf(id: Id, trouble: Trouble): Event {
    Poll(Turn(false, Some(Command(id, true)), 0, true, "", trouble))
  }

  /** A save that fails or dies leaves an execution without a receipt. */
  lemma SaveIsLost(id: Id, trouble: Trouble)
    requires Hits(trouble, Save)
    ensures Run([PollOf(id, trouble)]) == INITIAL.(executed := [id], fence := trouble.Crashes?)
  {
    OneMore([], PollOf(id, trouble));
    assert [] + [PollOf(id, trouble)] == [PollOf(id, trouble)];
  }

  /** Both conditions are needed: a failed save, or an operator who removes the fence after
      a crash, lets the very next poll execute the command again; the fence prevents it. */
  lemma LostReceiptRepeats(id: Id)
    ensures Run([PollOf(id, Fails(Save)), PollOf(id, Fine)]).executed == [id, id]
    ensures Run([PollOf(id, Crashes(Save)), ClearFence, PollOf(id, Fine)]).executed == [id, id]
    ensures Run([PollOf(id, Crashes(Save)), PollOf(id, Fine)]).executed == [id]
  {
    var lost, crashed, again := PollOf(id, Fails(Save)), PollOf(id, Crashes(Save)), PollOf(id, Fine);
    SaveIsLost(id, Fails(Save));
    SaveIsLost(id, Crashes(Save));
    Repeated(id);
    hide Run, Step, Remember;
    OneMore([lost], again);
    OneMore([crashed], again);
    OneMore([crashed], ClearFence);
    OneMore([crashed, ClearFence], again);
    assert [lost] + [again] == [lost, again] && [crashed] + [again] == [crashed, again];
    assert [crashed] + [ClearFence] == [crashed, ClearFence];
    assert [crashed, ClearFence] + [again] == [crashed, ClearFence, again];
  }

  lemma Repeated(id: Id)
    ensures var again := PollOf(id, Fine);
            && Step(INITIAL.(executed := [id], fence := false), again).executed == [id, id]
            && Step(INITIAL.(executed := [id], fence := true), again).executed == [id]
            && Step(INITIAL.(executed := [id], fence := true), ClearFence) == INITIAL.(executed := [id], fence := false)
  {
    hide Remember;
  }
}
