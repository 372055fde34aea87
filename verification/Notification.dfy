/** Rounds over one single task: process, tell a person, write the conclusion back; and the
    clicks on it, which tell people themselves. */
module Notification {
  import opened Options
  import opened Tables
  import opened Execution

  const UNDELIVERED := "通知未送达："
  const UNLOADABLE := "所属配置不存在、已停用或映射无效"

  datatype Result =
    | Completed(number: string, code: Code)
    | Waiting(reason: string)
    | Retryable(reason: string)
    | PendingBackfill(reason: string, code: Code, known: Option<string>)
    | Rejected(why: string)

  predicate Interim(r: Result) {
    !r.Completed? && !r.Rejected?
  }

  /** The conclusion as a row; `notified` says whether it counts as having reached a person. */
  function OutcomeRecord(r: Result, notified: bool): Outcome {
    match r
    case Completed(number, code) => Outcome(Backfilled, None, Some(code), Some(number))
    case Waiting(reason) => Outcome(Pending, Some(Marked(reason, notified)), None, None)
    case Retryable(reason) => Outcome(Pending, Some(Marked(reason, notified)), None, None)
    case PendingBackfill(reason, code, known) => Outcome(Pending, Some(Marked(reason, notified)), Some(code), known)
    case Rejected(why) => Outcome(if notified then Terminal else Unnotified, Some(why), None, None)
  }

  function Marked(reason: string, notified: bool): string {
    if notified then reason else UNDELIVERED + reason
  }

  predicate ShouldNotify(lastError: Option<string>, r: Result) {
    Interim(r) ==> lastError != Some(r.reason)
  }

  predicate Retries(r: Result) {
    r.Retryable? || r.PendingBackfill?
  }

  // ----- one round --------------------------------------------------------

  /** `CutBefore`: the worker dies, or finds it lost the row, before sending.
      `CutAfter`: it sent what it had to send, but the write-back did not happen. */
  datatype Fate = CutBefore | CutAfter | WrittenBack

  /** `reachable`: there is a recipient, and the request log can be read. */
  datatype Round = Round(now: int, owner: nat, result: Result, reachable: bool, delivers: bool, fate: Fate)

  /** A click on this record, worked off at once. `shown` is the message made of the result,
      which goes out with final results only and is what the row records. */
  datatype SingleClick = SingleClick(now: int, owner: nat, reopens: bool, result: Result, shown: string, delivers: bool, written: bool)

  /** What happens to the row: a round, a batch click that reopens it, a single click that is
      worked off or turned away, the logging of a notice that a single click sent, a claim whose
      configuration is gone, an external write whose answer is lost, a worker that dies during
      one, the sweep of expired leases. */
  datatype Step =
    | Process(round: Round)
    | Click(now: int)
    | Single(click: SingleClick)
    | TurnedAway(delivers: bool)
    | LogNotice
    | Unloadable(now: int, owner: nat)
    | Unanswered(now: int, owner: nat, phase: Phase)
    | DiesWriting(now: int, owner: nat, phase: Phase)
    | Sweep(now: int)

  /** `told` lists the conclusions that reached a person, oldest first. `sent`: a single click
      on this record sent a notice, of whatever kind; `noticed`: the request log shows one. */
  datatype State = State(db: Db, told: seq<Result>, sent: bool, noticed: bool)

  predicate CanWork(db: Db, id: int, now: int) {
    && id in db.tasks && Claimable(db.tasks[id], now, true)
    && db.tasks[id].phase in {Ready, Created}
  }

  predicate Runs(s: State, id: int, r: Round) {
    CanWork(s.db, id, r.now)
  }

  /** The round gets as far as having something to tell. */
  predicate Tries(s: State, id: int, r: Round)
    requires Runs(s, id, r)
  {
    r.fate != CutBefore && ShouldNotify(s.db.tasks[id].lastError, r.result)
  }

  /** The number was there before: the cell was cleared and the record clicked again. */
  predicate Reinitiated(s: State, id: int, r: Round)
    requires Runs(s, id, r)
  {
    r.result.Completed? && s.db.tasks[id].serial.Some?
  }

  /** Any logged notice about the record, whenever sent and whatever it said, is taken for the
      telling of this conclusion, and nothing is sent. */
  predicate TakesNotice(s: State, id: int, r: Round)
    requires Runs(s, id, r)
  {
    Tries(s, id, r) && r.reachable && s.noticed && !Reinitiated(s, id, r)
  }

  predicate Sends(s: State, id: int, r: Round)
    requires Runs(s, id, r)
  {
    Tries(s, id, r) && r.reachable && !TakesNotice(s, id, r)
  }

  predicate Tells(s: State, id: int, r: Round)
    requires Runs(s, id, r)
  {
    Sends(s, id, r) && r.delivers
  }

  /** What the round writes back as having reached a person. */
  predicate Notified(s: State, id: int, r: Round)
    requires Runs(s, id, r)
  {
    !ShouldNotify(s.db.tasks[id].lastError, r.result) || TakesNotice(s, id, r) || Tells(s, id, r)
  }

  function AfterRound(s: State, id: int, r: Round): State
    requires Runs(s, id, r)
  {
    var c := ClaimOf(s.db.tasks[id], id, r.owner);
    var held := Claimed(s.db, r.now, id, r.owner);
    s.(db := if r.fate == WrittenBack then Finished(held, r.now, c, OutcomeRecord(r.result, Notified(s, id, r)), Retries(r.result)) else held,
       told := if Tells(s, id, r) then s.told + [r.result] else s.told)
  }

  // ----- a single click -----------------------------------------------------

  /** The table the click's claim finds: swept, and the row reopened if need be. */
  function Opened(s: State, id: int, c: SingleClick): Db {
    var swept := Swept(s.db, c.now);
    if c.reopens then Reopened(swept, c.now, id) else swept
  }

  predicate Final(r: Result) {
    r.Completed? || r.Rejected?
  }

  predicate ClickTells(c: SingleClick) {
    Final(c.result) && c.delivers
  }

  function AsShown(c: SingleClick): Result {
    if c.result.Rejected? then Rejected(c.shown) else c.result
  }

  /** Interim texts are recorded as they are, although nobody was told. */
  function ClickRecord(c: SingleClick): Outcome {
    match c.result
    case Completed(number, code) => Outcome(Backfilled, None, Some(code), Some(number))
    case PendingBackfill(_, code, known) => Outcome(Pending, Some(c.shown), Some(code), known)
    case Rejected(_) => Outcome(if ClickTells(c) then Terminal else Unnotified, Some(c.shown), None, None)
    case _ => Outcome(Pending, Some(c.shown), None, None)
  }

  function AfterSingle(s: State, id: int, c: SingleClick): State
    requires CanWork(Opened(s, id, c), id, c.now)
  {
    var db := Opened(s, id, c);
    var held := Claimed(db, c.now, id, c.owner);
    s.(db := if c.written then Finished(held, c.now, ClaimOf(db.tasks[id], id, c.owner), ClickRecord(c), c.result.Retryable?) else held,
       told := if ClickTells(c) then s.told + [AsShown(c)] else s.told,
       sent := s.sent || ClickTells(c))
  }

  // ----- runs ---------------------------------------------------------------

  predicate Enabled(s: State, id: int, step: Step) {
    match step
    case Process(r) => Runs(s, id, r)
    case Click(_) => id in s.db.tasks
    case Single(c) => CanWork(Opened(s, id, c), id, c.now)
    case TurnedAway(_) => true
    case LogNotice => s.sent
    case Unloadable(now, _) => CanWork(s.db, id, now)
    case Unanswered(now, _, phase) => CanWork(s.db, id, now) && phase in {Creating, Backfilling}
    case DiesWriting(now, _, phase) => CanWork(s.db, id, now) && phase in {Creating, Backfilling}
    case Sweep(_) => true
  }

  function Next(s: State, id: int, step: Step): State
    requires Enabled(s, id, step)
  {
    match step
    case Process(r) => AfterRound(s, id, r)
    case Click(now) => s.(db := Reopened(s.db, now, id))
    case Single(c) => AfterSingle(s, id, c)
    // What it says is about the click; the record has no conclusion by it.
    case TurnedAway(delivers) => s.(sent := s.sent || delivers)
    case LogNotice => s.(noticed := true)
    case Unloadable(now, owner) =>
      s.(db := Finished(Claimed(s.db, now, id, owner), now, ClaimOf(s.db.tasks[id], id, owner), Outcome(Unnotified, Some(UNLOADABLE), None, None), false))
    case Unanswered(now, owner, phase) =>
      var c := ClaimOf(s.db.tasks[id], id, owner);
      s.(db := MarkedUnknown(Begun(Claimed(s.db, now, id, owner), now, c, phase), c))
    case DiesWriting(now, owner, phase) =>
      s.(db := Begun(Claimed(s.db, now, id, owner), now, ClaimOf(s.db.tasks[id], id, owner), phase))
    case Sweep(now) => s.(db := Swept(s.db, now))
  }

  ghost predicate Run(s: State, id: int, steps: seq<Step>, t: State)
    decreases steps
  {
    if steps == [] then s == t
    else Enabled(s, id, steps[0]) && Run(Next(s, id, steps[0]), id, steps[1..], t)
  }

  predicate Untouched(s: State, id: int) {
    && s.told == [] && !s.sent && !s.noticed
    && id in s.db.tasks && s.db.tasks[id] == NewTask(s.db.tasks[id].config, s.db.tasks[id].record, None, 0)
  }

  /** The condition a caller can check before sending: no round finds a notice it would take
      for its own. */
  ghost predicate Unnoticed(s: State, id: int, steps: seq<Step>)
    decreases steps
  {
    steps != [] && Enabled(s, id, steps[0]) ==>
      && (steps[0].Process? ==> !TakesNotice(s, id, steps[0].round))
      && Unnoticed(Next(s, id, steps[0]), id, steps[1..])
  }

  lemma OneStep(s: State, id: int, step: Step)
    requires Enabled(s, id, step)
    ensures Run(s, id, [step], Next(s, id, step))
    ensures (step.Process? ==> !TakesNotice(s, id, step.round)) ==> Unnoticed(s, id, [step])
  {
    assert [step][1..] == [];
    assert Run(Next(s, id, step), id, [], Next(s, id, step));
  }

  lemma TwoSteps(s: State, id: int, step: Step, later: Step)
    requires Enabled(s, id, step) && Enabled(Next(s, id, step), id, later)
    ensures Run(s, id, [step, later], Next(Next(s, id, step), id, later))
    ensures !step.Process? && !later.Process? ==> Unnoticed(s, id, [step, later])
    ensures !s.noticed && !later.Process? ==> Unnoticed(s, id, [step, later])
  {
    OneStep(Next(s, id, step), id, later);
    assert [step, later][1..] == [later];
  }

  function NewRow(): State {
    State(Db(map[1 := NewTask(1, "r", None, 0)], map[], map[]), [], false, false)
  }

  /** A single click was turned away with a notice, and the request was logged. */
  function NoticedRow(): State {
    NewRow().(sent := true, noticed := true)
  }

  const Refusal := [TurnedAway(true), LogNotice]

  lemma RefusalIsNoticed()
    ensures Run(NewRow(), 1, Refusal, NoticedRow()) && Untouched(NewRow(), 1)
  {
    TwoSteps(NewRow(), 1, TurnedAway(true), LogNotice);
  }

  lemma AfterRefusal(step: Step)
    requires Enabled(NoticedRow(), 1, step)
    ensures Run(NewRow(), 1, Refusal + [step], Next(NoticedRow(), 1, step))
  {
    var steps := Refusal + [step];
    OneStep(NoticedRow(), 1, step);
    assert steps[1..] == [LogNotice, step] && [LogNotice, step][1..] == [step];
    assert Next(Next(NewRow(), 1, TurnedAway(true)), 1, LogNotice) == NoticedRow();
  }

  // ----- what a round leaves on the row ---------------------------------------

  /** Seconds until the next try after so many retries; from the eighth on it stays. */
  const BACKOFF := [1, 2, 4, 8, 16, 32, 64, 128, 256]

  function StateAfter(r: Result, notified: bool, tries: nat): TaskState {
    match r
    case Completed(_, _) => Backfilled
    case Waiting(_) => Pending
    case Rejected(_) => if notified then Terminal else Unnotified
    case _ => if tries >= 10 then Review else Pending
  }

  /** The whole row after a round that wrote its conclusion back: a retry counts, waits twice as
      long as the one before, and the tenth goes to review; codes and numbers are kept unless
      the conclusion brings new ones; nobody holds the row any more. */
  function RowAfter(was: TaskRow, now: int, r: Result, notified: bool): TaskRow {
    var retried := r.Retryable? || r.PendingBackfill?;
    var tries := was.attempts + (if retried then 1 else 0);
    TaskRow(
      was.config, was.record, StateAfter(r, notified, tries), was.phase, None, was.generation + 1,
      if r.Completed? || r.PendingBackfill? then Some(r.code) else was.instance,
      if r.Completed? then Some(r.number) else if r.PendingBackfill? && r.known.Some? then r.known else was.serial,
      if r.Completed? then None
      else if r.Rejected? then Some(r.why)
      else if notified then Some(r.reason) else Some("通知未送达：" + r.reason),
      tries,
      Some(now + if retried then BACKOFF[if tries < 8 then tries else 8] else 30),
      was.group, was.rank)
  }

  /** That row, and nothing else, is what the write-back changes. */
  lemma RoundWritesBack(s: State, id: int, r: Round)
    requires Runs(s, id, r) && r.fate == WrittenBack
    ensures Next(s, id, Process(r)).db == s.db.(tasks := s.db.tasks[id := RowAfter(s.db.tasks[id], r.now, r.result, Notified(s, id, r))])
  {
    var c, held := ClaimOf(s.db.tasks[id], id, r.owner), Claimed(s.db, r.now, id, r.owner);
    WriteBack(s.db.tasks[id], held, c, r.now, r.result, Notified(s, id, r));
  }

  lemma WriteBack(was: TaskRow, held: Db, c: Claim, now: int, r: Result, notified: bool)
    requires CanFinish(held, now, c) && held.tasks[c.id] == was.(holder := held.tasks[c.id].holder, generation := was.generation + 1)
    requires c.attempts == was.attempts
    ensures Finished(held, now, c, OutcomeRecord(r, notified), Retries(r)) == held.(tasks := held.tasks[c.id := RowAfter(was, now, r, notified)])
  {
    DelayIs(c, Retries(r));
    var back := Finished(held, now, c, OutcomeRecord(r, notified), Retries(r)).tasks[c.id];
    assert back == RowAfter(was, now, r, notified);
  }

  /** A round that did not get so far leaves a lease on the row. */
  lemma RoundCutShort(s: State, id: int, r: Round)
    requires Runs(s, id, r) && r.fate != WrittenBack
    ensures var was := s.db.tasks[id];
      Next(s, id, Process(r)).db == s.db.(tasks := s.db.tasks[id := was.(holder := Some(Lease(r.owner, r.now + 300)), generation := was.generation + 1)])
  {
  }

  /** The row after a single click was worked off: like a round's, but the text is the message
      as shown, never marked, only a final result can count as told, and only a plain retry
      counts as one. */
  function RowAfterClick(was: TaskRow, c: SingleClick): TaskRow {
    var retried := c.result.Retryable?;
    var tries := was.attempts + (if retried then 1 else 0);
    TaskRow(
      was.config, was.record,
      if c.result.Completed? then Backfilled
      else if c.result.Rejected? then (if c.delivers then Terminal else Unnotified)
      else if retried && tries >= 10 then Review else Pending,
      was.phase, None, was.generation + 1,
      if c.result.Completed? || c.result.PendingBackfill? then Some(c.result.code) else was.instance,
      if c.result.Completed? then Some(c.result.number) else if c.result.PendingBackfill? && c.result.known.Some? then c.result.known else was.serial,
      if c.result.Completed? then None else Some(c.shown),
      tries,
      Some(c.now + if retried then BACKOFF[if tries < 8 then tries else 8] else 30),
      was.group, was.rank)
  }

  lemma SingleWritesBack(s: State, id: int, c: SingleClick)
    requires Enabled(s, id, Single(c)) && c.written
    ensures var db := Opened(s, id, c);
      Next(s, id, Single(c)).db == db.(tasks := db.tasks[id := RowAfterClick(db.tasks[id], c)])
  {
    var db := Opened(s, id, c);
    ClickBack(db.tasks[id], Claimed(db, c.now, id, c.owner), ClaimOf(db.tasks[id], id, c.owner), c);
  }

  lemma ClickBack(was: TaskRow, held: Db, claim: Claim, c: SingleClick)
    requires CanFinish(held, c.now, claim) && held.tasks[claim.id] == was.(holder := held.tasks[claim.id].holder, generation := was.generation + 1)
    requires claim.attempts == was.attempts
    ensures Finished(held, c.now, claim, ClickRecord(c), c.result.Retryable?) == held.(tasks := held.tasks[claim.id := RowAfterClick(was, c)])
  {
    DelayIs(claim, c.result.Retryable?);
    var back := Finished(held, c.now, claim, ClickRecord(c), c.result.Retryable?).tasks[claim.id];
    assert back == RowAfterClick(was, c);
  }

  lemma DelayIs(c: Claim, retry: bool)
    ensures Delay(c, retry) == if retry then BACKOFF[if c.attempts + 1 < 8 then c.attempts + 1 else 8] else 30
  {
    Powers();
  }

  lemma Powers()
    ensures forall k: nat :: k <= 8 ==> Power2(k) == BACKOFF[k]
  {
    assert Power2(0) == 1 && Power2(1) == 2 && Power2(2) == 4 && Power2(3) == 8 && Power2(4) == 16;
    assert Power2(5) == 32 && Power2(6) == 64 && Power2(7) == 128 && Power2(8) == 256;
  }

  // ----- a terminal row was explained to somebody ---------------------------

  predicate TerminalWasTold(s: State, id: int) {
    id in s.db.tasks && s.db.tasks[id].state == Terminal ==>
      s.db.tasks[id].lastError.Some? && Rejected(s.db.tasks[id].lastError.value) in s.told
  }

  /** A rejection is written back as told on the strength of an old notice. */
  predicate ClosesUntold(s: State, id: int, step: Step)
    requires Enabled(s, id, step)
  {
    && step.Process? && step.round.result.Rejected? && step.round.fate == WrittenBack
    && TakesNotice(s, id, step.round) && step.round.result !in s.told
  }

  lemma RoundKeepsTold(s: State, id: int, r: Round)
    requires Runs(s, id, r) && TerminalWasTold(s, id)
    ensures TerminalWasTold(AfterRound(s, id, r), id) <==> !ClosesUntold(s, id, Process(r))
  {
    var t := AfterRound(s, id, r);
    assert forall x :: x in s.told ==> x in t.told;
    assert Tells(s, id, r) ==> t.told[|s.told|] == r.result;
    if r.result.Rejected? && r.fate == WrittenBack {
      assert t.db.tasks[id].lastError == Some(r.result.why);
      assert Notified(s, id, r) <==> TakesNotice(s, id, r) || Tells(s, id, r);
    }
  }

  lemma SingleKeepsTold(s: State, id: int, c: SingleClick)
    requires CanWork(Opened(s, id, c), id, c.now) && TerminalWasTold(s, id)
    ensures TerminalWasTold(AfterSingle(s, id, c), id)
  {
    var t := AfterSingle(s, id, c);
    assert forall x :: x in s.told ==> x in t.told;
    assert ClickTells(c) ==> t.told[|s.told|] == AsShown(c);
  }

  /** One step breaks the promise exactly if it closes the row on an old notice. */
  lemma StepKeepsTold(s: State, id: int, step: Step)
    requires Enabled(s, id, step) && TerminalWasTold(s, id)
    ensures TerminalWasTold(Next(s, id, step), id) <==> !ClosesUntold(s, id, step)
  {
    match step
    case Process(r) => RoundKeepsTold(s, id, r);
    case Single(c) => SingleKeepsTold(s, id, c);
    case _ =>
  }

  ghost predicate NeverClosesUntold(s: State, id: int, steps: seq<Step>)
    decreases steps
  {
    steps != [] && Enabled(s, id, steps[0]) ==>
      !ClosesUntold(s, id, steps[0]) && NeverClosesUntold(Next(s, id, steps[0]), id, steps[1..])
  }

  lemma {:induction false} TerminalRun(s: State, id: int, steps: seq<Step>, t: State)
    requires TerminalWasTold(s, id) && Run(s, id, steps, t) && NeverClosesUntold(s, id, steps)
    ensures TerminalWasTold(t, id)
    decreases steps
  {
    if steps == [] {
    } else {
      StepKeepsTold(s, id, steps[0]);
      TerminalRun(Next(s, id, steps[0]), id, steps[1..], t);
    }
  }

  lemma {:induction false} UnnoticedNeverCloses(s: State, id: int, steps: seq<Step>)
    requires Unnoticed(s, id, steps)
    ensures NeverClosesUntold(s, id, steps)
    decreases steps
  {
    if steps == [] || !Enabled(s, id, steps[0]) {
    } else {
      UnnoticedNeverCloses(Next(s, id, steps[0]), id, steps[1..]);
    }
  }

  lemma {:induction false} NothingRejected(s: State, id: int, steps: seq<Step>, texts: Texts)
    requires TextsIn(steps, texts) && texts.rejections == iset{}
    ensures NeverClosesUntold(s, id, steps)
    decreases steps
  {
    if steps == [] || !Enabled(s, id, steps[0]) {
    } else {
      TextsOfRest(steps, texts);
      NothingRejected(Next(s, id, steps[0]), id, steps[1..], texts);
    }
  }

  /** Whatever is delivered, lost, cut short or clicked again, a row is terminal only if its
      conclusion reached a person, as long as no round finds a notice it would take for its own. */
  lemma TerminalOnlyIfTold(s: State, id: int, steps: seq<Step>, t: State)
    requires Untouched(s, id) && Run(s, id, steps, t) && Unnoticed(s, id, steps) && id in t.db.tasks && t.db.tasks[id].state == Terminal
    ensures t.db.tasks[id].lastError.Some? && Rejected(t.db.tasks[id].lastError.value) in t.told
  {
    UnnoticedNeverCloses(s, id, steps);
    TerminalRun(s, id, steps, t);
  }

  /** Somebody's click on the record is turned away with a notice; the row is then rejected
      with any text at all, and closed as told, and nobody was told anything about it. */
  lemma NoticeClosesUntold(text: string) returns (steps: seq<Step>, t: State)
    ensures Untouched(NewRow(), 1) && Run(NewRow(), 1, steps, t)
    ensures |steps| == 3 && steps[..2] == Refusal && steps[2].Process? && steps[2].round.result == Rejected(text)
    ensures 1 in t.db.tasks && t.db.tasks[1].state == Terminal && t.told == [] && !TerminalWasTold(t, 1)
  {
    var step := Process(Round(0, 0, Rejected(text), true, true, WrittenBack));
    AfterRefusal(step);
    steps, t := Refusal + [step], Next(NoticedRow(), 1, step);
  }

  /** In every run over these texts a terminal row was told; `heeded` runs are those in which
      no round finds a notice it would take for its own. */
  ghost predicate TerminalMeansTold(texts: Texts, heeded: bool) {
    forall s, id, steps, t :: Untouched(s, id) && TextsIn(steps, texts) && Run(s, id, steps, t) && (heeded ==> Unnoticed(s, id, steps))
      ==> TerminalWasTold(t, id)
  }

  /** Without the condition it fails for any text a rejection can carry. */
  lemma TerminalMeansToldExactly(texts: Texts, heeded: bool)
    ensures TerminalMeansTold(texts, heeded) <==> heeded || texts.rejections == iset{}
  {
    if heeded || texts.rejections == iset{} {
      forall s, id, steps, t | Untouched(s, id) && TextsIn(steps, texts) && Run(s, id, steps, t) && (heeded ==> Unnoticed(s, id, steps))
        ensures TerminalWasTold(t, id)
      {
        if heeded { UnnoticedNeverCloses(s, id, steps); } else { NothingRejected(s, id, steps, texts); }
        TerminalRun(s, id, steps, t);
      }
    } else {
      var text :| text in texts.rejections;
      var steps, t := NoticeClosesUntold(text);
      assert TextsIn(steps, texts) by {
        assert forall i :: 0 <= i < 2 ==> steps[i] == steps[..2][i];
      }
    }
  }

  // ----- an undelivered conclusion is tried again ---------------------------

  /** After a round that could not deliver an interim reason and wrote that down, the
      next round is silent about `next` only if `next` is the marked reason itself. */
  lemma UndeliveredIsRetried(s: State, id: int, r: Round, next: Result)
    requires Runs(s, id, r) && r.fate == WrittenBack && Interim(r.result) && Interim(next)
    requires Tries(s, id, r) && !Notified(s, id, r)
    ensures !ShouldNotify(AfterRound(s, id, r).db.tasks[id].lastError, next) <==> next.reason == UNDELIVERED + r.result.reason
    ensures next.reason == r.result.reason ==> ShouldNotify(AfterRound(s, id, r).db.tasks[id].lastError, next)
  {
    assert |UNDELIVERED + r.result.reason| > |r.result.reason|;
  }

  // ----- an unchanged conclusion --------------------------------------------

  /** All rounds conclude the same, and no single click records that very text. */
  predicate Unchanged(steps: seq<Step>, reason: string, shown: iset<string>) {
    forall i :: 0 <= i < |steps| ==> StepUnchanged(steps[i], reason, shown)
  }

  predicate StepUnchanged(step: Step, reason: string, shown: iset<string>) {
    match step
    case Process(r) => Interim(r.result) && r.result.reason == reason
    case Single(c) => c.shown in shown
    case _ => true
  }

  lemma Tail(steps: seq<Step>, reason: string, shown: iset<string>)
    requires Unchanged(steps, reason, shown) && steps != []
    ensures Unchanged(steps[1..], reason, shown) && StepUnchanged(steps[0], reason, shown)
  {
    assert forall i :: 0 <= i < |steps[1..]| ==> steps[1..][i] == steps[i + 1];
  }

  /** How often people were told this interim reason. */
  function Tellings(told: seq<Result>, reason: string): nat {
    if told == [] then 0
    else
      var last := told[|told| - 1];
      Tellings(told[..|told| - 1], reason) + (if Interim(last) && last.reason == reason then 1 else 0)
  }

  lemma OneMoreTelling(told: seq<Result>, r: Result, reason: string)
    ensures Tellings(told + [r], reason) == Tellings(told, reason) + (if Interim(r) && r.reason == reason then 1 else 0)
  {
    assert (told + [r])[..|told|] == told;
  }

  /** The step put another text where the row recorded its reason. */
  predicate Overwrites(s: State, id: int, step: Step)
    requires Enabled(s, id, step) && id in s.db.tasks
  {
    !step.Process? && id in Next(s, id, step).db.tasks && Next(s, id, step).db.tasks[id].lastError != s.db.tasks[id].lastError
  }

  predicate Forgets(s: State, id: int, step: Step)
    requires Enabled(s, id, step) && id in s.db.tasks
  {
    match step
    case Process(r) => Tells(s, id, r) && r.fate != WrittenBack
    case _ => Overwrites(s, id, step)
  }

  /** Rounds that delivered but whose write-back did not take effect, and steps that put
      another text over the recorded reason. */
  ghost function Reminders(s: State, id: int, steps: seq<Step>): nat
    decreases steps
  {
    if steps == [] || id !in s.db.tasks || !Enabled(s, id, steps[0]) then 0
    else (if Forgets(s, id, steps[0]) then 1 else 0) + Reminders(Next(s, id, steps[0]), id, steps[1..])
  }

  lemma StepTells(s: State, id: int, step: Step, reason: string, shown: iset<string>)
    requires Enabled(s, id, step) && id in s.db.tasks && StepUnchanged(step, reason, shown)
    ensures var t := Next(s, id, step);
      && id in t.db.tasks
      && Tellings(t.told, reason) - Tellings(s.told, reason) + (if t.db.tasks[id].lastError == Some(reason) then 0 else 1)
           <= (if Forgets(s, id, step) then 1 else 0) + (if s.db.tasks[id].lastError == Some(reason) then 0 else 1)
  {
    match step
    case Process(r) => OneMoreTelling(s.told, r.result, reason);
    case Single(c) => OneMoreTelling(s.told, AsShown(c), reason);
    case _ =>
  }

  /** An unchanged interim conclusion reaches people at most once, plus once for every time
      the row forgot that it had; not at all if the row already records it. */
  lemma {:induction false} ToldAtMostOnce(s: State, id: int, steps: seq<Step>, t: State, reason: string, shown: iset<string>)
    requires Run(s, id, steps, t) && Unchanged(steps, reason, shown) && id in s.db.tasks
    ensures Tellings(t.told, reason) - Tellings(s.told, reason)
      <= Reminders(s, id, steps) + (if s.db.tasks[id].lastError == Some(reason) then 0 else 1)
    decreases steps
  {
    if steps == [] {
    } else {
      Tail(steps, reason, shown);
      StepTells(s, id, steps[0], reason, shown);
      ToldAtMostOnce(Next(s, id, steps[0]), id, steps[1..], t, reason, shown);
    }
  }

  /** A text that the worker writes without trying to tell anybody. */
  predicate Note(text: string) {
    text == UNKNOWN_RESULT || text == UNLOADABLE
  }

  predicate Overlooked(s: State, id: int, reason: string) {
    Tellings(s.told, reason) == 0 && id in s.db.tasks && s.db.tasks[id].lastError != Some(reason)
  }

  /** The other steps keep the text or put a note there. */
  lemma OtherText(s: State, id: int, step: Step)
    requires Enabled(s, id, step) && !step.Process? && !step.Single?
    ensures var t := Next(s, id, step);
      && t.told == s.told && (id in t.db.tasks <==> id in s.db.tasks)
      && (id in t.db.tasks ==> t.db.tasks[id].lastError in {s.db.tasks[id].lastError, Some(UNKNOWN_RESULT), Some(UNLOADABLE)})
  {
  }

  lemma RoundRetries(s: State, id: int, r: Round, reason: string)
    requires Runs(s, id, r) && Overlooked(s, id, reason) && Interim(r.result) && r.result.reason == reason && !TakesNotice(s, id, r)
    ensures Tellings(AfterRound(s, id, r).told, reason) > 0 || Overlooked(AfterRound(s, id, r), id, reason)
  {
    OneMoreTelling(s.told, r.result, reason);
    assert |UNDELIVERED + reason| > |reason|;
  }

  lemma SingleRetries(s: State, id: int, c: SingleClick, reason: string)
    requires CanWork(Opened(s, id, c), id, c.now) && Overlooked(s, id, reason) && c.shown != reason && reason != UNKNOWN_RESULT
    ensures Overlooked(AfterSingle(s, id, c), id, reason)
  {
    OneMoreTelling(s.told, AsShown(c), reason);
    OpenedText(s, id, c);
    TextAfterSingle(s, id, c);
  }

  lemma OpenedText(s: State, id: int, c: SingleClick)
    requires id in s.db.tasks
    ensures id in Opened(s, id, c).tasks && Opened(s, id, c).tasks[id].lastError in {s.db.tasks[id].lastError, Some(UNKNOWN_RESULT)}
  {
  }

  lemma TextAfterSingle(s: State, id: int, c: SingleClick)
    requires CanWork(Opened(s, id, c), id, c.now)
    ensures var t := AfterSingle(s, id, c);
      id in t.db.tasks && t.db.tasks[id].lastError in {Opened(s, id, c).tasks[id].lastError, Some(c.shown), None}
  {
  }

  lemma StepRetries(s: State, id: int, step: Step, reason: string, shown: iset<string>)
    requires Enabled(s, id, step) && Overlooked(s, id, reason) && StepUnchanged(step, reason, shown)
    requires reason !in shown && !Note(reason) && (step.Process? ==> !TakesNotice(s, id, step.round))
    ensures Tellings(Next(s, id, step).told, reason) > 0 || Overlooked(Next(s, id, step), id, reason)
  {
    match step
    case Process(r) => RoundRetries(s, id, r, reason);
    case Single(c) => SingleRetries(s, id, c, reason);
    case _ => OtherText(s, id, step);
  }

  lemma {:induction false} TellingsGrow(s: State, id: int, steps: seq<Step>, t: State, reason: string)
    requires Run(s, id, steps, t)
    ensures Tellings(s.told, reason) <= Tellings(t.told, reason)
    decreases steps
  {
    if steps == [] {
    } else {
      match steps[0] {
        case Process(r) => OneMoreTelling(s.told, r.result, reason);
        case Single(c) => OneMoreTelling(s.told, AsShown(c), reason);
        case _ =>
      }
      TellingsGrow(Next(s, id, steps[0]), id, steps[1..], t, reason);
    }
  }

  /** As long as nobody was told and no round finds a notice it would take for its own, every
      further round with that conclusion sends it, whoever clicked or whatever write was lost. */
  lemma {:induction false} RetriedUntilTold(s: State, id: int, steps: seq<Step>, t: State, reason: string, shown: iset<string>, r: Round)
    requires Run(s, id, steps, t) && Unchanged(steps, reason, shown) && Unnoticed(s, id, steps)
    requires Overlooked(s, id, reason) && Tellings(t.told, reason) == 0 && reason !in shown && !Note(reason)
    requires Runs(t, id, r) && r.fate != CutBefore && Interim(r.result) && r.result.reason == reason
    ensures Tries(t, id, r) && (Sends(t, id, r) <==> r.reachable && !t.noticed)
    decreases steps
  {
    if steps == [] {
    } else {
      var next := Next(s, id, steps[0]);
      Tail(steps, reason, shown);
      StepRetries(s, id, steps[0], reason, shown);
      TellingsGrow(next, id, steps[1..], t, reason);
      RetriedUntilTold(next, id, steps[1..], t, reason, shown, r);
    }
  }

  /** The round could send its untold conclusion, and does not. */
  ghost predicate GivenUp(s: State, id: int, steps: seq<Step>, t: State, r: Round, reason: string, shown: iset<string>) {
    && Untouched(s, id) && Run(s, id, steps, t) && Unchanged(steps, reason, shown) && Tellings(t.told, reason) == 0
    && Runs(t, id, r) && r.fate != CutBefore && Interim(r.result) && r.result.reason == reason && r.reachable && !Sends(t, id, r)
  }

  ghost predicate Heeded(s: State, id: int, steps: seq<Step>, t: State, r: Round)
    requires Runs(t, id, r)
  {
    Unnoticed(s, id, steps) && !TakesNotice(t, id, r)
  }

  ghost predicate AlwaysRetried(reason: string, shown: iset<string>, heeded: bool) {
    forall s, id, steps, t, r :: GivenUp(s, id, steps, t, r, reason, shown) ==> heeded && !Heeded(s, id, steps, t, r)
  }

  /** An old notice makes the very first round give up. */
  lemma NoticeGivesUp(reason: string, shown: iset<string>)
    ensures exists steps, t, r :: GivenUp(NewRow(), 1, steps, t, r, reason, shown)
  {
    RefusalIsNoticed();
    assert GivenUp(NewRow(), 1, Refusal, NoticedRow(), Round(0, 0, Waiting(reason), true, true, WrittenBack), reason, shown);
  }

  lemma ShownRowIsReached(text: string) returns (steps: seq<Step>, t: State)
    ensures |steps| == 1 && steps[0].Single? && Interim(steps[0].click.result) && steps[0].click.shown == text
    ensures Untouched(NewRow(), 1) && Run(NewRow(), 1, steps, t) && Unnoticed(NewRow(), 1, steps)
    ensures CanWork(t.db, 1, 800) && t.db.tasks[1].lastError == Some(text) && t.told == [] && !t.noticed
  {
    var first := Single(SingleClick(0, 0, false, Waiting(""), text, false, true));
    OneStep(NewRow(), 1, first);
    steps, t := [first], Next(NewRow(), 1, first);
  }

  lemma NotedRowIsReached(text: string) returns (steps: seq<Step>, t: State)
    requires Note(text)
    ensures |steps| == 2 && (steps[0].Unanswered? || steps[0].Unloadable?) && steps[1].Click?
    ensures Untouched(NewRow(), 1) && Run(NewRow(), 1, steps, t) && Unnoticed(NewRow(), 1, steps)
    ensures CanWork(t.db, 1, 800) && t.db.tasks[1].lastError == Some(text) && t.told == [] && !t.noticed
  {
    if text == UNKNOWN_RESULT {
      steps, t := UnansweredRowIsReached();
    } else {
      steps, t := UnloadedRowIsReached();
    }
  }

  lemma UnansweredRowIsReached() returns (steps: seq<Step>, t: State)
    ensures |steps| == 2 && steps[0].Unanswered? && steps[1].Click?
    ensures Untouched(NewRow(), 1) && Run(NewRow(), 1, steps, t) && Unnoticed(NewRow(), 1, steps)
    ensures CanWork(t.db, 1, 800) && t.db.tasks[1].lastError == Some(UNKNOWN_RESULT) && t.told == [] && !t.noticed
  {
    var first := Unanswered(0, 0, Creating);
    TwoSteps(NewRow(), 1, first, Click(400));
    steps, t := [first, Click(400)], Next(Next(NewRow(), 1, first), 1, Click(400));
  }

  lemma UnloadedRowIsReached() returns (steps: seq<Step>, t: State)
    ensures |steps| == 2 && steps[0].Unloadable? && steps[1].Click?
    ensures Untouched(NewRow(), 1) && Run(NewRow(), 1, steps, t) && Unnoticed(NewRow(), 1, steps)
    ensures CanWork(t.db, 1, 800) && t.db.tasks[1].lastError == Some(UNLOADABLE) && t.told == [] && !t.noticed
  {
    var first := Unloadable(0, 0);
    TwoSteps(NewRow(), 1, first, Click(400));
    steps, t := [first, Click(400)], Next(Next(NewRow(), 1, first), 1, Click(400));
  }

  lemma TextGivesUp(reason: string, shown: iset<string>)
    requires reason in shown || Note(reason)
    ensures exists steps, t, r :: GivenUp(NewRow(), 1, steps, t, r, reason, shown) && Heeded(NewRow(), 1, steps, t, r)
  {
    var steps, t;
    if reason in shown {
      steps, t := ShownRowIsReached(reason);
    } else {
      steps, t := NotedRowIsReached(reason);
    }
    var r := Round(800, 1, Waiting(reason), true, true, WrittenBack);
    assert GivenUp(NewRow(), 1, steps, t, r, reason, shown) && Heeded(NewRow(), 1, steps, t, r);
  }

  /** An untold interim conclusion is sent again and again exactly if the caller sees to it
      that no notice is there, and the text is not one that the row may show untold. */
  lemma AlwaysRetriedExactly(reason: string, shown: iset<string>, heeded: bool)
    ensures AlwaysRetried(reason, shown, heeded) <==> heeded && reason !in shown && !Note(reason)
  {
    if !heeded {
      NoticeGivesUp(reason, shown);
    } else if reason in shown || Note(reason) {
      TextGivesUp(reason, shown);
    } else {
      forall s, id, steps, t, r | GivenUp(s, id, steps, t, r, reason, shown) && Heeded(s, id, steps, t, r) ensures false {
        RetriedUntilTold(s, id, steps, t, reason, shown, r);
      }
    }
  }

  // ----- silence means it was said before: exactly when --------------------

  /** The texts there are: interim reasons, rejections, and the messages of single clicks. */
  datatype Texts = Texts(reasons: iset<string>, rejections: iset<string>, shown: iset<string>)

  predicate Speaks(r: Result, texts: Texts) {
    match r
    case Completed(_, _) => true
    case Rejected(why) => why in texts.rejections
    case _ => r.reason in texts.reasons
  }

  predicate StepSpeaks(step: Step, texts: Texts) {
    match step
    case Process(r) => Speaks(r.result, texts)
    case Single(c) => c.shown in texts.shown
    case _ => true
  }

  predicate TextsIn(steps: seq<Step>, texts: Texts) {
    forall i :: 0 <= i < |steps| ==> StepSpeaks(steps[i], texts)
  }

  lemma TextsOfRest(steps: seq<Step>, texts: Texts)
    requires TextsIn(steps, texts) && steps != []
    ensures TextsIn(steps[1..], texts) && StepSpeaks(steps[0], texts)
  {
    assert forall i :: 0 <= i < |steps[1..]| ==> steps[1..][i] == steps[i + 1];
  }

  predicate Says(r: Result, text: string) {
    match r
    case Completed(_, _) => false
    case Rejected(why) => why == text
    case _ => r.reason == text
  }

  ghost predicate WasTold(s: State, text: string) {
    exists r :: r in s.told && Says(r, text)
  }

  /** A text that may stand on the row untold. */
  ghost predicate Unspoken(text: string, texts: Texts) {
    || (exists base :: base in texts.reasons && text == UNDELIVERED + base)
    || text in texts.rejections || text in texts.shown || Note(text)
  }

  ghost predicate Honest(s: State, id: int, texts: Texts) {
    id in s.db.tasks && s.db.tasks[id].lastError.Some? ==>
      WasTold(s, s.db.tasks[id].lastError.value) || Unspoken(s.db.tasks[id].lastError.value, texts)
  }

  lemma HonestRound(s: State, id: int, r: Round, texts: Texts)
    requires Runs(s, id, r) && Honest(s, id, texts) && Speaks(r.result, texts) && !TakesNotice(s, id, r)
    ensures Honest(AfterRound(s, id, r), id, texts)
  {
    var t := AfterRound(s, id, r);
    forall x | x in s.told ensures x in t.told {}
    if r.fate == WrittenBack && Interim(r.result) {
      if !ShouldNotify(s.db.tasks[id].lastError, r.result) {
        assert t.db.tasks[id].lastError == s.db.tasks[id].lastError && t.told == s.told;
      } else if Tells(s, id, r) {
        assert t.told[|s.told|] == r.result && Says(r.result, r.result.reason);
      } else {
        assert t.db.tasks[id].lastError.value == UNDELIVERED + r.result.reason;
      }
    }
  }

  lemma HonestSingle(s: State, id: int, c: SingleClick, texts: Texts)
    requires CanWork(Opened(s, id, c), id, c.now) && Honest(s, id, texts) && c.shown in texts.shown
    ensures Honest(AfterSingle(s, id, c), id, texts)
  {
    var t := AfterSingle(s, id, c);
    forall x | x in s.told ensures x in t.told {}
    var text := t.db.tasks[id].lastError;
    assert text == s.db.tasks[id].lastError || text == Some(UNKNOWN_RESULT) || text == Some(c.shown) || text == None;
  }

  lemma HonestStep(s: State, id: int, step: Step, texts: Texts)
    requires Enabled(s, id, step) && Honest(s, id, texts) && StepSpeaks(step, texts)
    requires step.Process? ==> !TakesNotice(s, id, step.round)
    ensures Honest(Next(s, id, step), id, texts)
  {
    match step
    case Process(r) => HonestRound(s, id, r, texts);
    case Single(c) => HonestSingle(s, id, c, texts);
    case _ => OtherText(s, id, step);
  }

  lemma {:induction false} HonestRun(s: State, id: int, steps: seq<Step>, t: State, texts: Texts)
    requires Run(s, id, steps, t) && Unnoticed(s, id, steps) && Honest(s, id, texts) && TextsIn(steps, texts)
    ensures Honest(t, id, texts)
    decreases steps
  {
    if steps == [] {
    } else {
      TextsOfRest(steps, texts);
      HonestStep(s, id, steps[0], texts);
      HonestRun(Next(s, id, steps[0]), id, steps[1..], t, texts);
    }
  }

  /** The round gets as far as sending, has an interim conclusion, and counts it as told. */
  predicate Silent(s: State, id: int, r: Round) {
    && Runs(s, id, r) && r.fate != CutBefore && Interim(r.result)
    && (!ShouldNotify(s.db.tasks[id].lastError, r.result) || TakesNotice(s, id, r))
  }

  /** Interim conclusion `r` is passed over in silence though nobody was ever told it. */
  ghost predicate SilentlyLost(s: State, id: int, steps: seq<Step>, t: State, r: Round, texts: Texts) {
    && Untouched(s, id) && TextsIn(steps, texts) && Run(s, id, steps, t)
    && Silent(t, id, r) && Speaks(r.result, texts) && !WasTold(t, r.result.reason)
  }

  /** In every run over these texts, a round that stays silent about an interim conclusion
      does so because a person was told that very text before. */
  ghost predicate SilenceIsEarned(texts: Texts, heeded: bool) {
    forall s, id, steps, t, r :: SilentlyLost(s, id, steps, t, r, texts) ==> heeded && !Heeded(s, id, steps, t, r)
  }

  /** No interim reason may stand on the row untold. */
  ghost predicate Distinguishable(texts: Texts) {
    forall text :: text in texts.reasons ==> !Unspoken(text, texts)
  }

  lemma EarnedWhenDistinguishable(texts: Texts)
    requires Distinguishable(texts)
    ensures SilenceIsEarned(texts, true)
  {
    forall s, id, steps, t, r | SilentlyLost(s, id, steps, t, r, texts) && Heeded(s, id, steps, t, r) ensures false {
      HonestRun(s, id, steps, t, texts);
    }
  }

  /** A reason that reads like the mark of another one that could not be delivered. */
  lemma MarkedReasonIsLost(base: string, texts: Texts) returns (steps: seq<Step>, t: State, r: Round)
    requires base in texts.reasons && UNDELIVERED + base in texts.reasons
    ensures SilentlyLost(NewRow(), 1, steps, t, r, texts) && Heeded(NewRow(), 1, steps, t, r) && r.result == Waiting(UNDELIVERED + base)
  {
    var first := Process(Round(0, 0, Waiting(base), true, false, WrittenBack));
    OneStep(NewRow(), 1, first);
    steps, t, r := [first], Next(NewRow(), 1, first), Round(400, 1, Waiting(UNDELIVERED + base), true, true, WrittenBack);
  }

  /** A rejection nobody could be told leaves its text on the row; a click reopens the row
      and keeps the text; an interim conclusion with that text then stays untold. */
  lemma RejectionSilencesReason(text: string, texts: Texts) returns (steps: seq<Step>, t: State, r: Round)
    requires text in texts.reasons && text in texts.rejections
    ensures SilentlyLost(NewRow(), 1, steps, t, r, texts) && Heeded(NewRow(), 1, steps, t, r) && r.result == Retryable(text)
    ensures |steps| == 2 && steps[0].Process? && steps[0].round.result == Rejected(text) && steps[1].Click?
  {
    var first := Process(Round(0, 0, Rejected(text), true, false, WrittenBack));
    TwoSteps(NewRow(), 1, first, Click(100));
    steps, t, r := [first, Click(100)], Next(Next(NewRow(), 1, first), 1, Click(100)), Round(400, 1, Retryable(text), true, true, WrittenBack);
  }

  /** So does a single click, which records the text of an interim conclusion and tells nobody. */
  lemma ShownTextSilencesReason(text: string, texts: Texts) returns (steps: seq<Step>, t: State, r: Round)
    requires text in texts.reasons && text in texts.shown
    ensures SilentlyLost(NewRow(), 1, steps, t, r, texts) && Heeded(NewRow(), 1, steps, t, r) && r.result == Retryable(text)
    ensures |steps| == 1 && steps[0].Single? && Interim(steps[0].click.result)
  {
    steps, t := ShownRowIsReached(text);
    r := Round(800, 1, Retryable(text), true, true, WrittenBack);
  }

  /** So do the notes that are written without telling anybody. */
  lemma NoteSilencesReason(text: string, texts: Texts) returns (steps: seq<Step>, t: State, r: Round)
    requires text in texts.reasons && Note(text)
    ensures SilentlyLost(NewRow(), 1, steps, t, r, texts) && Heeded(NewRow(), 1, steps, t, r) && r.result == Retryable(text)
  {
    steps, t := NotedRowIsReached(text);
    r := Round(800, 1, Retryable(text), true, true, WrittenBack);
  }

  /** And so does a notice about anything else: the first round takes it for its own and
      records the reason as told, and every later one finds it recorded. */
  lemma NoticeSilencesReason(text: string, texts: Texts) returns (steps: seq<Step>, t: State, r: Round)
    requires text in texts.reasons
    ensures SilentlyLost(NewRow(), 1, steps, t, r, texts) && r.result == Waiting(text) && t.told == []
    ensures |steps| == 3 && steps[..2] == Refusal && steps[2].Process? && steps[2].round.result == Waiting(text)
    ensures 1 in t.db.tasks && t.db.tasks[1].lastError == Some(text)
  {
    var step := Process(Round(0, 0, Waiting(text), true, true, WrittenBack));
    AfterRefusal(step);
    steps, t, r := Refusal + [step], Next(NoticedRow(), 1, step), Round(400, 1, Waiting(text), true, true, WrittenBack);
    assert t.db.tasks[1].lastError == Some(text);
  }

  /** The de-duplication is honest over these texts exactly when no round finds a notice it
      would take for its own, and the interim reasons can be told from everything else that
      may stand on the row; without the former, only if there is no interim reason at all. */
  lemma SilenceIsEarnedExactly(texts: Texts, heeded: bool)
    ensures SilenceIsEarned(texts, heeded) <==> if heeded then Distinguishable(texts) else texts.reasons == iset{}
  {
    if !heeded {
      if text :| text in texts.reasons {
        var steps, t, r := NoticeSilencesReason(text, texts);
      }
    } else if Distinguishable(texts) {
      EarnedWhenDistinguishable(texts);
    } else {
      var text :| text in texts.reasons && Unspoken(text, texts);
      UnspokenIsLost(text, texts);
    }
  }

  lemma UnspokenIsLost(text: string, texts: Texts)
    requires text in texts.reasons && Unspoken(text, texts)
    ensures exists steps, t, r :: SilentlyLost(NewRow(), 1, steps, t, r, texts) && Heeded(NewRow(), 1, steps, t, r)
  {
    if text in texts.rejections {
      var steps, t, r := RejectionSilencesReason(text, texts);
    } else if text in texts.shown {
      var steps, t, r := ShownTextSilencesReason(text, texts);
    } else if Note(text) {
      var steps, t, r := NoteSilencesReason(text, texts);
    } else {
      var base :| base in texts.reasons && text == UNDELIVERED + base;
      var steps, t, r := MarkedReasonIsLost(base, texts);
    }
  }
}
