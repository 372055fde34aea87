/** Alerts that come in pairs: stalled and resumed, seeding failed and recovered. */
module Alerts {
  import opened Options

  // ----- the progress heartbeat ------------------------------------------------

  /** One lock guards these; each access below is one critical section. */
  datatype Heartbeat = Heartbeat(at: Option<int>, warned: bool)

  /** How far the watchdog is through one tick; `Warned` still has its line to write. */
  datatype Watch = Waiting | Asked | Snapped(idle: int) | Warned(idle: int)

  /** The worker; `Resuming` has cleared the flag and still has its line to write. */
  datatype Worker = Working | Resuming

  datatype Log = Stalled(idle: int) | Resumed

  /** `due` has a line for each change of the flag, in the order of the changes; `lines` is
      what has been written. */
  datatype State = State(now: int, beat: Heartbeat, worker: Worker, watch: Watch, due: seq<Log>, lines: seq<Log>)

  /** The worker marks and the watchdog asks, reads and warns under the lock; both write their
      lines after letting it go. Time passes at any point. */
  datatype Event = Tick(dt: nat) | Mark | WriteResumed | Ask | Snap | MarkWarned | WriteStalled

  function IsStalled(beat: Heartbeat, now: int, threshold: nat): bool {
    !beat.warned && beat.at.Some? && now - beat.at.value >= threshold
  }

  predicate Enabled(s: State, e: Event) {
    match e
    case Tick(_) => true
    case Mark => s.worker.Working?
    case WriteResumed => s.worker.Resuming?
    case Ask => s.watch.Waiting?
    case Snap => s.watch.Asked?
    case MarkWarned => s.watch.Snapped?
    case WriteStalled => s.watch.Warned?
  }

  function Marked(now: int): Heartbeat {
    Heartbeat(Some(now), false)
  }

  function Next(s: State, e: Event, threshold: nat): State
    requires Enabled(s, e)
  {
    match e
    case Tick(dt) => s.(now := s.now + dt)
    case Mark =>
      var marked := s.(beat := Marked(s.now));
      if s.beat.warned then marked.(worker := Resuming, due := s.due + [Resumed]) else marked
    case WriteResumed => s.(worker := Working, lines := s.lines + [Resumed])
    case Ask => s.(watch := if IsStalled(s.beat, s.now, threshold) then Asked else Waiting)
    case Snap => s.(watch := if s.beat.at.Some? then Snapped(s.now - s.beat.at.value) else Waiting)
    case MarkWarned => s.(watch := Warned(s.watch.idle), beat := s.beat.(warned := true), due := s.due + [Stalled(s.watch.idle)])
    case WriteStalled => s.(watch := Waiting, lines := s.lines + [Stalled(s.watch.idle)])
  }

  class ProgressHeartbeat {
    var beat: Heartbeat

    constructor ()
      ensures beat == Heartbeat(None, false)
    {
      beat := Heartbeat(None, false);
    }

    method Mark(now: int) returns (resumed: bool)
      modifies this
      ensures beat == Marked(now) && resumed == old(beat).warned
    {
      resumed := beat.warned;
      beat := Heartbeat(Some(now), false);
    }

    method MarkWarned()
      modifies this
      ensures beat == old(beat).(warned := true)
    {
      beat := beat.(warned := true);
    }

    /** The idle time to report; none before the first mark. */
    method Snapshot(now: int) returns (idle: Option<int>)
      ensures idle == if beat.at.Some? then Some(now - beat.at.value) else None
    {
      if beat.at.None? { return None; }
      return Some(now - beat.at.value);
    }

    method ShouldWarn(now: int, threshold: nat) returns (stalled: bool)
      ensures stalled == IsStalled(beat, now, threshold)
    {
      if beat.warned || beat.at.None? { return false; }
      return now - beat.at.value >= threshold;
    }
  }

  /** Stalled first, then in turns. */
  predicate Alternates(logs: seq<Log>) {
    forall i :: 0 <= i < |logs| ==> (logs[i].Stalled? <==> i % 2 == 0)
  }

  /** The idle times of the stalled lines. */
  function Stalls(logs: seq<Log>): seq<int> {
    if logs == [] then []
    else
      match logs[|logs| - 1]
      case Stalled(idle) => Stalls(logs[..|logs| - 1]) + [idle]
      case Resumed => Stalls(logs[..|logs| - 1])
  }

  /** How many lines are due and not written yet. */
  function Owed(s: State): nat {
    (if s.worker.Resuming? then 1 else 0) + (if s.watch.Warned? then 1 else 0)
  }

  /** The flag is set and cleared in turns, and each change has its line: written, or owed. */
  predicate Inv(s: State) {
    && Alternates(s.due)
    && (s.beat.warned <==> |s.due| % 2 == 1)
    && (s.beat.warned ==> s.beat.at.Some? && (s.watch.Waiting? || s.watch.Warned?))
    && (!s.watch.Waiting? ==> s.beat.at.Some?)
    && Accounted(s)
  }

  /** No change goes without its line or gets two. */
  predicate Accounted(s: State) {
    && |s.lines| + Owed(s) == |s.due|
    && Stalls(s.lines) + (if s.watch.Warned? then [s.watch.idle] else []) == Stalls(s.due)
  }

  lemma Appended(logs: seq<Log>, line: Log)
    ensures Stalls(logs + [line]) == Stalls(logs) + (if line.Stalled? then [line.idle] else [])
    ensures Alternates(logs) && (line.Stalled? <==> |logs| % 2 == 0) ==> Alternates(logs + [line])
  {
    assert (logs + [line])[..|logs|] == logs;
  }

  lemma MarkKeeps(s: State, threshold: nat)
    requires Inv(s) && s.worker.Working?
    ensures Inv(Next(s, Mark, threshold))
  {
    Appended(s.due, Resumed);
  }

  lemma MarkWarnedKeeps(s: State, threshold: nat)
    requires Inv(s) && s.watch.Snapped?
    ensures Inv(Next(s, MarkWarned, threshold))
  {
    Appended(s.due, Stalled(s.watch.idle));
  }

  lemma WriteResumedKeeps(s: State, threshold: nat)
    requires Inv(s) && s.worker.Resuming?
    ensures Inv(Next(s, WriteResumed, threshold))
  {
    Appended(s.lines, Resumed);
  }

  lemma WriteStalledKeeps(s: State, threshold: nat)
    requires Inv(s) && s.watch.Warned?
    ensures Inv(Next(s, WriteStalled, threshold))
  {
    Appended(s.lines, Stalled(s.watch.idle));
  }

  lemma InvStep(s: State, e: Event, threshold: nat)
    requires Inv(s) && Enabled(s, e)
    ensures Inv(Next(s, e, threshold))
  {
    match e
    case Mark => MarkKeeps(s, threshold);
    case MarkWarned => MarkWarnedKeeps(s, threshold);
    case WriteResumed => WriteResumedKeeps(s, threshold);
    case WriteStalled => WriteStalledKeeps(s, threshold);
    case _ =>
  }

  predicate Initial(s: State) {
    s.beat == Heartbeat(None, false) && s.worker == Working && s.watch == Waiting && s.due == [] && s.lines == []
  }

  ghost predicate Run(s: State, es: seq<Event>, t: State, threshold: nat)
    decreases |es|
  {
    if es == [] then s == t
    else Enabled(s, es[0]) && Run(Next(s, es[0], threshold), es[1..], t, threshold)
  }

  /** However marks, checks and writing interleave, the flag is set and cleared in turns, and
      no change goes without its line or gets two. */
  lemma {:induction false} ChangesAlternate(s: State, es: seq<Event>, t: State, threshold: nat)
    requires Inv(s) && Run(s, es, t, threshold)
    ensures Inv(t) && Alternates(t.due) && Accounted(t)
    decreases |es|
  {
    if es == [] {
    } else {
      InvStep(s, es[0], threshold);
      ChangesAlternate(Next(s, es[0], threshold), es[1..], t, threshold);
    }
  }

  lemma StartsPaired(s: State)
    requires Initial(s)
    ensures Inv(s) && s.lines <= s.due
  {
  }

  /** While both lines are owed, the earlier change's is written first: the flag says which
      change was the later one. */
  predicate InTurn(s: State, e: Event) {
    match e
    case WriteResumed => s.watch.Warned? ==> s.beat.warned
    case WriteStalled => s.worker.Resuming? ==> !s.beat.warned
    case _ => true
  }

  ghost predicate AllInTurn(s: State, es: seq<Event>, threshold: nat)
    decreases |es|
  {
    es == [] || (InTurn(s, es[0]) && (Enabled(s, es[0]) ==> AllInTurn(Next(s, es[0], threshold), es[1..], threshold)))
  }

  lemma {:induction false} StallsCount(logs: seq<Log>)
    requires Alternates(logs)
    ensures |Stalls(logs)| == (|logs| + 1) / 2
  {
    if logs == [] {
    } else {
      StallsCount(logs[..|logs| - 1]);
    }
  }

  lemma LastStall(logs: seq<Log>)
    requires Alternates(logs) && logs != [] && Stalls(logs) != []
    ensures logs[if |logs| % 2 == 1 then |logs| - 1 else |logs| - 2] == Stalled(Stalls(logs)[|Stalls(logs)| - 1])
  {
    var n := |logs|;
    if n % 2 == 0 { assert logs[n - 1].Resumed? && logs[..n - 1][n - 2].Stalled?; }
  }

  lemma StepInTurn(s: State, e: Event, threshold: nat)
    requires Inv(s) && s.lines <= s.due && Enabled(s, e) && InTurn(s, e)
    ensures Next(s, e, threshold).lines <= Next(s, e, threshold).due
  {
    StallsCount(s.lines);
    StallsCount(s.due);
    if e.WriteStalled? {
      LastStall(s.due);
      assert s.due[|s.lines|] == Stalled(s.watch.idle);
    } else if e.WriteResumed? {
      assert s.due[|s.lines|] == Resumed;
    }
  }

  lemma StepOutOfTurn(s: State, e: Event, threshold: nat)
    requires Inv(s) && s.lines <= s.due && Enabled(s, e) && !InTurn(s, e)
    ensures !Alternates(Next(s, e, threshold).lines)
  {
    var t := Next(s, e, threshold);
    assert t.lines[|s.lines|] == if e.WriteResumed? then Resumed else Stalled(s.watch.idle);
  }

  lemma {:induction false} NeverMended(s: State, es: seq<Event>, t: State, threshold: nat)
    requires Run(s, es, t, threshold) && !Alternates(s.lines)
    ensures !Alternates(t.lines)
    decreases |es|
  {
    if es == [] {
    } else {
      var next := Next(s, es[0], threshold);
      var i :| 0 <= i < |s.lines| && !(s.lines[i].Stalled? <==> i % 2 == 0);
      assert next.lines[i] == s.lines[i];
      NeverMended(next, es[1..], t, threshold);
    }
  }

  /** Stalled and resumed lines take turns if and only if, whenever both are owed, they are
      written in the order of the changes; then the lines are the changes. */
  lemma {:induction false} LinesAlternateExactly(s: State, es: seq<Event>, t: State, threshold: nat)
    requires Inv(s) && s.lines <= s.due && Run(s, es, t, threshold)
    ensures Alternates(t.lines) <==> AllInTurn(s, es, threshold)
    ensures AllInTurn(s, es, threshold) ==> t.lines <= t.due
    decreases |es|
  {
    if es == [] {
    } else {
      var next := Next(s, es[0], threshold);
      InvStep(s, es[0], threshold);
      if InTurn(s, es[0]) {
        StepInTurn(s, es[0], threshold);
        LinesAlternateExactly(next, es[1..], t, threshold);
      } else {
        StepOutOfTurn(s, es[0], threshold);
        NeverMended(next, es[1..], t, threshold);
      }
    }
  }

  /** Neither side changes the flag while the other still owes its line. */
  ghost predicate Prompt(s: State, es: seq<Event>, threshold: nat)
    decreases |es|
  {
    es != [] && Enabled(s, es[0]) ==>
      && (es[0].Mark? ==> !s.watch.Warned?) && (es[0].MarkWarned? ==> !s.worker.Resuming?)
      && Prompt(Next(s, es[0], threshold), es[1..], threshold)
  }

  lemma {:induction false} PromptIsInTurn(s: State, es: seq<Event>, t: State, threshold: nat)
    requires !(s.watch.Warned? && s.worker.Resuming?) && Run(s, es, t, threshold) && Prompt(s, es, threshold)
    ensures AllInTurn(s, es, threshold)
    decreases |es|
  {
    if es == [] {
    } else {
      PromptIsInTurn(Next(s, es[0], threshold), es[1..], t, threshold);
    }
  }

  /** The watchdog is about to set the flag after `threshold` without a mark. */
  function AboutToWarn(threshold: nat): State {
    State(threshold, Marked(0), Working, Snapped(threshold), [], [])
  }

  predicate Goes(s: State, e: Event, t: State, threshold: nat) {
    Enabled(s, e) && Next(s, e, threshold) == t
  }

  lemma RunOf4(s: seq<State>, es: seq<Event>, threshold: nat)
    requires |es| == 4 && |s| == 5 && forall i :: 0 <= i < 4 ==> Goes(s[i], es[i], s[i + 1], threshold)
    ensures Run(s[0], es, s[4], threshold)
  {
    assert Run(s[4], es[4..], s[4], threshold);
    assert Goes(s[3], es[3], s[4], threshold) && es[3..][1..] == es[4..];
    assert Run(s[3], es[3..], s[4], threshold);
    assert Goes(s[2], es[2], s[3], threshold) && es[2..][1..] == es[3..];
    assert Run(s[2], es[2..], s[4], threshold);
    assert Goes(s[1], es[1], s[2], threshold) && es[1..][1..] == es[2..];
    assert Run(s[1], es[1..], s[4], threshold);
    assert Goes(s[0], es[0], s[1], threshold);
  }

  lemma AboutToWarnIsReached(threshold: nat)
    ensures var s := State(0, Heartbeat(None, false), Working, Waiting, [], []);
      Initial(s) && Run(s, [Mark, Tick(threshold), Ask, Snap], AboutToWarn(threshold), threshold)
  {
    var s := AboutToWarn(threshold);
    var start := s.(now := 0, beat := Heartbeat(None, false), watch := Waiting);
    RunOf4([start, start.(beat := Marked(0)), s.(watch := Waiting), s.(watch := Asked), s],
           [Mark, Tick(threshold), Ask, Snap], threshold);
  }

  /** The worker moves on between the setting of the flag and its line: the recovery is
      written before the stall. */
  lemma ResumedBeforeStalled(threshold: nat)
    ensures exists t :: Run(AboutToWarn(threshold), [MarkWarned, Mark, WriteResumed, WriteStalled], t, threshold)
                        && t.lines == [Resumed, Stalled(threshold)] && !Alternates(t.lines)
  {
    var s := AboutToWarn(threshold);
    var raised := s.(watch := Warned(threshold), beat := Heartbeat(Some(0), true), due := [Stalled(threshold)]);
    var cleared := raised.(beat := Marked(threshold), worker := Resuming, due := [Stalled(threshold), Resumed]);
    var one := cleared.(worker := Working, lines := [Resumed]);
    var both := one.(watch := Waiting, lines := [Resumed, Stalled(threshold)]);
    RunOf4([s, raised, cleared, one, both], [MarkWarned, Mark, WriteResumed, WriteStalled], threshold);
    assert both.lines[0].Resumed?;
  }

  predicate Meanwhile(es: seq<Event>) {
    forall i :: 0 <= i < |es| ==> es[i].Tick? || es[i].Mark? || es[i].WriteResumed?
  }

  /** Time since the last mark, `idle` having passed before. */
  function IdleAfter(es: seq<Event>, idle: int): int {
    if es == [] then idle
    else
      match es[0]
      case Mark => IdleAfter(es[1..], 0)
      case Tick(dt) => IdleAfter(es[1..], idle + dt)
      case _ => IdleAfter(es[1..], idle)
  }

  lemma {:induction false} IdleTracked(s: State, es: seq<Event>, t: State, threshold: nat)
    requires Meanwhile(es) && s.beat.at.Some? && Run(s, es, t, threshold)
    ensures t.beat.at.Some? && t.now - t.beat.at.value == IdleAfter(es, s.now - s.beat.at.value) && t.watch == s.watch
    decreases |es|
  {
    if es == [] {
    } else {
      IdleTracked(Next(s, es[0], threshold), es[1..], t, threshold);
    }
  }

  /** After a mark only the time since it counts; without one it adds to what was there. */
  lemma {:induction false} IdleFrom(es: seq<Event>, idle: int)
    requires Meanwhile(es)
    ensures IdleAfter(es, idle) == (if Mark in es then 0 else idle) + IdleAfter(es, 0) && IdleAfter(es, 0) >= 0
  {
    if es == [] {
    } else {
      assert es == [es[0]] + es[1..];
      var dt := if es[0].Tick? then es[0].dt else 0;
      IdleFrom(es[1..], 0);
      IdleFrom(es[1..], dt);
      IdleFrom(es[1..], idle + dt);
    }
  }

  /** The idle time a warning shows is the time since the last mark when it was read, whatever
      the worker does before and after. It is at least the threshold exactly if the worker did
      not move between the question and the reading, or the threshold passed again after it
      did; the warning goes out all the same. */
  lemma IdleShown(s: State, es: seq<Event>, a: State, es': seq<Event>, b: State, es'': seq<Event>, c: State, threshold: nat)
    requires s.watch == Waiting && IsStalled(s.beat, s.now, threshold) && Meanwhile(es) && Meanwhile(es') && Meanwhile(es'')
    requires Run(Next(s, Ask, threshold), es, a, threshold)
    requires Enabled(a, Snap) && Run(Next(a, Snap, threshold), es', b, threshold)
    requires Enabled(b, MarkWarned) && Run(Next(b, MarkWarned, threshold), es'', c, threshold)
    ensures Enabled(c, WriteStalled)
    ensures Next(c, WriteStalled, threshold).lines == c.lines + [Stalled(IdleAfter(es, s.now - s.beat.at.value))]
    ensures IdleAfter(es, s.now - s.beat.at.value) >= threshold <==> Mark !in es || IdleAfter(es, 0) >= threshold
  {
    IdleTracked(Next(s, Ask, threshold), es, a, threshold);
    IdleTracked(Next(a, Snap, threshold), es', b, threshold);
    IdleTracked(Next(b, MarkWarned, threshold), es'', c, threshold);
    IdleFrom(es, s.now - s.beat.at.value);
  }

  /** A warning can show less than the threshold: the worker moved just after the question. */
  lemma WarningCanBeLate(threshold: nat)
    ensures var s := State(threshold, Marked(0), Working, Asked, [], []);
      Inv(s) && exists t :: Run(s, [Mark, Snap, MarkWarned, WriteStalled], t, threshold) && t.lines == [Stalled(0)]
  {
    var s := State(threshold, Marked(0), Working, Asked, [], []);
    var marked := s.(beat := Marked(threshold));
    var read := marked.(watch := Snapped(0));
    var warned := read.(watch := Warned(0), beat := Heartbeat(Some(threshold), true), due := [Stalled(0)]);
    var late := warned.(watch := Waiting, lines := [Stalled(0)]);
    RunOf4([s, marked, read, warned, late], [Mark, Snap, MarkWarned, WriteStalled], threshold);
  }

  // ----- seeding failures -----------------------------------------------------------

  datatype Note = Failure(config: int, key: string) | Success(config: int)

  /** The last thing noted for a configuration. */
  function Last(history: seq<Note>, config: int): Option<Note> {
    if history == [] then None
    else if history[|history| - 1].config == config then Some(history[|history| - 1])
    else Last(history[..|history| - 1], config)
  }

  class SeedFailures {
    var failures: map<int, string>
    ghost var history: seq<Note>

    /** The map is a view of the history: who failed last, and how. */
    ghost predicate Valid()
      reads this
    {
      forall config :: (if config in failures then Last(history, config) == Some(Failure(config, failures[config]))
                        else !Last(history, config).Some? || Last(history, config).value.Success?)
    }

    constructor ()
      ensures Valid() && history == []
    {
      failures, history := map[], [];
    }

    /** Warns unless the event before it, for this configuration, was the same failure. */
    method NoteFailure(config: int, key: string) returns (warn: bool)
      requires Valid()
      modifies this
      ensures Valid() && history == old(history) + [Failure(config, key)]
      ensures warn <==> Last(old(history), config) != Some(Failure(config, key))
    {
      ghost var was := history;
      warn := !(config in failures && failures[config] == key);
      if warn { failures := failures[config := key]; }
      history := history + [Failure(config, key)];
      assert history[..|history| - 1] == was;
    }

    /** Reports recovery exactly when the event before it was a failure. */
    method NoteSuccess(config: int) returns (recovered: bool)
      requires Valid()
      modifies this
      ensures Valid() && history == old(history) + [Success(config)]
      ensures recovered <==> exists key :: Last(old(history), config) == Some(Failure(config, key))
    {
      ghost var was := history;
      recovered := config in failures;
      assert recovered ==> Last(was, config) == Some(Failure(config, failures[config]));
      failures := failures - {config};
      history := history + [Success(config)];
      assert history[..|history| - 1] == was;
    }
  }
}
