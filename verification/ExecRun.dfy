/** An exec run executed inside its caller's request (packages/telemetry/src/exec-run.ts): its commands
    in order, under one deadline, on a machine whose effects take time, fail, and can be cut short. */
module ExecRun {
  // ---------------------------------------------------------------------------------------------
  // What each effect will answer, and when
  // ---------------------------------------------------------------------------------------------

  datatype Reply<T> = Reply(takes: nat, value: T)

  /** A write lands when it answers; or lands at once and its answer is an error; or is refused. */
  datatype Write = Landed | Unanswered | Rejected

  datatype Connect = Connected | UserUnavailable | ConnectFailed
  datatype Launch = Accepted | LaunchRefused | AnswerLost
  datatype Recorded = ExitSeen(code: int) | ExitUnseen | RecordConflict | RecordFailed

  /** One command: connecting, the answer to its one exec, recording it, and closing its record when
      the recording is cut short. */
  datatype Command = Command(connect: Reply<Connect>, launch: Reply<Launch>, record: Reply<Recorded>, closeTakes: nat)

  datatype World = World(create: Reply<Write>, claim: Reply<Write>, commands: seq<Command>, changes: Reply<bool>,
                         outcome: Reply<Write>, failure: Reply<Write>, syncBackTakes: nat, read: Reply<bool>)

  datatype Row = Absent | Queued | Running | Completed(exitCode: int) | Failed

  predicate IsTerminal(row: Row) {
    row.Completed? || row.Failed?
  }

  datatype Answer = Settled(row: Row) | NotCreated | Unsettled | Unreadable

  /** How producing a run ended: on its own, with an error raised, or cut by the budget. */
  datatype End = Finished | Raised | Cut

  /** How one command ended: with an exit code, short of one (with the changes made so far to read, or
      not), with an error raised, or cut. */
  datatype CommandEnd = Exit(code: int) | Stopped(readChanges: bool) | CommandRaised | CommandCut

  const MAX_STEP := 10_000

  function Min(a: int, b: int): int {
    if a < b then a else b
  }

  function Max(a: int, b: int): int {
    if a < b then b else a
  }

  /** The wait allowed each write, read and close. */
  function Step(budget: nat): nat {
    Min(MAX_STEP, budget / 10)
  }

  /** What is kept for after the commands: the record's close, a failure's write, the sync-back and the
      reading back. */
  function Tail(budget: nat, syncBack: nat): nat {
    3 * Step(budget) + syncBack
  }

  // ---------------------------------------------------------------------------------------------
  // What the commands sent say
  // ---------------------------------------------------------------------------------------------

  /** The daemon reported the command's exit, and its record was taken. */
  predicate Seen(c: Command) {
    c.connect.value.Connected? && c.launch.value.Accepted? && c.record.value.ExitSeen? && c.record.value.code != -1
  }

  function LastCode(commands: seq<Command>): int {
    if commands == [] || !commands[|commands| - 1].record.value.ExitSeen? then 0 else commands[|commands| - 1].record.value.code
  }

  /** Commands sent in order, each once, and none after one whose exit was not seen: after a lost
      answer, a refusal, a conflict or a missing exit code, nothing more is sent. */
  ghost predicate SentOk(commands: seq<Command>, sent: seq<nat>) {
    && |sent| <= |commands|
    && (forall i | 0 <= i < |sent| :: sent[i] == i)
    && forall i | 0 <= i < |sent| - 1 :: Seen(commands[i])
  }

  ghost predicate AllSeen(commands: seq<Command>) {
    forall c | c in commands :: Seen(c)
  }

  /** A completed row means every command was sent and its exit seen; its code is the last one's. */
  ghost predicate RowOk(commands: seq<Command>, sent: seq<nat>, row: Row) {
    row.Completed? ==> |sent| == |commands| && AllSeen(commands) && row.exitCode == LastCode(commands)
  }

  // ---------------------------------------------------------------------------------------------
  // A run in which nothing goes wrong
  // ---------------------------------------------------------------------------------------------

  function TimeOf(c: Command): nat {
    c.connect.takes + c.launch.takes + c.record.takes
  }

  function TimeOfAll(commands: seq<Command>): nat {
    if commands == [] then 0 else TimeOfAll(commands[..|commands| - 1]) + TimeOf(commands[|commands| - 1])
  }

  lemma {:induction false} TimeGrows(commands: seq<Command>, i: nat)
    requires i <= |commands|
    ensures TimeOfAll(commands[..i]) <= TimeOfAll(commands)
  {
    if i < |commands| {
      TimeGrows(commands[..|commands| - 1], i);
      assert commands[..|commands| - 1][..i] == commands[..i];
    } else {
      assert commands[..i] == commands;
    }
  }

  /** The commands, the changes and the outcome all succeed, in so much time. */
  ghost predicate Smooth(world: World, time: int) {
    && AllSeen(world.commands) && world.changes.value && world.outcome.value.Landed?
    && TimeOfAll(world.commands) + world.changes.takes + world.outcome.takes < time
  }

  class Execution {
    var now: nat
    var row: Row
    /** The commands whose exec was sent, and when. */
    var sent: seq<nat>
    ghost var sentAt: seq<nat>

    constructor (now: nat)
      ensures this.now == now && row == Absent && sent == [] && sentAt == []
    {
      this.now, row, sent, sentAt := now, Absent, [], [];
    }

    ghost predicate Ok(commands: seq<Command>, cutoff: nat)
      reads this
    {
      && SentOk(commands, sent) && RowOk(commands, sent, row)
      && |sentAt| == |sent| && forall t | t in sentAt :: t < cutoff
    }

    /** Waits for an effect, until an instant at the latest. */
    method Wait(takes: nat, until: nat) returns (inTime: bool)
      modifies this`now
      ensures inTime <==> old(now) + takes < until
      ensures now == if inTime then old(now) + takes else if old(now) < until then until else old(now)
    {
      inTime := now + takes < until;
      if inTime { now := now + takes; } else if now < until { now := until; }
    }

    /** Writes a row, until an instant at the latest; says whether the write was confirmed. */
    method WriteRow(write: Reply<Write>, next: Row, until: nat) returns (confirmed: bool, cut: bool)
      modifies this`now, this`row
      ensures confirmed ==> row == next && !cut
      ensures row == if confirmed || write.value.Unanswered? then next else old(row)
      ensures confirmed <==> old(now) + write.takes < until && write.value.Landed?
      ensures old(now) <= now && (old(now) <= until ==> now <= until)
      ensures old(now) + write.takes < until ==> !cut && now == old(now) + write.takes
    {
      if write.value.Unanswered? { row := next; }
      var inTime := Wait(write.takes, until);
      confirmed, cut := inTime && write.value.Landed?, !inTime;
      if confirmed { row := next; }
    }

    /** One command: its exec is sent at most once, and not once the time is spent. */
    method RunCommand(commands: seq<Command>, i: nat, cutoff: nat, step: nat) returns (end: CommandEnd)
      requires i < |commands| && i == |sent| && Ok(commands, cutoff) && row == Running && now <= cutoff
      requires forall j | 0 <= j < i :: Seen(commands[j])
      modifies this`now, this`sent, this`sentAt
      ensures Ok(commands, cutoff) && |sent| <= i + 1
      ensures end.Exit? && end.code != -1 ==> |sent| == i + 1 && Seen(commands[i]) && end.code == commands[i].record.value.code
      ensures now <= if end.CommandCut? then cutoff + step else cutoff
      ensures Seen(commands[i]) && old(now) + TimeOf(commands[i]) < cutoff ==>
                end == Exit(commands[i].record.value.code) && now == old(now) + TimeOf(commands[i])
    {
      var c := commands[i];
      var inTime := Wait(c.connect.takes, cutoff);
      if !inTime { return CommandCut; }
      if c.connect.value.UserUnavailable? { return Stopped(false); }
      if c.connect.value.ConnectFailed? { return CommandRaised; }
      sent, sentAt := sent + [i], sentAt + [now];
      inTime := Wait(c.launch.takes, cutoff);
      if !inTime { return CommandCut; }
      if c.launch.value.LaunchRefused? { return Stopped(true); }
      if c.launch.value.AnswerLost? { return Stopped(false); }
      inTime := Wait(c.record.takes, cutoff);
      if !inTime {
        now := now + Min(c.closeTakes, step);
        return CommandCut;
      }
      match c.record.value
      case ExitSeen(code) => return Exit(code);
      case ExitUnseen => return Exit(-1);
      case RecordConflict => return Stopped(true);
      case RecordFailed => return CommandRaised;
    }

    /** The commands in order, whatever their exit codes; the run is completed only when each exit was
        seen, and failed when one was not. */
    method Produce(world: World, cutoff: nat, step: nat) returns (end: End)
      requires sent == [] && sentAt == [] && row == Running && now <= cutoff
      modifies this
      ensures Ok(world.commands, cutoff)
      ensures row == Running || IsTerminal(row)
      ensures end.Finished? ==> IsTerminal(row)
      ensures now <= if end.Cut? then cutoff + step else cutoff
      ensures Smooth(world, cutoff - old(now)) ==> end == Finished && row == Completed(LastCode(world.commands))
    {
      var lastExitCode := 0;
      for i := 0 to |world.commands|
        invariant Ok(world.commands, cutoff) && |sent| == i && row == Running && now <= cutoff
        invariant forall j | 0 <= j < i :: Seen(world.commands[j])
        invariant lastExitCode == LastCode(world.commands[..i])
        invariant Smooth(world, cutoff - old(now)) ==> now == old(now) + TimeOfAll(world.commands[..i])
      {
        TimeGrows(world.commands, i + 1);
        assert world.commands[..i + 1][..i] == world.commands[..i];
        assert world.commands[i] in world.commands;
        var ended := RunCommand(world.commands, i, cutoff, step);
        match ended
        case CommandCut => return Cut;
        case CommandRaised => return Raised;
        case Stopped(readChanges) =>
          end := StopShort(world, readChanges, cutoff);
          return;
        case Exit(code) =>
          if code == -1 {
            end := StopShort(world, false, cutoff);
            return;
          }
          lastExitCode := code;
      }
      assert world.commands[..|world.commands|] == world.commands;
      end := Complete(world, lastExitCode, cutoff);
    }

    /** A run whose every exit was seen: its changes are read, and it is completed. */
    method Complete(world: World, lastExitCode: int, cutoff: nat) returns (end: End)
      requires Ok(world.commands, cutoff) && row == Running && now <= cutoff
      requires |sent| == |world.commands| && AllSeen(world.commands) && lastExitCode == LastCode(world.commands)
      modifies this`now, this`row
      ensures Ok(world.commands, cutoff) && now <= cutoff && (row == Running || row == Completed(lastExitCode))
      ensures end.Finished? ==> row == Completed(lastExitCode)
      ensures (&& world.changes.value && world.outcome.value.Landed?
               && old(now) + world.changes.takes + world.outcome.takes < cutoff) ==> end == Finished
    {
      var inTime := Wait(world.changes.takes, cutoff);
      if !inTime { return Cut; }
      if !world.changes.value { return Raised; }
      var confirmed, cut := WriteRow(world.outcome, Completed(lastExitCode), cutoff);
      return if confirmed then Finished else if cut then Cut else Raised;
    }

    /** A run that stopped short of its last exit: the changes so far are read when nothing can still be
        writing, and the run is failed. */
    method StopShort(world: World, readChanges: bool, cutoff: nat) returns (end: End)
      requires Ok(world.commands, cutoff) && row == Running && now <= cutoff
      modifies this`now, this`row
      ensures Ok(world.commands, cutoff) && now <= cutoff && (row == Running || row == Failed)
      ensures end.Finished? ==> row == Failed
    {
      if readChanges {
        var inTime := Wait(world.changes.takes, cutoff);
        if !inTime { return Cut; }
        if !world.changes.value { return Raised; }
      }
      var confirmed, cut := WriteRow(world.outcome, Failed, cutoff);
      return if confirmed then Finished else if cut then Cut else Raised;
    }

    /** A run claimed and produced, until the commands' time is spent. */
    method ClaimAndProduce(world: World, cutoff: nat, step: nat) returns (end: End)
      requires sent == [] && sentAt == [] && row == Queued
      modifies this
      ensures Ok(world.commands, cutoff)
      ensures row == Queued || row == Running || IsTerminal(row)
      ensures end.Finished? ==> IsTerminal(row)
      ensures now <= if end.Cut? then (if old(now) < cutoff then cutoff + step else old(now)) else cutoff
      ensures old(now) >= cutoff ==> sent == [] && end == Cut
      ensures world.claim.value.Landed? && Smooth(world, cutoff - old(now) - world.claim.takes) ==>
                end == Finished && row == Completed(LastCode(world.commands))
    {
      if now >= cutoff { return Cut; }
      var confirmed, cut := WriteRow(world.claim, Running, cutoff);
      if cut { return Cut; }
      if !confirmed { return Raised; }
      end := Produce(world, cutoff, step);
    }

    /** Moves a run that stopped off running: a settled run is never written over. */
    method FailStopped(world: World, step: nat) returns (settled: bool)
      requires row == Queued || row == Running || IsTerminal(row)
      modifies this`now, this`row
      ensures settled ==> IsTerminal(row)
      ensures settled <==> world.failure.value.Landed? && world.failure.takes < step
      ensures IsTerminal(old(row)) ==> row == old(row)
      ensures row == old(row) || row == Failed
      ensures old(now) <= now <= old(now) + step
    {
      var next := if IsTerminal(row) then row else Failed;
      var confirmed, cut := WriteRow(world.failure, next, now + step);
      settled := confirmed;
    }

    /** The request of a caller that goes away at an instant: creating the run and its commands stop there
        as they do at their end, and the run is failed, before the sync-back. A run that was created is left settled, with no
        command sent once the caller was gone, unless its failure's own write is not confirmed in time. */
    method ExecuteInterrupted(world: World, budget: nat, syncBack: nat, gone: nat) returns (created: bool)
      requires row == Absent && sent == [] && sentAt == []
      modifies this
      ensures SentOk(world.commands, sent) && RowOk(world.commands, sent, row)
      ensures |sentAt| == |sent| && forall t | t in sentAt :: t < gone
      ensures created ==> IsTerminal(row) || !(world.failure.value.Landed? && world.failure.takes < Step(budget))
      ensures !created ==> sent == [] && (row == Queued <==> world.create.value.Unanswered?) && (row == Absent || row == Queued)
      ensures row.Completed? ==> created
      ensures now <= Max(old(now), gone) + 2 * Step(budget)
    {
      var step := Step(budget);
      var cutoff := Min(CommandsEnd(now, budget, syncBack), gone);
      var left := if cutoff > now then cutoff - now else 0;
      var cut;
      created, cut := WriteRow(world.create, Queued, now + Min(step, left));
      if !created { return; }
      var end := ClaimAndProduce(world, cutoff, step);
      if !end.Finished? {
        var settled := FailStopped(world, step);
      }
    }

    /** The whole request: creating the run, its commands, settling it, the sync-back and the reading
        back, under one budget. */
    method Execute(world: World, budget: nat, syncBack: nat) returns (answer: Answer)
      requires row == Absent && sent == [] && sentAt == []
      modifies this
      ensures SentOk(world.commands, sent) && RowOk(world.commands, sent, row)
      ensures |sentAt| == |sent| && forall t | t in sentAt :: t + Tail(budget, syncBack) < old(now) + budget
      ensures answer == NotCreated ==> sent == [] && (row == Absent || row == Queued)
      ensures answer == NotCreated ==> (row == Queued <==> world.create.value.Unanswered?)
      ensures answer.Settled? ==> answer.row == row && IsTerminal(row)
      ensures answer == Unreadable ==> IsTerminal(row) && !(world.read.value && world.read.takes < Step(budget))
      ensures answer == Unsettled ==> !(world.failure.value.Landed? && world.failure.takes < Step(budget))
      ensures answer != NotCreated && world.claim.value.Landed?
              && Smooth(world, budget - Tail(budget, syncBack) - world.create.takes - world.claim.takes) ==>
                row == Completed(LastCode(world.commands)) && (answer == Settled(row) || answer == Unreadable)
      ensures answer == NotCreated <==> !(world.create.value.Landed?
                                          && world.create.takes < CreateWait(budget, syncBack))
      ensures now <= old(now) + budget
      ensures budget <= Tail(budget, syncBack) ==> answer == NotCreated && now == old(now)
    {
      var step := Step(budget);
      var commandsEnd := CommandsEnd(now, budget, syncBack);
      var left := if commandsEnd > now then commandsEnd - now else 0;
      var created, cut := WriteRow(world.create, Queued, now + Min(step, left));
      if !created { return NotCreated; }
      var end := ClaimAndProduce(world, commandsEnd, step);
      var settled := true;
      if !end.Finished? { settled := FailStopped(world, step); }
      now := now + Min(world.syncBackTakes, syncBack);
      if !settled { return Unsettled; }
      var inTime := Wait(world.read.takes, now + step);
      if !inTime || !world.read.value { return Unreadable; }
      return if IsTerminal(row) then Settled(row) else Unsettled;
    }
  }

  /** When the commands' time is spent. */
  function CommandsEnd(start: nat, budget: nat, syncBack: nat): nat {
    if start + budget >= Tail(budget, syncBack) then start + budget - Tail(budget, syncBack) else 0
  }

  /** How long creating the run may take. */
  function CreateWait(budget: nat, syncBack: nat): nat {
    if budget <= Tail(budget, syncBack) then 0 else Min(Step(budget), budget - Tail(budget, syncBack))
  }

  /** The shares of a budget, in numbers: a step is a tenth of it, ten seconds at most; what is kept for after
      the commands is three steps and the sync-back; the commands have the rest, and creating the run at
      most one step of that. */
  lemma {:induction false} SharesOfBudget(start: nat, budget: nat, syncBack: nat)
    ensures Step(budget) == if budget < 100_000 then budget / 10 else 10_000
    ensures Tail(budget, syncBack) == 3 * Step(budget) + syncBack
    ensures budget >= 3 * Step(budget) + syncBack ==>
              CommandsEnd(start, budget, syncBack) + 3 * Step(budget) + syncBack == start + budget
    ensures CreateWait(budget, syncBack)
            == if budget <= 3 * Step(budget) + syncBack then 0
               else if budget - 3 * Step(budget) - syncBack < Step(budget) then budget - 3 * Step(budget) - syncBack
               else Step(budget)
  {
  }

  /** The code of a run whose every exit was seen is the last command's, and 0 of one without commands. */
  lemma {:induction false} CodeOfLast(commands: seq<Command>)
    requires AllSeen(commands)
    ensures commands == [] ==> LastCode(commands) == 0
    ensures commands != [] ==> commands[|commands| - 1].record.value == ExitSeen(LastCode(commands))
  {
    if commands != [] { assert commands[|commands| - 1] in commands; }
  }

  /** One world, in which creating the run lands at once and its answer is lost. */
  const LOST_CREATE := World(Reply(5, Unanswered), Reply(1, Landed), [], Reply(1, true), Reply(1, Landed), Reply(1, Landed), 1,
                             Reply(1, true))

  /** "Not created" does not mean the row was never written: here it is, and stays queued. */
  method CreatedButNotAnswered() returns (answer: Answer, row: Row)
    ensures answer == NotCreated && row == Queued
  {
    var run := new Execution(0);
    answer := run.Execute(LOST_CREATE, 60_000, 1_000);
    row := run.row;
  }
}
