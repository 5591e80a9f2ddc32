/** Whole runs of the engine: any sequence of commands, and everything they reported. */
module EngineRuns {
  import opened Types
  import opened EngineSpec

  datatype Command =
    | SubmitCommand(order: NewOrder, now: U64)
    | CancelCommand(id: nat)
    | TickCommand(now: U64)
    | HaltCommand

  /** What a command answers. */
  datatype Reply =
    | Submitted(accepted: Result<nat, RejectReason>)
    | Cancelled(stopped: Result<(), CancelError>)
    | Ticked(fills: seq<FillReport>)
    | Stopped

  /**
   * A run so far: the engine, every reply it gave, every fill it reported, every child order a book
   * refused, and for each accepted order the latest time it saw a tick at, or -1.
   */
  datatype Trace = Trace(
    engine: Engine, replies: seq<Reply>, log: seq<FillReport>, refused: seq<nat>, latest: map<nat, int>)

  /** The fills a reply reports. */
  function Reported(reply: Reply): seq<FillReport> {
    if reply.Ticked? then reply.fills else []
  }

  function Advance(latest: map<nat, int>, now: U64): map<nat, int> {
    map id | id in latest :: Max(latest[id], now)
  }

  function Step(t: Trace, c: Command): Trace {
    match c
    case SubmitCommand(order, now) =>
      var (engine, r) := SubmitOrder(t.engine, order, now);
      t.(engine := engine, replies := t.replies + [Submitted(r)],
         latest := if r.Ok? then t.latest[r.value := -1] else t.latest)
    case CancelCommand(id) =>
      var (engine, r) := CancelOrder(t.engine, id);
      t.(engine := engine, replies := t.replies + [Cancelled(r)])
    case TickCommand(now) =>
      var worked := Worked(t.engine, now);
      Trace(Settle(worked), t.replies + [Ticked(worked.fills)], t.log + worked.fills, t.refused + worked.refused,
            Advance(t.latest, now))
    case HaltCommand => t.(engine := Halt(t.engine, Requested), replies := t.replies + [Stopped])
  }

  function Run(start: Engine, commands: seq<Command>): Trace {
    if commands == [] then Trace(start, [], [], [], map[])
    else Step(Run(start, commands[..|commands| - 1]), commands[|commands| - 1])
  }
}
