/**
 * The health-status toggle of the demo service: an indicator holding one of
 * two health values, two endpoints that overwrite it and a health probe that
 * reads it.
 */
module DemoApplication {

  /** The two health values the indicator ever holds: the constant OK
      (an "up" health) and the constant OUT_OF_SERVICE. */
  datatype Health = Up | OutOfService

  /** A call of one of the two mutating endpoints, `/die` or `/live`. */
  datatype Command = Die | Live

  /** The confirmation `/die` answers with. */
  const DieReply: string := "Switched to OUT_OF_SERVICE"

  /** The confirmation `/live` answers with. */
  const LiveReply: string := "Switched to OK"

  /** The value a command stores in the status field. */
  function Written(c: Command): Health {
    match c
    case Die => OutOfService
    case Live => Up
  }

  /** The status after performing `cmds` in order from status `s`,
      one unconditional overwrite per command. */
  function Run(s: Health, cmds: seq<Command>): Health
    decreases |cmds|
  {
    if cmds == [] then s else Run(Written(cmds[0]), cmds[1..])
  }

  /** Reference definition, last write wins: the value written by the last
      command, or the starting status when there was none. */
  function LastWrite(s: Health, cmds: seq<Command>): Health {
    if cmds == [] then s else Written(cmds[|cmds| - 1])
  }

  /** Performing the commands one by one leaves what the last one wrote. */
  lemma {:induction false} RunIsLastWrite(s: Health, cmds: seq<Command>)
    ensures Run(s, cmds) == LastWrite(s, cmds)
    decreases |cmds|
  {
    if cmds != [] {
      RunIsLastWrite(Written(cmds[0]), cmds[1..]);
    }
  }

  /** Performing two batches of commands is performing their concatenation. */
  lemma {:induction false} RunAppend(s: Health, a: seq<Command>, b: seq<Command>)
    ensures Run(s, a + b) == Run(Run(s, a), b)
    decreases |a|
  {
    if a == [] {
      assert a + b == b;
    } else {
      assert (a + b)[0] == a[0];
      assert (a + b)[1..] == a[1..] + b;
      RunAppend(Written(a[0]), a[1..], b);
    }
  }

  /** `die` and `live` are idempotent: repeating the last call at once
      leaves the same status as making it once, whatever came before. */
  lemma {:induction false} RepeatIsIdempotent(s: Health, cmds: seq<Command>, c: Command)
    ensures Run(s, cmds + [c, c]) == Run(s, cmds + [c])
  {
    RunAppend(s, cmds, [c, c]);
    RunAppend(s, cmds, [c]);
  }

  /** Transitions are not checked against the prior state: once a non-empty
      batch of commands has run, neither the starting status nor the earlier
      calls matter. */
  lemma {:induction false} HistoryForgotten(s1: Health, a: seq<Command>, s2: Health, b: seq<Command>, cmds: seq<Command>)
    requires cmds != []
    ensures Run(s1, a + cmds) == Run(s2, b + cmds)
  {
    RunAppend(s1, a, cmds);
    RunAppend(s2, b, cmds);
    RunIsLastWrite(Run(s1, a), cmds);
    RunIsLastWrite(Run(s2, b), cmds);
  }

  /** The indicator object. `history` records, for the proof only, the
      endpoint calls made on it since construction. */
  class JunkHealthIndicator {
    var status: Health
    ghost var history: seq<Command>

    /** The status is the one the recorded calls leave, starting from OK. */
    ghost predicate Valid()
      reads this
    {
      status == Run(Up, history)
    }

    /** A new indicator is up and has seen no calls. */
    constructor ()
      ensures Valid()
      ensures status == Up && history == []
    {
      status := Up;
      history := [];
    }

    /** The health probe: reports the current status and changes nothing;
        on a valid indicator that is what the last call wrote, or OK if
        there was none. */
    method Health() returns (h: Health)
      ensures h == status
      ensures Valid() ==> h == LastWrite(Up, history)
    {
      h := status;
      RunIsLastWrite(Up, history);
    }

    /** `/die`: overwrites the status with OUT_OF_SERVICE, from either status. */
    method Die() returns (msg: string)
      modifies this
      ensures status == OutOfService && msg == DieReply
      ensures history == old(history) + [Command.Die]
      ensures Valid()
    {
      status := OutOfService;
      history := history + [Command.Die];
      RunIsLastWrite(Up, history);
      msg := DieReply;
    }

    /** `/live`: overwrites the status with OK, from either status. */
    method Live() returns (msg: string)
      modifies this
      ensures status == Up && msg == LiveReply
      ensures history == old(history) + [Command.Live]
      ensures Valid()
    {
      status := Up;
      history := history + [Command.Live];
      RunIsLastWrite(Up, history);
      msg := LiveReply;
    }
  }

  /** Start, probe, `/die`, probe, `/live`, probe: the probes see
      UP, OUT_OF_SERVICE, UP and the endpoints answer with their confirmations. */
  method Scenario() returns (reports: seq<Health>, replies: seq<string>)
    ensures reports == [Up, OutOfService, Up]
    ensures replies == [DieReply, LiveReply]
  {
    var indicator := new JunkHealthIndicator();
    var h0 := indicator.Health();
    var r1 := indicator.Die();
    var h1 := indicator.Health();
    var r2 := indicator.Live();
    var h2 := indicator.Health();
    reports := [h0, h1, h2];
    replies := [r1, r2];
  }

  /** Two `/die` calls in a row leave the indicator exactly as one does. */
  method DieTwice() returns (once: Health, twice: Health, replies: seq<string>)
    ensures once == twice == OutOfService
    ensures replies == [DieReply, DieReply]
  {
    var indicator := new JunkHealthIndicator();
    var r1 := indicator.Die();
    once := indicator.Health();
    var r2 := indicator.Die();
    twice := indicator.Health();
    replies := [r1, r2];
  }
}
