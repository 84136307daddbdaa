/**
 A run of calls against the shared history: arithmetic calls and clears,
 executed in order. The theorem of this module says what the history holds
 afterwards: the prior history only if no clear happened, followed by one
 entry per successful call since the last clear, in call order.
 */
module Session {
  import opened Values
  import opened Calculations
  import opened Calculator

  /** One call a caller can make that affects the history. */
  datatype Command =
    | Call(op: Operation, a: Value, b: Value)
    | Clear

  /** The history after one command. */
  function Execute(h: History, cmd: Command): History {
    match cmd
    case Call(op, a, b) => Perform(op, a, b, h).history
    case Clear => ClearHistory(h)
  }

  /** The history after running all of `cmds`, starting from `h`. */
  function Run(h: History, cmds: seq<Command>): History
    decreases |cmds|
  {
    if cmds == [] then h else Execute(Run(h, cmds[..|cmds| - 1]), cmds[|cmds| - 1])
  }

  /** The entry a command contributes, read off the arithmetic alone: one
      `Calculation` for a successful call, none for a failed call or a clear. */
  function Entry(cmd: Command): History {
    match cmd
    case Call(op, a, b) =>
      (match Compute(op, a, b)
       case Ok(v) => [Calculation(Tag(op), [a, b], v)]
       case Err(_) => [])
    case Clear => []
  }

  /** The entries of all commands, in order, as if nothing were ever cleared. */
  function Entries(cmds: seq<Command>): History
    decreases |cmds|
  {
    if cmds == [] then [] else Entry(cmds[0]) + Entries(cmds[1..])
  }

  /** The commands after the last clear (all of them if there is none). */
  function SinceLastClear(cmds: seq<Command>): (r: seq<Command>)
    decreases |cmds|
  {
    if cmds == [] then []
    else if cmds[|cmds| - 1] == Clear then []
    else SinceLastClear(cmds[..|cmds| - 1]) + [cmds[|cmds| - 1]]
  }

  /** An arithmetic call whose operands pass validation. */
  predicate Succeeds(cmd: Command) {
    cmd.Call? && Compute(cmd.op, cmd.a, cmd.b).Ok?
  }

  /** The number of successful calls among `cmds`. */
  function Successes(cmds: seq<Command>): nat
    decreases |cmds|
  {
    if cmds == [] then 0
    else if Succeeds(cmds[0]) then 1 + Successes(cmds[1..])
    else Successes(cmds[1..])
  }

  lemma {:induction false} EntriesAppend(cmds: seq<Command>, cmd: Command)
    ensures Entries(cmds + [cmd]) == Entries(cmds) + Entry(cmd)
    decreases |cmds|
  {
    if cmds == [] {
      assert [] + [cmd] == [cmd];
    } else {
      assert (cmds + [cmd])[1..] == cmds[1..] + [cmd];
      EntriesAppend(cmds[1..], cmd);
    }
  }

  /** One command appends exactly its entry, unless it is a clear. */
  lemma ExecuteAppendsEntry(h: History, cmd: Command)
    requires cmd != Clear
    ensures Execute(h, cmd) == h + Entry(cmd)
  {
  }

  /** The history after a run: the starting history unless a clear happened,
      followed by the entry of every successful call since the last clear,
      in call order. */
  lemma {:induction false} RunHistory(h: History, cmds: seq<Command>)
    ensures Run(h, cmds) == (if Clear in cmds then [] else h) + Entries(SinceLastClear(cmds))
    decreases |cmds|
  {
    if cmds != [] {
      var init, last := cmds[..|cmds| - 1], cmds[|cmds| - 1];
      assert cmds == init + [last];
      RunHistory(h, init);
      if last != Clear {
        assert Clear in cmds <==> Clear in init;
        EntriesAppend(SinceLastClear(init), last);
      }
    }
  }

  lemma {:induction false} EntriesCount(cmds: seq<Command>)
    ensures |Entries(cmds)| == Successes(cmds)
    decreases |cmds|
  {
    if cmds != [] {
      EntriesCount(cmds[1..]);
    }
  }

  /** The length of the history is the number of successful calls since the
      last clear, plus the starting length if there was no clear; failed
      calls add nothing. */
  lemma HistoryLength(h: History, cmds: seq<Command>)
    ensures |Run(h, cmds)| == (if Clear in cmds then 0 else |h|) + Successes(SinceLastClear(cmds))
  {
    RunHistory(h, cmds);
    EntriesCount(SinceLastClear(cmds));
  }

  /** Without a clear the history only grows: what was there stays, in place. */
  lemma OnlyGrowsWithoutClear(h: History, cmds: seq<Command>)
    requires Clear !in cmds
    ensures |Run(h, cmds)| >= |h| && Run(h, cmds)[..|h|] == h
  {
    RunHistory(h, cmds);
  }

  /** A run that ends with a clear leaves an empty history, whatever came
      before. */
  lemma EndsWithClear(h: History, cmds: seq<Command>)
    ensures Run(h, cmds + [Clear]) == []
    ensures GetLastCalculation(Run(h, cmds + [Clear])) == Err(EmptyHistory)
  {
    assert (cmds + [Clear])[..|cmds|] == cmds;
  }
}
