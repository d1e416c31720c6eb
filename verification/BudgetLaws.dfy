/** What a budget says was used is what was used: over any history, its counters are the number of calls it
    admitted and its tokens the sum of what was charged. */
module BudgetLaws {
  import opened Budget

  // ---- the history, one operation at a time -----------------------------------------------------------

  /** Neither after a failed write nor after the deadline nor with the tokens used up. */
  predicate Accepts(o: Options, l: Ledger, late: bool) {
    !l.account.failed && !late && l.account.used.tokens < o.tokens
  }

  /** The operation takes one of the counter, whether or not writing it down succeeds; `taken` were before. */
  predicate Takes(o: Options, l: Ledger, op: Op, c: Counter, taken: int) {
    && op.OpConsume? && op.c == c && Accepts(o, l, op.late)
    && taken < match c case ModelCalls => o.modelCalls case ToolCalls => o.toolCalls case Retries => o.retries
  }

  /** The tokens a settlement or record charges: what is known to be used, or all that was reserved. */
  function Charge(l: Ledger, op: Op): int {
    if op.OpFinish? && op.ticket < |l.tickets| && l.tickets[op.ticket].pending
    then if op.actual >= 0 then op.actual else l.tickets[op.ticket].reserved
    else if op.OpRecord? && op.amount > 0 then op.amount
    else 0
  }

  function Estimate(l: Ledger, op: Op): int {
    if op.OpFinish? && op.ticket < |l.tickets| && l.tickets[op.ticket].pending && op.actual < 0
    then l.tickets[op.ticket].reserved else 0
  }

  function Before(o: Options, l: Ledger, ops: seq<Op>): Ledger
    requires ops != []
  {
    Run(o, l, ops[..|ops| - 1])
  }

  /** How often the counter was taken. */
  function Taken(o: Options, l: Ledger, ops: seq<Op>, c: Counter, start: int): int {
    if ops == [] then start
    else
      var taken := Taken(o, l, ops[..|ops| - 1], c, start);
      taken + if Takes(o, Before(o, l, ops), ops[|ops| - 1], c, taken) then 1 else 0
  }

  function Charges(o: Options, l: Ledger, ops: seq<Op>): int {
    if ops == [] then 0 else Charges(o, l, ops[..|ops| - 1]) + Charge(Before(o, l, ops), ops[|ops| - 1])
  }

  function Estimates(o: Options, l: Ledger, ops: seq<Op>): int {
    if ops == [] then 0 else Estimates(o, l, ops[..|ops| - 1]) + Estimate(Before(o, l, ops), ops[|ops| - 1])
  }

  /** The operation changed something, and writing that down failed. */
  predicate FailsToWrite(o: Options, l: Ledger, op: Op) {
    && !op.write
    && match op
       case OpConsume(c, late, _) =>
         Accepts(o, l, late) && (match c
                                 case ModelCalls => l.account.used.modelCalls < o.modelCalls
                                 case ToolCalls => l.account.used.toolCalls < o.toolCalls
                                 case Retries => l.account.used.retries < o.retries)
       case OpReserve(input, late, _) =>
         Accepts(o, l, late) && l.account.used.tokens + l.account.used.reserved + input < o.tokens
       case OpFinish(i, _, _) => i < |l.tickets| && l.tickets[i].pending
       case OpRecord(amount, _) => amount > 0
  }

  // ---- the laws ---------------------------------------------------------------------------------------

  ghost predicate Counts(o: Options, l: Ledger, ops: seq<Op>) {
    var u, start := Run(o, l, ops).account.used, l.account.used;
    && u.modelCalls == Taken(o, l, ops, ModelCalls, start.modelCalls)
    && u.toolCalls == Taken(o, l, ops, ToolCalls, start.toolCalls)
    && u.retries == Taken(o, l, ops, Retries, start.retries)
    && u.tokens == start.tokens + Charges(o, l, ops)
    && u.estimated == start.estimated + Estimates(o, l, ops)
  }

  lemma StepCounts(o: Options, l: Ledger, op: Op)
    ensures var u, v := l.account.used, Apply(o, l, op).account.used;
      && v.modelCalls == u.modelCalls + (if Takes(o, l, op, ModelCalls, u.modelCalls) then 1 else 0)
      && v.toolCalls == u.toolCalls + (if Takes(o, l, op, ToolCalls, u.toolCalls) then 1 else 0)
      && v.retries == u.retries + (if Takes(o, l, op, Retries, u.retries) then 1 else 0)
      && v.tokens == u.tokens + Charge(l, op) && v.estimated == u.estimated + Estimate(l, op)
  {
  }

  /** The accounts are exact: each counter has grown by the operations that took it, and the tokens by what
      settlements and records charged, all of a reservation where the usage is unknown. */
  lemma {:induction false} AccountsAreExact(o: Options, l: Ledger, ops: seq<Op>)
    ensures Counts(o, l, ops)
    decreases |ops|
  {
    if ops != [] {
      AccountsAreExact(o, l, ops[..|ops| - 1]);
      StepCounts(o, Before(o, l, ops), ops[|ops| - 1]);
      hide Apply, Takes, Charge, Estimate;
    }
  }

  /** A closed budget is one that failed to write: it fails with the first such write and stays closed. */
  lemma {:induction false} ClosedExactlyByFailedWrites(o: Options, l: Ledger, ops: seq<Op>)
    requires o.outputTokens > 0
    ensures Run(o, l, ops).account.failed <==>
            l.account.failed || exists i :: 0 <= i < |ops| && FailsToWrite(o, Run(o, l, ops[..i]), ops[i])
    decreases |ops|
  {
    if ops != [] {
      var front, last := ops[..|ops| - 1], ops[|ops| - 1];
      assert Run(o, l, ops) == Apply(o, Run(o, l, front), last);
      hide *;
      ClosedExactlyByFailedWrites(o, l, front);
      ClosedBy(o, Run(o, l, front), last);
      LastWrite(o, l, ops);
    }
  }

  lemma LastWrite(o: Options, l: Ledger, ops: seq<Op>)
    requires ops != []
    ensures var front, last := ops[..|ops| - 1], ops[|ops| - 1];
      (exists i :: 0 <= i < |ops| && FailsToWrite(o, Run(o, l, ops[..i]), ops[i]))
      <==> (FailsToWrite(o, Run(o, l, front), last)
            || exists i :: 0 <= i < |front| && FailsToWrite(o, Run(o, l, front[..i]), front[i]))
  {
    hide Run, FailsToWrite;
    var front := ops[..|ops| - 1];
    assert forall i :: 0 <= i < |front| ==> front[..i] == ops[..i] && front[i] == ops[i];
    if i :| 0 <= i < |front| && FailsToWrite(o, Run(o, l, front[..i]), front[i]) {
      assert FailsToWrite(o, Run(o, l, ops[..i]), ops[i]);
    }
  }

  lemma ClosedBy(o: Options, l: Ledger, op: Op)
    requires o.outputTokens > 0
    ensures Apply(o, l, op).account.failed <==> l.account.failed || FailsToWrite(o, l, op)
  {
  }

  /** How often consuming the counter was granted. */
  function Grants(o: Options, l: Ledger, ops: seq<Op>, c: Counter): nat {
    if ops == [] then 0
    else
      var op := ops[|ops| - 1];
      Grants(o, l, ops[..|ops| - 1], c)
      + if op.OpConsume? && op.c == c && Consume(o, Before(o, l, ops).account, c, op.late, op.write).1 then 1 else 0
  }

  /** A consumption is granted exactly when the budget accepts, the counter is below its limit, and the write
      succeeds. */
  lemma GrantedConsumption(o: Options, l: Ledger, c: Counter, late: bool, write: bool)
    ensures Consume(o, l.account, c, late, write).1 <==>
            && Accepts(o, l, late) && write
            && (match c
                case ModelCalls => l.account.used.modelCalls < o.modelCalls
                case ToolCalls => l.account.used.toolCalls < o.toolCalls
                case Retries => l.account.used.retries < o.retries)
  {
  }

  /** Granted calls of each kind never outnumber their limit. */
  lemma {:induction false} GrantsStayWithinLimits(o: Options, l: Ledger, ops: seq<Op>)
    requires l.account.used == Used(0, 0, 0, 0, 0, 0) && o.modelCalls >= 0 && o.toolCalls >= 0 && o.retries >= 0
    ensures var u := Run(o, l, ops).account.used;
      && Grants(o, l, ops, ModelCalls) <= u.modelCalls <= o.modelCalls
      && Grants(o, l, ops, ToolCalls) <= u.toolCalls <= o.toolCalls
      && Grants(o, l, ops, Retries) <= u.retries <= o.retries
    decreases |ops|
  {
    if ops != [] {
      var before, op := Before(o, l, ops), ops[|ops| - 1];
      GrantsStayWithinLimits(o, l, ops[..|ops| - 1]);
      StepCounts(o, before, op);
      if op.OpConsume? { GrantedConsumption(o, before, op.c, op.late, op.write); }
      hide Apply, Consume;
    }
  }

  /** A granted reservation is as large as it may be: all the output configured, or all that is left. A refused
      one reserves nothing. */
  lemma ReservesAllItMay(o: Options, l: Ledger, input: nat, late: bool, write: bool)
    requires o.outputTokens > 0
    ensures var (b, output) := Reserve(o, l.account, input, late, write);
      var left := o.tokens - l.account.used.tokens - l.account.used.reserved;
      && (output > 0 <==> Accepts(o, l, late) && write && input < left)
      && (output > 0 ==>
            && output == (if o.outputTokens <= left - input then o.outputTokens else left - input)
            && b.used == l.account.used.(reserved := l.account.used.reserved + input + output))
      && (output <= 0 ==> b.used == l.account.used)
  {
  }
}
