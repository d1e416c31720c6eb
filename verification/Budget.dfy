/** The execution budget: counters, token reservations settled once, and a sticky failure of the
    durable write that follows every change. The writer's answers and the clock are inputs. */
module Budget {

  datatype Options = Options(timeout: int, modelCalls: int, toolCalls: int, retries: int, tokens: int,
        outputTokens: int)

  const Defaults := Options(1500000, 100, 200, 3, 200000, 8192)

  function OrDefault(value: int, standard: int): int {
    if value <= 0 then standard else value
  }

  /** Unset options fall back to the defaults, so every limit is positive; set ones are kept. */
  function Normal(o: Options): (n: Options)
    ensures n.timeout > 0 && n.modelCalls > 0 && n.toolCalls > 0 && n.retries > 0 && n.tokens > 0 && n.outputTokens > 0
    ensures (o.timeout > 0 ==> n.timeout == o.timeout) && (o.timeout <= 0 ==> n.timeout == 25 * 60 * 1000)
    ensures (o.modelCalls > 0 ==> n.modelCalls == o.modelCalls) && (o.modelCalls <= 0 ==> n.modelCalls == 100)
    ensures (o.toolCalls > 0 ==> n.toolCalls == o.toolCalls) && (o.toolCalls <= 0 ==> n.toolCalls == 200)
    ensures (o.retries > 0 ==> n.retries == o.retries) && (o.retries <= 0 ==> n.retries == 3)
    ensures (o.tokens > 0 ==> n.tokens == o.tokens) && (o.tokens <= 0 ==> n.tokens == 200000)
    ensures o.outputTokens > 0 ==> n.outputTokens == o.outputTokens
    ensures o.outputTokens <= 0 ==> n.outputTokens == 8192
  {
    Options(OrDefault(o.timeout, Defaults.timeout), OrDefault(o.modelCalls, Defaults.modelCalls),
            OrDefault(o.toolCalls, Defaults.toolCalls), OrDefault(o.retries, Defaults.retries),
            OrDefault(o.tokens, Defaults.tokens), OrDefault(o.outputTokens, Defaults.outputTokens))
  }

  datatype Used = Used(modelCalls: int, toolCalls: int, retries: int, tokens: int, estimated: int, reserved: int)

  datatype Counter = ModelCalls | ToolCalls | Retries

  /** The mutable part of a budget: what is used and whether a durable write ever failed. */
  datatype Account = Account(used: Used, failed: bool)

  function Total(u: Used): int { u.tokens + u.reserved }

  function Get(u: Used, c: Counter): int {
    match c case ModelCalls => u.modelCalls case ToolCalls => u.toolCalls case Retries => u.retries
  }

  function Limit(o: Options, c: Counter): int {
    match c case ModelCalls => o.modelCalls case ToolCalls => o.toolCalls case Retries => o.retries
  }

  function Increment(u: Used, c: Counter): Used {
    match c
    case ModelCalls => u.(modelCalls := u.modelCalls + 1)
    case ToolCalls => u.(toolCalls := u.toolCalls + 1)
    case Retries => u.(retries := u.retries + 1)
  }

  /** Spending is refused after a failed write, after the deadline and once the tokens are used up. */
  predicate Open(o: Options, a: Account, late: bool) {
    !a.failed && !late && a.used.tokens < o.tokens
  }

  /** `write` is the durable writer's answer; it is not asked again after a failure. */
  function Persist(a: Account, write: bool): Account {
    a.(failed := a.failed || !write)
  }

  function Consume(o: Options, a: Account, c: Counter, late: bool, write: bool): (Account, bool) {
    if !Open(o, a, late) || Get(a.used, c) >= Limit(o, c) then (a, false)
    else
      var b := Persist(a.(used := Increment(a.used, c)), write);
      (b, !b.failed)
  }

  /** The granted output limit, 0 when refused. */
  function OutputLimit(o: Options, a: Account, input: nat, late: bool): int {
    var remaining := o.tokens - Total(a.used) - input;
    if !Open(o, a, late) || remaining <= 0 then 0
    else if o.outputTokens > remaining then remaining else o.outputTokens
  }

  /** A failed write takes the reservation back and refuses. */
  function Reserve(o: Options, a: Account, input: nat, late: bool, write: bool): (Account, int) {
    var output := OutputLimit(o, a, input, late);
    if output <= 0 then (a, 0)
    else
      var b := Persist(a.(used := a.used.(reserved := a.used.reserved + input + output)), write);
      if b.failed then (b.(used := a.used), 0) else (b, output)
  }

  /** Unknown usage (negative) charges the whole reservation. */
  function Settle(a: Account, reserved: int, actual: int, write: bool): Account {
    var charge := if actual < 0 then reserved else actual;
    var estimated := if actual < 0 then a.used.estimated + reserved else a.used.estimated;
    Persist(a.(used := a.used.(reserved := a.used.reserved - reserved, estimated := estimated,
        tokens := a.used.tokens + charge)), write)
  }

  function Record(a: Account, tokens: int, write: bool): Account {
    if tokens > 0 then Persist(a.(used := a.used.(tokens := a.used.tokens + tokens)), write) else a
  }

  /** The checkpoint's usage with a stranded reservation charged. */
  function Charged(u: Used): Used {
    u.(tokens := u.tokens + u.reserved, estimated := u.estimated + u.reserved, reserved := 0)
  }

  predicate Restorable(u: Used, elapsed: int) {
    u.reserved == 0 && elapsed >= 0 && u.modelCalls >= 0 && u.toolCalls >= 0 && u.retries >= 0 && u.tokens >= 0
  }

  // ---- reservations and conservation --------------------------------------------------------

  /** A reservation; its once-only settlement is a pending flag. */
  datatype Ticket = Ticket(reserved: int, pending: bool)

  function Outstanding(tickets: seq<Ticket>): int {
    if tickets == [] then 0
    else
      Outstanding(tickets[..|tickets| - 1])
      + if tickets[|tickets| - 1].pending then tickets[|tickets| - 1].reserved else 0
  }

  ghost predicate Positive(tickets: seq<Ticket>) {
    forall i :: 0 <= i < |tickets| ==> tickets[i].reserved > 0
  }

  lemma {:induction false} OutstandingSettled(tickets: seq<Ticket>, i: nat)
    requires i < |tickets| && tickets[i].pending
    ensures Outstanding(tickets[i := tickets[i].(pending := false)]) == Outstanding(tickets) - tickets[i].reserved
    decreases |tickets|
  {
    var settled, n := tickets[i := tickets[i].(pending := false)], |tickets| - 1;
    if i == n {
      assert settled[..n] == tickets[..n];
    } else {
      assert settled[..n] == tickets[..n][i := tickets[i].(pending := false)];
      OutstandingSettled(tickets[..n], i);
    }
  }

  lemma NothingOutstanding()
    ensures Outstanding([]) == 0
  {
  }

  lemma OutstandingAdded(tickets: seq<Ticket>, t: Ticket)
    requires t.pending && t.reserved > 0 && Positive(tickets)
    ensures Outstanding(tickets + [t]) == Outstanding(tickets) + t.reserved && Positive(tickets + [t])
  {
    assert (tickets + [t])[..|tickets|] == tickets;
  }

  predicate Within(o: Options, u: Used) {
    0 <= u.modelCalls <= o.modelCalls && 0 <= u.toolCalls <= o.toolCalls && 0 <= u.retries <= o.retries
  }

  /** What every budget keeps: reserved tokens are the unsettled reservations, the total stays within
      the limit plus what calls used beyond their reservations, counters stay within their limits. */
  ghost predicate Conserved(o: Options, a: Account, tickets: seq<Ticket>, over: int) {
    && a.used.reserved == Outstanding(tickets)
    && Total(a.used) <= o.tokens + over && over >= 0
    && Within(o, a.used)
    && Positive(tickets)
  }

  datatype Op =
    | OpConsume(c: Counter, late: bool, write: bool)
    | OpReserve(input: nat, late: bool, write: bool)
    | OpFinish(ticket: nat, actual: int, write: bool)
    | OpRecord(amount: int, write: bool)

  datatype Ledger = Ledger(account: Account, tickets: seq<Ticket>, over: int)

  function Apply(o: Options, l: Ledger, op: Op): Ledger {
    match op
    case OpConsume(c, late, write) => l.(account := Consume(o, l.account, c, late, write).0)
    case OpReserve(input, late, write) =>
      var (a, output) := Reserve(o, l.account, input, late, write);
      Ledger(a, if output > 0 then l.tickets + [Ticket(input + output, true)] else l.tickets, l.over)
    case OpFinish(i, actual, write) =>
      if i >= |l.tickets| || !l.tickets[i].pending then l
      else
        var t := l.tickets[i];
        Ledger(Settle(l.account, t.reserved, actual, write), l.tickets[i := t.(pending := false)],
               l.over + if actual > t.reserved then actual - t.reserved else 0)
    case OpRecord(tokens, write) =>
      l.(account := Record(l.account, tokens, write), over := l.over + if tokens > 0 then tokens else 0)
  }

  function Run(o: Options, l: Ledger, ops: seq<Op>): Ledger {
    if ops == [] then l else Apply(o, Run(o, l, ops[..|ops| - 1]), ops[|ops| - 1])
  }

  ghost predicate Sane(o: Options, l: Ledger) {
    Conserved(o, l.account, l.tickets, l.over)
  }

  lemma FreshIsSane(o: Options)
    requires o.modelCalls >= 0 && o.toolCalls >= 0 && o.retries >= 0 && o.tokens >= 0
    ensures Sane(o, Ledger(Account(Used(0, 0, 0, 0, 0, 0), false), [], 0))
  {
    NothingOutstanding();
  }

  lemma ConsumeConserves(o: Options, l: Ledger, c: Counter, late: bool, write: bool)
    requires Sane(o, l)
    ensures Sane(o, Apply(o, l, OpConsume(c, late, write)))
  {
    hide Outstanding;
  }

  lemma ReserveFacts(o: Options, a: Account, input: nat, late: bool, write: bool)
    ensures var (b, output) := Reserve(o, a, input, late, write);
      && (a.failed ==> b.failed)
      && (output > 0 ==> b.used == a.used.(reserved := a.used.reserved + input + output) && Total(b.used) <= o.tokens)
      && (output <= 0 ==> b.used == a.used)
  {
  }

  lemma ReserveConserves(o: Options, l: Ledger, input: nat, late: bool, write: bool)
    requires Sane(o, l)
    ensures Sane(o, Apply(o, l, OpReserve(input, late, write)))
  {
    var output := Reserve(o, l.account, input, late, write).1;
    ReserveFacts(o, l.account, input, late, write);
    hide Reserve;
    if output > 0 { OutstandingAdded(l.tickets, Ticket(input + output, true)); }
    hide Outstanding, Positive;
  }

  lemma FinishConserves(o: Options, l: Ledger, i: nat, actual: int, write: bool)
    requires Sane(o, l)
    ensures Sane(o, Apply(o, l, OpFinish(i, actual, write)))
  {
    if i < |l.tickets| && l.tickets[i].pending { OutstandingSettled(l.tickets, i); }
    hide Outstanding;
  }

  lemma StepConserves(o: Options, l: Ledger, op: Op)
    requires Sane(o, l)
    ensures Sane(o, Apply(o, l, op)) && (l.account.failed ==> Apply(o, l, op).account.failed)
  {
    hide Outstanding;
    match op
    case OpConsume(c, late, write) => ConsumeConserves(o, l, c, late, write); hide Sane;
    case OpReserve(input, late, write) =>
      ReserveConserves(o, l, input, late, write);
      ReserveFacts(o, l.account, input, late, write);
      hide Sane, Reserve;
    case OpFinish(i, actual, write) => FinishConserves(o, l, i, actual, write); hide Sane;
    case OpRecord(_, _) =>
  }

  /** In any interleaving of consumptions, reservations, repeated, known or unknown settlements and
      write failures, tokens are conserved and limits hold. */
  lemma {:induction false} BudgetConserves(o: Options, l: Ledger, ops: seq<Op>)
    requires Sane(o, l)
    ensures Sane(o, Run(o, l, ops)) && (l.account.failed ==> Run(o, l, ops).account.failed)
    decreases |ops|
  {
    if ops != [] {
      BudgetConserves(o, l, ops[..|ops| - 1]);
      StepConserves(o, Run(o, l, ops[..|ops| - 1]), ops[|ops| - 1]);
      hide Sane, Apply;
    }
  }

  /** Usage never above its reservation, and no separately recorded tokens. */
  predicate Honest(o: Options, l: Ledger, ops: seq<Op>)
    decreases |ops|
  {
    ops == [] ||
    var front, op := ops[..|ops| - 1], ops[|ops| - 1];
    && Honest(o, l, front) && !op.OpRecord?
    && (op.OpFinish? && op.ticket < |Run(o, l, front).tickets| ==>
         op.actual <= Run(o, l, front).tickets[op.ticket].reserved)
  }

  /** When calls use at most what was reserved for them, the limit is never passed. */
  lemma {:induction false} HonestCallsStayWithinLimit(o: Options, l: Ledger, ops: seq<Op>)
    requires Sane(o, l) && l.over == 0 && Honest(o, l, ops)
    ensures Total(Run(o, l, ops).account.used) <= o.tokens
    ensures Run(o, l, ops).over == 0
    decreases |ops|
  {
    BudgetConserves(o, l, ops);
    if ops != [] {
      HonestCallsStayWithinLimit(o, l, ops[..|ops| - 1]);
      hide Sane, Consume, Reserve, Settle;
    }
  }

  /** A reservation is granted exactly when something can be spent, then at least one output token
      is allowed, never more than configured, and input and output together fit. */
  lemma GrantedReservation(o: Options, a: Account, input: nat, late: bool, write: bool)
    requires o == Normal(o)
    ensures var (b, output) := Reserve(o, a, input, late, write);
      && (output > 0 <==> (Open(o, a, late) && write && Total(a.used) + input < o.tokens))
      && (output > 0 ==> (output <= o.outputTokens && Total(b.used) == Total(a.used) + input + output <= o.tokens
           && !b.failed))
      && (output <= 0 ==> (output == 0 && b.used == a.used))
  {
  }

  /** A failed durable write closes the budget for good. */
  lemma {:induction false} FailureIsFinal(o: Options, l: Ledger, ops: seq<Op>, c: Counter, input: nat, late: bool,
        write: bool)
    requires Sane(o, l) && l.account.failed
    ensures var a := Run(o, l, ops).account;
      && !Consume(o, a, c, late, write).1 && Reserve(o, a, input, late, write).1 == 0
      && Consume(o, a, c, late, write).0 == a && Reserve(o, a, input, late, write).0 == a
  {
    BudgetConserves(o, l, ops);
  }

  // ---- the budget object --------------------------------------------------------------------

  /** Shared by the concurrent calls of one execution; each method holds its mutex throughout.
      `write` is what the observer answers when it is asked, `now` the clock. */
  class Budget {
    const options: Options
    var used: Used
    var deadline: int
    var observed: bool
    var persistErr: bool
    var tickets: seq<Ticket>
    ghost var over: int

    constructor (o: Options, now: int)
      ensures options == Normal(o) && deadline == now + options.timeout && !observed
      ensures Valid() && State() == Ledger(Account(Used(0, 0, 0, 0, 0, 0), false), [], 0)
    {
      hide Normal, Sane;
      var opts := Normal(o);
      FreshIsSane(opts);
      options, deadline := opts, now + opts.timeout;
      used, observed, persistErr, tickets, over := Used(0, 0, 0, 0, 0, 0), false, false, [], 0;
    }

    ghost function State(): Ledger
      reads this
    {
      Ledger(Account(used, persistErr), tickets, over)
    }

    ghost predicate Valid()
      reads this
    {
      options.outputTokens > 0 && Sane(options, State())
    }

    method CheckLocked(now: int) returns (ok: bool)
      ensures ok == Open(options, State().account, now >= deadline)
    {
      if persistErr { return false; }
      if !(now < deadline) { return false; }
      if used.tokens >= options.tokens { return false; }
      return true;
    }

    method PersistLocked(write: bool) returns (ok: bool)
      modifies this`persistErr
      ensures State().account == Persist(old(State().account), write || !observed)
      ensures ok == !persistErr
    {
      if observed && !persistErr {
        persistErr := !write;
      }
      return !persistErr;
    }

    method Observe()
      modifies this`observed
      ensures observed
    {
      observed := true;
    }

    /** Only with nothing in flight; malformed, overspent and expired checkpoints are refused. */
    method Restore(u: Used, elapsed: int, now: int) returns (ok: bool)
      requires Valid() && used.reserved == 0
      modifies this`used, this`deadline
      ensures !Restorable(u, elapsed) ==> !ok && used == old(used) && deadline == old(deadline)
      ensures Restorable(u, elapsed) ==> used == u && deadline == now + options.timeout - elapsed
      ensures ok <==> Restorable(u, elapsed) && Open(options, State().account, now >= deadline)
      ensures ok && Within(options, u) ==> Valid()
    {
      hide Outstanding;
      if u.reserved != 0 || elapsed < 0 || u.modelCalls < 0 || u.toolCalls < 0 || u.retries < 0 || u.tokens < 0 {
        return false;
      }
      used := u;
      deadline := now + options.timeout - elapsed;
      ok := CheckLocked(now);
    }

    method ConsumeOne(c: Counter, now: int, write: bool) returns (ok: bool)
      requires Valid()
      modifies this
      ensures Valid()
      ensures State() == Apply(options, old(State()), OpConsume(c, now >= old(deadline), write || !old(observed)))
      ensures ok == Consume(options, old(State()).account, c, now >= old(deadline), write || !old(observed)).1
    {
      StepConserves(options, State(), OpConsume(c, now >= deadline, write || !observed));
      hide Sane, Normal;
      ok := CheckLocked(now);
      if !ok { return; }
      if Get(used, c) >= Limit(options, c) { return false; }
      used := Increment(used, c);
      ok := PersistLocked(write);
    }

    /** The settlement handle is the index of the new ticket. */
    method ReserveModel(input: nat, now: int, write: bool) returns (outputLimit: int, finish: nat)
      requires Valid()
      modifies this
      ensures Valid()
      ensures State() == Apply(options, old(State()), OpReserve(input, now >= old(deadline), write || !old(observed)))
      ensures outputLimit ==
              Reserve(options, old(State()).account, input, now >= old(deadline), write || !old(observed)).1
      ensures outputLimit > 0 ==> finish < |tickets| && tickets[finish] == Ticket(input + outputLimit, true)
    {
      StepConserves(options, State(), OpReserve(input, now >= deadline, write || !observed));
      hide Sane;
      finish := |tickets|;
      var ok := CheckLocked(now);
      if !ok { return 0, finish; }
      var remaining := options.tokens - used.tokens - used.reserved - input;
      if remaining <= 0 { return 0, finish; }
      outputLimit := options.outputTokens;
      if outputLimit > remaining { outputLimit := remaining; }
      var reserved := input + outputLimit;
      used := used.(reserved := used.reserved + reserved);
      ok := PersistLocked(write);
      if !ok {
        used := used.(reserved := used.reserved - reserved);
        return 0, finish;
      }
      tickets := tickets + [Ticket(reserved, true)];
    }

    /** Settling twice does nothing. */
    method Finish(ticket: nat, actual: int, write: bool)
      requires Valid()
      modifies this
      ensures Valid() && State() == Apply(options, old(State()), OpFinish(ticket, actual, write || !old(observed)))
    {
      StepConserves(options, State(), OpFinish(ticket, actual, write || !observed));
      hide Sane, Normal;
      if ticket >= |tickets| || !tickets[ticket].pending { return; }
      var reserved := tickets[ticket].reserved;
      tickets := tickets[ticket := tickets[ticket].(pending := false)];
      over := over + if actual > reserved then actual - reserved else 0;
      used := used.(reserved := used.reserved - reserved);
      var charge := actual;
      if charge < 0 {
        charge := reserved;
        used := used.(estimated := used.estimated + reserved);
      }
      used := used.(tokens := used.tokens + charge);
      var ok := PersistLocked(write);
    }

    method RecordTokens(amount: int, write: bool)
      requires Valid()
      modifies this
      ensures Valid() && State() == Apply(options, old(State()), OpRecord(amount, write || !old(observed)))
    {
      StepConserves(options, State(), OpRecord(amount, write || !observed));
      hide Sane, Normal;
      if amount > 0 {
        over := over + amount;
        used := used.(tokens := used.tokens + amount);
        var ok := PersistLocked(write);
      }
    }
  }
}
