/** One run's provider spending across crashes, restarts, lost writes and stale attempts. The durable
    budget is the one stored with the run's checkpoint; attempts own the run by a fenced claim. */
module BudgetRecovery {
  import opened TaskTypes
  import B = Budget

  /** What became of a durable write: done, lost, or done without an answer. */
  datatype Write = Written | Lost | Unanswered

  datatype Phase = InFlight | Settled | Assumed

  /** A provider call admitted by a reservation; `usage` is what the provider really used. */
  datatype Call = Call(attempt: int, reserved: int, usage: Option<int>, phase: Phase)

  /** `rights` counts model calls already counted whose reservation is still to come. */
  datatype Attempt = Attempt(account: B.Account, rights: nat)

  datatype System = System(
    durable: Option<B.Used>, owner: Option<int>, attempts: map<int, Attempt>, loaded: map<int, B.Used>,
    calls: seq<Call>, started: bool)

  const Zero := B.Used(0, 0, 0, 0, 0, 0)
  const Boot := System(None, None, map[], map[], [], false)

  datatype Step =
    | First(x: int)
    | Load(x: int)
    | Own(x: int)
    | Lose
    | Count(x: int, late: bool, write: Write)
    | Reserve(x: int, input: nat, late: bool, write: Write)
    | Use(i: nat, usage: nat)
    | Finish(i: nat, known: bool, write: Write)
    | SafePoint(x: int, write: Write)

  /** A resumed attempt needs a checkpoint; a call reports what it used, at most its reservation. */
  predicate Allowed(o: B.Options, s: System, step: Step) {
    match step
    case First(x) => !s.started
    case Load(x) => s.durable.Some? && x !in s.attempts && x !in s.loaded
    case Own(x) => x in s.loaded && x !in s.attempts && s.owner.None?
    case Lose => true
    case Count(x, _, _) => x in s.attempts
    case Reserve(x, _, _, _) => x in s.attempts && s.attempts[x].rights > 0
    case Use(i, usage) => i < |s.calls| && s.calls[i].usage.None? && usage <= s.calls[i].reserved
    case Finish(i, known, _) => i < |s.calls| && s.calls[i].phase.InFlight? && s.calls[i].attempt in s.attempts
        && (known ==> s.calls[i].usage.Some?)
    case SafePoint(x, _) => x in s.attempts && !s.attempts[x].account.failed
  }

  /** The fence turns a write by anyone but the owner into a failure. */
  predicate Answered(s: System, x: int, w: Write) {
    s.owner == Some(x) && w.Written?
  }

  /** Budget writes update a stored checkpoint; without one nothing is written. */
  function Stored(s: System, x: int, used: B.Used, w: Write): Option<B.Used> {
    if s.durable.Some? && s.owner == Some(x) && !w.Lost? then Some(used) else s.durable
  }

  /** The value handed to the writer, when the operation reaches it. */
  function Offered(a: B.Account, used: B.Used): bool { !a.failed && used != a.used }

  function Next(o: B.Options, s: System, step: Step): System {
    match step
    case First(x) => s.(attempts := s.attempts[x := Attempt(B.Account(Zero, false), 0)], owner := Some(x),
        started := true)
    case Load(x) => if s.durable.None? then s else s.(loaded := s.loaded[x := B.Charged(s.durable.value)])
    case Own(x) =>
      if x !in s.loaded || !B.Open(o, B.Account(s.loaded[x], false), false) then s
      else s.(attempts := s.attempts[x := Attempt(B.Account(s.loaded[x], false), 0)], owner := Some(x))
    case Lose => s.(owner := None)
    case Count(x, late, w) =>
      if x !in s.attempts then s else
        var a := s.attempts[x].account;
        var tried := B.Consume(o, a, B.ModelCalls, late, true).0.used;
        var (b, ok) := B.Consume(o, a, B.ModelCalls, late, Answered(s, x, w));
        s.(attempts := s.attempts[x := Attempt(b, s.attempts[x].rights + if ok then 1 else 0)],
           durable := if Offered(a, tried) then Stored(s, x, tried, w) else s.durable)
    case Reserve(x, input, late, w) =>
      if x !in s.attempts || s.attempts[x].rights == 0 then s else
        var a := s.attempts[x].account;
        var tried := B.Reserve(o, a, input, late, true).0.used;
        var (b, output) := B.Reserve(o, a, input, late, Answered(s, x, w));
        s.(attempts := s.attempts[x := Attempt(b, s.attempts[x].rights - if output > 0 then 1 else 0)],
           durable := if Offered(a, tried) then Stored(s, x, tried, w) else s.durable,
           calls := if output > 0 then s.calls + [Call(x, input + output, None, InFlight)] else s.calls)
    case Use(i, usage) =>
      if i >= |s.calls| then s else s.(calls := s.calls[i := s.calls[i].(usage := Some(usage))])
    case Finish(i, known, w) =>
      if i >= |s.calls| || s.calls[i].attempt !in s.attempts || (known && s.calls[i].usage.None?) then s else
        var c, x := s.calls[i], s.calls[i].attempt;
        var actual := if known then c.usage.value else -1;
        var a := s.attempts[x].account;
        var b := B.Settle(a, c.reserved, actual, Answered(s, x, w));
        s.(attempts := s.attempts[x := s.attempts[x].(account := b)],
           durable := if a.failed then s.durable else Stored(s, x, b.used, w),
           calls := s.calls[i := c.(phase := if known then Settled else Assumed)])
    case SafePoint(x, w) =>
      if x !in s.attempts || s.owner != Some(x) || w.Lost? then s else s.(durable := Some(s.attempts[x].account.used))
  }

  // ---- what calls may have cost ---------------------------------------------------------------

  function Cost(c: Call, owner: Option<int>): int {
    if owner == Some(c.attempt) && c.phase.InFlight? then c.reserved
    else if c.usage.Some? then c.usage.value else c.reserved
  }

  /** The most the admitted calls can have cost, an owner's pending calls at their reservations. */
  function Exposure(calls: seq<Call>, owner: Option<int>): int {
    if calls == [] then 0 else Exposure(calls[..|calls| - 1], owner) + Cost(calls[|calls| - 1], owner)
  }

  function Spent(calls: seq<Call>): int {
    if calls == [] then 0
    else Spent(calls[..|calls| - 1]) + if calls[|calls| - 1].usage.Some? then calls[|calls| - 1].usage.value else 0
  }

  ghost predicate Honest(calls: seq<Call>) {
    forall i :: 0 <= i < |calls| ==>
      calls[i].reserved > 0 && (calls[i].usage.Some? ==> 0 <= calls[i].usage.value <= calls[i].reserved)
      && (calls[i].phase.Settled? ==> calls[i].usage.Some?)
  }

  lemma {:induction false} SpentWithinExposure(calls: seq<Call>, owner: Option<int>)
    requires Honest(calls)
    ensures 0 <= Spent(calls) <= Exposure(calls, owner) && Exposure(calls, None) <= Exposure(calls, owner)
    decreases |calls|
  {
    if calls != [] {
      SpentWithinExposure(calls[..|calls| - 1], owner);
      assert calls[|calls| - 1].reserved > 0;
    }
  }

  lemma {:induction false} ExposureOfStranger(calls: seq<Call>, x: int)
    requires forall i :: 0 <= i < |calls| ==> calls[i].attempt != x
    ensures Exposure(calls, Some(x)) == Exposure(calls, None)
    decreases |calls|
  {
    if calls != [] { ExposureOfStranger(calls[..|calls| - 1], x); }
  }

  lemma {:induction false} ExposureChanges(calls: seq<Call>, i: nat, c: Call, owner: Option<int>)
    requires i < |calls|
    ensures Exposure(calls[i := c], owner) == Exposure(calls, owner) - Cost(calls[i], owner) + Cost(c, owner)
    decreases |calls|
  {
    var n := |calls| - 1;
    if i == n {
      assert calls[i := c][..n] == calls[..n];
    } else {
      assert calls[i := c][..n] == calls[..n][i := c];
      ExposureChanges(calls[..n], i, c, owner);
    }
  }

  lemma ExposureAdds(calls: seq<Call>, c: Call, owner: Option<int>)
    ensures Exposure(calls + [c], owner) == Exposure(calls, owner) + Cost(c, owner)
  {
    assert (calls + [c])[..|calls|] == calls;
  }

  // ---- the invariant --------------------------------------------------------------------------

  /** What a run's spending is limited by. */
  datatype Limit = Tokens | ModelCalls

  ghost predicate Kept(l: Limit, o: B.Options, calls: seq<Call>) {
    match l
    case Tokens => Spent(calls) <= o.tokens
    case ModelCalls => |calls| <= o.modelCalls
  }

  /** Nothing already admitted can pass the limit. */
  ghost predicate Bounded(l: Limit, o: B.Options, calls: seq<Call>, owner: Option<int>, rights: nat) {
    match l
    case Tokens => Exposure(calls, owner) <= o.tokens
    case ModelCalls => |calls| + rights <= o.modelCalls
  }

  /** The budget accounts for everything admitted. */
  ghost predicate Covers(l: Limit, used: B.Used, calls: seq<Call>, owner: Option<int>, rights: nat) {
    match l
    case Tokens => Exposure(calls, owner) <= B.Total(used)
    case ModelCalls => |calls| + rights <= used.modelCalls
  }

  /** An attempt that can admit no further call. */
  predicate Exhausted(o: B.Options, a: Attempt) {
    a.rights == 0 && a.account.used.modelCalls >= o.modelCalls
  }

  ghost predicate OwnerCovers(l: Limit, o: B.Options, s: System, tracked: bool) {
    s.owner.Some? ==>
      && s.owner.value in s.attempts
      && var a := s.attempts[s.owner.value];
      || (Covers(l, a.account.used, s.calls, s.owner, a.rights) && Bounded(l, o, s.calls, s.owner, a.rights))
      || (l.Tokens? && !tracked && Exhausted(o, a))
  }

  /** `tracked` says that every claim so far was taken on the stored budget. */
  ghost predicate Inv(l: Limit, o: B.Options, s: System, tracked: bool) {
    && Honest(s.calls)
    && (forall i :: 0 <= i < |s.calls| ==> s.calls[i].attempt in s.attempts)
    && (forall x :: x in s.loaded ==> s.loaded[x].reserved == 0)
    && Bounded(l, o, s.calls, s.owner, 0)
    && OwnerCovers(l, o, s, tracked)
    && (tracked && s.durable.Some? ==> Covers(l, s.durable.value, s.calls, s.owner, 0))
    && (!s.started ==>
          s.calls == [] && s.attempts == map[] && s.loaded == map[] && s.durable.None? && s.owner.None?)
  }

  /** What a claim needs to keep a limit: unless the budget read before it is used up, that budget still
      covers the calls; as to tokens it may also have no model call left. */
  ghost predicate Current(l: Limit, o: B.Options, s: System, step: Step) {
    step.Own? && step.x in s.loaded && B.Open(o, B.Account(s.loaded[step.x], false), false) ==>
      match l
      case Tokens => Exposure(s.calls, None) <= s.loaded[step.x].tokens || s.loaded[step.x].modelCalls >= o.modelCalls
      case ModelCalls => |s.calls| <= s.loaded[step.x].modelCalls
  }

  /** A claim on the budget that is stored, its stranded reservations charged. */
  predicate Fresh(s: System, step: Step) {
    step.Own? && step.x in s.loaded ==> s.durable.Some? && s.loaded[step.x] == B.Charged(s.durable.value)
  }

  ghost predicate Sound(l: Limit, o: B.Options, s: System, step: Step, tracked: bool) {
    if tracked then Fresh(s, step) else Current(l, o, s, step)
  }

  function FirstAttempt(x: int): System {
    System(None, Some(x), map[x := Attempt(B.Account(Zero, false), 0)], map[], [], true)
  }

  lemma FirstAttemptCovered(l: Limit, o: B.Options, x: int, tracked: bool)
    requires o.tokens > 0 && o.modelCalls > 0
    ensures Inv(l, o, FirstAttempt(x), tracked)
  {
    assert Exposure([], Some(x)) == 0;
    hide Exposure;
  }

  lemma StartKeeps(l: Limit, o: B.Options, s: System, x: int, tracked: bool)
    requires o.tokens > 0 && o.modelCalls > 0 && Inv(l, o, s, tracked) && !s.started
    ensures Inv(l, o, Next(o, s, First(x)), tracked)
  {
    FirstAttemptCovered(l, o, x, tracked);
    hide Honest, Exposure;
    assert Next(o, s, First(x)) == FirstAttempt(x);
    hide Inv, Next, FirstAttempt;
  }

  lemma ClaimKeeps(l: Limit, o: B.Options, s: System, x: int, tracked: bool)
    requires Inv(l, o, s, tracked) && Allowed(o, s, Own(x)) && Sound(l, o, s, Own(x), tracked)
    ensures Inv(l, o, Next(o, s, Own(x)), tracked)
  {
    ExposureOfStranger(s.calls, x);
    hide Exposure, B.Open;
  }

  lemma LoseKeeps(l: Limit, o: B.Options, s: System, tracked: bool)
    requires Inv(l, o, s, tracked)
    ensures Inv(l, o, Next(o, s, Lose), tracked)
  {
    SpentWithinExposure(s.calls, s.owner);
    hide Exposure;
  }

  lemma CountKeeps(l: Limit, o: B.Options, s: System, x: int, late: bool, w: Write, tracked: bool)
    requires Inv(l, o, s, tracked) && x in s.attempts
    ensures Inv(l, o, Next(o, s, Count(x, late, w)), tracked)
  {
    hide Exposure;
  }

  /** An admitted call raises the owner's budget and the exposure alike, and spends one right. */
  lemma ReserveEffect(o: B.Options, s: System, x: int, input: nat, late: bool, w: Write)
    requires x in s.attempts && s.attempts[x].rights > 0
    ensures var s' := Next(o, s, Reserve(x, input, late, w));
      var a, b := s.attempts[x], s'.attempts[x];
      && s' == s.(attempts := s.attempts[x := b], durable := s'.durable, calls := s'.calls)
      && (s'.durable == s.durable
          || (&& s.durable.Some? && s.owner == Some(x) && s'.durable.Some?
              && s'.durable.value.modelCalls == a.account.used.modelCalls
              && B.Total(a.account.used) <= B.Total(s'.durable.value)
              && (s'.calls != s.calls ==> s'.durable.value == b.account.used)))
      && (if s'.calls == s.calls then b.account.used == a.account.used && b.rights == a.rights
          else exists r :: && r > 0 && s'.calls == s.calls + [Call(x, r, None, InFlight)] && s.owner == Some(x)
                           && b.account.used == a.account.used.(reserved := a.account.used.reserved + r)
                           && b.rights == a.rights - 1 && B.Total(b.account.used) <= o.tokens
                           && (s.durable.Some? ==> s'.durable == Some(b.account.used)))
  {
    var a := s.attempts[x].account;
    B.ReserveFacts(o, a, input, late, true);
    B.ReserveFacts(o, a, input, late, Answered(s, x, w));
    var output := B.Reserve(o, a, input, late, Answered(s, x, w)).1;
    assert output > 0 ==> Answered(s, x, w) && !a.failed;
    assert output > 0 ==> s.calls + [Call(x, input + output, None, InFlight)] != s.calls;
    hide B.Reserve;
  }

  lemma AdmittedKeeps(l: Limit, o: B.Options, s: System, s': System, x: int, r: int, tracked: bool)
    requires Inv(l, o, s, tracked) && x in s.attempts && x in s'.attempts && s.attempts[x].rights > 0 && r > 0
    requires s' == s.(attempts := s.attempts[x := s'.attempts[x]], durable := s'.durable, calls := s'.calls)
    requires s'.calls == s.calls + [Call(x, r, None, InFlight)] && s.owner == Some(x)
    requires var a, b := s.attempts[x], s'.attempts[x];
      && b.account.used == a.account.used.(reserved := a.account.used.reserved + r)
      && b.rights == a.rights - 1 && B.Total(b.account.used) <= o.tokens
      && s'.durable == if s.durable.Some? then Some(b.account.used) else None
    ensures Inv(l, o, s', tracked)
  {
    ExposureAdds(s.calls, s'.calls[|s.calls|], s.owner);
    hide Exposure;
  }

  lemma ReserveKeeps(l: Limit, o: B.Options, s: System, x: int, input: nat, late: bool, w: Write, tracked: bool)
    requires Inv(l, o, s, tracked) && x in s.attempts && s.attempts[x].rights > 0
    ensures Inv(l, o, Next(o, s, Reserve(x, input, late, w)), tracked)
  {
    ReserveEffect(o, s, x, input, late, w);
    var s' := Next(o, s, Reserve(x, input, late, w));
    hide Next;
    if s'.calls == s.calls {
      hide Exposure;
    } else {
      AdmittedKeeps(l, o, s, s', x, s'.calls[|s.calls|].reserved, tracked);
    }
  }

  lemma UseKeeps(l: Limit, o: B.Options, s: System, i: nat, usage: nat, tracked: bool)
    requires Inv(l, o, s, tracked) && Allowed(o, s, Use(i, usage))
    ensures Inv(l, o, Next(o, s, Use(i, usage)), tracked)
  {
    ExposureChanges(s.calls, i, s.calls[i].(usage := Some(usage)), s.owner);
    hide Exposure;
  }

  lemma FinishKeeps(l: Limit, o: B.Options, s: System, i: nat, known: bool, w: Write, tracked: bool)
    requires Inv(l, o, s, tracked) && Allowed(o, s, Finish(i, known, w))
    ensures Inv(l, o, Next(o, s, Finish(i, known, w)), tracked)
  {
    ExposureChanges(s.calls, i, s.calls[i].(phase := if known then Settled else Assumed), s.owner);
    hide Exposure;
  }

  lemma LoadKeeps(l: Limit, o: B.Options, s: System, x: int, tracked: bool)
    requires Inv(l, o, s, tracked) && s.durable.Some?
    ensures Inv(l, o, Next(o, s, Load(x)), tracked)
  {
    hide Exposure;
  }

  lemma SafePointKeeps(l: Limit, o: B.Options, s: System, x: int, w: Write, tracked: bool)
    requires Inv(l, o, s, tracked) && x in s.attempts
    ensures Inv(l, o, Next(o, s, SafePoint(x, w)), tracked)
  {
    hide Exposure;
  }

  lemma NextKeeps(l: Limit, o: B.Options, s: System, step: Step, tracked: bool)
    requires o == B.Normal(o) && Inv(l, o, s, tracked) && Allowed(o, s, step) && Sound(l, o, s, step, tracked)
    ensures Inv(l, o, Next(o, s, step), tracked)
  {
    hide Inv, Next, Sound;
    assert o.tokens > 0 && o.modelCalls > 0;
    match step
    case First(x) => StartKeeps(l, o, s, x, tracked);
    case Load(x) => LoadKeeps(l, o, s, x, tracked);
    case Own(x) => ClaimKeeps(l, o, s, x, tracked);
    case Lose => LoseKeeps(l, o, s, tracked);
    case Count(x, late, w) => CountKeeps(l, o, s, x, late, w, tracked);
    case Reserve(x, input, late, w) => ReserveKeeps(l, o, s, x, input, late, w, tracked);
    case Use(i, usage) => UseKeeps(l, o, s, i, usage, tracked);
    case Finish(i, known, w) => FinishKeeps(l, o, s, i, known, w, tracked);
    case SafePoint(x, w) => SafePointKeeps(l, o, s, x, w, tracked);
  }

  function Run(o: B.Options, s: System, steps: seq<Step>): System {
    if steps == [] then s else Next(o, Run(o, s, steps[..|steps| - 1]), steps[|steps| - 1])
  }

  ghost predicate Legal(o: B.Options, s: System, steps: seq<Step>) {
    forall i :: 0 <= i < |steps| ==> Allowed(o, Run(o, s, steps[..i]), steps[i])
  }

  ghost predicate ClaimsSound(l: Limit, o: B.Options, s: System, steps: seq<Step>, tracked: bool) {
    forall i :: 0 <= i < |steps| ==> Sound(l, o, Run(o, s, steps[..i]), steps[i], tracked)
  }

  lemma {:induction false} RunKeeps(l: Limit, o: B.Options, s: System, steps: seq<Step>, tracked: bool)
    requires o == B.Normal(o) && Inv(l, o, s, tracked) && Legal(o, s, steps) && ClaimsSound(l, o, s, steps, tracked)
    ensures Inv(l, o, Run(o, s, steps), tracked)
    decreases |steps|
  {
    if steps != [] {
      var front := steps[..|steps| - 1];
      assert forall i :: 0 <= i < |front| ==> front[..i] == steps[..i];
      hide Inv, Next, Allowed, Sound, B.Normal;
      RunKeeps(l, o, s, front, tracked);
      assert Allowed(o, Run(o, s, steps[..|front|]), steps[|front|]);
      assert Sound(l, o, Run(o, s, steps[..|front|]), steps[|front|], tracked);
      NextKeeps(l, o, Run(o, s, front), steps[|front|], tracked);
    }
  }

  lemma BootInv(l: Limit, o: B.Options, tracked: bool)
    requires o == B.Normal(o)
    ensures Inv(l, o, Boot, tracked)
  {
    assert Exposure([], None) == 0;
  }

  lemma InvKeeps(l: Limit, o: B.Options, s: System, tracked: bool)
    requires Inv(l, o, s, tracked)
    ensures Kept(l, o, s.calls)
  {
    SpentWithinExposure(s.calls, s.owner);
    hide Spent, Exposure;
  }

  /** Across any number of crashes, resumptions, stale attempts and failed or unanswered writes, the
      provider never uses more tokens than the limit nor answers more calls, if every claim was taken on
      the stored budget (`tracked`) or on one that still covered the calls. */
  lemma RunNeverOverspends(l: Limit, o: B.Options, steps: seq<Step>, tracked: bool)
    requires o == B.Normal(o) && Legal(o, Boot, steps) && ClaimsSound(l, o, Boot, steps, tracked)
    ensures Kept(l, o, Run(o, Boot, steps).calls)
  {
    BootInv(l, o, tracked);
    RunKeeps(l, o, Boot, steps, tracked);
    InvKeeps(l, o, Run(o, Boot, steps), tracked);
  }

  // ---- putting runs together ------------------------------------------------------------------

  /** A continuation in which nobody claims. */
  ghost predicate Claimless(steps: seq<Step>) {
    forall i :: 0 <= i < |steps| ==> !steps[i].Own?
  }

  lemma ClaimlessIsSound(l: Limit, o: B.Options, s: System, steps: seq<Step>)
    requires Claimless(steps)
    ensures ClaimsSound(l, o, s, steps, false)
  {
    hide Run;
  }

  lemma OneMore(o: B.Options, s: System, steps: seq<Step>, step: Step)
    requires Legal(o, s, steps) && Allowed(o, Run(o, s, steps), step)
    ensures Legal(o, s, steps + [step]) && Run(o, s, steps + [step]) == Next(o, Run(o, s, steps), step)
    ensures Claimless(steps) && !step.Own? ==> Claimless(steps + [step])
  {
    hide Allowed, Next;
    var more := steps + [step];
    assert more[..|steps|] == steps && forall i :: 0 <= i < |steps| ==> more[..i] == steps[..i];
  }

  lemma {:induction false} RunsCompose(o: B.Options, s: System, front: seq<Step>, back: seq<Step>)
    requires Legal(o, s, front) && Legal(o, Run(o, s, front), back)
    ensures Legal(o, s, front + back) && Run(o, s, front + back) == Run(o, Run(o, s, front), back)
    decreases |back|
  {
    hide Next, Allowed;
    if back == [] {
      assert front + back == front;
    } else {
      var n, mid := |back| - 1, Run(o, s, front);
      assert forall i :: 0 <= i <= n ==> back[..n][..i] == back[..i];
      assert Legal(o, mid, back[..n]);
      RunsCompose(o, s, front, back[..n]);
      assert Allowed(o, Run(o, mid, back[..n]), back[n]);
      OneMore(o, s, front + back[..n], back[n]);
      assert front + back[..n] + [back[n]] == front + back;
    }
  }

  lemma TwoSteps(o: B.Options, s: System, a: Step, b: Step)
    requires Allowed(o, s, a) && Allowed(o, Next(o, s, a), b)
    ensures Legal(o, s, [a, b]) && Run(o, s, [a, b]) == Next(o, Next(o, s, a), b)
    ensures !a.Own? && !b.Own? ==> Claimless([a, b])
  {
    hide Next, Allowed;
    assert Run(o, s, []) == s;
    hide Run;
    OneMore(o, s, [], a);
    OneMore(o, s, [a], b);
    assert [] + [a] == [a] && [a] + [b] == [a, b];
  }

  lemma ThreeSteps(o: B.Options, s: System, a: Step, b: Step, c: Step)
    requires Allowed(o, s, a) && Allowed(o, Next(o, s, a), b) && Allowed(o, Next(o, Next(o, s, a), b), c)
    ensures Legal(o, s, [a, b, c]) && Run(o, s, [a, b, c]) == Next(o, Next(o, Next(o, s, a), b), c)
    ensures !a.Own? && !b.Own? && !c.Own? ==> Claimless([a, b, c])
  {
    hide Next, Allowed, Run, Legal;
    TwoSteps(o, s, a, b);
    OneMore(o, s, [a, b], c);
    assert [a, b] + [c] == [a, b, c];
  }

  // ---- spending all that a budget leaves -------------------------------------------------------

  function Drain(c: Call): Call {
    if c.usage.None? then c.(usage := Some(c.reserved)) else c
  }

  /** The first n calls have used all they may. */
  function Drained(calls: seq<Call>, n: nat): (r: seq<Call>)
    ensures |r| == |calls| && forall i :: 0 <= i < |calls| ==> r[i] == if i < n then Drain(calls[i]) else calls[i]
  {
    seq(|calls|, i requires 0 <= i < |calls| => if i < n then Drain(calls[i]) else calls[i])
  }

  lemma {:induction false} DrainedSpends(calls: seq<Call>)
    ensures Spent(Drained(calls, |calls|)) == Exposure(calls, None)
    decreases |calls|
  {
    if calls != [] {
      var n := |calls| - 1;
      DrainedSpends(calls[..n]);
      assert Drained(calls, |calls|)[..n] == Drained(calls[..n], n);
    }
  }

  lemma DrainStep(o: B.Options, s: System, n: nat)
    requires Honest(s.calls) && n < |s.calls|
    ensures var t := s.(calls := Drained(s.calls, n));
      if s.calls[n].usage.None?
      then Allowed(o, t, Use(n, s.calls[n].reserved))
           && Next(o, t, Use(n, s.calls[n].reserved)) == s.(calls := Drained(s.calls, n + 1))
      else Drained(s.calls, n + 1) == Drained(s.calls, n)
  {
    var c := s.calls[n];
    assert Drained(s.calls, n + 1) == Drained(s.calls, n)[n := Drain(c)];
  }

  lemma {:induction false} DrainFirst(o: B.Options, s: System, n: nat) returns (steps: seq<Step>)
    requires Honest(s.calls) && n <= |s.calls|
    ensures Legal(o, s, steps) && Claimless(steps) && Run(o, s, steps) == s.(calls := Drained(s.calls, n))
    decreases n
  {
    if n == 0 {
      steps := [];
      assert Drained(s.calls, 0) == s.calls;
    } else {
      steps := DrainFirst(o, s, n - 1);
      DrainStep(o, s, n - 1);
      hide Allowed, Next, Legal, Claimless, Run, Honest, Drained;
      if s.calls[n - 1].usage.None? {
        var use := Use(n - 1, s.calls[n - 1].reserved);
        OneMore(o, s, steps, use);
        steps := steps + [use];
      }
    }
  }

  /** The owner can still make calls and has none under way. */
  predicate Ready(o: B.Options, s: System, x: int) {
    && x in s.attempts && s.owner == Some(x) && !s.attempts[x].account.failed && s.attempts[x].rights == 0
    && s.attempts[x].account.used.reserved == 0 && s.attempts[x].account.used.tokens < o.tokens
  }

  lemma CountOnce(o: B.Options, s: System, x: int)
    requires Ready(o, s, x) && s.attempts[x].account.used.modelCalls < o.modelCalls
    ensures var s1, used := Next(o, s, Count(x, false, Written)), s.attempts[x].account.used;
      && s1.calls == s.calls && s1.owner == s.owner
      && s1.attempts == s.attempts[x := Attempt(B.Account(used.(modelCalls := used.modelCalls + 1), false), 1)]
  {
  }

  lemma ReserveOnce(o: B.Options, s: System, x: int, input: nat, output: nat)
    requires x in s.attempts && s.owner == Some(x) && !s.attempts[x].account.failed && s.attempts[x].rights == 1
    requires s.attempts[x].account.used.reserved == 0
    requires 0 < output == B.OutputLimit(o, s.attempts[x].account, input, false)
    ensures var s1, used := Next(o, s, Reserve(x, input, false, Written)), s.attempts[x].account.used;
      && s1.calls == s.calls + [Call(x, input + output, None, InFlight)] && s1.owner == s.owner
      && s1.attempts == s.attempts[x := Attempt(B.Account(used.(reserved := input + output), false), 0)]
  {
  }

  lemma SpentAdds(calls: seq<Call>, c: Call)
    requires c.usage.Some?
    ensures Spent(calls + [c]) == Spent(calls) + c.usage.value
  {
    assert (calls + [c])[..|calls|] == calls;
  }

  /** The owner reserves and uses everything its budget leaves. */
  lemma LastCall(o: B.Options, s: System, x: int) returns (steps: seq<Step>)
    requires o == B.Normal(o) && Ready(o, s, x) && s.attempts[x].account.used.modelCalls < o.modelCalls
    ensures Legal(o, s, steps) && Claimless(steps)
    ensures Spent(Run(o, s, steps).calls) == Spent(s.calls) + o.tokens - s.attempts[x].account.used.tokens
  {
    var rest := o.tokens - s.attempts[x].account.used.tokens;
    var count, reserve, use := Count(x, false, Written), Reserve(x, rest - 1, false, Written), Use(|s.calls|, rest);
    CountOnce(o, s, x);
    var s1 := Next(o, s, count);
    assert B.OutputLimit(o, s1.attempts[x].account, rest - 1, false) == 1;
    ReserveOnce(o, s1, x, rest - 1, 1);
    var s2 := Next(o, s1, reserve);
    assert Next(o, s2, use).calls == s.calls + [Call(x, rest, Some(rest), InFlight)] by {
      hide B.Consume, B.Reserve, B.Normal;
    }
    hide B.Normal, Next, Spent;
    SpentAdds(s.calls, Call(x, rest, Some(rest), InFlight));
    ThreeSteps(o, s, count, reserve, use);
    steps := [count, reserve, use];
    hide Run, Legal, Claimless;
  }

  lemma FinishOnce(o: B.Options, s: System, x: int, calls: seq<Call>, r: nat)
    requires x in s.attempts && s.owner == Some(x) && !s.attempts[x].account.failed
    requires s.attempts[x].account.used.reserved == r && s.calls == calls + [Call(x, r, None, InFlight)]
    ensures var use, finish := Use(|calls|, 0), Finish(|calls|, true, Written);
      && Allowed(o, s, use) && Allowed(o, Next(o, s, use), finish)
      && var s2, a := Next(o, Next(o, s, use), finish), s.attempts[x];
      && s2.owner == s.owner && |s2.calls| == |calls| + 1
      && s2.attempts == s.attempts[x := a.(account := B.Account(a.account.used.(reserved := 0), false))]
  {
    hide B.Consume, B.Reserve;
  }

  /** The owner makes a call that turns out to cost nothing. */
  lemma FreeCall(o: B.Options, s: System, x: int) returns (steps: seq<Step>)
    requires o == B.Normal(o) && Ready(o, s, x) && s.attempts[x].account.used.modelCalls < o.modelCalls
    ensures Legal(o, s, steps) && Claimless(steps)
    ensures var t, used := Run(o, s, steps), s.attempts[x].account.used;
      && Ready(o, t, x) && |t.calls| == |s.calls| + 1
      && t.attempts[x].account.used.modelCalls == used.modelCalls + 1
  {
    var count, reserve := Count(x, false, Written), Reserve(x, 0, false, Written);
    CountOnce(o, s, x);
    var s1 := Next(o, s, count);
    var output := B.OutputLimit(o, s1.attempts[x].account, 0, false);
    ReserveOnce(o, s1, x, 0, output);
    var s2 := Next(o, s1, reserve);
    FinishOnce(o, s2, x, s.calls, output);
    hide B.Normal, B.OutputLimit, Next;
    var use, finish := Use(|s.calls|, 0), Finish(|s.calls|, true, Written);
    assert Allowed(o, s, count) && Allowed(o, s1, reserve);
    hide Allowed;
    ThreeSteps(o, s, count, reserve, use);
    OneMore(o, s, [count, reserve, use], finish);
    steps := [count, reserve, use] + [finish];
    hide Run, Legal, Claimless;
  }

  lemma ClaimlessJoin(front: seq<Step>, back: seq<Step>)
    requires Claimless(front) && Claimless(back)
    ensures Claimless(front + back)
  {
  }

  /** The owner makes all the calls its budget counts as left. */
  lemma {:induction false} AllCalls(o: B.Options, s: System, x: int) returns (steps: seq<Step>)
    requires o == B.Normal(o) && Ready(o, s, x) && s.attempts[x].account.used.modelCalls <= o.modelCalls
    ensures Legal(o, s, steps) && Claimless(steps)
    ensures |Run(o, s, steps).calls| == |s.calls| + o.modelCalls - s.attempts[x].account.used.modelCalls
    decreases o.modelCalls - s.attempts[x].account.used.modelCalls
  {
    if s.attempts[x].account.used.modelCalls == o.modelCalls {
      steps := [];
    } else {
      var one := FreeCall(o, s, x);
      hide Legal, Run;
      var more := AllCalls(o, Run(o, s, one), x);
      RunsCompose(o, s, one, more);
      ClaimlessJoin(one, more);
      steps := one + more;
    }
  }

  // ---- claims taken on an outdated budget -------------------------------------------------------

  lemma ClaimIsReady(o: B.Options, s: System, x: int)
    requires Allowed(o, s, Own(x)) && s.loaded[x].reserved == 0 && B.Open(o, B.Account(s.loaded[x], false), false)
    ensures var owned := Next(o, s, Own(x));
      Ready(o, owned, x) && owned.calls == s.calls && owned.attempts[x].account.used == s.loaded[x]
  {
    hide B.Consume, B.Reserve, B.Settle;
  }

  /** After a claim on a budget that is not current the limit is passed in some continuation. */
  lemma Overspend(l: Limit, o: B.Options, s: System, x: int) returns (steps: seq<Step>)
    requires o == B.Normal(o) && Honest(s.calls) && (forall x :: x in s.loaded ==> s.loaded[x].reserved == 0)
    requires Allowed(o, s, Own(x)) && !Current(l, o, s, Own(x))
    requires l.ModelCalls? ==> |s.calls| <= o.modelCalls
    ensures Legal(o, Next(o, s, Own(x)), steps) && Claimless(steps)
    ensures !Kept(l, o, Run(o, Next(o, s, Own(x)), steps).calls)
  {
    ClaimIsReady(o, s, x);
    var owned := Next(o, s, Own(x));
    hide B.Normal, Next, Allowed, B.Open;
    match l
    case Tokens =>
      var drain := DrainFirst(o, owned, |s.calls|);
      var drained := Run(o, owned, drain);
      DrainedSpends(s.calls);
      hide Run, Exposure;
      var last := LastCall(o, drained, x);
      RunsCompose(o, owned, drain, last);
      ClaimlessJoin(drain, last);
      steps := drain + last;
    case ModelCalls =>
      steps := AllCalls(o, owned, x);
  }

  /** The exact condition. The handler reads the budget before it claims the app. Whatever happened
      before, a limit is kept in every continuation of a claim, later claims being current, if and
      only if the budget read was still current when the claim was taken. */
  lemma StaleBudgetOverspends(l: Limit, o: B.Options, before: seq<Step>, x: int)
    requires o == B.Normal(o) && Legal(o, Boot, before) && ClaimsSound(l, o, Boot, before, false)
    requires Allowed(o, Run(o, Boot, before), Own(x))
    ensures var s := Run(o, Boot, before);
      Current(l, o, s, Own(x)) <==>
      (forall after :: Legal(o, Next(o, s, Own(x)), after) && ClaimsSound(l, o, Next(o, s, Own(x)), after, false) ==>
         Kept(l, o, Run(o, Next(o, s, Own(x)), after).calls))
  {
    var s := Run(o, Boot, before);
    var owned := Next(o, s, Own(x));
    BootInv(l, o, false);
    RunKeeps(l, o, Boot, before, false);
    if Current(l, o, s, Own(x)) {
      ClaimKeeps(l, o, s, x, false);
      hide *;
      forall after | Legal(o, owned, after) && ClaimsSound(l, o, owned, after, false)
        ensures Kept(l, o, Run(o, owned, after).calls)
      {
        RunKeeps(l, o, owned, after, false);
        InvKeeps(l, o, Run(o, owned, after), false);
      }
    } else {
      hide B.Normal, Current, Next, Allowed, Run, Legal, Exposure, Kept, ClaimsSound;
      var after := Overspend(l, o, s, x);
      ClaimlessIsSound(l, o, owned, after);
    }
  }

  // ---- the losing order ---------------------------------------------------------------------------

  function Checkpointed(x: int): System {
    FirstAttempt(x).(durable := Some(Zero))
  }

  function EarlyRead(): System {
    Checkpointed(1).(loaded := map[2 := Zero])
  }

  function Counted(): System {
    EarlyRead().(attempts := map[1 := Attempt(B.Account(Zero.(modelCalls := 1), false), 1)],
                 durable := Some(Zero.(modelCalls := 1)))
  }

  lemma EarlyStart(o: B.Options)
    ensures Next(o, Boot, First(1)) == FirstAttempt(1) && Allowed(o, Boot, First(1))
  {
    hide B.Consume, B.Reserve, B.Settle;
  }

  lemma EarlySave(o: B.Options)
    ensures Next(o, FirstAttempt(1), SafePoint(1, Written)) == Checkpointed(1)
    ensures Allowed(o, FirstAttempt(1), SafePoint(1, Written))
  {
    hide B.Consume, B.Reserve, B.Settle;
  }

  lemma EarlyLoad(o: B.Options)
    ensures Next(o, Checkpointed(1), Load(2)) == EarlyRead() && Allowed(o, Checkpointed(1), Load(2))
  {
    assert Checkpointed(1).loaded[2 := B.Charged(Zero)] == map[2 := Zero];
    hide B.Consume, B.Reserve, B.Settle;
  }

  lemma ReachEarlyRead(o: B.Options) returns (steps: seq<Step>)
    ensures Legal(o, Boot, steps) && Claimless(steps) && Run(o, Boot, steps) == EarlyRead()
  {
    EarlyStart(o);
    EarlySave(o);
    EarlyLoad(o);
    ThreeSteps(o, Boot, First(1), SafePoint(1, Written), Load(2));
    steps := [First(1), SafePoint(1, Written), Load(2)];
    hide *;
  }

  lemma LateCount(o: B.Options)
    requires o.tokens > 0 && o.modelCalls > 0
    ensures Next(o, EarlyRead(), Count(1, false, Written)) == Counted()
    ensures Allowed(o, EarlyRead(), Count(1, false, Written))
  {
    CountOnce(o, EarlyRead(), 1);
    assert Next(o, EarlyRead(), Count(1, false, Written)).durable == Some(Zero.(modelCalls := 1));
  }

  lemma LateReservation(o: B.Options)
    requires o.outputTokens > 0 && o.tokens > 0
    ensures Allowed(o, Counted(), Reserve(1, 0, false, Written))
    ensures var s := Next(o, Next(o, Counted(), Reserve(1, 0, false, Written)), Lose);
      && s.loaded == map[2 := Zero] && s.owner.None? && 2 !in s.attempts
      && |s.calls| == 1 && s.calls[0].reserved > 0 && s.calls[0].usage.None? && s.calls[0].phase.InFlight?
  {
    var output := if o.outputTokens > o.tokens then o.tokens else o.outputTokens;
    assert B.Reserve(o, Counted().attempts[1].account, 0, false, true).1 == output;
  }

  lemma OneCallExposed(l: Limit, o: B.Options, s: System)
    requires o.tokens > 0 && o.modelCalls > 0
    requires |s.calls| == 1 && s.calls[0].usage.None? && s.calls[0].reserved > 0 && s.calls[0].phase.InFlight?
    requires s.loaded == map[2 := Zero] && 2 !in s.attempts && s.owner.None?
    ensures Allowed(o, s, Own(2)) && !Current(l, o, s, Own(2)) && Honest(s.calls)
  {
    assert s.calls[..0] == [] && Exposure(s.calls, None) == s.calls[0].reserved;
  }

  /** The budget is read while the previous attempt still owns the app, which then reserves a call and
      loses its lease. */
  lemma StaleBudgetIsReachable(l: Limit, o: B.Options) returns (steps: seq<Step>)
    requires o == B.Normal(o)
    ensures Legal(o, Boot, steps) && Claimless(steps)
    ensures var s := Run(o, Boot, steps);
      && Allowed(o, s, Own(2)) && !Current(l, o, s, Own(2))
      && Honest(s.calls) && s.loaded == map[2 := Zero] && |s.calls| == 1
  {
    assert o.outputTokens > 0 && o.tokens > 0 && o.modelCalls > 0;
    steps := ReachEarlyRead(o);
    LateCount(o);
    LateReservation(o);
    var count, reserve := Count(1, false, Written), Reserve(1, 0, false, Written);
    assert Allowed(o, Next(o, Counted(), reserve), Lose);
    hide Next, B.Normal, Run, Allowed, Legal, Current, Honest, FirstAttempt, Counted, EarlyRead;
    ThreeSteps(o, EarlyRead(), count, reserve, Lose);
    RunsCompose(o, Boot, steps, [count, reserve, Lose]);
    steps := steps + [count, reserve, Lose];
    OneCallExposed(l, o, Run(o, Boot, steps));
  }

  /** Both limits can be passed: from the start there is a run of the system that does it. */
  lemma LimitsCanBePassed(l: Limit, o: B.Options) returns (steps: seq<Step>)
    requires o == B.Normal(o)
    ensures Legal(o, Boot, steps) && !Kept(l, o, Run(o, Boot, steps).calls)
  {
    assert o.modelCalls > 0;
    steps := StaleBudgetIsReachable(l, o);
    hide B.Normal, Next, Run, Allowed, Legal, Current, Kept, Honest, Claimless;
    var last := Overspend(l, o, Run(o, Boot, steps), 2);
    OneMore(o, Boot, steps, Own(2));
    RunsCompose(o, Boot, steps + [Own(2)], last);
    steps := steps + [Own(2)] + last;
  }
}
