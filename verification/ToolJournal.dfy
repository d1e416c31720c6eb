/** The tool journal: a mutation is claimed before it runs and its outcome recorded after, so that a
    replayed call never repeats the side effect. */
module ToolJournal {
  import opened TaskTypes

  type Key = (string, string)
  datatype ToolCall = ToolCall(execution: string, call: string, tool: string, arguments: string)
  datatype RowStatus = Running | Succeeded | Uncertain
  datatype Row = Row(tool: string, arguments: string, status: RowStatus, result: string)
  type Rows = map<Key, Row>

  datatype Begun = Claimed | Recorded(row: Row) | Conflict | Invalid

  function KeyOf(c: ToolCall): Key { (c.execution, c.call) }

  predicate Identified(c: ToolCall) {
    c.execution != "" && c.call != "" && c.tool != "" && c.arguments != ""
  }

  predicate SameCall(r: Row, c: ToolCall) { r.tool == c.tool && r.arguments == c.arguments }

  /** Inserting the row claims the call; a row that is there answers for it. */
  function Begin(rows: Rows, c: ToolCall): (Rows, Begun) {
    if !Identified(c) then (rows, Invalid)
    else if KeyOf(c) !in rows then (rows[KeyOf(c) := Row(c.tool, c.arguments, RowStatus.Running, "")], Claimed)
    else if !SameCall(rows[KeyOf(c)], c) then (rows, Conflict)
    else (rows, Recorded(rows[KeyOf(c)]))
  }

  /** Only a running record of the same call is settled. */
  function Finish(rows: Rows, c: ToolCall, status: RowStatus, result: string): (Rows, bool) {
    if KeyOf(c) in rows && SameCall(rows[KeyOf(c)], c) && rows[KeyOf(c)].status.Running?
    then (rows[KeyOf(c) := rows[KeyOf(c)].(status := status, result := result)], true) else (rows, false)
  }

  // ---- the journal object ---------------------------------------------------------------------

  class Journal {
    var rows: Rows

    constructor ()
      ensures rows == map[]
    {
      rows := map[];
    }

    method BeginTool(c: ToolCall) returns (b: Begun)
      modifies this
      ensures (rows, b) == Begin(old(rows), c)
    {
      if c.execution == "" || c.call == "" || c.tool == "" || c.arguments == "" { return Invalid; }
      if KeyOf(c) !in rows {
        rows := rows[KeyOf(c) := Row(c.tool, c.arguments, RowStatus.Running, "")];
        return Claimed;
      }
      var row := rows[KeyOf(c)];
      if row.tool != c.tool || row.arguments != c.arguments { return Conflict; }
      return Recorded(row);
    }

    method FinishTool(c: ToolCall, status: RowStatus, result: string) returns (ok: bool)
      modifies this
      ensures (rows, ok) == Finish(old(rows), c, status, result)
    {
      var affected := 0;
      if KeyOf(c) in rows {
        var row := rows[KeyOf(c)];
        if row.tool == c.tool && row.arguments == c.arguments && row.status == RowStatus.Running {
          rows := rows[KeyOf(c) := row.(status := status, result := result)];
          affected := 1;
        }
      }
      return affected == 1;
    }

    /** One journaled call that is not interrupted. `body` is what the mutation would return (None for
        an error), `persist` how recording its outcome goes; `ran` tells whether it was run, `reply` is the
        successful answer. It does to the system below what the steps of one caller do. */
    method Mutate(c: ToolCall, body: Option<string>, persist: Persist, ghost s: System, ghost w: int)
      returns (reply: Option<string>, ran: bool)
      requires s.rows == rows && w !in s.workers
      modifies this
      ensures ran <==> Begin(old(rows), c).1.Claimed?
      ensures !ran ==> rows == old(rows)
      ensures ran ==> rows == old(rows)[KeyOf(c) :=
                if persist.Lost? then Row(c.tool, c.arguments, RowStatus.Running, "")
                else if body.Some? then Row(c.tool, c.arguments, Succeeded, body.value)
                else Row(c.tool, c.arguments, Uncertain, "")]
      ensures reply == if ran then (if persist.Stored? then body else None) else
        match Begin(old(rows), c).1
        case Recorded(row) => if row.status.Succeeded? then Some(row.result) else None
        case _ => None
      ensures var called := Next(s, Call(w, c));
        var s' := if ran then Next(Next(called, Body(w, body)), Settle(w, persist)) else called;
        rows == s'.rows && s'.answers == s.answers + if reply.Some? then [Answer(c, reply.value)] else []
    {
      var b := BeginTool(c);
      match b {
        case Recorded(row) => return if row.status.Succeeded? then Some(row.result) else None, false;
        case Conflict => return None, false;
        case Invalid => return None, false;
        case Claimed =>
          var status, result := Succeeded, "";
          if body.Some? {
            result := body.value;
          } else {
            status := Uncertain;
          }
          var ok := false;
          if !persist.Lost? {
            ok := FinishTool(c, status, result);
          }
          if !ok || persist.Unanswered? { return None, true; }
          return body, true;
      }
    }
  }

  // ---- every run of replayed, crashing callers --------------------------------------------------

  datatype Phase = Holding | Ran(outcome: Option<string>)
  datatype Worker = Worker(call: ToolCall, phase: Phase)
  datatype Effect = Effect(key: Key, outcome: Option<string>)
  datatype Answer = Answer(call: ToolCall, result: string)

  /** `effects` lists the mutations that were run, `answers` the successes reported. */
  datatype System = System(rows: Rows, workers: map<int, Worker>, effects: seq<Effect>, answers: seq<Answer>)

  /** How recording an outcome went: done, lost, or done without an answer. */
  datatype Persist = Stored | Lost | Unanswered

  datatype Step =
    | Call(w: int, call: ToolCall)
    | Body(w: int, outcome: Option<string>)
    | Settle(w: int, persist: Persist)
    | Crash(w: int)

  predicate Allowed(s: System, step: Step) {
    match step
    case Call(w, _) => w !in s.workers
    case Body(w, _) => w in s.workers && s.workers[w].phase.Holding?
    case Settle(w, _) => w in s.workers && s.workers[w].phase.Ran?
    case Crash(w) => true
  }

  function Next(s: System, step: Step): System {
    match step
    case Call(w, c) =>
      var (rows, b) := Begin(s.rows, c);
      if b.Claimed? then s.(rows := rows, workers := s.workers[w := Worker(c, Holding)])
      else if b.Recorded? && b.row.status.Succeeded? then s.(answers := s.answers + [Answer(c, b.row.result)])
      else s
    case Body(w, outcome) =>
      if w !in s.workers then s
      else s.(workers := s.workers[w := s.workers[w].(phase := Ran(outcome))],
          effects := s.effects + [Effect(KeyOf(s.workers[w].call), outcome)])
    case Settle(w, persist) =>
      if w !in s.workers || !s.workers[w].phase.Ran? then s else
        var c, outcome := s.workers[w].call, s.workers[w].phase.outcome;
        var (rows, ok) := Finish(s.rows, c, if outcome.Some? then Succeeded else Uncertain,
            if outcome.Some? then outcome.value else "");
        var left := s.(workers := s.workers - {w});
        if persist.Lost? then left
        else if ok && persist.Stored? && outcome.Some?
        then left.(rows := rows, answers := s.answers + [Answer(c, outcome.value)])
        else left.(rows := rows)
    case Crash(w) => s.(workers := s.workers - {w})
  }

  function Effects(es: seq<Effect>, key: Key): nat {
    if es == [] then 0 else Effects(es[..|es| - 1], key) + if es[|es| - 1].key == key then 1 else 0
  }

  /** A worker owns its call's running record, before or after the one effect. */
  ghost predicate Owns(s: System, w: int)
    requires w in s.workers
  {
    var c := s.workers[w].call;
    && KeyOf(c) in s.rows && s.rows[KeyOf(c)].status.Running? && SameCall(s.rows[KeyOf(c)], c)
    && Effects(s.effects, KeyOf(c)) == (if s.workers[w].phase.Holding? then 0 else 1)
    && (s.workers[w].phase.Ran? ==> Effect(KeyOf(c), s.workers[w].phase.outcome) in s.effects)
  }

  ghost predicate Inv(s: System) {
    && (forall key :: Effects(s.effects, key) <= 1 && (Effects(s.effects, key) > 0 ==> key in s.rows))
    && (forall key :: key in s.rows && s.rows[key].status.Succeeded? ==>
         Effect(key, Some(s.rows[key].result)) in s.effects)
    && (forall w :: w in s.workers ==> Owns(s, w))
    && (forall v, w :: v in s.workers && w in s.workers && KeyOf(s.workers[v].call) == KeyOf(s.workers[w].call) ==>
         v == w)
    && (forall i :: 0 <= i < |s.answers| ==>
          KeyOf(s.answers[i].call) in s.rows && SameCall(s.rows[KeyOf(s.answers[i].call)], s.answers[i].call)
          && Effect(KeyOf(s.answers[i].call), Some(s.answers[i].result)) in s.effects)
  }

  lemma EffectsAdds(es: seq<Effect>, e: Effect, key: Key)
    ensures Effects(es + [e], key) == Effects(es, key) + if e.key == key then 1 else 0
  {
    assert (es + [e])[..|es|] == es;
  }

  lemma CallKeeps(s: System, w: int, c: ToolCall)
    requires Inv(s) && w !in s.workers
    ensures Inv(Next(s, Call(w, c)))
  {
    hide Effects;
    var s' := Next(s, Call(w, c));
    if Begin(s.rows, c).1.Claimed? {
      assert Effects(s.effects, KeyOf(c)) == 0;
      forall v | v in s'.workers ensures Owns(s', v) { if v != w { assert Owns(s, v); } }
    } else {
      forall v | v in s'.workers ensures Owns(s', v) { assert Owns(s, v); }
    }
  }

  lemma BodyKeeps(s: System, w: int, outcome: Option<string>)
    requires Inv(s) && Allowed(s, Body(w, outcome))
    ensures Inv(Next(s, Body(w, outcome)))
  {
    var s' := Next(s, Body(w, outcome));
    var e := Effect(KeyOf(s.workers[w].call), outcome);
    assert Owns(s, w);
    forall key ensures Effects(s'.effects, key) == Effects(s.effects, key) + if e.key == key then 1 else 0 {
      EffectsAdds(s.effects, e, key);
    }
    hide Effects;
    assert forall f :: f in s.effects ==> f in s'.effects;
    forall v | v in s'.workers ensures Owns(s', v) { assert Owns(s, v); }
  }

  lemma SettleKeeps(s: System, w: int, persist: Persist)
    requires Inv(s) && Allowed(s, Settle(w, persist))
    ensures Inv(Next(s, Settle(w, persist)))
  {
    hide Effects;
    var s' := Next(s, Settle(w, persist));
    assert Owns(s, w);
    forall v | v in s'.workers ensures Owns(s', v) { assert Owns(s, v); }
  }

  lemma NextKeeps(s: System, step: Step)
    requires Inv(s) && Allowed(s, step)
    ensures Inv(Next(s, step))
  {
    match step
    case Call(w, c) => hide Inv, Next; CallKeeps(s, w, c);
    case Body(w, outcome) => hide Inv, Next; BodyKeeps(s, w, outcome);
    case Settle(w, persist) => hide Inv, Next; SettleKeeps(s, w, persist);
    case Crash(w) =>
      hide Effects;
      var s' := Next(s, step);
      forall v | v in s'.workers ensures Owns(s', v) { assert Owns(s, v); }
  }

  const Boot := System(map[], map[], [], [])

  function Reached(steps: seq<Step>): System {
    if steps == [] then Boot else Next(Reached(steps[..|steps| - 1]), steps[|steps| - 1])
  }

  ghost predicate Legal(steps: seq<Step>) {
    forall i :: 0 <= i < |steps| ==> Allowed(Reached(steps[..i]), steps[i])
  }

  lemma {:induction false} ReachedInv(steps: seq<Step>)
    requires Legal(steps)
    ensures Inv(Reached(steps))
    decreases |steps|
  {
    if steps == [] {
      assert forall key :: Effects([], key) == 0;
    } else {
      var front := steps[..|steps| - 1];
      assert forall i :: 0 <= i < |front| ==> front[..i] == steps[..i];
      hide Inv, Next, Allowed;
      ReachedInv(front);
      assert Allowed(Reached(steps[..|front|]), steps[|front|]);
      NextKeeps(Reached(front), steps[|front|]);
    }
  }

  /** However often a call is replayed and whoever crashes, its mutation runs at most once, and a
      success is only ever reported with the result of that one run, to the same call. */
  lemma MutationsRunAtMostOnce(steps: seq<Step>, key: Key, i: nat)
    requires Legal(steps)
    ensures Effects(Reached(steps).effects, key) <= 1
    ensures var s := Reached(steps); i < |s.answers| ==>
      var a := s.answers[i];
      && Effect(KeyOf(a.call), Some(a.result)) in s.effects
      && KeyOf(a.call) in s.rows && SameCall(s.rows[KeyOf(a.call)], a.call)
  {
    ReachedInv(steps);
    hide Reached, Effects;
  }

  /** Reusing an identifier for another tool or other arguments is rejected without effect, and a
      record that left running never changes again. */
  lemma RecordsSettleOnce(s: System, step: Step, key: Key)
    requires Inv(s) && Allowed(s, step) && key in s.rows
    ensures var s' := Next(s, step);
      && key in s'.rows && s'.rows[key].tool == s.rows[key].tool && s'.rows[key].arguments == s.rows[key].arguments
      && (!s.rows[key].status.Running? ==> s'.rows[key] == s.rows[key])
    ensures step.Call? && KeyOf(step.call) == key && !SameCall(s.rows[key], step.call) ==> Next(s, step) == s
  {
    hide Effects;
  }

  // ---- calls are answered -----------------------------------------------------------------------------

  /** A call that was never made runs: undisturbed, it takes effect once, is recorded with its outcome, and a
      success is answered. */
  lemma FreshCallRuns(s: System, w: int, c: ToolCall, outcome: Option<string>)
    requires w !in s.workers && KeyOf(c) !in s.rows
    requires c.execution != "" && c.call != "" && c.tool != "" && c.arguments != ""
    ensures var s' := Next(Next(Next(s, Call(w, c)), Body(w, outcome)), Settle(w, Stored));
      && s'.effects == s.effects + [Effect(KeyOf(c), outcome)] && s'.workers == s.workers
      && s'.rows == s.rows[KeyOf(c) := if outcome.Some? then Row(c.tool, c.arguments, Succeeded, outcome.value)
                                        else Row(c.tool, c.arguments, Uncertain, "")]
      && s'.answers == s.answers + if outcome.Some? then [Answer(c, outcome.value)] else []
  {
    assert (s.workers[w := Worker(c, Ran(outcome))] - {w}) == s.workers;
  }

  /** A call that was made before takes no effect. If its success is recorded, the recorded result is the
      answer; if it failed, is still running, or was made with other arguments, there is none. */
  lemma RepeatedCallIsAnswered(s: System, w: int, c: ToolCall)
    requires KeyOf(c) in s.rows
    ensures var row, s' := s.rows[KeyOf(c)], Next(s, Call(w, c));
      && s'.effects == s.effects && s'.rows == s.rows && s'.workers == s.workers
      && s'.answers == s.answers
           + if Identified(c) && row.tool == c.tool && row.arguments == c.arguments && row.status.Succeeded?
             then [Answer(c, row.result)] else []
  {
  }

  ghost function From(s: System, steps: seq<Step>): System {
    if steps == [] then s else Next(From(s, steps[..|steps| - 1]), steps[|steps| - 1])
  }

  ghost predicate LegalFrom(s: System, steps: seq<Step>) {
    forall i :: 0 <= i < |steps| ==> Allowed(From(s, steps[..i]), steps[i])
  }

  /** A settled record is for good, over any further history, and so is the answer it gives. */
  lemma {:induction false} SettledForGood(s: System, steps: seq<Step>, key: Key)
    requires Inv(s) && LegalFrom(s, steps) && key in s.rows && !s.rows[key].status.Running?
    ensures Inv(From(s, steps)) && key in From(s, steps).rows && From(s, steps).rows[key] == s.rows[key]
    decreases |steps|
  {
    hide Inv, Next, Allowed;
    if steps != [] {
      var front := steps[..|steps| - 1];
      forall i | 0 <= i < |front| ensures Allowed(From(s, front[..i]), front[i]) { assert front[..i] == steps[..i]; }
      SettledForGood(s, front, key);
      RecordsSettleOnce(From(s, front), steps[|steps| - 1], key);
      NextKeeps(From(s, front), steps[|steps| - 1]);
    }
  }
}
