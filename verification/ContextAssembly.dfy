/** The manager that rewrites the history step by step, loop by loop, proved against the
    specification in ContextManager. */
module ContextAssembly {
  import opened TaskTypes
  import opened ContextManager

  lemma {:induction false} OldStateConcat(x: Option<Message>, h: History)
    ensures WithoutOldState([x] + h) == (if x.Some? && IsState(x.value) then [] else [x]) + WithoutOldState(h)
    decreases |h|
  {
    if h == [] {
      assert ([x] + h)[..0] == [];
    } else {
      OldStateConcat(x, h[..|h| - 1]);
      assert ([x] + h)[..|h|] == [x] + h[..|h| - 1];
    }
  }

  /** One step down: slot i is dropped, or joins the part already filtered. */
  lemma StateStep(full: History, i: nat, n: nat, last: Option<Message>)
    requires i < n <= |full|
    ensures var msgs, rest := full[..i + 1] + WithoutOldState(full[i + 1..n]) + [last],
        full[..i] + WithoutOldState(full[i..n]) + [last];
      && msgs[i] == full[i]
      && rest == if full[i].Some? && IsState(full[i].value) then msgs[..i] + msgs[i + 1..] else msgs
  {
    assert full[i..n] == [full[i]] + full[i + 1..n] && full[..i + 1] == full[..i] + [full[i]];
    OldStateConcat(full[i], full[i + 1..n]);
    hide WithoutOldState, IsState;
  }

  /** Drops old state blocks, walking down from the last but one. */
  method DropOldState(full: History) returns (msgs: History)
    ensures msgs == ReplaceState(full)
  {
    msgs := full;
    var i := |full| - 2;
    if full == [] { return; }
    ghost var n, last := |full| - 1, full[|full| - 1];
    assert full[..n] + [last] == full && full[n..n] == [];
    while i >= 0
      invariant -1 <= i <= n - 1
      invariant msgs == full[..i + 1] + WithoutOldState(full[i + 1..n]) + [last]
    {
      StateStep(full, i, n, last);
      hide WithoutOldState, IsState;
      if msgs[i].Some? && IsState(msgs[i].value) {
        msgs := msgs[..i] + msgs[i + 1..];
      }
      i := i - 1;
    }
    assert full[0..n] == full[..n];
  }

  method FindLastGroup(msgs: History) returns (g: nat)
    ensures g == LastGroup(msgs)
  {
    g := |msgs|;
    var i := |msgs| - 1;
    while i >= 0
      invariant -1 <= i < |msgs|
      invariant forall j :: i < j < |msgs| && msgs[j].Some? ==> msgs[j].value.calls == []
    {
      if msgs[i].Some? && |msgs[i].value.calls| > 0 { return i; }
      i := i - 1;
    }
  }

  method FindLastUser(msgs: History) returns (u: int)
    ensures u == LastUser(msgs)
  {
    u := -1;
    for i := 0 to |msgs|
      invariant -1 <= u < i && (u >= 0 ==> msgs[u].Some? && msgs[u].value.role.User?)
      invariant forall j :: u < j < i && msgs[j].Some? ==> !msgs[j].value.role.User?
    {
      if msgs[i].Some? && msgs[i].value.role == User {
        u := i;
      }
    }
  }

  function Lookup(calls: map<string, ToolCall>, id: string): ToolCall {
    if id in calls then calls[id] else NoCall()
  }

  /** The call under an identifier once n calls of a message were announced. */
  function Answer(before: History, calls: seq<ToolCall>, n: nat, id: string): ToolCall
    requires n <= |calls|
  {
    if exists j :: 0 <= j < n && calls[j].id == id then LastCall(calls[..n], id) else CallOf(before, id)
  }

  lemma AnswerAdds(before: History, calls: seq<ToolCall>, i: nat, id: string)
    requires i < |calls|
    ensures Answer(before, calls, i + 1, id) == if calls[i].id == id then calls[i] else Answer(before, calls, i, id)
  {
    assert calls[..i + 1][..i] == calls[..i];
  }

  lemma AnswerAll(before: History, m: Message, id: string)
    ensures CallOf(before + [Some(m)], id) == Answer(before, m.calls, |m.calls|, id)
  {
    assert m.calls[..|m.calls|] == m.calls && (before + [Some(m)])[..|before|] == before;
  }

  /** The map of calls seen so far answers like the specification's search. */
  method Announce(calls: map<string, ToolCall>, m: Message, ghost before: History) returns (more: map<string, ToolCall>)
    requires forall id :: Lookup(calls, id) == CallOf(before, id)
    ensures forall id :: Lookup(more, id) == CallOf(before + [Some(m)], id)
  {
    more := calls;
    for i := 0 to |m.calls|
      invariant forall id :: Lookup(more, id) == Answer(before, m.calls, i, id)
    {
      forall id
        ensures Answer(before, m.calls, i + 1, id) ==
                if m.calls[i].id == id then m.calls[i] else Answer(before, m.calls, i, id)
      {
        AnswerAdds(before, m.calls, i, id);
      }
      ghost var prior := more;
      hide Answer;
      more := more[m.calls[i].id := m.calls[i]];
      assert forall id :: Lookup(more, id) == if m.calls[i].id == id then m.calls[i] else Lookup(prior, id);
    }
    forall id ensures CallOf(before + [Some(m)], id) == Answer(before, m.calls, |m.calls|, id) {
      AnswerAll(before, m, id);
    }
  }

  /** Replaces old file reads before the latest tool group. */
  method ReduceReads(k: Codec, input: History, lastGroup: nat) returns (msgs: History)
    requires lastGroup == LastGroup(input)
    ensures msgs == Reduced(k, input)
  {
    msgs := input;
    var calls: map<string, ToolCall> := map[];
    for i := 0 to |input|
      invariant |msgs| == |input|
      invariant forall j :: 0 <= j < |input| ==> msgs[j] == if j < i then ReducedAt(k, input, j) else input[j]
      invariant forall id :: Lookup(calls, id) == CallOf(input[..i], id)
    {
      hide CallOf, LastGroup;
      assert input[..i + 1] == input[..i] + [input[i]];
      if msgs[i].None? {
        NilCalls(input[..i]);
        continue;
      }
      var msg := msgs[i].value;
      calls := Announce(calls, msg, input[..i]);
      var c := Lookup(calls, msg.callId);
      if i < lastGroup && msg.role == Tool && (c.name == "readFile" || c.name == "readDir")
          && k.bytes(msg.content) > 768 {
        msgs := msgs[i := Some(msg.(content := ReducedPrefix + k.reduced(c, msg)))];
      }
    }
  }

  lemma NilCalls(h: History)
    ensures forall id :: CallOf(h + [None], id) == CallOf(h, id)
  {
    assert (h + [None])[..|h|] == h;
  }

  function Turn(msgs: History): int -> bool {
    x => 0 <= x < |msgs| && OldTurn(msgs, x)
  }

  function Group(msgs: History): int -> bool {
    x => 0 <= x < |msgs| && OldGroup(msgs, x)
  }

  lemma {:induction false} TakenOrNot(k: Codec, msgs: History, n: nat)
    requires n <= |msgs|
    ensures TakenBy(k, msgs, n, Turn(msgs)) == [] <==> !exists j :: 0 <= j < n && OldTurn(msgs, j)
    decreases n
  {
    if n > 0 { TakenOrNot(k, msgs, n - 1); }
  }

  /** The complete older turns. */
  method SplitTurns(k: Codec, msgs: History, cut: nat) returns (kept: seq<Message>, materials: seq<Material>)
    requires cut == Cut(msgs)
    ensures kept == KeptBy(msgs, |msgs|, Turn(msgs)) && materials == TakenBy(k, msgs, |msgs|, Turn(msgs))
  {
    hide Cut;
    kept, materials := [], [];
    for i := 0 to |msgs|
      invariant kept == KeptBy(msgs, i, Turn(msgs)) && materials == TakenBy(k, msgs, i, Turn(msgs))
    {
      if msgs[i].None? { continue; }
      var msg := msgs[i].value;
      if i < cut && msg.role != System {
        materials := materials + [Material(k.messageDigest(msg), msg)];
      } else {
        kept := kept + [msg];
      }
    }
  }

  /** The completed older groups of one long request, whose user message stays. */
  method SplitGroups(k: Codec, msgs: History, lastGroup: nat, lastUser: int)
    returns (kept: seq<Message>, materials: seq<Material>)
    requires lastGroup == LastGroup(msgs) && lastUser == LastUser(msgs)
    ensures kept == KeptBy(msgs, |msgs|, Group(msgs)) && materials == TakenBy(k, msgs, |msgs|, Group(msgs))
  {
    hide LastGroup, LastUser;
    kept, materials := [], [];
    for i := 0 to |msgs|
      invariant kept == KeptBy(msgs, i, Group(msgs)) && materials == TakenBy(k, msgs, i, Group(msgs))
    {
      if msgs[i].None? { continue; }
      var msg := msgs[i].value;
      if i < lastGroup && i != lastUser && msg.role != System {
        materials := materials + [Material(k.messageDigest(msg), msg)];
      } else {
        kept := kept + [msg];
      }
    }
  }

  /** Splits off what is to be summarised: older turns, or older groups of one long request. */
  method Split(k: Codec, msgs: History) returns (kept: seq<Message>, materials: seq<Material>)
    ensures kept == Kept(msgs, |msgs|) && materials == Materials(k, msgs, |msgs|)
  {
    var lastGroup := FindLastGroup(msgs);
    var lastUser := FindLastUser(msgs);
    var cut := lastUser;
    if lastGroup < cut || cut < 0 {
      cut := lastGroup;
    }
    assert cut == Cut(msgs);
    hide KeptBy, TakenBy, Kept, Materials, Turn, Group, Cut, LastGroup, LastUser, OldTurn;
    TakenOrNot(k, msgs, |msgs|);
    kept, materials := SplitTurns(k, msgs, cut);
    if materials == [] && lastGroup < |msgs| {
      kept, materials := SplitGroups(k, msgs, lastGroup, lastUser);
      ByGroup(k, msgs, |msgs|);
    } else {
      ByTurn(k, msgs, |msgs|);
    }
  }

  function KeptBy(msgs: History, n: nat, taken: int -> bool): seq<Message>
    requires n <= |msgs|
  {
    if n == 0 then []
    else KeptBy(msgs, n - 1, taken) + if msgs[n - 1].Some? && !taken(n - 1) then [msgs[n - 1].value] else []
  }

  function TakenBy(k: Codec, msgs: History, n: nat, taken: int -> bool): seq<Material>
    requires n <= |msgs|
  {
    if n == 0 then []
    else
      var m := msgs[n - 1];
      TakenBy(k, msgs, n - 1, taken) + if m.Some? && taken(n - 1) then [Material(k.messageDigest(m.value), m.value)]
          else []
  }

  lemma {:induction false} ByTurn(k: Codec, msgs: History, n: nat)
    requires n <= |msgs| && ((exists j :: 0 <= j < |msgs| && OldTurn(msgs, j)) || LastGroup(msgs) == |msgs|)
    ensures Kept(msgs, n) == KeptBy(msgs, n, Turn(msgs))
    ensures Materials(k, msgs, n) == TakenBy(k, msgs, n, Turn(msgs))
    decreases n
  {
    if n > 0 { ByTurn(k, msgs, n - 1); }
  }

  lemma {:induction false} ByGroup(k: Codec, msgs: History, n: nat)
    requires n <= |msgs| && LastGroup(msgs) < |msgs| && !exists j :: 0 <= j < |msgs| && OldTurn(msgs, j)
    ensures Kept(msgs, n) == KeptBy(msgs, n, Group(msgs))
    ensures Materials(k, msgs, n) == TakenBy(k, msgs, n, Group(msgs))
    decreases n
  {
    if n > 0 { ByGroup(k, msgs, n - 1); }
  }

  method DropSummary(msgs: seq<Message>) returns (out: History)
    ensures out == WithoutSummary(msgs)
  {
    out := [];
    for i := 0 to |msgs|
      invariant out == WithoutSummary(msgs[..i])
    {
      assert msgs[..i + 1][..i] == msgs[..i];
      if !IsSummary(msgs[i]) {
        out := out + [Some(msgs[i])];
      }
    }
    assert msgs[..|msgs|] == msgs;
  }

  /** The sources a group of findings cites. */
  method Sources(group: seq<Finding>) returns (ids: set<string>)
    ensures forall id :: id in ids <==>
        exists i, j :: 0 <= i < |group| && 0 <= j < |group[i].sources| && group[i].sources[j] == id
  {
    ids := {};
    for i := 0 to |group|
      invariant forall id :: id in ids <==>
          exists x, j :: 0 <= x < i && 0 <= j < |group[x].sources| && group[x].sources[j] == id
    {
      for y := 0 to |group[i].sources|
        invariant forall id :: id in ids <==>
          ((exists x, j :: 0 <= x < i && 0 <= j < |group[x].sources| && group[x].sources[j] == id)
           || (exists j :: 0 <= j < y && group[i].sources[j] == id))
      {
        ids := ids + {group[i].sources[y]};
      }
    }
  }

  method Validate(k: Codec, s: Summary, r: Request) returns (ok: bool)
    ensures ok <==> Accepted(k, s, r)
  {
    if k.blank(s.goal) || k.blank(s.next) || k.summarySize(s) > 6000 { return false; }
    var ids := Sources(Groups(r.previous));
    var carried := ids;
    for i := 0 to |r.materials|
      invariant forall id :: id in ids <==> id in carried || exists j :: 0 <= j < i && r.materials[j].id == id
    {
      ids := ids + {r.materials[i].id};
    }
    assert forall id :: id in ids <==> Cited(r.previous, id) || Given(r, id);
    var groups := Groups(s);
    for i := 0 to |groups|
      invariant forall x :: 0 <= x < i ==> groups[x].text != "" && groups[x].sources != []
      invariant forall x, j :: 0 <= x < i && 0 <= j < |groups[x].sources| ==> groups[x].sources[j] in ids
    {
      if groups[i].text == "" || |groups[i].sources| == 0 { return false; }
      for y := 0 to |groups[i].sources|
        invariant forall j :: 0 <= j < y ==> groups[i].sources[j] in ids
      {
        if groups[i].sources[y] !in ids {
          assert Cited(s, groups[i].sources[y]);
          return false;
        }
      }
    }
    assert forall id :: Cited(s, id) ==> id in ids;
    for i := 0 to |r.previous.constraints|
      invariant forall x :: 0 <= x < i ==> r.previous.constraints[x] in s.constraints
    {
      var found := false;
      for j := 0 to |s.constraints|
        invariant found <==> exists x :: 0 <= x < j && s.constraints[x] == r.previous.constraints[i]
      {
        if s.constraints[j] == r.previous.constraints[i] {
          found := true;
        }
      }
      if !found {
        assert r.previous.constraints[i] !in s.constraints;
        return false;
      }
    }
    return true;
  }

  lemma NextVersion(k: Codec, s: State, w: World)
    ensures forall summary, msgs {:trigger NextSnapshot(k, s, summary, msgs)} ::
        NextSnapshot(k, s, summary, msgs).version == s.snapshot.version + 1
  {
  }

  /** One agent's manager. What it meets outside during a call comes as a World. */
  class Manager {
    const codec: Codec
    const options: Options
    const name: string
    const binding: Binding?
    var snapshot: Snapshot
    var restored: bool
    var failedAt: string

    constructor (codec: Codec, options: Options, name: string, binding: Binding?, empty: Snapshot)
      requires empty.version == 0
      ensures this.codec == codec && this.options == options && this.name == name && this.binding == binding
      ensures Value() == State(if binding != null && name in binding.summaries then binding.summaries[name] else empty,
          false, "")
    {
      this.codec, this.options, this.name, this.binding := codec, options, name, binding;
      snapshot, restored, failedAt := empty, false, "";
      if binding != null && name in binding.summaries {
        snapshot := binding.summaries[name];
      }
    }

    ghost function Value(): State
      reads this
    {
      State(snapshot, restored, failedAt)
    }

    method Inject(state: string, input: History) returns (msgs: History)
      ensures msgs == Injected(codec, snapshot, restored, state, input)
    {
      msgs := input;
      if !restored && snapshot.version > 0 {
        msgs := [Some(SummaryMessage(codec, snapshot))] + msgs;
      }
      if state != "" {
        msgs := msgs + [Some(StateMessage(state))];
      }
      msgs := DropOldState(msgs);
    }

    /** Asks for a summary and installs it if it is usable and could be saved. */
    method Compact(msgs: History, w: World) returns (r: Option<ContextManager.Result>)
      requires binding == null <==> w.commit.NoBinding?
      modifies this, if binding == null then {} else {binding}
      ensures r.Some? ==> (Value(), r.value) == Rewritten(codec, options, old(Value()), w, msgs)
      ensures r.None? ==>
        !(Asks(codec, options, old(Value()), w, msgs) && Usable(codec, options, old(Value()), w, msgs))
      ensures r.None? ==>
        (Value() == if Asks(codec, options, old(Value()), w, msgs)
                    then old(Value()).(failedAt := codec.requestDigest(RequestOf(codec, old(snapshot), msgs)))
                        else old(Value()))
      ensures r.Some? ==> w.answer.Some?
      ensures r.Some? && !w.commit.Suspended? && !w.commit.Broken? ==>
          snapshot == NextSnapshot(codec, old(Value()), w.answer.value, msgs)
      ensures binding != null ==>
        (binding.summaries == if r.Some? && !w.commit.Broken?
                              then old(binding.summaries)[name :=
                                  NextSnapshot(codec, old(Value()), w.answer.value, msgs)]
                              else old(binding.summaries))
    {
      var kept, materials := Split(codec, msgs);
      var request := Request(snapshot.summary, materials);
      var fingerprint := codec.requestDigest(request);
      assert request == RequestOf(codec, snapshot, msgs);
      hide Kept, Materials, Accepted, WithoutSummary, InputLimit;
      if codec.size(msgs) + w.toolTokens >= Soft(options) && |materials| > 0 && fingerprint != failedAt
          && w.summariser {
        if codec.requestSize(request) + 2048 < InputLimit(options) {
          assert Asks(codec, options, Value(), w, msgs);
          if w.answer.Some? {
            var ok := Validate(codec, w.answer.value, request);
            if ok {
              var next := Snapshot(snapshot.version + 1, w.answer.value, fingerprint);
              var candidate := DropSummary(kept);
              candidate := [Some(SummaryMessage(codec, next))] + candidate;
              assert candidate == Candidate(codec, next, msgs);
              if codec.size(candidate) + w.toolTokens < Hard(options) {
                if binding != null {
                  ok := binding.Commit(name, next, w.commit);
                  if !ok { return Some(CommitFailed); }
                }
                snapshot := next;
                restored := true;
                return Some(Assembled(candidate));
              }
            }
          }
          failedAt := fingerprint;
        }
      }
      return None;
    }

    /** The rewritten history, or the reason there is none. */
    method Assemble(input: History, w: World) returns (r: ContextManager.Result)
      requires binding == null <==> w.commit.NoBinding?
      modifies this, if binding == null then {} else {binding}
      ensures (Value(), r) == ContextManager.Assemble(codec, options, old(Value()), w, input)
      ensures binding != null && r.CommitFailed? && w.commit.Broken? ==> binding.summaries == old(binding.summaries)
      ensures binding != null && w.commit.Saved? ==>
        binding.summaries == if snapshot.version != old(snapshot).version then old(binding.summaries)[name := snapshot]
            else old(binding.summaries)
    {
      NextVersion(codec, Value(), w);
      hide Injected, Asks, Usable, Reduced, NextSnapshot, RequestOf, Candidate;
      var msgs := Inject(w.state, input);
      if codec.size(msgs) + w.toolTokens < Soft(options) {
        restored := true;
        return Assembled(msgs);
      }
      var lastGroup := FindLastGroup(msgs);
      msgs := ReduceReads(codec, msgs, lastGroup);
      var done := Compact(msgs, w);
      if done.Some? { return done.value; }
      if codec.size(msgs) + w.toolTokens < Hard(options) {
        restored := true;
        return Assembled(msgs);
      }
      if binding != null {
        r := binding.Block(w.commit, w.hooked);
        return;
      }
      return TooLarge;
    }
  }
}
