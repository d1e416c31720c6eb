/** What one call of the context manager does to a history, message by message, said in terms of the given
    messages alone: what is injected, cut down, handed to the summariser, and left. */
module ContextLaws {
  import opened TaskTypes
  import opened ContextManager

  // ---- positions ------------------------------------------------------------------------------------

  /** The first n positions with a property, in order. */
  function Positions(n: nat, picks: int -> bool): (r: seq<int>)
    ensures forall x :: x in r <==> 0 <= x < n && picks(x)
    ensures forall i, j :: 0 <= i < j < |r| ==> r[i] < r[j]
  {
    if n == 0 then []
    else
      var front := Positions(n - 1, picks);
      assert forall i :: 0 <= i < |front| ==> front[i] in front;
      front + if picks(n - 1) then [n - 1] else []
  }

  /** A tool group follows the position. */
  predicate GroupAfter(msgs: History, i: int) {
    exists j :: 0 <= j < |msgs| && i < j && msgs[j].Some? && msgs[j].value.calls != []
  }

  predicate UserAfter(msgs: History, i: int) {
    exists j :: 0 <= j < |msgs| && i < j && msgs[j].Some? && msgs[j].value.role.User?
  }

  lemma GroupIs(msgs: History, i: nat)
    requires i < |msgs|
    ensures GroupAfter(msgs, i) <==> LastGroup(msgs) < |msgs| && i < LastGroup(msgs)
    ensures GroupAfter(msgs, -1) <==> LastGroup(msgs) < |msgs|
  {
  }

  lemma UserIs(msgs: History, i: nat)
    requires i < |msgs|
    ensures UserAfter(msgs, i) <==> i < LastUser(msgs)
    ensures UserAfter(msgs, -1) <==> LastUser(msgs) >= 0
    ensures i == LastUser(msgs) <==> msgs[i].Some? && msgs[i].value.role.User? && !UserAfter(msgs, i)
  {
  }

  // ---- old reads ------------------------------------------------------------------------------------

  /** The call is the last one announced under the identifier in the first n messages. */
  ghost predicate Announced(msgs: History, n: nat, id: string, call: ToolCall)
    requires n <= |msgs|
  {
    exists a, b ::
      && 0 <= a < n && msgs[a].Some? && 0 <= b < |msgs[a].value.calls|
      && msgs[a].value.calls[b] == call && call.id == id
      && (forall c :: b < c < |msgs[a].value.calls| ==> msgs[a].value.calls[c].id != id)
      && NoneAfter(msgs, n, id, a)
  }

  ghost predicate NoneAfter(msgs: History, n: nat, id: string, a: int)
    requires n <= |msgs| && -1 <= a < n
  {
    forall x, c :: a < x < n && msgs[x].Some? && 0 <= c < |msgs[x].value.calls| ==> msgs[x].value.calls[c].id != id
  }

  lemma {:induction false} LastCallIs(calls: seq<ToolCall>, id: string) returns (b: nat)
    requires exists i :: 0 <= i < |calls| && calls[i].id == id
    ensures b < |calls| && LastCall(calls, id) == calls[b] && calls[b].id == id
    ensures forall c :: b < c < |calls| ==> calls[c].id != id
    decreases |calls|
  {
    if calls[|calls| - 1].id == id {
      b := |calls| - 1;
    } else {
      var i :| 0 <= i < |calls| && calls[i].id == id;
      assert calls[..|calls| - 1][i].id == id;
      b := LastCallIs(calls[..|calls| - 1], id);
    }
  }

  /** The search for a call finds the last one announced, or nothing. */
  lemma {:induction false} CallIs(msgs: History, n: nat, id: string)
    requires n <= |msgs|
    ensures var call := CallOf(msgs[..n], id);
      Announced(msgs, n, id, call) || (call == NoCall() && NoneAfter(msgs, n, id, -1))
    decreases n
  {
    if n > 0 {
      var last := msgs[n - 1];
      assert msgs[..n][..n - 1] == msgs[..n - 1];
      if last.Some? && exists i :: 0 <= i < |last.value.calls| && last.value.calls[i].id == id {
        var b := LastCallIs(last.value.calls, id);
        assert NoneAfter(msgs, n, id, n - 1);
      } else {
        CallIs(msgs, n - 1, id);
        var call := CallOf(msgs[..n - 1], id);
        if Announced(msgs, n - 1, id, call) {
          var a, b :|
            && 0 <= a < n - 1 && msgs[a].Some? && 0 <= b < |msgs[a].value.calls|
            && msgs[a].value.calls[b] == call && call.id == id
            && (forall c :: b < c < |msgs[a].value.calls| ==> msgs[a].value.calls[c].id != id)
            && NoneAfter(msgs, n - 1, id, a);
          assert NoneAfter(msgs, n, id, a);
        }
      }
    }
  }

  lemma OneAnnounced(msgs: History, n: nat, id: string, call: ToolCall, other: ToolCall)
    requires n <= |msgs| && Announced(msgs, n, id, call) && Announced(msgs, n, id, other)
    ensures call == other
  {
  }

  /** A tool result of more than 768 bytes, with a later tool group, that answers a call that read a file or
      directory. */
  ghost predicate LongRead(k: Codec, msgs: History, i: nat, call: ToolCall)
    requires i < |msgs|
  {
    && msgs[i].Some? && msgs[i].value.role.Tool? && GroupAfter(msgs, i) && k.bytes(msgs[i].value.content) > 768
    && Announced(msgs, i + 1, msgs[i].value.callId, call) && (call.name == "readFile" || call.name == "readDir")
  }

  /** Such a result is replaced by a note; everything else stays byte for byte. */
  ghost predicate IsSlot(k: Codec, msgs: History, i: nat, m: Option<Message>)
    requires i < |msgs|
  {
    && (forall call :: LongRead(k, msgs, i, call) ==>
          m == Some(msgs[i].value.(content := ReducedPrefix + k.reduced(call, msgs[i].value))))
    && ((forall call :: !LongRead(k, msgs, i, call)) ==> m == msgs[i])
  }

  lemma ReducedIs(k: Codec, msgs: History, i: nat)
    requires i < |msgs|
    ensures IsSlot(k, msgs, i, Reduced(k, msgs)[i])
  {
    if msgs[i].Some? {
      var id, n := msgs[i].value.callId, i + 1;
      CallIs(msgs, n, id);
      GroupIs(msgs, i);
      var found := CallOf(msgs[..i + 1], id);
      assert Reduced(k, msgs)[i] == ReducedAt(k, msgs, i);
      hide CallOf, LastGroup, GroupAfter, Reduced;
      forall call | Announced(msgs, n, id, call) ensures call == found {
        if Announced(msgs, n, id, found) { OneAnnounced(msgs, n, id, call, found); }
      }
      assert !Announced(msgs, n, id, found) ==> found == NoCall();
      hide Announced, NoneAfter;
      if i >= LastGroup(msgs) || !OldRead(k, msgs[i].value, found) {
        assert forall call :: !LongRead(k, msgs, i, call);
      } else {
        assert LongRead(k, msgs, i, found);
      }
    }
  }

  // ---- what is handed to the summariser ---------------------------------------------------------------

  /** A message other than a system message of a complete older turn: the latest user message and the latest
      tool group, as far as there are any, come after it. */
  predicate OlderTurn(msgs: History, i: int) {
    && 0 <= i < |msgs| && msgs[i].Some? && !msgs[i].value.role.System?
    && (UserAfter(msgs, -1) ==> UserAfter(msgs, i)) && (GroupAfter(msgs, -1) ==> GroupAfter(msgs, i))
  }

  /** One of a finished tool group of a single long request, whose user message stays. */
  predicate OlderGroup(msgs: History, i: int) {
    && 0 <= i < |msgs| && msgs[i].Some? && !msgs[i].value.role.System? && GroupAfter(msgs, i)
    && (msgs[i].value.role.User? ==> UserAfter(msgs, i))
  }

  predicate GivenAway(msgs: History, i: int) {
    if (exists j :: 0 <= j < |msgs| && OlderTurn(msgs, j)) || !GroupAfter(msgs, -1) then OlderTurn(msgs, i)
        else OlderGroup(msgs, i)
  }

  lemma OldTurnIs(msgs: History, i: nat)
    requires i < |msgs|
    ensures OldTurn(msgs, i) <==> OlderTurn(msgs, i)
    ensures LastGroup(msgs) < |msgs| ==> (OldGroup(msgs, i) <==> OlderGroup(msgs, i))
  {
    GroupIs(msgs, i);
    UserIs(msgs, i);
    hide LastGroup, LastUser, GroupAfter, UserAfter;
  }

  lemma SummarisedIs(msgs: History, i: nat)
    requires i < |msgs|
    ensures Summarised(msgs, i) <==> GivenAway(msgs, i)
  {
    forall j | 0 <= j < |msgs| ensures OldTurn(msgs, j) <==> OlderTurn(msgs, j) { OldTurnIs(msgs, j); }
    OldTurnIs(msgs, i);
    GroupIs(msgs, i);
    hide OldTurn, OlderTurn, OldGroup, OlderGroup, LastGroup, GroupAfter;
  }

  /** Cutting old reads down changes contents only, and so not what is given away. */
  lemma ReducedGivesAway(k: Codec, msgs: History, i: nat)
    requires i < |msgs|
    ensures GivenAway(Reduced(k, msgs), i) <==> GivenAway(msgs, i)
  {
    var r := Reduced(k, msgs);
    forall j | 0 <= j < |msgs|
      ensures r[j].Some? == msgs[j].Some?
      ensures r[j].Some? ==> r[j].value.role == msgs[j].value.role && r[j].value.calls == msgs[j].value.calls
    {
      assert r[j] == ReducedAt(k, msgs, j);
    }
    hide Reduced;
    forall j | -1 <= j < |msgs|
      ensures GroupAfter(r, j) <==> GroupAfter(msgs, j)
      ensures UserAfter(r, j) <==> UserAfter(msgs, j)
    {
    }
    hide GroupAfter, UserAfter;
    forall j | 0 <= j < |msgs| ensures OlderTurn(r, j) <==> OlderTurn(msgs, j) { }
  }

  // ---- one call ---------------------------------------------------------------------------------------

  /** The messages that stay when a summary is installed, earlier summaries excepted. */
  function Stays(msgs: History): int -> bool {
    i => 0 <= i < |msgs| && msgs[i].Some? && !GivenAway(msgs, i) && !IsSummary(msgs[i].value)
  }

  function Goes(msgs: History): int -> bool {
    i => 0 <= i < |msgs| && GivenAway(msgs, i)
  }

  lemma PositionsAgree(n: nat, p: int -> bool, q: int -> bool)
    requires forall i :: 0 <= i < n ==> p(i) == q(i)
    ensures Positions(n, p) == Positions(n, q)
  {
    if n > 0 { PositionsAgree(n - 1, p, q); }
  }

  /** The messages at the positions. */
  ghost predicate Picks(msgs: History, at: seq<int>, h: History) {
    |h| == |at| && forall j :: 0 <= j < |at| ==> 0 <= at[j] < |msgs| && h[j] == msgs[at[j]]
  }

  lemma PicksAdds(msgs: History, at: seq<int>, h: History, i: nat)
    requires Picks(msgs, at, h) && i < |msgs|
    ensures Picks(msgs, at + [i], h + [msgs[i]])
  {
  }

  lemma PositionsAdd(n: nat, picks: int -> bool)
    ensures Positions(n + 1, picks) == if picks(n) then Positions(n, picks) + [n] else Positions(n, picks)
    ensures Positions(0, picks) == []
  {
    assert Positions(n, picks) + [] == Positions(n, picks);
  }

  lemma {:induction false} ShortenedIs(msgs: History, n: nat)
    requires n <= |msgs|
    ensures Picks(msgs, Positions(n, Stays(msgs)), Shortened(msgs, n))
    decreases n
  {
    hide *;
    if n == 0 {
      NothingPicked(msgs, Stays(msgs));
    } else {
      ShortenedIs(msgs, n - 1);
      ShortenedAdds(msgs, n - 1);
      StaysIs(msgs, n - 1);
      PositionsAdd(n - 1, Stays(msgs));
      if Stays(msgs)(n - 1) {
        PicksAdds(msgs, Positions(n - 1, Stays(msgs)), Shortened(msgs, n - 1), n - 1);
      }
    }
  }

  lemma NothingPicked(msgs: History, picks: int -> bool)
    ensures Positions(0, picks) == [] && Picks(msgs, [], []) && Shortened(msgs, 0) == []
  {
  }

  lemma StaysIs(msgs: History, i: nat)
    requires i < |msgs|
    ensures Stays(msgs)(i) <==> msgs[i].Some? && !Summarised(msgs, i) && !IsSummary(msgs[i].value)
    ensures Goes(msgs)(i) <==> msgs[i].Some? && Summarised(msgs, i)
  {
    SummarisedIs(msgs, i);
    if GivenAway(msgs, i) { GoingIsThere(msgs, i); }
    hide Summarised, GivenAway, IsSummary;
  }

  lemma GoingIsThere(msgs: History, i: int)
    requires GivenAway(msgs, i)
    ensures 0 <= i < |msgs| && msgs[i].Some?
  {
    hide GroupAfter, UserAfter;
  }

  function MessagesOf(ms: seq<Material>): History {
    seq(|ms|, i requires 0 <= i < |ms| => Some(ms[i].message))
  }

  /** The materials of a summary are the messages given away, each under its digest. */
  lemma {:induction false} MaterialsAre(k: Codec, msgs: History, n: nat)
    requires n <= |msgs|
    ensures var ms := Materials(k, msgs, n);
      && Picks(msgs, Positions(n, Goes(msgs)), MessagesOf(ms))
      && forall j :: 0 <= j < |ms| ==> ms[j].id == k.messageDigest(ms[j].message)
    decreases n
  {
    hide *;
    if n == 0 {
      NothingPicked(msgs, Goes(msgs));
      NoMaterials(k, msgs);
    } else {
      MaterialsAre(k, msgs, n - 1);
      StaysIs(msgs, n - 1);
      MaterialsAdd(k, msgs, n - 1);
      PositionsAdd(n - 1, Goes(msgs));
      if Goes(msgs)(n - 1) {
        PicksAdds(msgs, Positions(n - 1, Goes(msgs)), MessagesOf(Materials(k, msgs, n - 1)), n - 1);
      }
    }
  }

  lemma NoMaterials(k: Codec, msgs: History)
    ensures Materials(k, msgs, 0) == [] && MessagesOf(Materials(k, msgs, 0)) == []
  {
  }

  lemma MaterialsAdd(k: Codec, msgs: History, i: nat)
    requires i < |msgs|
    ensures var before, more := Materials(k, msgs, i), Materials(k, msgs, i + 1);
      if msgs[i].Some? && Summarised(msgs, i)
      then
        && more == before + [Material(k.messageDigest(msgs[i].value), msgs[i].value)]
        && MessagesOf(more) == MessagesOf(before) + [msgs[i]]
      else more == before
  {
    hide Summarised;
    assert Materials(k, msgs, i) + [] == Materials(k, msgs, i);
  }

  lemma StaysReduced(k: Codec, msgs: History)
    requires Reserved(msgs)
    ensures Positions(|msgs|, Stays(Reduced(k, msgs))) == Positions(|msgs|, Stays(msgs))
    ensures Positions(|msgs|, Goes(Reduced(k, msgs))) == Positions(|msgs|, Goes(msgs))
  {
    var r := Reduced(k, msgs);
    forall i | 0 <= i < |msgs|
      ensures Stays(r)(i) == Stays(msgs)(i) && Goes(r)(i) == Goes(msgs)(i)
    {
      ReducedGivesAway(k, msgs, i);
      assert r[i] == ReducedAt(k, msgs, i);
      if r[i] != msgs[i] { assert ReducedPrefix <= r[i].value.content && r[i].value.content[0] == ReducedPrefix[0]; }
      hide GivenAway;
    }
    hide Reduced, GivenAway, IsSummary;
    PositionsAgree(|msgs|, Stays(r), Stays(msgs));
    PositionsAgree(|msgs|, Goes(r), Goes(msgs));
  }

  /** The slots of the given history at the positions. */
  ghost predicate SlotsAt(k: Codec, msgs: History, at: seq<int>, h: History) {
    |h| == |at| && forall j :: 0 <= j < |at| ==> 0 <= at[j] < |msgs| && IsSlot(k, msgs, at[j], h[j])
  }

  ghost predicate AllSlots(k: Codec, msgs: History, h: History) {
    |h| == |msgs| && forall i :: 0 <= i < |msgs| ==> IsSlot(k, msgs, i, h[i])
  }

  lemma PicksAreSlots(k: Codec, msgs: History, reduced: History, at: seq<int>, h: History)
    requires AllSlots(k, msgs, reduced) && Picks(reduced, at, h)
    ensures SlotsAt(k, msgs, at, h)
  {
    hide IsSlot;
  }

  lemma ReducedSlots(k: Codec, msgs: History)
    ensures AllSlots(k, msgs, Reduced(k, msgs))
  {
    forall i | 0 <= i < |msgs| ensures IsSlot(k, msgs, i, Reduced(k, msgs)[i]) { ReducedIs(k, msgs, i); }
    hide IsSlot, Reduced;
  }

  /** The last of the three outcomes is the one that installs a summary. */
  lemma OutcomeIs(k: Codec, o: Options, s: State, w: World, input: History)
    ensures var msgs, (s', r) := Injected(k, s.snapshot, s.restored, w.state, input), Assemble(k, o, s, w, input);
      r.Assembled? ==>
        if k.size(msgs) + w.toolTokens < Soft(o) then r.messages == msgs && s'.snapshot == s.snapshot
        else if s'.snapshot == s.snapshot then r.messages == Reduced(k, msgs)
        else r.messages == [Some(SummaryMessage(k, s'.snapshot))] + Shortened(Reduced(k, msgs), |msgs|)
  {
    var msgs := Injected(k, s.snapshot, s.restored, w.state, input);
    assert |Reduced(k, msgs)| == |msgs|;
    hide Injected, Reduced, Asks, Accepted, Kept, WithoutSummary;
  }

  /** Everything a call hands on at or above the soft limit, message by message. Without a new summary: every
      given message, long old reads replaced by notes. With one: the summary, and of those messages, in their
      order, the ones that belong to no older turn (or, within one request, to no finished tool group). */
  lemma AssembledIs(k: Codec, o: Options, s: State, w: World, input: History)
    requires Reserved(Injected(k, s.snapshot, s.restored, w.state, input))
    ensures var msgs := Injected(k, s.snapshot, s.restored, w.state, input);
      var (s', r) := Assemble(k, o, s, w, input);
      r.Assembled? ==>
        if k.size(msgs) + w.toolTokens < Soft(o) then r.messages == msgs && s'.snapshot == s.snapshot
        else if s'.snapshot == s.snapshot then AllSlots(k, msgs, r.messages)
        else
          && r.messages != [] && r.messages[0] == Some(SummaryMessage(k, s'.snapshot))
          && SlotsAt(k, msgs, Positions(|msgs|, Stays(msgs)), r.messages[1..])
  {
    hide *;
    var msgs := Injected(k, s.snapshot, s.restored, w.state, input);
    var reduced := Reduced(k, msgs);
    OutcomeIs(k, o, s, w, input);
    StaysReduced(k, msgs);
    ShortenedIs(reduced, |msgs|);
    ReducedSlots(k, msgs);
    PicksAreSlots(k, msgs, reduced, Positions(|msgs|, Stays(msgs)), Shortened(reduced, |msgs|));
  }

  /** What the summariser is given when it is asked: the carried summary, and the messages of the older turns
      (or finished groups), long old reads as notes, in order and each under its digest. */
  lemma SummariserIsGiven(k: Codec, o: Options, s: State, w: World, input: History)
    requires Reserved(Injected(k, s.snapshot, s.restored, w.state, input))
    ensures var msgs := Injected(k, s.snapshot, s.restored, w.state, input);
      var request := RequestOf(k, s.snapshot, Reduced(k, msgs));
      && request.previous == s.snapshot.summary
      && SlotsAt(k, msgs, Positions(|msgs|, Goes(msgs)), MessagesOf(request.materials))
      && forall j :: 0 <= j < |request.materials| ==>
           request.materials[j].id == k.messageDigest(request.materials[j].message)
  {
    var msgs := Injected(k, s.snapshot, s.restored, w.state, input);
    var reduced := Reduced(k, msgs);
    assert RequestOf(k, s.snapshot, reduced) == Request(s.snapshot.summary, Materials(k, reduced, |reduced|));
    hide *;
    assert |reduced| == |msgs|;
    StaysReduced(k, msgs);
    MaterialsAre(k, reduced, |msgs|);
    ReducedSlots(k, msgs);
    PicksAreSlots(k, msgs, reduced, Positions(|msgs|, Goes(msgs)), MessagesOf(Materials(k, reduced, |msgs|)));
  }

  // ---- what is injected -----------------------------------------------------------------------------

  function NoState(h: History): int -> bool {
    i => 0 <= i < |h| && !(h[i].Some? && StatePrefix <= h[i].value.content)
  }

  lemma {:induction false} FilteredState(h: History, n: nat)
    requires n <= |h|
    ensures Picks(h, Positions(n, NoState(h)), WithoutOldState(h[..n]))
    decreases n
  {
    if n > 0 {
      assert h[..n][..n - 1] == h[..n - 1];
      FilteredState(h, n - 1);
      PositionsAdd(n - 1, NoState(h));
      hide Positions, Picks;
      if NoState(h)(n - 1) {
        PicksAdds(h, Positions(n - 1, NoState(h)), WithoutOldState(h[..n - 1]), n - 1);
      }
    }
  }

  /** The history a call works on: the summary of an earlier attempt, once, then the caller's messages except
      older state blocks, in order, then the current state. */
  lemma InjectedHistory(k: Codec, snapshot: Snapshot, restored: bool, state: string, input: History)
    requires state != ""
    ensures var msgs := Injected(k, snapshot, restored, state, input);
      var first := if !restored && snapshot.version > 0 then 1 else 0;
      && |msgs| >= first + 1 && msgs[|msgs| - 1] == Some(Message(System, StatePrefix + state, [], ""))
      && (first == 1 ==> msgs[0] == Some(Message(System, SummaryPrefix + k.encode(snapshot.summary), [], "")))
      && Picks(input, Positions(|input|, NoState(input)), msgs[first..|msgs| - 1])
  {
    InjectedIs(k, snapshot, restored, state, input);
    FilteredState(input, |input|);
    assert input[..|input|] == input;
    hide Injected, Positions, Picks, WithoutOldState;
  }

  // ---- summaries ------------------------------------------------------------------------------------

  /** A summary anyone would accept, whatever it was made from. */
  ghost predicate Complete(k: Codec, s: Summary) {
    && !k.blank(s.goal) && !k.blank(s.next) && k.summarySize(s) <= 6000
    && (forall i :: 0 <= i < |s.findings| ==> s.findings[i].text != "" && s.findings[i].sources != [])
    && (forall i :: 0 <= i < |s.files| ==> s.files[i].text != "" && s.files[i].sources != [])
    && (forall i :: 0 <= i < |s.errors| ==> s.errors[i].text != "" && s.errors[i].sources != [])
  }

  lemma AcceptedIsComplete(k: Codec, s: Summary, r: Request)
    requires Accepted(k, s, r)
    ensures Complete(k, s)
  {
    var groups, f, g := Groups(s), |s.findings|, |s.files|;
    assert forall i :: 0 <= i < f ==> groups[i] == s.findings[i];
    assert forall i :: 0 <= i < g ==> groups[f + i] == s.files[i];
    assert forall i :: 0 <= i < |s.errors| ==> groups[f + g + i] == s.errors[i];
    hide Cited, Given, Groups;
  }

  /** Over a session, the summary in force is the one it began with, or one with a goal and a next step, of at
      most 6000 bytes, whose findings all have text and sources. */
  lemma {:induction false} SummariesAreComplete(k: Codec, o: Options, s: State, turns: seq<Turn>)
    ensures var end := Session(k, o, s, turns); end.snapshot == s.snapshot || Complete(k, end.snapshot.summary)
    decreases |turns|
  {
    if turns != [] {
      var front, t := turns[..|turns| - 1], turns[|turns| - 1];
      SummariesAreComplete(k, o, s, front);
      TurnIsComplete(k, o, Session(k, o, s, front), t);
      hide Assemble, Complete;
    }
  }

  lemma TurnIsComplete(k: Codec, o: Options, s: State, t: Turn)
    ensures var s' := Assemble(k, o, s, t.world, t.input).0;
      s'.snapshot == s.snapshot || Complete(k, s'.snapshot.summary)
  {
    var reduced := Reduced(k, Injected(k, s.snapshot, s.restored, t.world.state, t.input));
    hide Injected, Reduced, Asks, Candidate, Complete, Accepted, Materials;
    if t.world.answer.Some? && Accepted(k, t.world.answer.value, RequestOf(k, s.snapshot, reduced)) {
      AcceptedIsComplete(k, t.world.answer.value, RequestOf(k, s.snapshot, reduced));
    }
  }

  /** The input limit is what the window leaves beside output and margin, defaults for what is not set; the
      soft limit is 70, the hard limit 85 percent of it, rounded down. */
  lemma LimitsAre(o: Options)
    ensures o.window <= 0 ==> InputLimit(o) == InputLimit(o.(window := 32768))
    ensures o.output <= 0 ==> InputLimit(o) == InputLimit(o.(output := 8192))
    ensures o.margin <= 0 ==> InputLimit(o) == InputLimit(o.(margin := 2048))
    ensures o.window > 0 && o.output > 0 && o.margin > 0 ==>
      InputLimit(o) == if o.window >= o.output + o.margin then o.window - o.output - o.margin else 0
    ensures 100 * Soft(o) <= 70 * InputLimit(o) < 100 * (Soft(o) + 1)
    ensures 100 * Hard(o) <= 85 * InputLimit(o) < 100 * (Hard(o) + 1)
  {
  }

  /** A new summary is installed exactly when there is something to summarise at or above the soft limit, the
      same request has not just failed, there is a summariser and the request fits it with 2048 to spare, its
      answer is accepted, the history fits with it, and saving it does not fail. */
  lemma InstalledExactlyWhen(k: Codec, o: Options, s: State, w: World, input: History)
    ensures var msgs := Injected(k, s.snapshot, s.restored, w.state, input);
      var reduced, s' := Reduced(k, msgs), Assemble(k, o, s, w, input).0;
      var request := RequestOf(k, s.snapshot, reduced);
      s'.snapshot != s.snapshot <==>
        && k.size(msgs) + w.toolTokens >= Soft(o) && k.size(reduced) + w.toolTokens >= Soft(o)
        && request.materials != [] && k.requestDigest(request) != s.failedAt && w.summariser
        && k.requestSize(request) + 2048 < InputLimit(o)
        && w.answer.Some? && Accepted(k, w.answer.value, request)
        && k.size(Candidate(k, NextSnapshot(k, s, w.answer.value, reduced), reduced)) + w.toolTokens < Hard(o)
        && (w.commit.NoBinding? || w.commit.Saved?)
  {
    hide Injected, Reduced, Candidate, Accepted, RequestOf, InputLimit;
  }

  /** A request that came to nothing is not sent again: neither in the next call with the same materials, nor
      in later ones while no other request is tried. */
  lemma FailedRequestIsNotRepeated(k: Codec, o: Options, s: State, w: World, msgs: History, again: World)
    requires Asks(k, o, s, w, msgs) && !Usable(k, o, s, w, msgs)
    ensures !Asks(k, o, Rewritten(k, o, s, w, msgs).0, again, msgs)
  {
    hide Accepted, Candidate, Materials;
  }
}
