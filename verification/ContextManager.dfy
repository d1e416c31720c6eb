/** The working context of one agent: a message history rewritten under a hard size bound, with a
    validated summary carried from call to call. Sizes, digests and the summariser are inputs. */
module ContextManager {
  import opened TaskTypes

  datatype Role = System | User | Assistant | Tool
  datatype ToolCall = ToolCall(id: string, name: string, arguments: string)
  datatype Message = Message(role: Role, content: string, calls: seq<ToolCall>, callId: string)

  /** A history slot may be nil. */
  type History = seq<Option<Message>>

  datatype Finding = Finding(text: string, sources: seq<string>)
  datatype Summary = Summary(
    goal: string, constraints: seq<string>, findings: seq<Finding>, files: seq<Finding>, errors: seq<Finding>,
    remaining: seq<string>, next: string)
  datatype Snapshot = Snapshot(version: int, summary: Summary, digest: string)
  datatype Material = Material(id: string, message: Message)
  datatype Request = Request(previous: Summary, materials: seq<Material>)

  const SummaryPrefix := "## Working Summary（历史记录，文件状态请重新读取核实）\n"
  const StatePrefix := "## 当前任务状态（优先保留）\n"

  // ---- limits -------------------------------------------------------------------------------

  datatype Options = Options(window: int, output: int, margin: int)

  function InputLimit(o: Options): (limit: int)
    ensures limit >= 0
  {
    var window := if o.window <= 0 then 32768 else o.window;
    var output := if o.output <= 0 then 8192 else o.output;
    var margin := if o.margin <= 0 then 2048 else o.margin;
    if window - output - margin > 0 then window - output - margin else 0
  }

  function Soft(o: Options): int { InputLimit(o) * 70 / 100 }
  function Hard(o: Options): int { InputLimit(o) * 85 / 100 }

  /** JSON sizes, digests and byte lengths of the encodings the program uses. */
  datatype Codec = Codec(
    size: History -> nat, requestSize: Request -> nat, summarySize: Summary -> nat, bytes: string -> nat,
    messageDigest: Message -> string, requestDigest: Request -> string,
    encode: Summary -> string, reduced: (ToolCall, Message) -> string, blank: string -> bool)

  function SummaryMessage(k: Codec, s: Snapshot): Message {
    Message(System, SummaryPrefix + k.encode(s.summary), [], "")
  }

  function StateMessage(state: string): Message {
    Message(System, StatePrefix + state, [], "")
  }

  predicate IsSummary(m: Message) { SummaryPrefix <= m.content }
  predicate IsState(m: Message) { StatePrefix <= m.content }

  // ---- assembling ---------------------------------------------------------------------------

  function WithoutOldState(msgs: History): History {
    if msgs == [] then []
    else
      var front, last := WithoutOldState(msgs[..|msgs| - 1]), msgs[|msgs| - 1];
      if last.Some? && IsState(last.value) then front else front + [last]
  }

  /** The last message is the freshly injected state and is not looked at. */
  function ReplaceState(msgs: History): History {
    if msgs == [] then [] else WithoutOldState(msgs[..|msgs| - 1]) + [msgs[|msgs| - 1]]
  }

  function Injected(k: Codec, snapshot: Snapshot, restored: bool, state: string, input: History): History {
    var resumed := if !restored && snapshot.version > 0 then [Some(SummaryMessage(k, snapshot))] + input else input;
    ReplaceState(if state != "" then resumed + [Some(StateMessage(state))] else resumed)
  }

  /** The index of the last assistant message with tool calls, or the length. */
  function LastGroup(msgs: History): (g: nat)
    ensures g <= |msgs|
    ensures g < |msgs| ==> msgs[g].Some? && msgs[g].value.calls != []
    ensures forall i :: g < i < |msgs| && msgs[i].Some? ==> msgs[i].value.calls == []
    ensures g == |msgs| ==> forall i :: 0 <= i < |msgs| && msgs[i].Some? ==> msgs[i].value.calls == []
  {
    if msgs == [] then 0
    else if msgs[|msgs| - 1].Some? && msgs[|msgs| - 1].value.calls != [] then |msgs| - 1
    else
      var front := LastGroup(msgs[..|msgs| - 1]);
      if front == |msgs| - 1 then |msgs| else front
  }

  function LastUser(msgs: History): (u: int)
    ensures -1 <= u < |msgs|
    ensures u >= 0 ==> msgs[u].Some? && msgs[u].value.role.User?
    ensures forall i :: u < i < |msgs| && msgs[i].Some? ==> !msgs[i].value.role.User?
  {
    if msgs == [] then -1
    else if msgs[|msgs| - 1].Some? && msgs[|msgs| - 1].value.role.User? then |msgs| - 1
    else LastUser(msgs[..|msgs| - 1])
  }

  const ReducedPrefix := "旧读取结果已缩减。"

  function NoCall(): ToolCall { ToolCall("", "", "") }

  /** The call a message answers: the last one announced under its identifier. */
  function CallOf(msgs: History, id: string): ToolCall {
    if msgs == [] then NoCall()
    else
      var last := msgs[|msgs| - 1];
      if last.Some? && exists i :: 0 <= i < |last.value.calls| && last.value.calls[i].id == id
      then LastCall(last.value.calls, id) else CallOf(msgs[..|msgs| - 1], id)
  }

  function LastCall(calls: seq<ToolCall>, id: string): ToolCall {
    if calls == [] then NoCall()
    else if calls[|calls| - 1].id == id then calls[|calls| - 1] else LastCall(calls[..|calls| - 1], id)
  }

  predicate OldRead(k: Codec, m: Message, call: ToolCall) {
    m.role.Tool? && (call.name == "readFile" || call.name == "readDir") && k.bytes(m.content) > 768
  }

  /** Old file reads before the latest tool group are cut down; they can be repeated. */
  function ReducedAt(k: Codec, msgs: History, i: nat): Option<Message>
    requires i < |msgs|
  {
    if msgs[i].None? || i >= LastGroup(msgs) then msgs[i]
    else
      var call := CallOf(msgs[..i + 1], msgs[i].value.callId);
      if OldRead(k, msgs[i].value, call)
          then Some(msgs[i].value.(content := ReducedPrefix + k.reduced(call, msgs[i].value))) else msgs[i]
  }

  function Reduced(k: Codec, msgs: History): (r: History)
    ensures |r| == |msgs|
  {
    seq(|msgs|, i requires 0 <= i < |msgs| => ReducedAt(k, msgs, i))
  }

  /** The older part to summarise ends at the latest user message or tool group, whichever is first. */
  function Cut(msgs: History): (cut: nat)
    ensures cut <= |msgs|
  {
    if LastGroup(msgs) < LastUser(msgs) || LastUser(msgs) < 0 then LastGroup(msgs) else LastUser(msgs)
  }

  predicate OldTurn(msgs: History, i: nat)
    requires i < |msgs|
  {
    i < Cut(msgs) && msgs[i].Some? && !msgs[i].value.role.System?
  }

  predicate OldGroup(msgs: History, i: nat)
    requires i < |msgs|
  {
    i < LastGroup(msgs) && i != LastUser(msgs) && msgs[i].Some? && !msgs[i].value.role.System?
  }

  /** Which slots go to the summariser. Within one long request, completed groups after it do. */
  predicate Summarised(msgs: History, i: nat)
    requires i < |msgs|
  {
    if (exists j :: 0 <= j < |msgs| && OldTurn(msgs, j)) || LastGroup(msgs) == |msgs| then OldTurn(msgs, i)
        else OldGroup(msgs, i)
  }

  /** The messages among the first n slots that stay, and those that are summarised, in order. */
  function Kept(msgs: History, n: nat): (r: seq<Message>)
    requires n <= |msgs|
  {
    if n == 0 then []
    else Kept(msgs, n - 1) + if msgs[n - 1].Some? && !Summarised(msgs, n - 1) then [msgs[n - 1].value] else []
  }

  function Materials(k: Codec, msgs: History, n: nat): seq<Material>
    requires n <= |msgs|
  {
    if n == 0 then []
    else
      var m := msgs[n - 1];
      Materials(k, msgs, n - 1)
      + if m.Some? && Summarised(msgs, n - 1) then [Material(k.messageDigest(m.value), m.value)] else []
  }

  function WithoutSummary(msgs: seq<Message>): History {
    if msgs == [] then []
    else WithoutSummary(msgs[..|msgs| - 1]) + if IsSummary(msgs[|msgs| - 1]) then [] else [Some(msgs[|msgs| - 1])]
  }

  // ---- the summary --------------------------------------------------------------------------

  function Groups(s: Summary): seq<Finding> { s.findings + s.files + s.errors }

  predicate Cited(s: Summary, id: string) {
    exists i, j :: 0 <= i < |Groups(s)| && 0 <= j < |Groups(s)[i].sources| && Groups(s)[i].sources[j] == id
  }

  predicate Given(r: Request, id: string) {
    exists i :: 0 <= i < |r.materials| && r.materials[i].id == id
  }

  /** Accepted summaries name only given or carried sources and lose no user constraint. */
  ghost predicate Accepted(k: Codec, s: Summary, r: Request) {
    && !k.blank(s.goal) && !k.blank(s.next) && k.summarySize(s) <= 6000
    && (forall i :: 0 <= i < |Groups(s)| ==> Groups(s)[i].text != "" && Groups(s)[i].sources != [])
    && (forall id :: Cited(s, id) ==> Given(r, id) || Cited(r.previous, id))
    && (forall i :: 0 <= i < |r.previous.constraints| ==> r.previous.constraints[i] in s.constraints)
  }

  // ---- one call -----------------------------------------------------------------------------

  /** How durably saving a new summary went. */
  datatype Commit = NoBinding | Saved | Suspended | Broken

  /** What one call meets outside: the business state, the tools' share of the window, the
      summariser's answer (None for an error), the outcome of saving, and whether the run has safe points. */
  datatype World = World(
    state: string, toolTokens: int, summariser: bool, answer: Option<Summary>, commit: Commit, hooked: bool)

  datatype State = State(snapshot: Snapshot, restored: bool, failedAt: string)
  datatype Result = Assembled(messages: History) | CommitFailed | Stopped | TooLarge

  /** A call that cannot go on saves the run and stops it, if there is anything to save it with. */
  function Blocked(w: World): Result {
    match w.commit
    case NoBinding => TooLarge
    case Saved => if w.hooked then Stopped else TooLarge
    case _ => CommitFailed
  }

  function RequestOf(k: Codec, snapshot: Snapshot, msgs: History): Request {
    Request(snapshot.summary, Materials(k, msgs, |msgs|))
  }

  function Candidate(k: Codec, next: Snapshot, msgs: History): History {
    [Some(SummaryMessage(k, next))] + WithoutSummary(Kept(msgs, |msgs|))
  }

  predicate Asks(k: Codec, o: Options, s: State, w: World, msgs: History) {
    var request := RequestOf(k, s.snapshot, msgs);
    && k.size(msgs) + w.toolTokens >= Soft(o) && request.materials != []
    && k.requestDigest(request) != s.failedAt && w.summariser && k.requestSize(request) + 2048 < InputLimit(o)
  }

  function NextSnapshot(k: Codec, s: State, summary: Summary, msgs: History): Snapshot {
    Snapshot(s.snapshot.version + 1, summary, k.requestDigest(RequestOf(k, s.snapshot, msgs)))
  }

  /** The summariser's answer is usable: valid, and the history fits with it. */
  ghost predicate Usable(k: Codec, o: Options, s: State, w: World, msgs: History) {
    && w.answer.Some? && Accepted(k, w.answer.value, RequestOf(k, s.snapshot, msgs))
    && k.size(Candidate(k, NextSnapshot(k, s, w.answer.value, msgs), msgs)) + w.toolTokens < Hard(o)
  }

  ghost function Rewritten(k: Codec, o: Options, s: State, w: World, msgs: History): (State, Result) {
    if Asks(k, o, s, w, msgs) && Usable(k, o, s, w, msgs) then
      var next := NextSnapshot(k, s, w.answer.value, msgs);
      if w.commit.Suspended? || w.commit.Broken? then (s, CommitFailed)
      else (State(next, true, s.failedAt), Assembled(Candidate(k, next, msgs)))
    else
      var s' := if Asks(k, o, s, w, msgs) then s.(failedAt := k.requestDigest(RequestOf(k, s.snapshot, msgs))) else s;
      if k.size(msgs) + w.toolTokens < Hard(o) then (s'.(restored := true), Assembled(msgs)) else (s', Blocked(w))
  }

  ghost function Assemble(k: Codec, o: Options, s: State, w: World, input: History): (State, Result) {
    var msgs := Injected(k, s.snapshot, s.restored, w.state, input);
    if k.size(msgs) + w.toolTokens < Soft(o) then (s.(restored := true), Assembled(msgs))
    else Rewritten(k, o, s, w, Reduced(k, msgs))
  }

  /** The bound: whatever is handed to the model fits. */
  lemma AssembledFits(k: Codec, o: Options, s: State, w: World, input: History)
    ensures var r := Assemble(k, o, s, w, input).1;
      r.Assembled? ==> k.size(r.messages) + w.toolTokens < Hard(o)
  {
    hide Injected, Reduced, Candidate, Asks, Accepted, NextSnapshot;
    assert Soft(o) <= Hard(o);
  }

  // ---- tool results stay with their calls -----------------------------------------------------

  function Ids(calls: seq<ToolCall>): set<string> {
    set i | 0 <= i < |calls| :: calls[i].id
  }

  /** The call identifiers that may still be answered: those of the latest assistant message, when
      only tool results follow it. */
  function OpenCalls(h: History): set<string> {
    if h == [] then {}
    else if h[|h| - 1].None? || h[|h| - 1].value.role.Tool? then OpenCalls(h[..|h| - 1])
    else if h[|h| - 1].value.role.Assistant? then Ids(h[|h| - 1].value.calls)
    else {}
  }

  /** Every tool result directly follows the assistant message that called it, or other results of
      that message; only assistant messages call tools. */
  ghost predicate WellFormed(h: History) {
    forall i :: 0 <= i < |h| && h[i].Some? ==>
      && (h[i].value.role.Tool? ==> h[i].value.callId in OpenCalls(h[..i]))
      && (h[i].value.calls != [] ==> h[i].value.role.Assistant?)
  }

  lemma WellFormedFront(h: History)
    requires WellFormed(h) && h != []
    ensures WellFormed(h[..|h| - 1])
  {
    var front := h[..|h| - 1];
    assert forall i :: 0 <= i < |front| ==> front[..i] == h[..i];
  }

  lemma WellFormedAdds(h: History, m: Option<Message>)
    requires WellFormed(h)
    requires m.Some? && m.value.role.Tool? ==> m.value.callId in OpenCalls(h)
    requires m.Some? && m.value.calls != [] ==> m.value.role.Assistant?
    ensures WellFormed(h + [m])
  {
    var more := h + [m];
    assert more[..|h|] == h && forall i :: 0 <= i < |h| ==> more[..i] == h[..i];
  }

  lemma OpenAdds(h: History, m: Option<Message>)
    ensures OpenCalls(h + [m]) ==
            if m.None? || m.value.role.Tool? then OpenCalls(h)
            else if m.value.role.Assistant? then Ids(m.value.calls)
            else {}
  {
    assert (h + [m])[..|h|] == h;
  }

  /** Only injected messages carry the reserved prefixes. */
  ghost predicate Reserved(h: History) {
    forall i :: 0 <= i < |h| && h[i].Some? && (IsState(h[i].value) || IsSummary(h[i].value)) ==> h[i].value.role.System?
  }

  lemma {:induction false} OldStateGone(h: History)
    requires WellFormed(h) && Reserved(h)
    ensures WellFormed(WithoutOldState(h)) && OpenCalls(h) <= OpenCalls(WithoutOldState(h))
    ensures Reserved(WithoutOldState(h))
    decreases |h|
  {
    if h != [] {
      var front, last := h[..|h| - 1], h[|h| - 1];
      assert h == front + [last];
      WellFormedFront(h);
      OldStateGone(front);
      OpenAdds(front, last);
      OpenAdds(WithoutOldState(front), last);
      assert last.Some? && last.value.role.Tool? ==> last.value.callId in OpenCalls(h[..|h| - 1]);
      if !(last.Some? && IsState(last.value)) { WellFormedAdds(WithoutOldState(front), last); }
    }
  }

  lemma {:induction false} SummaryPrepended(h: History, m: Message)
    requires WellFormed(h) && m.role.System? && m.calls == []
    ensures WellFormed([Some(m)] + h) && OpenCalls([Some(m)] + h) == OpenCalls(h)
    decreases |h|
  {
    if h == [] {
      WellFormedAdds([], Some(m));
      OpenAdds([], Some(m));
      assert [Some(m)] + h == [] + [Some(m)];
    } else {
      var front, last := h[..|h| - 1], h[|h| - 1];
      WellFormedFront(h);
      SummaryPrepended(front, m);
      assert last.Some? && last.value.role.Tool? ==> last.value.callId in OpenCalls(h[..|h| - 1]);
      WellFormedAdds([Some(m)] + front, last);
      OpenAdds([Some(m)] + front, last);
      OpenAdds(front, last);
      assert front + [last] == h && [Some(m)] + front + [last] == [Some(m)] + h;
    }
  }

  lemma StateIsNoSummary(m: Message)
    ensures !(IsState(m) && IsSummary(m))
  {
    assert StatePrefix[3] != SummaryPrefix[3];
    assert IsState(m) ==> |m.content| > 3 && m.content[3] == StatePrefix[3];
    assert IsSummary(m) ==> |m.content| > 3 && m.content[3] == SummaryPrefix[3];
  }

  lemma ReplacedWellFormed(full: History)
    requires WellFormed(full) && Reserved(full)
    ensures WellFormed(ReplaceState(full)) && Reserved(ReplaceState(full))
  {
    if full != [] {
      var front, last := full[..|full| - 1], full[|full| - 1];
      WellFormedFront(full);
      OldStateGone(front);
      assert last.Some? && last.value.role.Tool? ==> last.value.callId in OpenCalls(front);
      WellFormedAdds(WithoutOldState(front), last);
      hide OpenCalls, WithoutOldState, WellFormed;
    }
  }

  lemma InjectedWellFormed(k: Codec, snapshot: Snapshot, restored: bool, state: string, input: History)
    requires WellFormed(input) && Reserved(input)
    ensures WellFormed(Injected(k, snapshot, restored, state, input))
    ensures Reserved(Injected(k, snapshot, restored, state, input))
  {
    var m := SummaryMessage(k, snapshot);
    var resumed := if !restored && snapshot.version > 0 then [Some(m)] + input else input;
    SummaryPrepended(input, m);
    var full := if state != "" then resumed + [Some(StateMessage(state))] else resumed;
    WellFormedAdds(resumed, Some(StateMessage(state)));
    hide WellFormed;
    ReplacedWellFormed(full) by { assert Reserved(full); }
  }

  /** Two histories that differ at most in contents. */
  ghost predicate SameShape(h: History, g: History) {
    && |h| == |g|
    && forall i :: 0 <= i < |h| ==>
      h[i].Some? == g[i].Some? && (h[i].Some? ==> g[i].value == h[i].value.(content := g[i].value.content))
  }

  lemma {:induction false} SameOpenCalls(h: History, g: History)
    requires SameShape(h, g)
    ensures OpenCalls(g) == OpenCalls(h)
    decreases |h|
  {
    if h != [] { SameOpenCalls(h[..|h| - 1], g[..|g| - 1]); }
  }

  lemma ReducedWellFormed(k: Codec, msgs: History)
    requires WellFormed(msgs) && Reserved(msgs)
    ensures WellFormed(Reduced(k, msgs)) && Reserved(Reduced(k, msgs)) && SameShape(msgs, Reduced(k, msgs))
  {
    var r := Reduced(k, msgs);
    forall i | 0 <= i < |msgs| && msgs[i].Some?
      ensures msgs[i].value.callId in OpenCalls(msgs[..i]) ==> r[i].value.callId in OpenCalls(r[..i])
      ensures r[i].value != msgs[i].value ==> !IsState(r[i].value) && !IsSummary(r[i].value)
    {
      assert r[i] == ReducedAt(k, msgs, i);
      SameOpenCalls(msgs[..i], r[..i]);
      if r[i].value != msgs[i].value {
        assert ReducedPrefix <= r[i].value.content && r[i].value.content[0] == ReducedPrefix[0];
      }
    }
  }

  /** The assistant message whose calls are open, or -1. */
  function Opener(h: History): (j: int)
    ensures -1 <= j < |h|
    ensures j >= 0 ==> h[j].Some? && h[j].value.role.Assistant? && OpenCalls(h) == Ids(h[j].value.calls)
    ensures j < 0 ==> OpenCalls(h) == {}
    ensures forall i :: j < i < |h| && j >= 0 && h[i].Some? ==> h[i].value.role.Tool?
  {
    if h == [] then -1
    else if h[|h| - 1].None? || h[|h| - 1].value.role.Tool? then Opener(h[..|h| - 1])
    else if h[|h| - 1].value.role.Assistant? then |h| - 1 else -1
  }

  /** A tool result is summarised exactly when the message that called it is. */
  lemma GroupsStayTogether(msgs: History, i: nat)
    requires WellFormed(msgs) && i < |msgs| && msgs[i].Some? && msgs[i].value.role.Tool? && Opener(msgs[..i]) >= 0
    ensures Summarised(msgs, i) <==> Summarised(msgs, Opener(msgs[..i]))
  {
    var j := Opener(msgs[..i]);
    assert msgs[..i][j] == msgs[j];
    var u, g := LastUser(msgs), LastGroup(msgs);
    assert forall x :: 0 <= x < i ==> msgs[..i][x] == msgs[x];
    assert g < |msgs| ==> msgs[g].value.role.Assistant?;
    assert !(j < u <= i) && !(j < g <= i);
    hide LastUser, LastGroup, OpenCalls, Opener;
  }

  function Shortened(msgs: History, n: nat): History
    requires n <= |msgs|
  {
    WithoutSummary(Kept(msgs, n))
  }

  lemma ShortenedAdds(msgs: History, n: nat)
    requires n < |msgs|
    ensures var m := msgs[n];
      Shortened(msgs, n + 1) ==
        if m.Some? && !Summarised(msgs, n) && !IsSummary(m.value) then Shortened(msgs, n) + [m] else Shortened(msgs, n)
  {
    hide Summarised;
    var kept := Kept(msgs, n);
    if msgs[n].Some? && !Summarised(msgs, n) {
      assert Kept(msgs, n + 1) == kept + [msgs[n].value];
      assert (kept + [msgs[n].value])[..|kept|] == kept;
    } else {
      assert Kept(msgs, n + 1) == kept;
    }
    assert Shortened(msgs, n) + [] == Shortened(msgs, n);
  }

  /** The kept part of a history, as one more slot `m` is looked at. */
  ghost predicate FollowsCalls(before: History, kept: History, openerKept: bool) {
    WellFormed(kept) && (openerKept ==> OpenCalls(before) <= OpenCalls(kept))
  }

  lemma FollowingStep(before: History, kept: History, m: Option<Message>, keeps: bool, openerKept: bool)
    requires FollowsCalls(before, kept, openerKept) && WellFormed(before + [m])
    requires (keeps ==> m.Some?) && (m.Some? && m.value.role.Tool? && keeps ==> openerKept)
    ensures FollowsCalls(before + [m], if keeps then kept + [m] else kept,
                         if m.None? || m.value.role.Tool? then openerKept else keeps && m.value.role.Assistant?)
    ensures m.Some? && !m.value.role.Tool? && !m.value.role.Assistant? ==> OpenCalls(before + [m]) == {}
  {
    assert (before + [m])[..|before|] == before && (before + [m])[|before|] == m;
    OpenAdds(before, m);
    OpenAdds(kept, m);
    hide OpenCalls;
    if keeps {
      assert m.Some? && m.value.role.Tool? ==> m.value.callId in OpenCalls(before);
      WellFormedAdds(kept, m);
    }
  }

  predicate OpenerKept(msgs: History, n: nat)
    requires n <= |msgs|
  {
    Opener(msgs[..n]) >= 0 && !Summarised(msgs, Opener(msgs[..n]))
  }

  lemma OpenerNext(msgs: History, i: nat)
    requires i < |msgs|
    ensures var m := msgs[i];
      OpenerKept(msgs, i + 1) ==
        if m.None? || m.value.role.Tool? then OpenerKept(msgs, i)
        else m.value.role.Assistant? && !Summarised(msgs, i)
  {
    assert msgs[..i + 1][..i] == msgs[..i] && msgs[..i + 1][i] == msgs[i];
    hide Summarised, OpenCalls;
  }

  /** What stays of a well-formed history is well formed. */
  lemma {:induction false} ShortenedWellFormed(msgs: History, n: nat)
    requires WellFormed(msgs) && Reserved(msgs) && n <= |msgs|
    ensures FollowsCalls(msgs[..n], Shortened(msgs, n), OpenerKept(msgs, n))
    decreases n
  {
    if n > 0 {
      var i, m := n - 1, msgs[n - 1];
      ShortenedWellFormed(msgs, i);
      ShortenedAdds(msgs, i);
      assert msgs[..n] == msgs[..i] + [m];
      PrefixWellFormed(msgs, n);
      OpenerNext(msgs, i);
      hide Summarised, Kept, WithoutSummary, Shortened;
      assert m.Some? && (m.value.role.Assistant? || m.value.role.Tool?) ==> !IsSummary(m.value);
      if m.Some? && m.value.role.Tool? {
        assert m.value.callId in OpenCalls(msgs[..i]);
        GroupsStayTogether(msgs, i);
      }
      hide OpenCalls, WellFormed, IsSummary, Reserved, Opener, OpenerKept, FollowsCalls;
      var keeps := m.Some? && !Summarised(msgs, i) && !IsSummary(m.value);
      FollowingStep(msgs[..i], Shortened(msgs, i), m, keeps, OpenerKept(msgs, i));
      assert m.Some? && m.value.role.Assistant? ==> OpenerKept(msgs, n) == keeps;
    }
  }

  lemma PrefixWellFormed(h: History, n: nat)
    requires WellFormed(h) && n <= |h|
    ensures WellFormed(h[..n])
  {
    assert forall i :: 0 <= i < n ==> h[..n][..i] == h[..i];
  }

  /** The three histories a call can hand on. */
  lemma AssembledShape(k: Codec, o: Options, s: State, w: World, input: History)
    ensures var msgs, (s', r) := Injected(k, s.snapshot, s.restored, w.state, input), Assemble(k, o, s, w, input);
      r.Assembled? ==>
        (s'.restored
         && (r.messages == msgs || r.messages == Reduced(k, msgs)
             || (w.answer.Some? && r.messages ==
                  [Some(SummaryMessage(k, NextSnapshot(k, s, w.answer.value, Reduced(k, msgs))))]
                      + Shortened(Reduced(k, msgs), |Reduced(k, msgs)|))))
  {
    hide Injected, Reduced, Asks, Accepted, Kept, WithoutSummary, NextSnapshot;
  }

  /** No call ever hands the model a tool result without the call it answers: well-formed histories
      stay well formed, and so do their continuations. */
  lemma AssembledWellFormed(k: Codec, o: Options, s: State, w: World, input: History)
    requires WellFormed(input) && Reserved(input)
    ensures var r := Assemble(k, o, s, w, input).1;
      r.Assembled? ==> WellFormed(r.messages) && Reserved(r.messages)
  {
    var msgs := Injected(k, s.snapshot, s.restored, w.state, input);
    InjectedWellFormed(k, s.snapshot, s.restored, w.state, input);
    ReducedWellFormed(k, msgs);
    var reduced := Reduced(k, msgs);
    ShortenedWellFormed(reduced, |reduced|);
    ShortenedReserved(reduced, |reduced|);
    AssembledShape(k, o, s, w, input);
    hide Injected, Reduced, WellFormed, Assemble, Reserved, Shortened, NextSnapshot;
    if w.answer.Some? {
      var next := NextSnapshot(k, s, w.answer.value, reduced);
      SummaryPrepended(Shortened(reduced, |reduced|), SummaryMessage(k, next));
      ReservedPrepended(Shortened(reduced, |reduced|), SummaryMessage(k, next));
    }
  }

  lemma ReservedPrepended(h: History, m: Message)
    requires Reserved(h) && m.role.System?
    ensures Reserved([Some(m)] + h)
  {
  }

  lemma ReservedAdds(h: History, msgs: History, i: nat)
    requires Reserved(h) && Reserved(msgs) && i < |msgs|
    ensures Reserved(h + [msgs[i]])
  {
    hide IsState, IsSummary;
  }

  lemma {:induction false} ShortenedReserved(msgs: History, n: nat)
    requires Reserved(msgs) && n <= |msgs|
    ensures Reserved(Shortened(msgs, n))
    decreases n
  {
    hide Reserved, Summarised, IsState, IsSummary;
    if n > 0 {
      hide Shortened;
      ShortenedReserved(msgs, n - 1);
      ShortenedAdds(msgs, n - 1);
      ReservedAdds(Shortened(msgs, n - 1), msgs, n - 1);
    } else {
      assert Shortened(msgs, n) == [];
      NothingReserved();
    }
  }

  lemma NothingReserved()
    ensures Reserved([])
  {
  }

  // ---- what is preserved ----------------------------------------------------------------------

  predicate Within(a: seq<Message>, b: seq<Message>) {
    a == [] || (b != [] && ((a[|a| - 1] == b[|b| - 1] && Within(a[..|a| - 1], b[..|b| - 1]))
        || Within(a, b[..|b| - 1])))
  }

  function Present(h: History): seq<Message> {
    if h == [] then []
    else Present(h[..|h| - 1]) + if h[|h| - 1].Some? then [h[|h| - 1].value] else []
  }

  lemma PresentAdds(h: History, m: Option<Message>)
    ensures Present(h + [m]) == Present(h) + if m.Some? then [m.value] else []
  {
    assert (h + [m])[..|h|] == h;
  }

  /** Messages no rewriting may drop: system messages except superseded summaries, the latest user
      message and everything from the latest tool group on. */
  predicate Pins(msgs: History, i: nat)
    requires i < |msgs|
  {
    msgs[i].Some? && !IsSummary(msgs[i].value)
        && (msgs[i].value.role.System? || i == LastUser(msgs) || i >= LastGroup(msgs))
  }

  function Pinned(msgs: History, n: nat): seq<Message>
    requires n <= |msgs|
  {
    if n == 0 then [] else Pinned(msgs, n - 1) + if Pins(msgs, n - 1) then [msgs[n - 1].value] else []
  }

  lemma PinnedIsKept(msgs: History, i: nat)
    requires i < |msgs| && Pins(msgs, i)
    ensures !Summarised(msgs, i)
  {
  }

  lemma WithinAdds(a: seq<Message>, b: seq<Message>, x: seq<Message>, y: seq<Message>)
    requires Within(a, b) && (x == y || x == []) && |y| <= 1
    ensures Within(a + x, b + y)
  {
    if y == [] {
      assert a + x == a && b + y == b;
    } else {
      assert (b + y)[..|b|] == b;
      if x == [] { assert a + x == a; } else { assert (a + x)[..|a|] == a; }
    }
  }

  /** How the three lists grow with slot i: pinned implies staying, staying implies being there. */
  lemma SlotAdds(msgs: History, i: nat) returns (pin: seq<Message>, stay: seq<Message>, all: seq<Message>)
    requires i < |msgs|
    ensures Pinned(msgs, i + 1) == Pinned(msgs, i) + pin
    ensures Present(Shortened(msgs, i + 1)) == Present(Shortened(msgs, i)) + stay
    ensures Present(msgs[..i + 1]) == Present(msgs[..i]) + all
    ensures |stay| <= 1 && |all| <= 1 && (pin == stay || pin == []) && (stay == all || stay == [])
  {
    var m := msgs[i];
    pin := if Pins(msgs, i) then [m.value] else [];
    assert Pinned(msgs, i + 1) == Pinned(msgs, i) + pin;
    if Pins(msgs, i) { PinnedIsKept(msgs, i); }
    assert Pins(msgs, i) ==> m.Some? && !IsSummary(m.value);
    hide Summarised, Shortened, Present, Pinned, IsSummary, Pins;
    assert msgs[..i + 1] == msgs[..i] + [m];
    ShortenedAdds(msgs, i);
    PresentAdds(msgs[..i], m);
    PresentAdds(Shortened(msgs, i), m);
    stay := if m.Some? && !Summarised(msgs, i) && !IsSummary(m.value) then [m.value] else [];
    all := if m.Some? then [m.value] else [];
    assert Present(Shortened(msgs, i)) + [] == Present(Shortened(msgs, i));
  }

  lemma ShortenedKeepsStep(msgs: History, i: nat)
    requires i < |msgs| && Within(Pinned(msgs, i), Present(Shortened(msgs, i)))
    requires Within(Present(Shortened(msgs, i)), Present(msgs[..i]))
    requires Within(Pinned(msgs, i), Present(msgs[..i]))
    ensures Within(Pinned(msgs, i + 1), Present(Shortened(msgs, i + 1)))
    ensures Within(Present(Shortened(msgs, i + 1)), Present(msgs[..i + 1]))
    ensures Within(Pinned(msgs, i + 1), Present(msgs[..i + 1]))
  {
    hide *;
    var pin, stay, all := SlotAdds(msgs, i);
    WithinAdds(Pinned(msgs, i), Present(Shortened(msgs, i)), pin, stay);
    WithinAdds(Present(Shortened(msgs, i)), Present(msgs[..i]), stay, all);
    WithinAdds(Pinned(msgs, i), Present(msgs[..i]), pin, all);
  }

  /** In order: the pinned messages survive, and nothing else is invented. */
  lemma {:induction false} ShortenedKeeps(msgs: History, n: nat)
    requires n <= |msgs|
    ensures Within(Pinned(msgs, n), Present(Shortened(msgs, n)))
    ensures Within(Present(Shortened(msgs, n)), Present(msgs[..n]))
    ensures Within(Pinned(msgs, n), Present(msgs[..n]))
    decreases n
  {
    if n > 0 {
      hide *;
      ShortenedKeeps(msgs, n - 1);
      ShortenedKeepsStep(msgs, n - 1);
    }
  }

  lemma {:induction false} SameMarks(h: History, g: History)
    requires SameShape(h, g)
    ensures LastUser(g) == LastUser(h) && LastGroup(g) == LastGroup(h)
    decreases |h|
  {
    if h != [] { SameMarks(h[..|h| - 1], g[..|g| - 1]); }
  }

  lemma ReducedPins(k: Codec, msgs: History, i: nat)
    requires i < |msgs| && Reserved(msgs)
    ensures Pins(Reduced(k, msgs), i) == Pins(msgs, i) && (Pins(msgs, i) ==> Reduced(k, msgs)[i] == msgs[i])
  {
    var r := Reduced(k, msgs);
    assert SameShape(msgs, r) by {
      forall j | 0 <= j < |msgs| ensures r[j] == ReducedAt(k, msgs, j) { }
    }
    SameMarks(msgs, r);
    assert r[i] == ReducedAt(k, msgs, i);
    hide LastGroup, LastUser, Reduced, CallOf, SameShape;
  }

  /** Cutting down old reads leaves the pinned messages as they were. */
  lemma {:induction false} ReducedPinned(k: Codec, msgs: History, n: nat)
    requires n <= |msgs| && Reserved(msgs)
    ensures Pinned(Reduced(k, msgs), n) == Pinned(msgs, n)
    decreases n
  {
    if n > 0 {
      ReducedPinned(k, msgs, n - 1);
      ReducedPins(k, msgs, n - 1);
      hide Reduced, Pins, Reserved;
    }
  }

  lemma {:induction false} PresentPrepends(m: Message, h: History)
    ensures Present([Some(m)] + h) == [m] + Present(h)
    decreases |h|
  {
    if h == [] {
      assert [Some(m)] + h == [] + [Some(m)];
      PresentAdds([], Some(m));
    } else {
      var n := |h| - 1;
      PresentPrepends(m, h[..n]);
      assert [Some(m)] + h == ([Some(m)] + h[..n]) + [h[n]];
      PresentAdds([Some(m)] + h[..n], h[n]);
    }
  }

  lemma {:induction false} WithinPrepended(a: seq<Message>, b: seq<Message>, m: Message)
    requires Within(a, b)
    ensures Within(a, [m] + b)
    decreases |b|
  {
    if a != [] && b != [] {
      var n := |b| - 1;
      assert ([m] + b)[..|b|] == [m] + b[..n];
      if a[|a| - 1] == b[n] && Within(a[..|a| - 1], b[..n]) {
        WithinPrepended(a[..|a| - 1], b[..n], m);
      } else {
        WithinPrepended(a, b[..n], m);
      }
    }
  }

  /** However much is summarised away, the result keeps, in order, every pinned message of the
      history it was given, the fresh business state among them. */
  lemma AssembledPreserves(k: Codec, o: Options, s: State, w: World, input: History)
    requires Reserved(Injected(k, s.snapshot, s.restored, w.state, input))
    ensures var msgs, r := Injected(k, s.snapshot, s.restored, w.state, input), Assemble(k, o, s, w, input).1;
      r.Assembled? ==> Within(Pinned(msgs, |msgs|), Present(r.messages))
  {
    var msgs := Injected(k, s.snapshot, s.restored, w.state, input);
    var reduced := Reduced(k, msgs);
    ReducedPinned(k, msgs, |msgs|);
    ShortenedKeeps(msgs, |msgs|);
    ShortenedKeeps(reduced, |reduced|);
    assert msgs[..|msgs|] == msgs && reduced[..|reduced|] == reduced;
    AssembledShape(k, o, s, w, input);
    hide Injected, Reduced, Within, Present, Pinned, Assemble, Shortened, Reserved, NextSnapshot;
    if w.answer.Some? {
      var next := NextSnapshot(k, s, w.answer.value, reduced);
      PresentPrepends(SummaryMessage(k, next), Shortened(reduced, |reduced|));
      WithinPrepended(Pinned(reduced, |reduced|), Present(Shortened(reduced, |reduced|)), SummaryMessage(k, next));
    }
  }

  lemma {:induction false} OldStateFiltered(h: History, m: Message)
    requires !IsState(m)
    ensures WithoutOldState([Some(m)] + h) == [Some(m)] + WithoutOldState(h)
    decreases |h|
  {
    if h == [] {
      assert ([Some(m)] + h)[..0] == [];
    } else {
      OldStateFiltered(h[..|h| - 1], m);
      assert ([Some(m)] + h)[..|h|] == [Some(m)] + h[..|h| - 1];
    }
  }

  /** With business state, the history is the summary of an earlier attempt if there is one, the
      caller's messages without old state, and the state. */
  lemma InjectedIs(k: Codec, snapshot: Snapshot, restored: bool, state: string, input: History)
    requires state != ""
    ensures Injected(k, snapshot, restored, state, input) ==
      (if !restored && snapshot.version > 0 then [Some(SummaryMessage(k, snapshot))] else [])
      + WithoutOldState(input) + [Some(StateMessage(state))]
  {
    var m := SummaryMessage(k, snapshot);
    StateIsNoSummary(m);
    OldStateFiltered(input, m);
    var resumed := if !restored && snapshot.version > 0 then [Some(m)] + input else input;
    assert (resumed + [Some(StateMessage(state))])[..|resumed|] == resumed;
  }

  // ---- injected blocks do not pile up ---------------------------------------------------------

  predicate IsBlock(m: Message, summary: bool) {
    if summary then IsSummary(m) else IsState(m)
  }

  function Blocks(h: History, summary: bool): nat {
    if h == [] then 0
    else Blocks(h[..|h| - 1], summary) + if h[|h| - 1].Some? && IsBlock(h[|h| - 1].value, summary) then 1 else 0
  }

  lemma BlocksAdds(h: History, m: Option<Message>, summary: bool)
    ensures Blocks(h + [m], summary) == Blocks(h, summary) + if m.Some? && IsBlock(m.value, summary) then 1 else 0
  {
    assert (h + [m])[..|h|] == h;
  }

  lemma {:induction false} BlocksPrepends(m: Message, h: History, summary: bool)
    ensures Blocks([Some(m)] + h, summary) == Blocks(h, summary) + if IsBlock(m, summary) then 1 else 0
    decreases |h|
  {
    if h == [] {
      assert [Some(m)] + h == [] + [Some(m)];
      BlocksAdds([], Some(m), summary);
    } else {
      var n := |h| - 1;
      BlocksPrepends(m, h[..n], summary);
      assert [Some(m)] + h == ([Some(m)] + h[..n]) + [h[n]];
      BlocksAdds([Some(m)] + h[..n], h[n], summary);
    }
  }

  lemma {:induction false} OldStateBlocks(h: History)
    ensures Blocks(WithoutOldState(h), false) == 0 && Blocks(WithoutOldState(h), true) == Blocks(h, true)
    decreases |h|
  {
    if h != [] {
      var front, last := h[..|h| - 1], h[|h| - 1];
      OldStateBlocks(front);
      BlocksAdds(WithoutOldState(front), last, true);
      BlocksAdds(WithoutOldState(front), last, false);
      if last.Some? { StateIsNoSummary(last.value); }
      hide IsState, IsSummary;
    }
  }

  lemma {:induction false} ShortenedBlocks(msgs: History, n: nat)
    requires Reserved(msgs) && n <= |msgs|
    ensures Blocks(Shortened(msgs, n), true) == 0 && Blocks(Shortened(msgs, n), false) == Blocks(msgs[..n], false)
    decreases n
  {
    if n > 0 {
      var i, m := n - 1, msgs[n - 1];
      ShortenedBlocks(msgs, i);
      ShortenedAdds(msgs, i);
      assert msgs[..n] == msgs[..i] + [m];
      BlocksAdds(msgs[..i], m, false);
      BlocksAdds(Shortened(msgs, i), m, true);
      BlocksAdds(Shortened(msgs, i), m, false);
      if m.Some? { StateIsNoSummary(m.value); }
      if m.Some? && IsState(m.value) { assert !Summarised(msgs, i); }
      hide Shortened, Blocks, IsState, IsSummary, Summarised;
    }
  }

  lemma {:induction false} SameBlocks(h: History, g: History, summary: bool)
    requires |h| == |g|
    requires forall i :: 0 <= i < |h| ==>
        h[i].Some? == g[i].Some? && (h[i].Some? ==> IsBlock(h[i].value, summary) == IsBlock(g[i].value, summary))
    ensures Blocks(h, summary) == Blocks(g, summary)
    decreases |h|
  {
    if h != [] { SameBlocks(h[..|h| - 1], g[..|g| - 1], summary); }
  }

  lemma ReducedBlocks(k: Codec, msgs: History, summary: bool)
    requires Reserved(msgs)
    ensures Blocks(Reduced(k, msgs), summary) == Blocks(msgs, summary)
  {
    var r := Reduced(k, msgs);
    forall i | 0 <= i < |msgs|
      ensures msgs[i].Some? == r[i].Some?
      ensures msgs[i].Some? ==> IsBlock(msgs[i].value, summary) == IsBlock(r[i].value, summary)
    {
      assert r[i] == ReducedAt(k, msgs, i);
      if r[i] != msgs[i] { assert ReducedPrefix <= r[i].value.content && r[i].value.content[0] == ReducedPrefix[0]; }
    }
    SameBlocks(msgs, r, summary);
  }

  lemma InjectedBlocks(k: Codec, s: State, state: string, input: History)
    requires state != "" && Blocks(input, true) <= if s.restored then 1 else 0
    ensures var msgs := Injected(k, s.snapshot, s.restored, state, input);
      Blocks(msgs, false) == 1 && Blocks(msgs, true) <= 1
  {
    InjectedIs(k, s.snapshot, s.restored, state, input);
    OldStateBlocks(input);
    var m := SummaryMessage(k, s.snapshot);
    var body := (if !s.restored && s.snapshot.version > 0 then [Some(m)] else []) + WithoutOldState(input);
    StateIsNoSummary(m);
    StateIsNoSummary(StateMessage(state));
    BlocksPrepends(m, WithoutOldState(input), true);
    BlocksPrepends(m, WithoutOldState(input), false);
    assert !(!s.restored && s.snapshot.version > 0) ==> body == WithoutOldState(input);
    BlocksAdds(body, Some(StateMessage(state)), true);
    BlocksAdds(body, Some(StateMessage(state)), false);
    hide Injected, WithoutOldState, Blocks;
  }

  /** A history handed on holds one state block and at most one summary, and so do the histories
      built on it: nothing piles up. */
  lemma AssembledBlocks(k: Codec, o: Options, s: State, w: World, input: History)
    requires w.state != "" && Blocks(input, true) <= (if s.restored then 1 else 0)
    requires Reserved(Injected(k, s.snapshot, s.restored, w.state, input))
    ensures var (s', r) := Assemble(k, o, s, w, input);
      r.Assembled? ==> s'.restored && Blocks(r.messages, false) == 1 && Blocks(r.messages, true) <= 1
  {
    var msgs := Injected(k, s.snapshot, s.restored, w.state, input);
    var reduced := Reduced(k, msgs);
    InjectedBlocks(k, s, w.state, input);
    ReducedBlocks(k, msgs, true);
    ReducedBlocks(k, msgs, false);
    ReducedReserved(k, msgs);
    ShortenedBlocks(reduced, |reduced|);
    assert reduced[..|reduced|] == reduced;
    AssembledShape(k, o, s, w, input);
    hide Injected, Reduced, Assemble, Shortened, Blocks, Reserved, NextSnapshot;
    if w.answer.Some? {
      var m := SummaryMessage(k, NextSnapshot(k, s, w.answer.value, reduced));
      StateIsNoSummary(m);
      BlocksPrepends(m, Shortened(reduced, |reduced|), true);
      BlocksPrepends(m, Shortened(reduced, |reduced|), false);
      assert IsSummary(m);
    }
  }

  lemma ReducedReserved(k: Codec, msgs: History)
    requires Reserved(msgs)
    ensures Reserved(Reduced(k, msgs))
  {
    var r := Reduced(k, msgs);
    forall i | 0 <= i < |msgs| && msgs[i].Some?
      ensures r[i].Some? && r[i].value.role == msgs[i].value.role
      ensures r[i] == msgs[i] || (!IsState(r[i].value) && !IsSummary(r[i].value))
    {
      assert r[i] == ReducedAt(k, msgs, i);
      if r[i] != msgs[i] { assert ReducedPrefix <= r[i].value.content && r[i].value.content[0] == ReducedPrefix[0]; }
    }
  }

  // ---- a whole session ------------------------------------------------------------------------

  datatype Turn = Turn(world: World, input: History)

  function Identifiers(ms: seq<Material>): set<string> {
    set i | 0 <= i < |ms| :: ms[i].id
  }

  /** The sources one call gives to the summariser. */
  function Offered(k: Codec, o: Options, s: State, t: Turn): set<string> {
    var reduced := Reduced(k, Injected(k, s.snapshot, s.restored, t.world.state, t.input));
    if Asks(k, o, s, t.world, reduced) then Identifiers(Materials(k, reduced, |reduced|)) else {}
  }

  ghost function Session(k: Codec, o: Options, s: State, turns: seq<Turn>): State {
    if turns == [] then s
    else
      var last := turns[|turns| - 1];
      Assemble(k, o, Session(k, o, s, turns[..|turns| - 1]), last.world, last.input).0
  }

  ghost function OfferedIn(k: Codec, o: Options, s: State, turns: seq<Turn>): set<string> {
    if turns == [] then {}
    else
      OfferedIn(k, o, s, turns[..|turns| - 1])
      + Offered(k, o, Session(k, o, s, turns[..|turns| - 1]), turns[|turns| - 1])
  }

  /** What the snapshot of a later moment owes to an earlier one. */
  ghost predicate Descends(before: Snapshot, after: Snapshot, sources: set<string>) {
    && after.version >= before.version
    && (after.version == before.version ==> after == before)
    && (forall c :: c in before.summary.constraints ==> c in after.summary.constraints)
    && (forall id :: Cited(after.summary, id) ==> Cited(before.summary, id) || id in sources)
  }

  lemma AssembleDescends(k: Codec, o: Options, s: State, t: Turn)
    ensures var s' := Assemble(k, o, s, t.world, t.input).0;
      && Descends(s.snapshot, s'.snapshot, Offered(k, o, s, t))
      && (s'.snapshot != s.snapshot ==> s'.snapshot.version == s.snapshot.version + 1)
  {
    var reduced := Reduced(k, Injected(k, s.snapshot, s.restored, t.world.state, t.input));
    hide Injected, Reduced, Candidate, Materials;
    if Asks(k, o, s, t.world, reduced) && Usable(k, o, s, t.world, reduced) {
      hide Asks;
      AcceptedDescends(k, t.world.answer.value, RequestOf(k, s.snapshot, reduced));
      hide Accepted, Cited;
    }
  }

  lemma AcceptedDescends(k: Codec, summary: Summary, r: Request)
    requires Accepted(k, summary, r)
    ensures forall c :: c in r.previous.constraints ==> c in summary.constraints
    ensures forall id :: Cited(summary, id) ==> Cited(r.previous, id) || id in Identifiers(r.materials)
  {
    hide Cited;
  }

  /** Compaction over a session: versions only grow, user constraints never disappear, and every
      cited source was carried from the start or given to the summariser on the way. */
  lemma {:induction false} SessionDescends(k: Codec, o: Options, s: State, turns: seq<Turn>)
    ensures Descends(s.snapshot, Session(k, o, s, turns).snapshot, OfferedIn(k, o, s, turns))
    decreases |turns|
  {
    if turns != [] {
      var front, last := turns[..|turns| - 1], turns[|turns| - 1];
      SessionDescends(k, o, s, front);
      AssembleDescends(k, o, Session(k, o, s, front), last);
      hide Assemble, Offered, Cited;
    }
  }

  /** A call that assembles nothing leaves the manager's summary as it was, and ends as saving does: in
      failure, in a stop of the run, or, with nowhere to save, as too large. One whose summary was good but
      could not be saved leaves the manager exactly as it was. */
  lemma FailedCommitChangesNothing(k: Codec, o: Options, s: State, w: World, input: History)
    ensures var (s', r) := Assemble(k, o, s, w, input);
      var reduced := Reduced(k, Injected(k, s.snapshot, s.restored, w.state, input));
      && (!r.Assembled? ==> s'.snapshot == s.snapshot && s'.restored == s.restored)
      && (!r.Assembled? && s' != s ==> Asks(k, o, s, w, reduced) && !Usable(k, o, s, w, reduced))
      && (r.CommitFailed? <==> !r.Assembled? && (w.commit.Suspended? || w.commit.Broken?))
      && (r.Stopped? <==> !r.Assembled? && w.commit.Saved? && w.hooked)
  {
    hide Injected, Reduced, Candidate, Asks, Usable, NextSnapshot;
  }

  // ---- the manager object ---------------------------------------------------------------------

  /** The workflow's summaries, saved at the node's safe point. */
  class Binding {
    var summaries: map<string, Snapshot>

    constructor ()
      ensures summaries == map[]
    {
      summaries := map[];
    }

    /** A failed save takes the summary back; a deliberate suspension has already stored it. */
    method Commit(name: string, next: Snapshot, saving: Commit) returns (ok: bool)
      modifies this
      ensures ok <==> !saving.Suspended? && !saving.Broken?
      ensures summaries == if saving.Broken? then old(summaries) else old(summaries)[name := next]
    {
      var exists_, was := name in summaries, next;
      if exists_ {
        was := summaries[name];
      }
      summaries := summaries[name := next];
      if saving.Suspended? || saving.Broken? {
        if !saving.Suspended? {
          if exists_ {
            summaries := summaries[name := was];
          } else {
            summaries := summaries - {name};
          }
          assert summaries == old(summaries);
        }
        return false;
      }
      return true;
    }

    /** The run is saved at its safe point and stopped there. */
    method Block(saving: Commit, hooked: bool) returns (r: Result)
      requires !saving.NoBinding?
      ensures r == if saving.Saved? then (if hooked then Stopped else TooLarge) else CommitFailed
    {
      if saving.Suspended? || saving.Broken? { return CommitFailed; }
      if hooked { return Stopped; }
      return TooLarge;
    }
  }
}
