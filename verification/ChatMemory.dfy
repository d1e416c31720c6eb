/** Conversation memory: numbered turns, summaries with a coverage watermark, and the loops that choose
    and summarise what is covered. */
module ChatMemory {
  import opened TaskTypes

  // ---- the cutoff -----------------------------------------------------------------------------

  ghost predicate Ascending(turns: seq<int>) {
    forall i, j :: 0 <= i < j < |turns| ==> turns[i] <= turns[j]
  }

  /** The largest turn before the retained ones, of those that lie wholly before them. */
  ghost predicate IsCutoff(turns: seq<int>, keep: int, cutoff: int) {
    && 1 <= keep < |turns| && cutoff < turns[|turns| - keep]
    && (exists i :: 0 <= i < |turns| - keep && turns[i] == cutoff)
    && (forall i :: 0 <= i < |turns| - keep && turns[i] < turns[|turns| - keep] ==> turns[i] <= cutoff)
  }

  /** The largest turn that lies wholly before the last `keep` records, if any. */
  method SummaryCutoff(turns: seq<int>, keep: int) returns (cutoff: Option<int>)
    ensures cutoff.Some? ==> IsCutoff(turns, keep, cutoff.value)
    ensures cutoff.None? <==>
              keep < 1 || |turns| <= keep || forall i :: 0 <= i < |turns| - keep ==> turns[i] >= turns[|turns| - keep]
  {
    if keep < 1 || |turns| <= keep { return None; }
    var firstRetained := turns[|turns| - keep];
    cutoff := None;
    for i := 0 to |turns| - keep
      invariant cutoff.None? <==> forall j :: 0 <= j < i ==> turns[j] >= firstRetained
      invariant cutoff.Some? ==> cutoff.value < firstRetained && exists j :: 0 <= j < i && turns[j] == cutoff.value
      invariant cutoff.Some? ==> forall j :: 0 <= j < i && turns[j] < firstRetained ==> turns[j] <= cutoff.value
    {
      if turns[i] < firstRetained && (cutoff.None? || turns[i] > cutoff.value) {
        cutoff := Some(turns[i]);
      }
    }
  }

  /** The cutoff never covers the last `keep` records, covers something, and splits no turn: among
      ascending turns the covered records are exactly the ones before the retained turn. */
  lemma CutoffSplitsNoTurn(turns: seq<int>, keep: int, cutoff: int)
    requires Ascending(turns) && IsCutoff(turns, keep, cutoff)
    ensures forall i :: |turns| - keep <= i < |turns| ==> turns[i] > cutoff
    ensures forall i :: 0 <= i < |turns| ==> (turns[i] <= cutoff <==> turns[i] < turns[|turns| - keep])
    ensures turns[0] <= cutoff
  {
  }

  // ---- batches --------------------------------------------------------------------------------

  function Flatten<M>(batches: seq<seq<M>>): seq<M> {
    if batches == [] then [] else Flatten(batches[..|batches| - 1]) + batches[|batches| - 1]
  }

  /** The summariser as the program calls it: an answer for a batch, None for an error. */
  datatype Agent<!M> = Agent(
    answer: seq<M> -> Option<string>, asMessage: string -> M,
    size: seq<M> -> nat, bytes: string -> nat, blank: string -> bool)

  function Request<M>(g: Agent<M>, previous: Option<string>, batch: seq<M>): seq<M> {
    (if previous.Some? then [g.asMessage(previous.value)] else []) + batch
  }

  /** Summarising batch after batch, each with the summary of the ones before. */
  function Chain<M>(g: Agent<M>, batches: seq<seq<M>>): Option<string> {
    if batches == [] then None
    else g.answer(Request(g, Chain(g, batches[..|batches| - 1]), batches[|batches| - 1]))
  }

  predicate Usable<M>(g: Agent<M>, answer: Option<string>) {
    answer.Some? && !g.blank(answer.value) && g.bytes(answer.value) <= 6000
  }

  /** Every batch is non-empty, fits the model together with the running summary, and got a usable answer. */
  predicate Fitting<M>(g: Agent<M>, batches: seq<seq<M>>, limit: int) {
    batches == [] ||
    var front, last := batches[..|batches| - 1], batches[|batches| - 1];
    && Fitting(g, front, limit) && |last| > 0
    && g.size(Request(g, Chain(g, front), last)) < limit && Usable(g, Chain(g, batches))
  }

  lemma BatchAdds<M>(g: Agent<M>, batches: seq<seq<M>>, batch: seq<M>, limit: int)
    requires Fitting(g, batches, limit) && batch != [] && g.size(Request(g, Chain(g, batches), batch)) < limit
    requires Usable(g, g.answer(Request(g, Chain(g, batches), batch)))
    ensures Fitting(g, batches + [batch], limit)
    ensures Chain(g, batches + [batch]) == g.answer(Request(g, Chain(g, batches), batch))
    ensures Flatten(batches + [batch]) == Flatten(batches) + batch
  {
    assert (batches + [batch])[..|batches|] == batches;
  }

  lemma NoBatches<M>(g: Agent<M>, limit: int)
    ensures Flatten<M>([]) == [] && Fitting(g, [], limit) && Chain(g, []) == None
  {
  }

  /** The summariser reads each batch after the summary of all the batches before it, and nothing else. */
  lemma {:induction false} EachBatchContinues<M>(g: Agent<M>, batches: seq<seq<M>>, limit: int, i: nat)
    requires Fitting(g, batches, limit) && i < |batches|
    ensures i > 0 ==> Chain(g, batches[..i]).Some?
    ensures Chain(g, batches[..i + 1])
         == g.answer((if i == 0 then [] else [g.asMessage(Chain(g, batches[..i]).value)]) + batches[i])
    decreases |batches|
  {
    if i < |batches| - 1 {
      EachBatchContinues(g, batches[..|batches| - 1], limit, i);
      assert batches[..|batches| - 1][..i + 1] == batches[..i + 1] && batches[..|batches| - 1][..i] == batches[..i];
    } else {
      assert batches[..i + 1] == batches && batches[..i] == batches[..|batches| - 1];
      if i > 0 { assert Fitting(g, batches[..i], limit); }
    }
  }

  lemma LastIsUsable<M>(g: Agent<M>, batches: seq<seq<M>>, limit: int)
    requires Fitting(g, batches, limit) && Flatten(batches) != []
    ensures Usable(g, Chain(g, batches))
  {
  }

  /** Takes as many messages as fit beside the running summary. */
  method FillBatch<M>(g: Agent<M>, summary: Option<string>, messages: seq<M>, limit: int)
    returns (batch: seq<M>, rest: seq<M>)
    ensures batch + rest == messages
    ensures batch != [] ==> g.size(Request(g, summary, batch)) < limit
    ensures rest != [] ==> g.size(Request(g, summary, batch + [rest[0]])) >= limit
  {
    hide Request;
    batch, rest := [], messages;
    while |rest| > 0 && g.size(Request(g, summary, batch + [rest[0]])) < limit
      invariant batch + rest == messages
      invariant batch != [] ==> g.size(Request(g, summary, batch)) < limit
      decreases |rest|
    {
      assert batch + rest == batch + [rest[0]] + rest[1..];
      batch := batch + [rest[0]];
      rest := rest[1..];
    }
  }

  /** Greedy batches, one after the other. Success means every message went into exactly one batch,
      in order; it fails when a single message does not fit or an answer is unusable. */
  method SummarizeBatches<M>(g: Agent<M>, messages: seq<M>, limit: int)
    returns (ok: bool, summary: Option<string>, batches: seq<seq<M>>)
    ensures Flatten(batches) <= messages && Fitting(g, batches, limit) && summary == Chain(g, batches)
    ensures ok ==> Flatten(batches) == messages && (messages != [] ==> Usable(g, summary))
    ensures !ok ==> Flatten(batches) < messages
  {
    batches, summary := [], None;
    hide Flatten, Fitting, Chain, Request;
    NoBatches(g, limit);
    var rest := messages;
    assert [] + messages == messages;
    while |rest| > 0
      invariant Flatten(batches) + rest == messages && Fitting(g, batches, limit) && summary == Chain(g, batches)
      decreases |rest|
    {
      var batch, left := FillBatch(g, summary, rest, limit);
      if |left| == |rest| { return false, summary, batches; }
      var answer := g.answer(Request(g, summary, batch));
      if answer.None? || g.blank(answer.value) || g.bytes(answer.value) > 6000 { return false, summary, batches; }
      BatchAdds(g, batches, batch, limit);
      assert Flatten(batches) + (batch + left) == (Flatten(batches) + batch) + left;
      batches := batches + [batch];
      summary := answer;
      rest := left;
    }
    assert Flatten(batches) + rest == Flatten(batches);
    if messages != [] { LastIsUsable(g, batches, limit); }
    return true, summary, batches;
  }

  // ---- no turn is lost --------------------------------------------------------------------------

  /** `live` is false once the app was deleted; `bytes` is the length of the record's encoding. */
  datatype Message = Message(turn: int, live: bool, bytes: nat)

  /** `covered` collects the messages that went into the summary or into those it continues. */
  datatype Summary = Summary(watermark: int, live: bool, covered: set<int>)

  /** A summary being computed from what was loaded; `base` counts the summaries there were then. */
  datatype Draft = Draft(cutoff: int, covered: set<int>, base: nat)

  /** One app's conversation; it is open until the app is deleted. */
  datatype Memory = Memory(messages: seq<Message>, summaries: seq<Summary>, drafts: map<int, Draft>, open: bool)

  function Highest(ms: seq<Message>): int {
    if ms == [] then 0
    else
      var front, last := Highest(ms[..|ms| - 1]), ms[|ms| - 1];
      if last.live && last.turn > front then last.turn else front
  }

  function HighestMark(ss: seq<Summary>): int {
    if ss == [] then 0
    else
      var front, last := HighestMark(ss[..|ss| - 1]), ss[|ss| - 1];
      if last.live && last.watermark > front then last.watermark else front
  }

  /** The last turn of the conversation, summaries included, as the append transaction reads it. */
  function LastTurn(m: Memory): int {
    if Highest(m.messages) > HighestMark(m.summaries) then Highest(m.messages) else HighestMark(m.summaries)
  }

  /** The newest summary still valid. */
  function Latest(ss: seq<Summary>): Option<Summary> {
    if ss == [] then None else if ss[|ss| - 1].live then Some(ss[|ss| - 1]) else Latest(ss[..|ss| - 1])
  }

  /** The watermark of the newest summary still valid. */
  function Mark(m: Memory): Option<int> {
    if Latest(m.summaries).Some? then Some(Latest(m.summaries).value.watermark) else None
  }

  predicate Above(ms: seq<Message>, mark: Option<int>, i: nat)
    requires i < |ms|
  {
    ms[i].live && (mark.None? || ms[i].turn > mark.value)
  }

  /** The messages above a watermark, oldest first, of the first n. */
  function Beyond(ms: seq<Message>, mark: Option<int>, n: nat): (r: seq<int>)
    requires n <= |ms|
    ensures forall x :: x in r ==> 0 <= x < n
  {
    if n == 0 then [] else Beyond(ms, mark, n - 1) + if Above(ms, mark, n - 1) then [n - 1] else []
  }

  /** The messages a load returns. */
  function Uncovered(m: Memory): (r: seq<int>)
    ensures forall x :: x in r ==> 0 <= x < |m.messages|
  {
    Beyond(m.messages, Mark(m), |m.messages|)
  }

  function Turns(ms: seq<Message>, ids: seq<int>): (r: seq<int>)
    requires forall x :: x in ids ==> 0 <= x < |ms|
    ensures |r| == |ids|
  {
    seq(|ids|, i requires 0 <= i < |ids| => (assert ids[i] in ids; ms[ids[i]].turn))
  }

  /** The length of the encoded list: brackets, separators and records. */
  function Encoded(ms: seq<Message>, ids: seq<int>): nat
    requires forall x :: x in ids ==> 0 <= x < |ms|
  {
    if ids == [] then 1
    else
      var front, last := ids[..|ids| - 1], ids[|ids| - 1];
      assert last in ids && forall x :: x in front ==> x in ids;
      Encoded(ms, front) + 1 + ms[last].bytes
  }

  /** The field names alone take more. */
  const SmallestRecord: nat := 100

  /** A conversation is worth summarising from sixteen records on, or four long ones. */
  predicate Needed(ms: seq<Message>, ids: seq<int>)
    requires forall x :: x in ids ==> 0 <= x < |ms|
  {
    |ids| >= 4 && (|ids| >= 16 || Encoded(ms, ids) >= 12000)
  }

  /** How many records a summary leaves out. */
  function Kept(ms: seq<Message>, ids: seq<int>): int
    requires forall x :: x in ids ==> 0 <= x < |ms|
  {
    if Encoded(ms, ids) > 12000 then 2 else 12
  }

  datatype Step =
    | Append(user: bool, bytes: nat)
    | Load(id: int, cutoff: int)
    | Save(id: int)
    | Abandon(id: int)
    | Delete

  /** Loading is refused beyond a thousand messages; appending needs the app, under its row lock. A
      summariser may give up instead of saving. */
  ghost predicate Allowed(m: Memory, step: Step) {
    match step
    case Append(_, bytes) => m.open && bytes >= SmallestRecord
    case Load(id, cutoff) =>
      var ids := Uncovered(m);
      && id !in m.drafts && |ids| <= 1000 && Needed(m.messages, ids)
      && IsCutoff(Turns(m.messages, ids), Kept(m.messages, ids), cutoff)
    case Save(id) => id in m.drafts
    case Abandon(id) => id in m.drafts
    case Delete => m.open
  }

  ghost function Next(m: Memory, step: Step): Memory {
    match step
    case Append(user, bytes) =>
      m.(messages := m.messages + [Message(LastTurn(m) + if user then 1 else 0, true, bytes)])
    case Load(id, cutoff) =>
      var loaded := set x | x in Uncovered(m) && m.messages[x].turn <= cutoff;
      var before := if Latest(m.summaries).Some? then Latest(m.summaries).value.covered else {};
      m.(drafts := m.drafts[id := Draft(cutoff, before + loaded, |m.summaries|)])
    case Save(id) =>
      if id !in m.drafts then m
      else
        var saved := Summary(m.drafts[id].cutoff, true, m.drafts[id].covered);
        m.(summaries := m.summaries + [saved], drafts := m.drafts - {id})
    case Abandon(id) => m.(drafts := m.drafts - {id})
    case Delete =>
      Memory(seq(|m.messages|, i requires 0 <= i < |m.messages| => m.messages[i].(live := false)),
             seq(|m.summaries|, i requires 0 <= i < |m.summaries| => m.summaries[i].(live := false)),
             m.drafts, false)
  }

  /** A watermark covers every message at or below it, and messages above it exist. */
  ghost predicate Covers(m: Memory, watermark: int, covered: set<int>) {
    && watermark < Highest(m.messages)
    && forall i :: 0 <= i < |m.messages| && m.messages[i].live && m.messages[i].turn <= watermark ==> i in covered
  }

  ghost predicate Conversation(m: Memory) {
    && (forall i :: 0 <= i < |m.messages| ==> m.messages[i].live)
    && (forall i :: 0 <= i < |m.summaries| ==> m.summaries[i].live)
    && (forall i, j :: 0 <= i < j < |m.messages| ==> m.messages[i].turn <= m.messages[j].turn)
    && (forall i :: 0 <= i < |m.summaries| ==> Covers(m, m.summaries[i].watermark, m.summaries[i].covered))
    && (forall id :: id in m.drafts ==> Covers(m, m.drafts[id].cutoff, m.drafts[id].covered))
  }

  /** The newest summary of all has the watermark the draft was computed above, unless others came since. */
  ghost predicate DraftsAbove(m: Memory) {
    forall id :: id in m.drafts ==>
      && m.drafts[id].base <= |m.summaries|
      && (m.drafts[id].base > 0 ==> m.drafts[id].cutoff > m.summaries[m.drafts[id].base - 1].watermark)
  }

  /** Only summaries computed before the deletion and saved after it are live. */
  ghost predicate Deleted(m: Memory) {
    && (forall i :: 0 <= i < |m.messages| ==> !m.messages[i].live)
    && (forall id, i :: id in m.drafts && 0 <= i < m.drafts[id].base && i < |m.summaries| ==> !m.summaries[i].live)
  }

  ghost predicate Inv(m: Memory) {
    && DraftsAbove(m)
    && (forall i :: 0 <= i < |m.messages| ==> m.messages[i].bytes >= SmallestRecord)
    && (if m.open then Conversation(m) else Deleted(m))
  }

  lemma {:induction false} HighestIsMax(ms: seq<Message>)
    ensures forall i :: 0 <= i < |ms| && ms[i].live ==> ms[i].turn <= Highest(ms)
    ensures Highest(ms) == 0 || exists i :: 0 <= i < |ms| && ms[i].live && ms[i].turn == Highest(ms)
    decreases |ms|
  {
    if ms != [] {
      HighestIsMax(ms[..|ms| - 1]);
      assert forall i :: 0 <= i < |ms| - 1 ==> ms[..|ms| - 1][i] == ms[i];
    }
  }

  lemma {:induction false} LatestIsLive(ss: seq<Summary>)
    ensures Latest(ss).Some? ==> exists i :: 0 <= i < |ss| && ss[i] == Latest(ss).value && ss[i].live
    decreases |ss|
  {
    if ss != [] && !ss[|ss| - 1].live { LatestIsLive(ss[..|ss| - 1]); }
  }

  lemma {:induction false} BeyondIs(ms: seq<Message>, mark: Option<int>, n: nat)
    requires n <= |ms|
    ensures forall x :: x in Beyond(ms, mark, n) <==> 0 <= x < n && Above(ms, mark, x)
    ensures forall i, j :: 0 <= i < j < |Beyond(ms, mark, n)| ==> Beyond(ms, mark, n)[i] < Beyond(ms, mark, n)[j]
    decreases n
  {
    if n > 0 {
      BeyondIs(ms, mark, n - 1);
      hide Above;
      var u := Beyond(ms, mark, n - 1);
      assert forall i :: 0 <= i < |u| ==> u[i] in u;
    }
  }

  // ---- every step keeps coverage ----------------------------------------------------------------

  lemma AppendedTurn(m: Memory)
    requires Inv(m) && m.open
    ensures LastTurn(m) >= Highest(m.messages)
    ensures forall i :: 0 <= i < |m.messages| ==> m.messages[i].turn <= LastTurn(m)
  {
    HighestIsMax(m.messages);
  }

  lemma AppendKeeps(m: Memory, user: bool, bytes: nat)
    requires Inv(m) && m.open && bytes >= SmallestRecord
    ensures Inv(Next(m, Append(user, bytes)))
  {
    AppendedTurn(m);
    var m' := Next(m, Append(user, bytes));
    var added := m'.messages[|m.messages|];
    assert m'.messages[..|m.messages|] == m.messages;
    assert Highest(m'.messages) >= Highest(m.messages);
    hide Highest, HighestMark;
    forall w, covered: set<int> | Covers(m, w, covered)
      ensures Covers(m', w, covered)
    {
      assert w < Highest(m.messages) <= added.turn;
    }
  }

  lemma {:induction false} NothingBeyond(ms: seq<Message>, mark: Option<int>, n: nat)
    requires n <= |ms| && forall i :: 0 <= i < |ms| ==> !ms[i].live
    ensures Beyond(ms, mark, n) == []
    decreases n
  {
    if n > 0 { NothingBeyond(ms, mark, n - 1); }
  }

  lemma LatestIsLast(m: Memory)
    requires Inv(m)
    ensures m.open && m.summaries != [] ==> Latest(m.summaries) == Some(m.summaries[|m.summaries| - 1])
  {
  }

  /** A cutoff lies above the watermark it was computed from. */
  lemma LoadAbove(m: Memory, id: int, cutoff: int)
    requires Inv(m) && m.open && Allowed(m, Load(id, cutoff)) && m.summaries != []
    ensures cutoff > m.summaries[|m.summaries| - 1].watermark
  {
    var ids := Uncovered(m);
    BeyondIs(m.messages, Mark(m), |m.messages|);
    LatestIsLast(m);
    var keep := Kept(m.messages, ids);
    hide Beyond, Uncovered, Latest, Inv, Covers, Needed, Kept;
    var last :| 0 <= last < |ids| - keep && Turns(m.messages, ids)[last] == cutoff;
    assert ids[last] in ids && Above(m.messages, Mark(m), ids[last]);
  }

  /** A message above the cutoff was loaded and is retained. */
  lemma CutoffBelowHighest(m: Memory, id: int, cutoff: int)
    requires Allowed(m, Load(id, cutoff))
    ensures cutoff < Highest(m.messages)
  {
    var ids := Uncovered(m);
    var turns, keep := Turns(m.messages, ids), Kept(m.messages, ids);
    BeyondIs(m.messages, Mark(m), |m.messages|);
    HighestIsMax(m.messages);
    hide Beyond, Highest, Latest, Needed, Kept;
    var kept := ids[|ids| - keep];
    assert kept in ids && turns[|ids| - keep] == m.messages[kept].turn;
  }

  /** The draft of a load covers everything up to its cutoff: what it loaded, and what the summary
      it continues covered. */
  lemma LoadCovers(m: Memory, id: int, cutoff: int)
    requires Inv(m) && m.open && Allowed(m, Load(id, cutoff))
    ensures Covers(m, cutoff, Next(m, Load(id, cutoff)).drafts[id].covered)
  {
    CutoffBelowHighest(m, id, cutoff);
    BeyondIs(m.messages, Mark(m), |m.messages|);
    LatestIsLive(m.summaries);
    hide Beyond, Highest, Latest, Needed, Kept, Allowed;
    forall i | 0 <= i < |m.messages| && m.messages[i].live && m.messages[i].turn <= cutoff
      ensures i in Next(m, Load(id, cutoff)).drafts[id].covered
    {
      if Above(m.messages, Mark(m), i) { assert i in Uncovered(m); }
    }
  }

  lemma LoadKeeps(m: Memory, id: int, cutoff: int)
    requires Inv(m) && Allowed(m, Load(id, cutoff))
    ensures Inv(Next(m, Load(id, cutoff)))
  {
    if m.open {
      LoadCovers(m, id, cutoff);
      if m.summaries != [] { LoadAbove(m, id, cutoff); }
      var m' := Next(m, Load(id, cutoff));
      hide Needed, Uncovered;
      forall w, covered: set<int> | Covers(m, w, covered) ensures Covers(m', w, covered) { }
    } else {
      NothingBeyond(m.messages, Mark(m), |m.messages|);
    }
  }

  lemma SaveKeeps(m: Memory, id: int)
    requires Inv(m) && id in m.drafts
    ensures Inv(Next(m, Save(id)))
  {
    var m' := Next(m, Save(id));
    forall w, covered: set<int> | Covers(m, w, covered) ensures Covers(m', w, covered) { }
    hide Covers;
  }

  lemma AbandonKeeps(m: Memory, id: int)
    requires Inv(m)
    ensures Inv(Next(m, Abandon(id)))
  {
    var m' := Next(m, Abandon(id));
    forall w, covered: set<int> | Covers(m, w, covered) ensures Covers(m', w, covered) { }
    hide Covers;
  }

  lemma DeleteKeeps(m: Memory)
    requires Inv(m)
    ensures Inv(Next(m, Delete))
  {
    hide Covers;
  }

  lemma NextKeeps(m: Memory, step: Step)
    requires Inv(m) && Allowed(m, step)
    ensures Inv(Next(m, step))
  {
    hide Inv, Next;
    match step
    case Append(user, bytes) => AppendKeeps(m, user, bytes);
    case Load(id, cutoff) => LoadKeeps(m, id, cutoff);
    case Save(id) => SaveKeeps(m, id);
    case Abandon(id) => AbandonKeeps(m, id);
    case Delete => DeleteKeeps(m);
  }

  const Boot := Memory([], [], map[], true)

  ghost function Reached(steps: seq<Step>): Memory {
    if steps == [] then Boot else Next(Reached(steps[..|steps| - 1]), steps[|steps| - 1])
  }

  ghost predicate Legal(steps: seq<Step>) {
    forall i :: 0 <= i < |steps| ==> Allowed(Reached(steps[..i]), steps[i])
  }

  lemma BootInv()
    ensures Inv(Boot)
  {
  }

  lemma {:induction false} ReachedInv(steps: seq<Step>)
    requires Legal(steps)
    ensures Inv(Reached(steps))
    decreases |steps|
  {
    hide Inv, Next, Allowed;
    if steps == [] {
      BootInv();
    } else {
      var front := steps[..|steps| - 1];
      assert forall i :: 0 <= i < |front| ==> front[..i] == steps[..i];
      ReachedInv(front);
      assert Allowed(Reached(steps[..|front|]), steps[|front|]);
      NextKeeps(Reached(front), steps[|front|]);
    }
  }

  /** No turn is lost: after any interleaving of appends, loads and saves, even of several summarisers
      at once, of failing ones and of ones that outlive the conversation, every message of the conversation
      is reloaded or went into the summaries behind the current watermark. */
  lemma NoTurnIsLost(steps: seq<Step>, i: nat)
    requires Legal(steps) && i < |Reached(steps).messages| && Reached(steps).messages[i].live
    ensures var m := Reached(steps);
      i in Uncovered(m) || (Latest(m.summaries).Some? && i in Latest(m.summaries).value.covered)
  {
    ReachedInv(steps);
    var m := Reached(steps);
    hide Reached;
    BeyondIs(m.messages, Mark(m), |m.messages|);
    LatestIsLive(m.summaries);
    hide Beyond, Latest;
  }

  // ---- the watermark ----------------------------------------------------------------------------

  /** No summary was saved between the step's load and its save. */
  predicate Undisturbed(m: Memory, step: Step) {
    step.Save? && step.id in m.drafts ==> m.drafts[step.id].base == |m.summaries|
  }

  ghost predicate SavesUndisturbed(steps: seq<Step>) {
    forall i :: 0 <= i < |steps| ==> Undisturbed(Reached(steps[..i]), steps[i])
  }

  ghost predicate Rising(ss: seq<Summary>) {
    forall i, j :: 0 <= i < j < |ss| ==> ss[i].watermark < ss[j].watermark
  }

  lemma LatestAfter(ss: seq<Summary>, s: Summary)
    requires s.live
    ensures Latest(ss + [s]) == Some(s)
  {
  }

  lemma {:induction false} NoneLatest(ss: seq<Summary>)
    requires forall i :: 0 <= i < |ss| ==> !ss[i].live
    ensures Latest(ss).None?
    decreases |ss|
  {
    if ss != [] { NoneLatest(ss[..|ss| - 1]); }
  }

  lemma UndisturbedIsAbove(m: Memory, id: int)
    requires Inv(m) && id in m.drafts && m.drafts[id].base == |m.summaries| && Latest(m.summaries).Some?
    ensures m.drafts[id].cutoff > Latest(m.summaries).value.watermark
  {
    if m.open { LatestIsLast(m); } else { NoneLatest(m.summaries); }
    hide Covers, Latest;
  }

  /** A save raises the watermark if and only if its cutoff lies above the current one, and it does if no
      other summary was saved since its load. */
  lemma SaveRaises(steps: seq<Step>, id: int)
    requires Legal(steps) && id in Reached(steps).drafts && Latest(Reached(steps).summaries).Some?
    ensures var m := Reached(steps);
      var before, after := Latest(m.summaries).value.watermark, Latest(Next(m, Save(id)).summaries);
      && after.Some?
      && (after.value.watermark > before <==> m.drafts[id].cutoff > before)
      && (Undisturbed(m, Save(id)) ==> after.value.watermark > before)
  {
    var m := Reached(steps);
    ReachedInv(steps);
    LatestAfter(m.summaries, Summary(m.drafts[id].cutoff, true, m.drafts[id].covered));
    hide Reached, Latest, Inv, Legal;
    if Undisturbed(m, Save(id)) { UndisturbedIsAbove(m, id); }
  }

  lemma UndisturbedSoFar(steps: seq<Step>)
    requires Legal(steps) && SavesUndisturbed(steps) && steps != []
    ensures var front, last := steps[..|steps| - 1], steps[|steps| - 1];
      && Legal(front) && SavesUndisturbed(front)
      && Undisturbed(Reached(front), last) && Reached(steps) == Next(Reached(front), last)
  {
    hide Inv, Next, Allowed, Undisturbed;
    var front := steps[..|steps| - 1];
    assert forall i :: 0 <= i < |front| ==> front[..i] == steps[..i];
    assert Undisturbed(Reached(steps[..|front|]), steps[|front|]);
  }

  lemma DraftsStayAbove(m: Memory)
    requires Inv(m)
    ensures DraftsAbove(m)
  {
    hide DraftsAbove, Conversation, Deleted;
  }

  lemma StepRises(m: Memory, step: Step)
    requires DraftsAbove(m) && Rising(m.summaries) && Undisturbed(m, step)
    ensures Rising(Next(m, step).summaries)
  {
    hide LastTurn, Latest, Uncovered;
  }

  /** Without overlapping summarisers the watermark strictly rises, from each summary to the next. */
  lemma {:induction false} WatermarkRises(steps: seq<Step>)
    requires Legal(steps) && SavesUndisturbed(steps)
    ensures Rising(Reached(steps).summaries)
    decreases |steps|
  {
    if steps == [] {
    } else {
      hide *;
      var front, last := steps[..|steps| - 1], steps[|steps| - 1];
      UndisturbedSoFar(steps);
      WatermarkRises(front);
      ReachedInv(front);
      DraftsStayAbove(Reached(front));
      StepRises(Reached(front), last);
    }
  }

  // ---- conversations that can still be summarised ---------------------------------------------------

  /** At most 998 messages lie above the watermark, or at most a thousand of which the 999th is of a later
      turn than the first. */
  predicate Summarisable(ms: seq<Message>, mark: Option<int>) {
    var ids := Beyond(ms, mark, |ms|);
    |ids| <= 998 || (|ids| <= 1000 && Turns(ms, ids)[998] > Turns(ms, ids)[0])
  }

  /** So it is above the current watermark, or above the one that a summary still under way would set. */
  ghost predicate CanSummarise(m: Memory) {
    m.open && (Summarisable(m.messages, Mark(m))
               || exists id :: id in m.drafts && Summarisable(m.messages, Some(m.drafts[id].cutoff)))
  }

  lemma {:induction false} BeyondPrefix(ms: seq<Message>, added: Message, mark: Option<int>, n: nat)
    requires n <= |ms|
    ensures Beyond(ms + [added], mark, n) == Beyond(ms, mark, n)
    decreases n
  {
    if n > 0 { BeyondPrefix(ms, added, mark, n - 1); }
  }

  /** One more message is one more beyond, if it lies above the watermark. */
  lemma BeyondGrows(ms: seq<Message>, added: Message, mark: Option<int>)
    ensures var more := if added.live && (mark.None? || added.turn > mark.value) then [|ms|] else [];
      Beyond(ms + [added], mark, |ms| + 1) == Beyond(ms, mark, |ms|) + more
  {
    BeyondPrefix(ms, added, mark, |ms|);
    assert (ms + [added])[|ms|] == added;
  }

  lemma AddedTurns(ms: seq<Message>, added: Message, ids: seq<int>, k: nat)
    requires (forall x :: x in ids ==> 0 <= x < |ms|) && k < |ids|
    ensures forall x :: x in ids + [|ms|] ==> 0 <= x < |ms| + 1
    ensures Turns(ms + [added], ids)[k] == Turns(ms + [added], ids + [|ms|])[k] == Turns(ms, ids)[k]
  {
    assert ids[k] in ids && (ids + [|ms|])[k] == ids[k];
  }

  /** A message never makes a conversation summarisable again, and one of a new turn keeps it summarisable
      until there are a thousand. */
  lemma AppendDecides(ms: seq<Message>, added: Message, mark: Option<int>)
    requires forall i :: 0 <= i < |ms| ==> ms[i].turn <= added.turn
    ensures Summarisable(ms + [added], mark) ==> Summarisable(ms, mark)
    ensures var n := |Beyond(ms, mark, |ms|)|;
      Summarisable(ms, mark) && n < 1000 && added.live && (mark.None? || added.turn > mark.value)
      && (forall i :: 0 <= i < |ms| ==> ms[i].turn < added.turn) ==>
        Summarisable(ms + [added], mark) && |Beyond(ms + [added], mark, |ms| + 1)| == n + 1
  {
    var ids := Beyond(ms, mark, |ms|);
    BeyondGrows(ms, added, mark);
    if |ids| >= 998 {
      assert ids[0] in ids;
      AddedTurns(ms, added, ids, 0);
      if |ids| > 998 { AddedTurns(ms, added, ids, 998); }
    }
    hide Beyond;
  }

  lemma {:induction false} EncodedAtLeast(ms: seq<Message>, ids: seq<int>)
    requires forall x :: x in ids ==> 0 <= x < |ms|
    requires forall i :: 0 <= i < |ms| ==> ms[i].bytes >= SmallestRecord
    ensures Encoded(ms, ids) > SmallestRecord * |ids|
    decreases |ids|
  {
    if ids != [] {
      var front, last := ids[..|ids| - 1], ids[|ids| - 1];
      assert last in ids && forall x :: x in front ==> x in ids;
      EncodedAtLeast(ms, front);
      assert Encoded(ms, ids) == Encoded(ms, front) + 1 + ms[last].bytes;
    }
  }

  /** The turns above a watermark ascend. */
  lemma TurnsAscend(m: Memory, mark: Option<int>)
    requires Conversation(m)
    ensures Ascending(Turns(m.messages, Beyond(m.messages, mark, |m.messages|)))
  {
    var ids := Beyond(m.messages, mark, |m.messages|);
    BeyondIs(m.messages, mark, |m.messages|);
    forall i, j | 0 <= i < j < |ids| ensures Turns(m.messages, ids)[i] <= Turns(m.messages, ids)[j] {
      assert ids[i] in ids && ids[j] in ids;
    }
  }

  lemma {:induction false} CutoffExists(turns: seq<int>, keep: nat, n: nat) returns (cutoff: int)
    requires Ascending(turns) && 1 <= keep < |turns| && 0 < n <= |turns| - keep && turns[0] < turns[|turns| - keep]
    requires forall i :: n <= i < |turns| - keep ==> turns[i] >= turns[|turns| - keep]
    ensures IsCutoff(turns, keep, cutoff)
    decreases n
  {
    if turns[n - 1] < turns[|turns| - keep] {
      cutoff := turns[n - 1];
    } else {
      cutoff := CutoffExists(turns, keep, n - 1);
    }
  }

  /** With a thousand messages uncovered, of the right turns, a load succeeds. */
  lemma FullLoads(m: Memory) returns (load: Step)
    requires Inv(m) && m.open && Summarisable(m.messages, Mark(m)) && |Uncovered(m)| == 1000
    ensures load.Load? && Allowed(m, load)
  {
    var ids := Uncovered(m);
    EncodedAtLeast(m.messages, ids);
    TurnsAscend(m, Mark(m));
    hide Beyond, Encoded, Inv;
    var cutoff := CutoffExists(Turns(m.messages, ids), 2, 998);
    var id := Unused(m.drafts.Keys);
    load := Load(id, cutoff);
  }

  /** Where it is not summarisable, a load fails. */
  lemma NoLoad(m: Memory, step: Step)
    requires Inv(m) && step.Load? && (m.open ==> !Summarisable(m.messages, Mark(m)))
    ensures !Allowed(m, step)
  {
    var ids := Uncovered(m);
    if m.open {
      EncodedAtLeast(m.messages, ids);
      TurnsAscend(m, Mark(m));
      hide Beyond, Encoded, Inv;
    } else {
      NothingBeyond(m.messages, Mark(m), |m.messages|);
    }
  }

  lemma StuckAppend(m: Memory, step: Step)
    requires Inv(m) && !CanSummarise(m) && Allowed(m, step) && step.Append?
    ensures !CanSummarise(Next(m, step))
  {
    AppendedTurn(m);
    var m' := Next(m, step);
    var added := m'.messages[|m.messages|];
    assert m'.messages == m.messages + [added] && Mark(m') == Mark(m);
    hide Inv, Summarisable, LastTurn;
    AppendDecides(m.messages, added, Mark(m));
    forall id | id in m.drafts ensures !Summarisable(m'.messages, Some(m'.drafts[id].cutoff)) {
      AppendDecides(m.messages, added, Some(m.drafts[id].cutoff));
    }
  }

  lemma StuckStays(m: Memory, step: Step)
    requires Inv(m) && !CanSummarise(m) && Allowed(m, step)
    ensures !step.Load? && !CanSummarise(Next(m, step))
  {
    match step
    case Append(_, _) => StuckAppend(m, step);
    case Load(_, _) => NoLoad(m, step);
    case Save(id) => LatestAfter(m.summaries, Summary(m.drafts[id].cutoff, true, m.drafts[id].covered));
    case _ =>
    hide Summarisable, Latest, Inv, LastTurn;
  }

  /** Once no summary can be begun, none is ever begun. */
  lemma {:induction false} StuckForever(steps: seq<Step>, more: seq<Step>)
    requires Legal(steps + more) && !CanSummarise(Reached(steps))
    ensures !CanSummarise(Reached(steps + more)) && forall i :: 0 <= i < |more| ==> !more[i].Load?
    decreases |more|
  {
    hide CanSummarise, Next, Allowed, Inv, Uncovered, Mark;
    if more == [] {
      assert steps + more == steps;
    } else {
      var n := |more| - 1;
      var front, all := steps + more[..n], steps + more;
      assert front == all[..|all| - 1] && all[|all| - 1] == more[n];
      assert forall i :: 0 <= i < |front| ==> front[..i] == all[..i];
      assert Legal(front) && Allowed(Reached(all[..|all| - 1]), all[|all| - 1]);
      StuckForever(steps, more[..n]);
      ReachedInv(front);
      StuckStays(Reached(front), more[n]);
    }
  }

  lemma Longer(steps: seq<Step>, step: Step)
    requires Legal(steps) && Allowed(Reached(steps), step)
    ensures Legal(steps + [step]) && Reached(steps + [step]) == Next(Reached(steps), step)
  {
    var more := steps + [step];
    assert more[..|steps|] == steps && forall i :: 0 <= i < |steps| ==> more[..i] == steps[..i];
    hide Allowed, Next;
  }

  /** A user's message keeps a conversation summarisable until a thousand are uncovered. */
  lemma UserKeeps(m: Memory)
    requires Inv(m) && m.open && Summarisable(m.messages, Mark(m)) && |Uncovered(m)| < 1000
    ensures var m' := Next(m, Append(true, SmallestRecord));
      m'.open && Summarisable(m'.messages, Mark(m')) && |Uncovered(m')| == |Uncovered(m)| + 1
  {
    AppendedTurn(m);
    var m' := Next(m, Append(true, SmallestRecord));
    var added := m'.messages[|m.messages|];
    assert m'.messages == m.messages + [added] && Mark(m') == Mark(m);
    LatestIsLive(m.summaries);
    hide Latest, LastTurn, Highest, Summarisable, Beyond;
    AppendDecides(m.messages, added, Mark(m));
  }

  lemma AtMostAThousand(m: Memory)
    requires Summarisable(m.messages, Mark(m))
    ensures |Uncovered(m)| <= 1000
  {
    hide Beyond, Mark, Turns;
  }

  /** Users write until a thousand messages are uncovered, then a load succeeds. */
  lemma {:induction false} WriteThenLoad(steps: seq<Step>) returns (more: seq<Step>)
    requires Legal(steps) && var m := Reached(steps); m.open && Summarisable(m.messages, Mark(m))
    ensures Legal(steps + more) && more != [] && more[|more| - 1].Load?
    decreases 1000 - |Uncovered(Reached(steps))|
  {
    hide *;
    var m := Reached(steps);
    ReachedInv(steps);
    AtMostAThousand(m);
    if |Uncovered(m)| == 1000 {
      var load := FullLoads(m);
      Longer(steps, load);
      more := [load];
    } else {
      var written := Append(true, SmallestRecord);
      assert Allowed(m, written) by { UserMayWrite(m); }
      Longer(steps, written);
      UserKeeps(m);
      var rest := WriteThenLoad(steps + [written]);
      more := [written] + rest;
      assert steps + more == steps + [written] + rest;
    }
  }

  lemma UserMayWrite(m: Memory)
    requires m.open
    ensures Allowed(m, Append(true, SmallestRecord))
  {
  }

  lemma SavedMark(m: Memory, id: int)
    requires id in m.drafts
    ensures Mark(Next(m, Save(id))) == Some(m.drafts[id].cutoff)
  {
    LatestAfter(m.summaries, Summary(m.drafts[id].cutoff, true, m.drafts[id].covered));
  }

  ghost predicate LeadsToLoad(steps: seq<Step>, more: seq<Step>) {
    Legal(steps + more) && more != [] && more[|more| - 1].Load?
  }

  /** The exact condition, for every reachable state and whatever summarisers are at work: the conversation
      can still be summarised, in some continuation, if and only if it is open and at most 998 messages are
      above the current watermark or one a summariser may still set, or at most a thousand of enough turns. */
  lemma SummaryCanFollow(steps: seq<Step>)
    requires Legal(steps)
    ensures (exists more :: LeadsToLoad(steps, more)) <==> CanSummarise(Reached(steps))
  {
    var m := Reached(steps);
    hide Reached, Legal, Summarisable;
    if more :| LeadsToLoad(steps, more) {
      if !CanSummarise(m) { StuckForever(steps, more); }
    }
    if CanSummarise(m) {
      if Summarisable(m.messages, Mark(m)) {
        var more := WriteThenLoad(steps);
        assert LeadsToLoad(steps, more);
      } else {
        var id :| id in m.drafts && Summarisable(m.messages, Some(m.drafts[id].cutoff));
        Longer(steps, Save(id));
        SavedMark(m, id);
        var more := WriteThenLoad(steps + [Save(id)]);
        assert steps + ([Save(id)] + more) == steps + [Save(id)] + more;
        assert LeadsToLoad(steps, [Save(id)] + more);
      }
    }
  }

  // ---- overlapping summarisers --------------------------------------------------------------------

  /** n long messages, each of a turn of its own or all before the first one, nothing summarised, the given
      drafts under way. */
  function Told(user: bool, n: nat, drafts: map<int, Draft>): Memory {
    Memory(seq(n, i => Message(if user then i + 1 else 0, true, 3000)), [], drafts, true)
  }

  lemma {:induction false} ToldFacts(user: bool, n: nat, k: nat, drafts: map<int, Draft>)
    requires k <= n
    ensures Highest(Told(user, n, drafts).messages[..k]) == if user then k else 0
    ensures Beyond(Told(user, n, drafts).messages, None, k) == seq(k, i => i)
    decreases k
  {
    var ms := Told(user, n, drafts).messages;
    if k > 0 {
      ToldFacts(user, n, k - 1, drafts);
      assert ms[..k][..k - 1] == ms[..k - 1];
    }
  }

  lemma ToldUncovered(user: bool, n: nat, drafts: map<int, Draft>)
    ensures Uncovered(Told(user, n, drafts)) == seq(n, i => i)
    ensures Turns(Told(user, n, drafts).messages, seq(n, i => i)) == seq(n, i => if user then i + 1 else 0)
  {
    ToldFacts(user, n, n, drafts);
    hide Beyond;
  }

  lemma TellOneMore(user: bool, n: nat, drafts: map<int, Draft>)
    ensures Allowed(Told(user, n, drafts), Append(user, 3000))
    ensures Next(Told(user, n, drafts), Append(user, 3000)) == Told(user, n + 1, drafts)
  {
    ToldFacts(user, n, n, drafts);
    var ms := Told(user, n, drafts).messages;
    assert ms[..n] == ms;
    assert ms + [Message(if user then n + 1 else 0, true, 3000)] == Told(user, n + 1, drafts).messages;
  }

  lemma {:induction false} ToldEncoded(n: nat, k: nat, drafts: map<int, Draft>)
    requires k <= n
    ensures Encoded(Told(true, n, drafts).messages, seq(k, i => i)) == 1 + 3001 * k
    decreases k
  {
    if k > 0 {
      assert seq(k, i => i)[..k - 1] == seq(k - 1, i => i);
      ToldEncoded(n, k - 1, drafts);
    }
  }

  /** Loading long messages covers all turns but the last two. */
  lemma LoadTold(n: nat, drafts: map<int, Draft>, id: int) returns (covered: set<int>)
    requires 4 <= n <= 1000 && id !in drafts
    ensures Allowed(Told(true, n, drafts), Load(id, n - 2))
    ensures Next(Told(true, n, drafts), Load(id, n - 2)) == Told(true, n, drafts[id := Draft(n - 2, covered, 0)])
  {
    var m := Told(true, n, drafts);
    ToldUncovered(true, n, drafts);
    ToldEncoded(n, n, drafts);
    var turns := Turns(m.messages, Uncovered(m));
    hide Uncovered, Encoded, Turns;
    assert turns[n - 3] == n - 2;
    covered := Next(m, Load(id, n - 2)).drafts[id].covered;
    assert Next(m, Load(id, n - 2)) == Told(true, n, drafts[id := Draft(n - 2, covered, 0)]);
  }

  lemma ThenTell(user: bool, steps: seq<Step>, n: nat, drafts: map<int, Draft>)
    requires Legal(steps) && Reached(steps) == Told(user, n, drafts)
    ensures Legal(steps + [Append(user, 3000)])
    ensures Reached(steps + [Append(user, 3000)]) == Told(user, n + 1, drafts)
  {
    TellOneMore(user, n, drafts);
    hide *;
    Longer(steps, Append(user, 3000));
  }

  lemma ThenLoad(steps: seq<Step>, n: nat, drafts: map<int, Draft>, id: int) returns (covered: set<int>)
    requires Legal(steps) && Reached(steps) == Told(true, n, drafts) && 4 <= n <= 1000 && id !in drafts
    ensures Legal(steps + [Load(id, n - 2)])
    ensures Reached(steps + [Load(id, n - 2)]) == Told(true, n, drafts[id := Draft(n - 2, covered, 0)])
  {
    covered := LoadTold(n, drafts, id);
    hide *;
    Longer(steps, Load(id, n - 2));
  }

  lemma {:induction false} TellMany(user: bool, n: nat) returns (steps: seq<Step>)
    ensures Legal(steps) && Reached(steps) == Told(user, n, map[])
  {
    if n == 0 {
      steps := [];
      assert Told(user, 0, map[]) == Boot;
    } else {
      steps := TellMany(user, n - 1);
      ThenTell(user, steps, n - 1, map[]);
      steps := steps + [Append(user, 3000)];
    }
  }

  /** A second summariser starts, one message later, while the first is at work. */
  lemma TwoDrafts() returns (steps: seq<Step>, first: set<int>, second: set<int>)
    ensures Legal(steps)
    ensures Reached(steps) == Told(true, 5, map[0 := Draft(2, first, 0)][1 := Draft(3, second, 0)])
  {
    hide *;
    steps := TellMany(true, 4);
    first := ThenLoad(steps, 4, map[], 0);
    steps := steps + [Load(0, 2)];
    var drafts := map[0 := Draft(2, first, 0)];
    assert map[][0 := Draft(2, first, 0)] == drafts;
    ThenTell(true, steps, 4, drafts);
    steps := steps + [Append(true, 3000)];
    second := ThenLoad(steps, 5, drafts, 1);
    steps := steps + [Load(1, 3)];
  }

  /** A summary is inserted whatever was inserted since its load: two overlapping summarisers can move the
      watermark back from the third turn to the second. */
  lemma WatermarkCanMoveBack() returns (steps: seq<Step>)
    ensures Legal(steps) && Reached(steps).open
    ensures var ss := Reached(steps).summaries;
      |ss| == 2 && ss[0].watermark == 3 && ss[1].watermark == 2 && Latest(ss) == Some(ss[1])
  {
    var first, second;
    steps, first, second := TwoDrafts();
    hide Reached, Legal, Uncovered, Highest;
    Longer(steps, Save(1));
    Longer(steps + [Save(1)], Save(0));
    steps := steps + [Save(1)] + [Save(0)];
  }

  /** A thousand and one messages without a summary are too many, and so are 999 of a single turn. */
  lemma TooLongIsReachable() returns (long: seq<Step>, single: seq<Step>)
    ensures Legal(long) && Reached(long).open && |Reached(long).messages| == 1001 && !CanSummarise(Reached(long))
    ensures Legal(single) && Reached(single).open && |Reached(single).messages| == 999
    ensures !CanSummarise(Reached(single))
  {
    long := TellMany(true, 1001);
    single := TellMany(false, 999);
    ToldUncovered(true, 1001, map[]);
    ToldUncovered(false, 999, map[]);
    hide Reached, Legal, Beyond, Turns;
  }
}
