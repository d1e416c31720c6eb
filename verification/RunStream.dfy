/** The reconnecting browser client: an incremental splitter of server-sent event text and a cursor
    that survives disconnects. The framing is a subset of section 9.2 of the WHATWG HTML Living
    Standard (Server-sent events). */
module RunStream {
  import opened TaskTypes

  // ---- splitting ------------------------------------------------------------------------------

  /** The length of a blank line `\r?\n\r?\n` starting at p, or 0. */
  function MatchAt(s: string, p: nat): (len: nat)
    ensures len > 0 ==> 2 <= len <= 4 && p + len <= |s|
  {
    var a := if p < |s| && s[p] == '\r' then 1 else 0;
    if p + a >= |s| || s[p + a] != '\n' then 0
    else
      var q := p + a + 1;
      var b := if q < |s| && s[q] == '\r' then 1 else 0;
      if q + b >= |s| || s[q + b] != '\n' then 0 else a + 1 + b + 1
  }

  /** The leftmost blank line at or after p. */
  function FirstMatch(s: string, p: nat): (m: Option<nat>)
    ensures m.Some? ==> p <= m.value && MatchAt(s, m.value) > 0 && forall i :: p <= i < m.value ==> MatchAt(s, i) == 0
    ensures m.None? ==> forall i: nat :: p <= i ==> MatchAt(s, i) == 0
    decreases |s| - p
  {
    if p >= |s| then None else if MatchAt(s, p) > 0 then Some(p) else FirstMatch(s, p + 1)
  }

  datatype Parts = Parts(frames: seq<string>, rest: string)

  /** The text cut at every blank line; the last part is still incomplete. */
  function Split(s: string): Parts
    decreases |s|
  {
    var m := FirstMatch(s, 0);
    if m.None? then Parts([], s)
    else
      var tail := Split(s[m.value + MatchAt(s, m.value)..]);
      Parts([s[..m.value]] + tail.frames, tail.rest)
  }

  /** A complete blank line is found where it is, whatever text follows. */
  lemma MatchExtends(s: string, t: string, p: nat)
    ensures MatchAt(s, p) > 0 ==> MatchAt(s + t, p) == MatchAt(s, p)
    ensures MatchAt(s + t, p) > 0 && p + MatchAt(s + t, p) <= |s| ==> MatchAt(s, p) == MatchAt(s + t, p)
  {
    assert forall i :: 0 <= i < |s| ==> (s + t)[i] == s[i];
  }

  /** More text never moves the leftmost blank line: one that starts earlier and ends in the new
      text would overlap it, and then it is complete already. */
  lemma FirstMatchExtends(s: string, t: string)
    requires FirstMatch(s, 0).Some?
    ensures FirstMatch(s + t, 0) == FirstMatch(s, 0)
    ensures MatchAt(s + t, FirstMatch(s, 0).value) == MatchAt(s, FirstMatch(s, 0).value)
  {
    var p := FirstMatch(s, 0).value;
    MatchExtends(s, t, p);
    forall q | 0 <= q < p ensures MatchAt(s + t, q) == 0 {
      MatchExtends(s, t, q);
      assert forall i :: 0 <= i < |s| ==> (s + t)[i] == s[i];
      if q + 1 < p { EarlierIsComplete(s, t, q, p); } else { NeighbourIsComplete(s, t, q); }
    }
  }

  lemma EarlierIsComplete(s: string, t: string, q: nat, p: nat)
    requires q + 1 < p && MatchAt(s, p) > 0 && MatchAt(s, q) == 0
    ensures MatchAt(s + t, q) == 0
  {
    MatchExtends(s, t, q);
  }

  lemma NeighbourIsComplete(s: string, t: string, q: nat)
    requires MatchAt(s, q + 1) > 0 && MatchAt(s, q) == 0
    ensures MatchAt(s + t, q) == 0
  {
    assert forall i :: 0 <= i < |s| ==> (s + t)[i] == s[i];
  }

  function CutAt(s: string): nat
    requires FirstMatch(s, 0).Some?
    ensures CutAt(s) <= |s|
  {
    FirstMatch(s, 0).value + MatchAt(s, FirstMatch(s, 0).value)
  }

  lemma SplitUnfolds(s: string)
    ensures Split(s) ==
      if FirstMatch(s, 0).None? then Parts([], s)
      else Parts([s[..FirstMatch(s, 0).value]] + Split(s[CutAt(s)..]).frames, Split(s[CutAt(s)..]).rest)
  {
  }

  lemma CutExtends(s: string, t: string)
    requires FirstMatch(s, 0).Some?
    ensures FirstMatch(s + t, 0) == FirstMatch(s, 0) && CutAt(s + t) == CutAt(s) > 0
    ensures (s + t)[CutAt(s)..] == s[CutAt(s)..] + t && (s + t)[..FirstMatch(s, 0).value] == s[..FirstMatch(s, 0).value]
  {
    FirstMatchExtends(s, t);
    hide FirstMatch, MatchAt;
  }

  /** Splitting what is buffered and then the remainder with the new text is splitting it all. */
  lemma {:induction false} SplitAppends(s: string, t: string)
    ensures var head, tail := Split(s), Split(Split(s).rest + t);
      Split(s + t) == Parts(head.frames + tail.frames, tail.rest)
    decreases |s|
  {
    hide FirstMatch, MatchAt, Split, CutAt;
    SplitUnfolds(s);
    SplitUnfolds(s + t);
    if FirstMatch(s, 0).None? {
      assert [] + Split(s + t).frames == Split(s + t).frames;
    } else {
      CutExtends(s, t);
      var cut := s[CutAt(s)..];
      SplitAppends(cut, t);
      assert Split(s + t).frames == [s[..FirstMatch(s, 0).value]] + Split(cut + t).frames;
    }
  }

  function Joined(chunks: seq<string>): string {
    if chunks == [] then "" else Joined(chunks[..|chunks| - 1]) + chunks[|chunks| - 1]
  }

  lemma FoundAt(s: string, p: nat)
    requires p <= |s| && forall i :: 0 <= i < p ==> MatchAt(s, i) == 0
    requires p < |s| ==> MatchAt(s, p) > 0
    ensures FirstMatch(s, 0) == if p < |s| then Some(p) else None
    ensures p < |s| ==> CutAt(s) == p + MatchAt(s, p)
  {
    hide MatchAt;
  }

  /** One regular-expression split, by scanning. */
  method SplitBuffer(buffer: string) returns (frames: seq<string>, rest: string)
    ensures Parts(frames, rest) == Split(buffer)
  {
    hide Split, MatchAt, FirstMatch, CutAt;
    frames, rest := [], buffer;
    assert [] + Split(buffer).frames == Split(buffer).frames;
    while true
      invariant Split(buffer) == Parts(frames + Split(rest).frames, Split(rest).rest)
      decreases |rest|
    {
      var p := 0;
      while p < |rest| && MatchAt(rest, p) == 0
        invariant p <= |rest| && forall i :: 0 <= i < p ==> MatchAt(rest, i) == 0
      {
        p := p + 1;
      }
      FoundAt(rest, p);
      SplitUnfolds(rest);
      if p == |rest| {
        assert frames + [] == frames;
        return;
      }
      ghost var tail := Split(rest[CutAt(rest)..]);
      assert frames + ([rest[..p]] + tail.frames) == (frames + [rest[..p]]) + tail.frames;
      frames := frames + [rest[..p]];
      rest := rest[p + MatchAt(rest, p)..];
    }
  }

  // ---- what the server writes -------------------------------------------------------------------

  /** A frame whose end is the blank line written after it. */
  predicate Clean(frame: string) {
    FirstMatch(frame + "\n\n", 0) == Some(|frame|)
  }

  function Render(frames: seq<string>): string {
    if frames == [] then "" else frames[0] + "\n\n" + Render(frames[1..])
  }

  lemma CleanFrame(frame: string, more: string)
    requires Clean(frame)
    ensures Split(frame + "\n\n" + more) == Parts([frame] + Split(more).frames, Split(more).rest)
  {
    var first := frame + "\n\n";
    SplitUnfolds(first + more);
    CutExtends(first, more);
    assert CutAt(first) == |first| && first[..|frame|] == frame && first[|first|..] + more == more;
  }

  /** However the stream is cut off, the complete frames received are a prefix of those written. */
  lemma {:induction false} CutStreamIsPrefix(frames: seq<string>, text: string)
    requires text <= Render(frames) && forall i :: 0 <= i < |frames| ==> Clean(frames[i])
    ensures Split(text).frames <= frames
    ensures text == Render(frames) ==> Split(text) == Parts(frames, "")
    decreases |frames|
  {
    if frames == [] {
      SplitUnfolds(text);
    } else {
      var first := frames[0] + "\n\n";
      var whole := first + Render(frames[1..]);
      assert frames == [frames[0]] + frames[1..] && whole == Render(frames);
      hide Split, Clean;
      if |text| < |first| {
        assert text == whole[..|text|] == first[..|text|];
        assert Clean(frames[0]);
        CutFrameIsIncomplete(frames[0], text);
      } else {
        var more := text[|first|..];
        assert text[..|first|] == whole[..|first|] == first && text == first + more;
        assert more <= Render(frames[1..]) by {
          assert Render(frames[1..]) == whole[|first|..] && more == whole[|first|..|text|];
        }
        assert Clean(frames[0]);
        CleanFrame(frames[0], more);
        CutStreamIsPrefix(frames[1..], more);
        assert text == whole ==> more == Render(frames[1..]);
      }
    }
  }

  lemma CutFrameIsIncomplete(frame: string, text: string)
    requires Clean(frame) && text <= frame + "\n\n" && |text| < |frame| + 2
    ensures Split(text) == Parts([], text)
  {
    var first := frame + "\n\n";
    var cut := first[|text|..];
    assert text + cut == first;
    SplitUnfolds(text);
    if FirstMatch(text, 0).Some? { FirstMatchExtends(text, cut); }
  }

  // ---- the client -------------------------------------------------------------------------------

  /** How a frame reads: its sequence number (0 when it has none), its event, whether it is blank. */
  datatype Parser = Parser(sequence: string -> int, event: string -> string, blank: string -> bool)

  const StatusFrame := "event: connection_status\ndata: 正在重新连接任务进度"
  const MaxRetries := 10

  /** How a connection ended: refused, broken off, aborted by the page (also before it was opened), or
      closed with the run's state read afterwards. */
  datatype End = Rejected | Broken | Aborted | Closed(live: bool, lastSequence: int)
  datatype Connection = Connection(chunks: seq<string>, end: End)

  datatype Client = Client(after: int, retries: nat, yielded: seq<string>, done: bool)
  datatype Outcome = Reading | Finished | Rejection | GaveUp | Abort

  const Fresh := Client(0, 0, [], false)

  function Accept(p: Parser, c: Client, frame: string): Client {
    var n := p.sequence(frame);
    if c.done || p.blank(frame) || (n > 0 && n <= c.after) then c
    else Client(if n > 0 then n else c.after, if n > 0 then 0 else c.retries, c.yielded + [frame],
        p.event(frame) == "done")
  }

  function AcceptAll(p: Parser, c: Client, frames: seq<string>): Client {
    if frames == [] then c else Accept(p, AcceptAll(p, c, frames[..|frames| - 1]), frames[|frames| - 1])
  }

  function AfterConnection(p: Parser, c: Client, k: Connection): (Client, Outcome) {
    if k.end.Rejected? then (c, Rejection)
    else
      var read := AcceptAll(p, c, Split(Joined(k.chunks)).frames);
      if read.done || (k.end.Closed? && !k.end.live && read.after >= k.end.lastSequence) then (read, Finished)
      else if k.end.Aborted? then (read, Abort)
      else if read.retries + 1 > MaxRetries then (read.(retries := read.retries + 1), GaveUp)
      else (read.(retries := read.retries + 1, yielded := read.yielded + [StatusFrame]), Reading)
  }

  function Session(p: Parser, c: Client, conns: seq<Connection>): (Client, Outcome) {
    if conns == [] then (c, Reading)
    else
      var (before, outcome) := Session(p, c, conns[..|conns| - 1]);
      if !outcome.Reading? then (before, outcome) else AfterConnection(p, before, conns[|conns| - 1])
  }

  /** The event numbers among frames. */
  function Numbers(p: Parser, frames: seq<string>): seq<int> {
    if frames == [] then []
    else Numbers(p, frames[..|frames| - 1]) + if p.sequence(frames[|frames| - 1]) > 0
        then [p.sequence(frames[|frames| - 1])] else []
  }

  lemma NumbersAdds(p: Parser, frames: seq<string>, frame: string)
    ensures Numbers(p, frames + [frame])
         == Numbers(p, frames) + if p.sequence(frame) > 0 then [p.sequence(frame)] else []
  {
    assert (frames + [frame])[..|frames|] == frames;
  }

  /** The cursor is the last number yielded, and numbers only go up. */
  ghost predicate Ordered(p: Parser, c: Client) {
    var ns := Numbers(p, c.yielded);
    && c.after >= 0 && (if ns == [] then c.after == 0 else c.after == ns[|ns| - 1])
    && (forall i :: 0 <= i < |ns| ==> ns[i] > 0) && (forall i, j :: 0 <= i < j < |ns| ==> ns[i] < ns[j])
  }

  lemma AcceptOrdered(p: Parser, c: Client, frame: string)
    requires Ordered(p, c)
    ensures Ordered(p, Accept(p, c, frame)) && Accept(p, c, frame).after >= c.after
  {
    NumbersAdds(p, c.yielded, frame);
    hide Numbers;
  }

  lemma {:induction false} AcceptAllOrdered(p: Parser, c: Client, frames: seq<string>)
    requires Ordered(p, c)
    ensures Ordered(p, AcceptAll(p, c, frames)) && AcceptAll(p, c, frames).after >= c.after
    decreases |frames|
  {
    if frames != [] {
      AcceptAllOrdered(p, c, frames[..|frames| - 1]);
      AcceptOrdered(p, AcceptAll(p, c, frames[..|frames| - 1]), frames[|frames| - 1]);
      hide Ordered, Accept;
    }
  }

  lemma ConnectionOrdered(p: Parser, c: Client, k: Connection)
    requires Ordered(p, c) && p.sequence(StatusFrame) == 0
    ensures Ordered(p, AfterConnection(p, c, k).0)
  {
    hide AcceptAll, Split, Numbers;
    var frames := Split(Joined(k.chunks)).frames;
    AcceptAllOrdered(p, c, frames);
    NumbersAdds(p, AcceptAll(p, c, frames).yielded, StatusFrame);
    assert forall ns: seq<int> :: ns + [] == ns;
  }

  /** Whatever servers send, cut off or repeat, no number is yielded twice or out of order. */
  lemma {:induction false} NothingIsYieldedTwice(p: Parser, conns: seq<Connection>)
    requires p.sequence(StatusFrame) == 0
    ensures Ordered(p, Session(p, Fresh, conns).0)
    decreases |conns|
  {
    if conns != [] {
      hide Ordered, AfterConnection;
      NothingIsYieldedTwice(p, conns[..|conns| - 1]);
      ConnectionOrdered(p, Session(p, Fresh, conns[..|conns| - 1]).0, conns[|conns| - 1]);
    }
  }

  /** The numbers from `first` on, n of them. */
  function From(first: int, n: nat): seq<int> {
    seq(n, i => first + i)
  }

  /** The server's promise: clean frames of consecutive events starting right after the cursor,
      heartbeats among them, of which the connection carries any beginning in any chunks. */
  ghost predicate Serves(p: Parser, k: Connection, after: int) {
    k.end.Rejected? || exists frames :: Carries(p, frames, Joined(k.chunks), after)
  }

  ghost predicate Carries(p: Parser, frames: seq<string>, text: string, after: int) {
    && text <= Render(frames)
    && (forall i :: 0 <= i < |frames| ==> Clean(frames[i]) && !p.blank(frames[i]))
    && Numbers(p, frames) == From(after + 1, |Numbers(p, frames)|)
  }

  ghost predicate AllServed(p: Parser, conns: seq<Connection>) {
    forall i :: 0 <= i < |conns| ==> Serves(p, conns[i], Session(p, Fresh, conns[..i]).0.after)
  }

  lemma {:induction false} NumbersOfPrefix(p: Parser, frames: seq<string>, n: nat)
    requires n <= |frames|
    ensures Numbers(p, frames[..n]) <= Numbers(p, frames)
    decreases |frames|
  {
    if n < |frames| {
      NumbersOfPrefix(p, frames[..|frames| - 1], n);
      assert frames[..|frames| - 1][..n] == frames[..n];
    } else {
      assert frames[..n] == frames;
    }
  }

  /** Everything yielded so far is 1, 2, ... up to the cursor. */
  ghost predicate Complete(p: Parser, c: Client) {
    c.after >= 0 && Numbers(p, c.yielded) == From(1, c.after)
  }

  lemma NextIsTaken(p: Parser, c: Client, frame: string)
    requires Complete(p, c) && !p.blank(frame)
    requires p.sequence(frame) > 0 ==> (c.done || p.sequence(frame) == c.after + 1)
    ensures var end := Accept(p, c, frame);
      Complete(p, end) && (!end.done ==> end.after == c.after + if p.sequence(frame) > 0 then 1 else 0)
      && c.after <= end.after <= c.after + (if p.sequence(frame) > 0 then 1 else 0) && (c.done ==> end == c)
  {
    NumbersAdds(p, c.yielded, frame);
    hide Numbers;
    assert From(1, c.after) + [c.after + 1] == From(1, c.after + 1);
    assert Numbers(p, c.yielded) + [] == Numbers(p, c.yielded);
  }

  /** Consecutive frames are taken one after the other until the run is done. */
  lemma {:induction false} ConsecutiveFramesAreTaken(p: Parser, c: Client, frames: seq<string>, n: nat)
    requires Complete(p, c) && !c.done && Numbers(p, frames) == From(c.after + 1, n)
    requires forall i :: 0 <= i < |frames| ==> !p.blank(frames[i])
    ensures var end := AcceptAll(p, c, frames);
      Complete(p, end) && (!end.done ==> end.after == c.after + n) && c.after <= end.after <= c.after + n
    decreases |frames|
  {
    if frames != [] {
      var front, last := frames[..|frames| - 1], frames[|frames| - 1];
      assert front + [last] == frames;
      NumbersAdds(p, front, last);
      hide Numbers, Complete, Accept;
      var m := |Numbers(p, front)|;
      assert Numbers(p, front) == From(c.after + 1, n)[..m] == From(c.after + 1, m);
      if p.sequence(last) > 0 { assert Numbers(p, frames)[m] == p.sequence(last) == c.after + 1 + m; }
      ConsecutiveFramesAreTaken(p, c, front, m);
      NextIsTaken(p, AcceptAll(p, c, front), last);
    }
  }

  /** What arrives of consecutive frames is consecutive. */
  lemma ReceivedIsConsecutive(p: Parser, frames: seq<string>, text: string, after: int)
    requires Carries(p, frames, text, after)
    ensures var got := Split(text).frames;
      && (forall i :: 0 <= i < |got| ==> !p.blank(got[i]))
      && Numbers(p, got) == From(after + 1, |Numbers(p, got)|)
  {
    var got := Split(text).frames;
    CutStreamIsPrefix(frames, text) by { hide Numbers; }
    hide Split, Clean, Render;
    assert frames[..|got|] == got;
    NumbersOfPrefix(p, frames, |got|);
    hide Numbers;
    assert forall i :: 0 <= i < |Numbers(p, got)| ==> Numbers(p, got)[i] == Numbers(p, frames)[i];
  }

  lemma ConnectionComplete(p: Parser, c: Client, k: Connection)
    requires Complete(p, c) && !c.done && Serves(p, k, c.after) && p.sequence(StatusFrame) == 0
    ensures var (end, outcome) := AfterConnection(p, c, k);
      Complete(p, end) && (outcome.Reading? ==> !end.done)
  {
    hide AcceptAll, Split, Numbers, Carries, From;
    if !k.end.Rejected? {
      var frames :| Carries(p, frames, Joined(k.chunks), c.after);
      ReceivedIsConsecutive(p, frames, Joined(k.chunks), c.after);
      var got := Split(Joined(k.chunks)).frames;
      ConsecutiveFramesAreTaken(p, c, got, |Numbers(p, got)|);
      NumbersAdds(p, AcceptAll(p, c, got).yielded, StatusFrame);
      assert forall ns: seq<int> :: ns + [] == ns;
    }
  }

  /** Exactly once, in order, across reconnects: with servers that keep their promise, the events
      yielded after any number of disconnects at any byte are 1, 2, ... up to the cursor. */
  lemma {:induction false} EachEventExactlyOnce(p: Parser, conns: seq<Connection>)
    requires p.sequence(StatusFrame) == 0 && AllServed(p, conns)
    ensures var (c, outcome) := Session(p, Fresh, conns);
      Complete(p, c) && (outcome.Reading? ==> !c.done)
    decreases |conns|
  {
    if conns == [] {
      assert From(1, 0) == [];
    } else {
      var n := |conns| - 1;
      assert forall i :: 0 <= i <= n ==> conns[..n][..i] == conns[..i];
      hide Complete, AfterConnection, Serves;
      EachEventExactlyOnce(p, conns[..n]);
      if Session(p, Fresh, conns[..n]).1.Reading? {
        assert Serves(p, conns[n], Session(p, Fresh, conns[..n]).0.after);
        ConnectionComplete(p, Session(p, Fresh, conns[..n]).0, conns[n]);
      }
    }
  }

  /** A stream ends quietly only when `done` came through, or the run had halted with every event
      delivered; it gives up only after more than ten failures without progress, and an abort by the page
      ends it unless `done` came first. */
  lemma QuietEndIsComplete(p: Parser, c: Client, k: Connection)
    requires !c.done
    ensures var (end, outcome) := AfterConnection(p, c, k);
      && (outcome.Finished? ==> (end.done || (k.end.Closed? && !k.end.live && end.after >= k.end.lastSequence)))
      && (outcome.GaveUp? ==> end.retries > MaxRetries)
      && (outcome.Abort? <==> k.end.Aborted? && !end.done)
      && (end.done ==> (end.yielded != [] && p.event(end.yielded[|end.yielded| - 1]) == "done"))
  {
    hide AcceptAll, Split, Joined;
    var frames := Split(Joined(k.chunks)).frames;
    DoneIsLast(p, c, frames);
    var read := AcceptAll(p, c, frames);
    assert read.yielded != [] ==> (read.yielded + [StatusFrame])[|read.yielded|] == StatusFrame;
  }

  lemma {:induction false} DoneIsLast(p: Parser, c: Client, frames: seq<string>)
    requires !c.done
    ensures var end := AcceptAll(p, c, frames);
      end.done ==> end.yielded != [] && p.event(end.yielded[|end.yielded| - 1]) == "done"
    decreases |frames|
  {
    if frames != [] { DoneIsLast(p, c, frames[..|frames| - 1]); }
  }

  // ---- the client's loops -------------------------------------------------------------------------

  lemma {:induction false} AcceptConcat(p: Parser, c: Client, a: seq<string>, b: seq<string>)
    ensures AcceptAll(p, c, a + b) == AcceptAll(p, AcceptAll(p, c, a), b)
    ensures c.done ==> AcceptAll(p, c, b) == c
    decreases |b|
  {
    if b == [] {
      assert a + b == a;
    } else {
      AcceptConcat(p, c, a, b[..|b| - 1]);
      assert (a + b)[..|a + b| - 1] == a + b[..|b| - 1];
    }
  }

  lemma {:induction false} JoinedConcat(a: seq<string>, b: seq<string>)
    ensures Joined(a + b) == Joined(a) + Joined(b)
    decreases |b|
  {
    if b == [] {
      assert a + b == a;
    } else {
      JoinedConcat(a, b[..|b| - 1]);
      assert (a + b)[..|a + b| - 1] == a + b[..|b| - 1];
    }
  }

  /** Once a frame said `done`, nothing that follows counts. */
  lemma DoneDecides(p: Parser, c: Client, chunks: seq<string>, i: nat)
    requires i <= |chunks| && AcceptAll(p, c, Split(Joined(chunks[..i])).frames).done
    ensures AcceptAll(p, c, Split(Joined(chunks)).frames) == AcceptAll(p, c, Split(Joined(chunks[..i])).frames)
  {
    hide AcceptAll, Split, Joined;
    assert chunks[..i] + chunks[i..] == chunks;
    JoinedConcat(chunks[..i], chunks[i..]);
    SplitAppends(Joined(chunks[..i]), Joined(chunks[i..]));
    var head := Split(Joined(chunks[..i]));
    var tail := Split(head.rest + Joined(chunks[i..]));
    AcceptConcat(p, c, head.frames, tail.frames);
    AcceptConcat(p, AcceptAll(p, c, head.frames), [], tail.frames);
  }

  /** Yields the complete frames that are new, until `done`. */
  method TakeFrames(p: Parser, c: Client, frames: seq<string>) returns (end: Client)
    requires !c.done
    ensures end == AcceptAll(p, c, frames)
  {
    var after, retries, yielded := c.after, c.retries, c.yielded;
    end := c;
    for i := 0 to |frames|
      invariant end == AcceptAll(p, c, frames[..i]) && end == Client(after, retries, yielded, false)
    {
      assert frames[..i + 1][..i] == frames[..i];
      var frame := frames[i];
      var sequence := p.sequence(frame);
      if p.blank(frame) || (sequence > 0 && sequence <= after) { continue; }
      yielded := yielded + [frame];
      if sequence > 0 {
        after := sequence;
        retries := 0;
      }
      end := Client(after, retries, yielded, p.event(frame) == "done");
      if p.event(frame) == "done" {
        assert frames[..i + 1] + frames[i + 1..] == frames;
        AcceptConcat(p, c, frames[..i + 1], frames[i + 1..]);
        AcceptConcat(p, end, [], frames[i + 1..]);
        return;
      }
    }
    assert frames[..|frames|] == frames;
  }

  /** Reads one connection: every chunk is appended to the buffer and the buffer split again. */
  method ReadConnection(p: Parser, c: Client, chunks: seq<string>) returns (end: Client)
    requires !c.done
    ensures end == AcceptAll(p, c, Split(Joined(chunks)).frames)
  {
    var buffer := "";
    end := c;
    hide AcceptAll, Split;
    assert Split("") == Parts([], "") by { SplitUnfolds(""); }
    assert AcceptAll(p, c, []) == c by { AcceptNone(p, c); }
    for i := 0 to |chunks|
      invariant end == AcceptAll(p, c, Split(Joined(chunks[..i])).frames) && !end.done
      invariant buffer == Split(Joined(chunks[..i])).rest
    {
      assert chunks[..i + 1][..i] == chunks[..i];
      SplitAppends(Joined(chunks[..i]), chunks[i]);
      buffer := buffer + chunks[i];
      var frames, rest := SplitBuffer(buffer);
      AcceptConcat(p, c, Split(Joined(chunks[..i])).frames, frames);
      buffer := rest;
      end := TakeFrames(p, end, frames);
      if end.done {
        DoneDecides(p, c, chunks, i + 1);
        return;
      }
    }
    assert chunks[..|chunks|] == chunks;
  }

  lemma AcceptNone(p: Parser, c: Client)
    ensures AcceptAll(p, c, []) == c
  {
  }

  /** Connects again and again, from the cursor on, until the session is over. */
  method Follow(p: Parser, conns: seq<Connection>) returns (yielded: seq<string>, outcome: Outcome)
    ensures yielded == Session(p, Fresh, conns).0.yielded && outcome == Session(p, Fresh, conns).1
  {
    var c := Fresh;
    outcome := Reading;
    hide AcceptAll, Split;
    for i := 0 to |conns|
      invariant (c, Reading) == Session(p, Fresh, conns[..i]) && !c.done
    {
      assert conns[..i + 1][..i] == conns[..i];
      if conns[i].end == Rejected {
        OverStays(p, conns, i + 1);
        return c.yielded, Rejection;
      }
      var read := ReadConnection(p, c, conns[i].chunks);
      if read.done || (conns[i].end.Closed? && !conns[i].end.live && read.after >= conns[i].end.lastSequence) {
        OverStays(p, conns, i + 1);
        return read.yielded, Finished;
      }
      if conns[i].end == Aborted {
        OverStays(p, conns, i + 1);
        return read.yielded, Abort;
      }
      if read.retries + 1 > MaxRetries {
        OverStays(p, conns, i + 1);
        return read.yielded, GaveUp;
      }
      c := read.(retries := read.retries + 1, yielded := read.yielded + [StatusFrame]);
    }
    assert conns[..|conns|] == conns;
    return c.yielded, Reading;
  }

  lemma {:induction false} OverStays(p: Parser, conns: seq<Connection>, n: nat)
    requires n <= |conns| && !Session(p, Fresh, conns[..n]).1.Reading?
    ensures Session(p, Fresh, conns) == Session(p, Fresh, conns[..n])
    decreases |conns| - n
  {
    if n < |conns| {
      assert conns[..n + 1][..n] == conns[..n];
      OverStays(p, conns, n + 1);
    } else {
      assert conns[..n] == conns;
    }
  }
}
