/** From the event log to the page: what the reconnecting client yields, over any history of the servers, is
    the run's log. The subscriptions of Delivery write the frames that RunStream's client reads. */
module EndToEnd {
  import opened TaskTypes
  import opened TaskInvariants
  import opened RunStream
  import TaskHistory
  import Dispatch
  import Delivery

  /** How the handler writes numbered events and heartbeats, and how the client reads frames. */
  datatype Wire = Wire(parser: Parser, frame: (int, EventType) -> string, beat: string)

  ghost predicate Readable(w: Wire, frame: string) {
    Clean(frame) && !w.parser.blank(frame)
  }

  /** Frames end at their blank line and read back as they were written. */
  ghost predicate Faithful(w: Wire) {
    && (forall n, e :: n > 0 ==>
          && Readable(w, w.frame(n, e)) && w.parser.sequence(w.frame(n, e)) == n
          && (w.parser.event(w.frame(n, e)) == "done" <==> e.Done?))
    && Readable(w, w.beat) && w.parser.sequence(w.beat) == 0 && w.parser.event(w.beat) != "done"
    && w.parser.sequence(StatusFrame) == 0 && w.parser.event(StatusFrame) != "done"
  }

  /** The frames of consecutive events, heartbeats among them. */
  ghost predicate Written(w: Wire, frames: seq<string>, first: int, events: seq<EventType>)
    decreases |frames|
  {
    if frames == [] then events == []
    else
      var front, last, n := frames[..|frames| - 1], frames[|frames| - 1], |events|;
      || (last == w.beat && Written(w, front, first, events))
      || (n > 0 && last == w.frame(first + n - 1, events[n - 1]) && Written(w, front, first, events[..n - 1]))
  }

  function DbAt(steps: seq<Delivery.Step>, t: nat): Db
    requires t <= |steps|
  {
    Delivery.Reached(steps[..t]).sys.db
  }

  ghost function LogOf(db: Db, run: int): seq<EventType> {
    if LogsNumbered(db.runs, db.events) && run in db.runs then Log(db.runs, db.events, run) else []
  }

  /** One connection: until the moment `at` the subscription wrote the frames of what it had returned, of which
      the connection carried any beginning; after it was closed the run's state was read at `asked`. */
  datatype Visit = Visit(id: int, at: nat, asked: nat, frames: seq<string>, connection: Connection)

  ghost predicate Carried(w: Wire, steps: seq<Delivery.Step>, run: int, after: int, v: Visit)
    requires v.at <= |steps|
  {
    var subs := Delivery.Reached(steps[..v.at]).subs;
    && v.id in subs && subs[v.id].run == run && subs[v.id].start == after
    && Written(w, v.frames, after + 1, subs[v.id].received) && Joined(v.connection.chunks) <= Render(v.frames)
  }

  /** What the client was told of the run's state. */
  predicate ReadState(steps: seq<Delivery.Step>, run: int, v: Visit)
    requires v.asked <= |steps| && v.connection.end.Closed?
  {
    var runs := DbAt(steps, v.asked).runs;
    && run in runs && v.connection.end.lastSequence == runs[run].lastSequence
    && (v.connection.end.live <==> !Delivery.Halted(runs[run].status))
  }

  ghost predicate Happened(w: Wire, steps: seq<Delivery.Step>, run: int, after: int, v: Visit) {
    && v.at <= v.asked <= |steps|
    && (v.connection.end.Rejected? || Carried(w, steps, run, after, v))
    && (v.connection.end.Closed? ==> ReadState(steps, run, v))
  }

  function Connections(visits: seq<Visit>): seq<Connection> {
    seq(|visits|, i requires 0 <= i < |visits| => visits[i].connection)
  }

  function Page(w: Wire, visits: seq<Visit>): (Client, RunStream.Outcome) {
    Session(w.parser, Fresh, Connections(visits))
  }

  /** The page follows the run: one visit after the other, each from the cursor of the ones before. */
  ghost predicate Follows(w: Wire, steps: seq<Delivery.Step>, run: int, visits: seq<Visit>) {
    && (forall i :: 0 <= i < |visits| ==> Happened(w, steps, run, Page(w, visits[..i]).0.after, visits[i]))
    && (forall i :: 0 < i < |visits| ==> visits[i - 1].asked <= visits[i].at)
  }

  // ---- logs only grow along a history ----------------------------------------------------------------

  lemma StepGrows(world: Delivery.World, step: Delivery.Step, run: int)
    requires Delivery.WorldInv(world) && Delivery.Allowed(world, step)
    ensures LogOf(world.sys.db, run) <= LogOf(Delivery.Next(world, step).sys.db, run)
  {
    if step.Server? {
      assert Dispatch.SystemInv(world.sys) && Dispatch.Allowed(world.sys, step.step);
      hide Dispatch.SystemInv, Dispatch.Next, Dispatch.Allowed, Inv, TaskHistory.Extends;
      Delivery.ServerRows(world.sys, step.step);
      DbGrows(world.sys.db, Dispatch.Next(world.sys, step.step).db, run);
    }
    hide LogOf, Delivery.WorldInv, Delivery.Allowed;
  }

  lemma DbGrows(db: Db, after: Db, run: int)
    requires Inv(db) && Inv(after) && TaskHistory.Extends(db, after)
    ensures LogOf(db, run) <= LogOf(after, run)
  {
    if run in db.runs { Dispatch.LogGrows(db, after, run); }
    hide Log, LogsNumbered, LogsFit, VersionsOwned, IdsIssued, UniqueKeys;
  }

  lemma LegalFront(steps: seq<Delivery.Step>, n: nat)
    requires n <= |steps| && Delivery.Legal(steps)
    ensures Delivery.Legal(steps[..n])
    ensures n < |steps| ==> Delivery.Allowed(Delivery.Reached(steps[..n]), steps[n])
    ensures n < |steps| ==> Delivery.Reached(steps[..n + 1]) == Delivery.Next(Delivery.Reached(steps[..n]), steps[n])
  {
    hide Delivery.Allowed, Delivery.Next;
    var front := steps[..n];
    forall i | 0 <= i < n ensures Delivery.Allowed(Delivery.Reached(front[..i]), front[i]) {
      assert front[..i] == steps[..i];
    }
    if n < |steps| { assert steps[..n + 1][..n] == front; }
  }

  lemma {:induction false} LogsGrow(steps: seq<Delivery.Step>, i: nat, j: nat, run: int)
    requires Delivery.Legal(steps) && i <= j <= |steps|
    ensures LogOf(DbAt(steps, i), run) <= LogOf(DbAt(steps, j), run)
    decreases j - i
  {
    hide LogOf, Delivery.Legal, Delivery.Reached, Delivery.Next, Delivery.Allowed, Delivery.WorldInv;
    if i < j {
      LogsGrow(steps, i, j - 1, run);
      LegalFront(steps, j - 1);
      Delivery.ReachedInv(steps[..j - 1]);
      StepGrows(Delivery.Reached(steps[..j - 1]), steps[j - 1], run);
    }
  }

  // ---- what is written is what was logged ------------------------------------------------------------

  /** A numbered frame is that of the log's event, and no other says `done`. */
  predicate Tells(w: Wire, log: seq<EventType>, frame: string) {
    var n := w.parser.sequence(frame);
    if n > 0 then n <= |log| && frame == w.frame(n, log[n - 1]) else w.parser.event(frame) != "done"
  }

  ghost predicate Genuine(w: Wire, log: seq<EventType>, frames: seq<string>) {
    forall i :: 0 <= i < |frames| ==> Tells(w, log, frames[i])
  }

  lemma GenuineGrows(w: Wire, log: seq<EventType>, longer: seq<EventType>, frames: seq<string>)
    requires Genuine(w, log, frames) && log <= longer
    ensures Genuine(w, longer, frames)
  {
  }

  lemma GenuineAdds(w: Wire, log: seq<EventType>, frames: seq<string>, frame: string)
    requires Genuine(w, log, frames) && Genuine(w, log, [frame])
    ensures Genuine(w, log, frames + [frame])
  {
    assert [frame][0] == frame;
  }

  lemma FrameReads(w: Wire, n: int, e: EventType)
    requires Faithful(w) && n > 0
    ensures Readable(w, w.frame(n, e)) && w.parser.sequence(w.frame(n, e)) == n
    ensures Readable(w, w.beat) && w.parser.sequence(w.beat) == 0 && w.parser.event(w.beat) != "done"
  {
    hide Readable;
  }

  lemma NothingWritten(w: Wire, first: int, log: seq<EventType>)
    ensures Numbers(w.parser, []) == From(first, 0) && Genuine(w, log, [])
  {
  }

  lemma {:induction false} WrittenReads(w: Wire, frames: seq<string>, first: int, events: seq<EventType>,
        log: seq<EventType>)
    requires Faithful(w) && Written(w, frames, first, events) && first > 0
    requires events == [] || first - 1 + |events| <= |log|
    requires forall i :: 0 <= i < |events| ==> events[i] == log[first - 1 + i]
    ensures forall i :: 0 <= i < |frames| ==> Readable(w, frames[i])
    ensures Numbers(w.parser, frames) == From(first, |events|) && Genuine(w, log, frames)
    decreases |frames|
  {
    hide Faithful, Readable, Numbers, Genuine;
    if frames == [] {
      NothingWritten(w, first, log);
    } else {
      var front, last, n := frames[..|frames| - 1], frames[|frames| - 1], |events|;
      assert front + [last] == frames;
      NumbersAdds(w.parser, front, last);
      FrameReads(w, first, RunCreated);
      if last == w.beat && Written(w, front, first, events) {
        WrittenReads(w, front, first, events, log);
        assert Genuine(w, log, [last]) by { OneGenuine(w, log, last); }
        assert From(first, n) + [] == From(first, n);
      } else {
        FrameReads(w, first + n - 1, events[n - 1]);
        WrittenReads(w, front, first, events[..n - 1], log);
        assert Genuine(w, log, [last]) by { OneGenuine(w, log, last); }
        assert From(first, n - 1) + [first + n - 1] == From(first, n);
      }
      GenuineAdds(w, log, front, last);
    }
    hide Written, From;
  }

  lemma OneGenuine(w: Wire, log: seq<EventType>, frame: string)
    requires Tells(w, log, frame)
    ensures Genuine(w, log, [frame])
  {
  }

  /** What a subscription returned is a stretch of the log. */
  lemma ReturnedIsLogged(steps: seq<Delivery.Step>, t: nat, id: int)
    requires Delivery.Legal(steps) && t <= |steps| && id in Delivery.Reached(steps[..t]).subs
    ensures var s := Delivery.Reached(steps[..t]).subs[id];
      var log := LogOf(DbAt(steps, t), s.run);
      && (s.received == [] || s.start + |s.received| <= |log|)
      && forall i :: 0 <= i < |s.received| ==> s.received[i] == log[s.start + i]
  {
    LegalFront(steps, t);
    hide Delivery.Legal, Delivery.Reached, Log, LogsNumbered;
    Delivery.DeliveryIsGapless(steps[..t], id);
  }

  lemma WrittenIsServed(w: Wire, log: seq<EventType>, frames: seq<string>, text: string, after: nat,
        events: seq<EventType>)
    requires Faithful(w) && Written(w, frames, after + 1, events) && text <= Render(frames)
    requires events == [] || after + |events| <= |log|
    requires forall i :: 0 <= i < |events| ==> events[i] == log[after + i]
    ensures Carries(w.parser, frames, text, after) && Genuine(w, log, frames)
  {
    hide Faithful, Written, Numbers, Render, Clean, Genuine;
    WrittenReads(w, frames, after + 1, events, log);
  }

  lemma CarriedIsServed(w: Wire, steps: seq<Delivery.Step>, run: int, after: int, v: Visit)
    requires Delivery.Legal(steps) && Faithful(w) && v.at <= |steps| && Carried(w, steps, run, after, v)
    ensures Carries(w.parser, v.frames, Joined(v.connection.chunks), after)
    ensures Genuine(w, LogOf(DbAt(steps, v.at), run), v.frames)
  {
    var s := Delivery.Reached(steps[..v.at]).subs[v.id];
    assert Written(w, v.frames, after + 1, s.received) && Joined(v.connection.chunks) <= Render(v.frames);
    assert s.run == run && s.start == after;
    hide *;
    ReturnedIsLogged(steps, v.at, v.id);
    WrittenIsServed(w, LogOf(DbAt(steps, v.at), run), v.frames, Joined(v.connection.chunks), after, s.received);
  }

  lemma ReceivedIsGenuine(w: Wire, log: seq<EventType>, frames: seq<string>, text: string, after: int)
    requires Carries(w.parser, frames, text, after) && Genuine(w, log, frames)
    ensures Genuine(w, log, Split(text).frames)
  {
    CutStreamIsPrefix(frames, text);
    hide Split, Render, Clean, Numbers;
  }

  // ---- the page -------------------------------------------------------------------------------------

  lemma {:induction false} AcceptedAreGenuine(w: Wire, log: seq<EventType>, c: Client, frames: seq<string>)
    requires Genuine(w, log, c.yielded) && Genuine(w, log, frames)
    ensures Genuine(w, log, AcceptAll(w.parser, c, frames).yielded)
    decreases |frames|
  {
    if frames != [] {
      AcceptedAreGenuine(w, log, c, frames[..|frames| - 1]);
    }
  }

  lemma ConnectionIsGenuine(w: Wire, log: seq<EventType>, c: Client, k: Connection)
    requires Faithful(w) && Genuine(w, log, c.yielded)
    requires k.end.Rejected? || Genuine(w, log, Split(Joined(k.chunks)).frames)
    ensures Genuine(w, log, AfterConnection(w.parser, c, k).0.yielded)
  {
    hide Split, Joined, AcceptAll, Clean;
    if !k.end.Rejected? {
      AcceptedAreGenuine(w, log, c, Split(Joined(k.chunks)).frames);
      assert Genuine(w, log, [StatusFrame]);
      GenuineAdds(w, log, AcceptAll(w.parser, c, Split(Joined(k.chunks)).frames).yielded, StatusFrame);
    }
  }

  /** A visit adds the next events of the log. */
  lemma VisitIsTold(w: Wire, steps: seq<Delivery.Step>, run: int, c: Client, v: Visit)
    requires Delivery.Legal(steps) && Faithful(w) && Happened(w, steps, run, c.after, v)
    requires Complete(w.parser, c) && !c.done && Genuine(w, LogOf(DbAt(steps, v.at), run), c.yielded)
    ensures var (end, outcome) := AfterConnection(w.parser, c, v.connection);
      && Complete(w.parser, end) && (outcome.Reading? ==> !end.done)
      && Genuine(w, LogOf(DbAt(steps, v.at), run), end.yielded)
  {
    assert w.parser.sequence(StatusFrame) == 0;
    assert v.connection.end.Rejected? || Carried(w, steps, run, c.after, v);
    hide *;
    var log, k := LogOf(DbAt(steps, v.at), run), v.connection;
    if !k.end.Rejected? {
      CarriedIsServed(w, steps, run, c.after, v);
      ReceivedIsGenuine(w, log, v.frames, Joined(k.chunks), c.after);
    }
    assert Serves(w.parser, k, c.after) by { CarriesServes(w.parser, k, v.frames, c.after); }
    ConnectionIsGenuine(w, log, c, k);
    ConnectionComplete(w.parser, c, k);
  }

  lemma CarriesServes(p: Parser, k: Connection, frames: seq<string>, after: int)
    ensures k.end.Rejected? || Carries(p, frames, Joined(k.chunks), after) ==> Serves(p, k, after)
  {
    hide Carries, Joined;
  }

  /** The moment of the last visit. */
  function Latest(visits: seq<Visit>): nat {
    if visits == [] then 0 else visits[|visits| - 1].at
  }

  lemma PageUnfolds(w: Wire, visits: seq<Visit>)
    requires visits != []
    ensures var n := |visits| - 1;
      Page(w, visits) == if !Page(w, visits[..n]).1.Reading? then Page(w, visits[..n])
          else AfterConnection(w.parser, Page(w, visits[..n]).0, visits[n].connection)
  {
    var n := |visits| - 1;
    assert Connections(visits)[..n] == Connections(visits[..n]);
    hide AfterConnection;
  }

  lemma FollowsFront(w: Wire, steps: seq<Delivery.Step>, run: int, visits: seq<Visit>)
    requires Follows(w, steps, run, visits) && visits != []
    ensures var n := |visits| - 1;
      && Follows(w, steps, run, visits[..n]) && Latest(visits[..n]) <= visits[n].at <= visits[n].asked <= |steps|
      && Happened(w, steps, run, Page(w, visits[..n]).0.after, visits[n])
  {
    var n := |visits| - 1;
    var front := visits[..n];
    assert Happened(w, steps, run, Page(w, visits[..n]).0.after, visits[n]);
    if n > 0 {
      assert Happened(w, steps, run, Page(w, visits[..n - 1]).0.after, visits[n - 1]);
      assert front[n - 1] == visits[n - 1];
    }
    hide Carried, Page, ReadState;
    forall i | 0 <= i < n ensures Happened(w, steps, run, Page(w, front[..i]).0.after, front[i]) {
      assert front[..i] == visits[..i];
      assert Happened(w, steps, run, Page(w, visits[..i]).0.after, visits[i]);
    }
  }

  /** Over all visits: the page has been told 1, 2, ... up to its cursor, with the frames of the log as it was
      by the last visit. */
  lemma {:induction false} PageIsTold(w: Wire, steps: seq<Delivery.Step>, run: int, visits: seq<Visit>)
    requires Delivery.Legal(steps) && Faithful(w) && Follows(w, steps, run, visits)
    ensures var (c, outcome) := Page(w, visits);
      && Latest(visits) <= |steps| && Complete(w.parser, c) && (outcome.Reading? ==> !c.done)
      && Genuine(w, LogOf(DbAt(steps, Latest(visits)), run), c.yielded)
    decreases |visits|
  {
    if visits == [] {
      assert From(1, 0) == [];
    } else {
      hide *;
      FollowsFront(w, steps, run, visits);
      PageUnfolds(w, visits);
      var n := |visits| - 1;
      var front, v := visits[..n], visits[n];
      PageIsTold(w, steps, run, front);
      LatestIs(visits);
      LogsGrow(steps, Latest(front), v.at, run);
      GenuineGrows(w, LogOf(DbAt(steps, Latest(front)), run), LogOf(DbAt(steps, v.at), run), Page(w, front).0.yielded);
      if Page(w, front).1.Reading? { VisitIsTold(w, steps, run, Page(w, front).0, v); }
    }
  }

  lemma LatestIs(visits: seq<Visit>)
    requires visits != []
    ensures Latest(visits) == visits[|visits| - 1].at
  {
  }

  /** The numbered frames among those yielded. */
  function Numbered(p: Parser, frames: seq<string>): seq<string> {
    if frames == [] then []
    else
      var last := frames[|frames| - 1];
      Numbered(p, frames[..|frames| - 1]) + if p.sequence(last) > 0 then [last] else []
  }

  lemma {:induction false} NumberedHaveNumbers(p: Parser, frames: seq<string>)
    ensures var ns, fs := Numbers(p, frames), Numbered(p, frames);
      |ns| == |fs| && forall i :: 0 <= i < |fs| ==> fs[i] in frames && p.sequence(fs[i]) == ns[i] > 0
    decreases |frames|
  {
    if frames != [] { NumberedHaveNumbers(p, frames[..|frames| - 1]); }
  }

  /** The frames of the first n events. */
  function Frames(w: Wire, log: seq<EventType>, n: nat): seq<string>
    requires n <= |log|
  {
    seq(n, i requires 0 <= i < n => w.frame(i + 1, log[i]))
  }

  lemma CompleteIsPrefix(w: Wire, log: seq<EventType>, c: Client)
    requires Complete(w.parser, c) && Genuine(w, log, c.yielded)
    ensures c.after <= |log| && Numbered(w.parser, c.yielded) == Frames(w, log, c.after)
  {
    NumberedHaveNumbers(w.parser, c.yielded);
    var fs := Numbered(w.parser, c.yielded);
    hide Numbers, Numbered;
    assert |fs| == c.after;
    forall i | 0 <= i < |fs| ensures i < |log| && fs[i] == w.frame(i + 1, log[i]) {
      var k :| 0 <= k < |c.yielded| && c.yielded[k] == fs[i];
    }
    if c.after > 0 { var last := fs[c.after - 1]; }
  }

  /** The event frames a page was shown, over any history of the servers and any visits: those of the log's
      first events, each once and in order. */
  lemma PageShowsTheLog(w: Wire, steps: seq<Delivery.Step>, run: int, visits: seq<Visit>)
    requires Delivery.Legal(steps) && Faithful(w) && Follows(w, steps, run, visits)
    ensures Latest(visits) <= |steps|
    ensures var c, log := Page(w, visits).0, LogOf(DbAt(steps, Latest(visits)), run);
      0 <= c.after <= |log| && Numbered(w.parser, c.yielded) == Frames(w, log, c.after)
  {
    PageIsTold(w, steps, run, visits);
    hide Page, Follows, DbAt, LogOf, Latest, Genuine, Numbered, Frames;
    CompleteIsPrefix(w, LogOf(DbAt(steps, Latest(visits)), run), Page(w, visits).0);
  }

  lemma DbFacts(steps: seq<Delivery.Step>, t: nat, run: int)
    requires Delivery.Legal(steps) && t <= |steps|
    ensures var db := DbAt(steps, t);
      Inv(db) && LogsNumbered(db.runs, db.events) && (run in db.runs ==> |LogOf(db, run)| == db.runs[run].lastSequence)
  {
    LegalFront(steps, t);
    Delivery.ReachedInv(steps[..t]);
    hide Delivery.Reached, Delivery.Legal, LogsFit, VersionsOwned, IdsIssued, UniqueKeys;
  }

  /** A logged `done` is the last event of a finished run. */
  lemma DoneIsTheEnd(db: Db, run: int, n: nat)
    requires Inv(db) && 0 < n <= |LogOf(db, run)| && LogOf(db, run)[n - 1].Done?
    ensures run in db.runs && Terminal(db.runs[run].status) && n == |LogOf(db, run)|
  {
    hide LogsNumbered, VersionsOwned, IdsIssued, UniqueKeys;
    assert LogFits(LogOf(db, run), db.runs[run]);
  }

  /** What was yielded last, if numbered, has the cursor's number. */
  lemma LastIsCursor(p: Parser, c: Client)
    requires Complete(p, c) && c.yielded != [] && p.sequence(c.yielded[|c.yielded| - 1]) > 0
    ensures c.after == p.sequence(c.yielded[|c.yielded| - 1])
  {
    var front, last := c.yielded[..|c.yielded| - 1], c.yielded[|c.yielded| - 1];
    assert front + [last] == c.yielded;
    NumbersAdds(p, front, last);
    hide Numbers;
    assert Numbers(p, c.yielded)[c.after - 1] == c.after;
  }

  /** After `done` the run has finished with everything shown. */
  lemma DoneTellsAll(w: Wire, db: Db, run: int, c: Client)
    requires Faithful(w) && Inv(db) && Complete(w.parser, c) && Genuine(w, LogOf(db, run), c.yielded)
    requires c.yielded != [] && w.parser.event(c.yielded[|c.yielded| - 1]) == "done"
    ensures run in db.runs && Terminal(db.runs[run].status) && c.after == |LogOf(db, run)|
  {
    var last := c.yielded[|c.yielded| - 1];
    hide Inv, Complete, LogOf, Clean;
    assert Tells(w, LogOf(db, run), last);
    LastIsCursor(w.parser, c);
    DoneIsTheEnd(db, run, w.parser.sequence(last));
  }

  /** Where the state a page ended on was read: with its last frame, or after the connection was closed. */
  function EndsAt(c: Client, last: Visit): nat {
    if c.done then last.at else last.asked
  }

  /** End to end: when a page's stream ends quietly, the run has halted, and the event frames shown are those of
      its log, every one from the first to the last, each once and in order. */
  lemma QuietEndTellsTheRun(w: Wire, steps: seq<Delivery.Step>, run: int, visits: seq<Visit>)
    requires Delivery.Legal(steps) && Faithful(w) && Follows(w, steps, run, visits) && visits != []
    requires Page(w, visits[..|visits| - 1]).1.Reading? && Page(w, visits).1.Finished?
    ensures var c := Page(w, visits).0;
      var t := EndsAt(c, visits[|visits| - 1]);
      && t <= |steps| && run in DbAt(steps, t).runs && Delivery.Halted(DbAt(steps, t).runs[run].status)
      && c.after == DbAt(steps, t).runs[run].lastSequence == |LogOf(DbAt(steps, t), run)|
      && Numbered(w.parser, c.yielded) == Frames(w, LogOf(DbAt(steps, t), run), c.after)
  {
    hide *;
    var n := |visits| - 1;
    var v, before, c := visits[n], Page(w, visits[..n]).0, Page(w, visits).0;
    var t := EndsAt(c, v);
    FollowsFront(w, steps, run, visits);
    PageUnfolds(w, visits);
    HappenedFacts(w, steps, run, before.after, c, v);
    PageIsTold(w, steps, run, visits[..n]);
    PageIsTold(w, steps, run, visits);
    LatestIs(visits);
    QuietEndIsComplete(w.parser, before, v.connection);
    LogsGrow(steps, v.at, t, run);
    DbFacts(steps, t, run);
    var log := LogOf(DbAt(steps, t), run);
    GenuineGrows(w, LogOf(DbAt(steps, v.at), run), log, c.yielded);
    CompleteIsPrefix(w, log, c);
    if c.done {
      DoneTellsAll(w, DbAt(steps, t), run, c);
      TerminalIsHalted(DbAt(steps, t).runs[run].status);
    } else {
      EndedOnState(steps, run, v);
    }
  }

  lemma HappenedFacts(w: Wire, steps: seq<Delivery.Step>, run: int, after: int, c: Client, v: Visit)
    requires Happened(w, steps, run, after, v)
    ensures v.at <= EndsAt(c, v) <= |steps| && EndsAt(c, v) == if c.done then v.at else v.asked
    ensures v.connection.end.Closed? ==> ReadState(steps, run, v)
  {
    hide Carried, ReadState;
  }

  lemma EndedOnState(steps: seq<Delivery.Step>, run: int, v: Visit)
    requires v.asked <= |steps| && v.connection.end.Closed? && ReadState(steps, run, v) && !v.connection.end.live
    ensures var runs := DbAt(steps, v.asked).runs;
      run in runs && Delivery.Halted(runs[run].status) && v.connection.end.lastSequence == runs[run].lastSequence
  {
    hide DbAt;
  }

  lemma TerminalIsHalted(s: Status)
    requires Terminal(s)
    ensures Delivery.Halted(s)
  {
  }
}
