/** What a page's stream yields and when it ends, said of the connections and frames alone. */
module StreamLaws {
  import opened TaskTypes
  import opened RunStream

  // ---- which frames are yielded ---------------------------------------------------------------------

  /** The frame is not blank, and if it is numbered its number is above the cursor and above those of the
      frames before it. */
  predicate IsNew(p: Parser, after: int, frames: seq<string>, i: nat)
    requires i < |frames|
  {
    var n := p.sequence(frames[i]);
    && !p.blank(frames[i])
    && (n > 0 ==> n > after && forall j :: 0 <= j < i && !p.blank(frames[j]) ==> p.sequence(frames[j]) < n)
  }

  /** No new frame before it says `done`. */
  predicate Running(p: Parser, after: int, frames: seq<string>, n: nat)
    requires n <= |frames|
  {
    forall i :: 0 <= i < n && IsNew(p, after, frames, i) ==> p.event(frames[i]) != "done"
  }

  /** The new frames among the first n, up to the first that says `done`. */
  function NewFrames(p: Parser, after: int, frames: seq<string>, n: nat): seq<string>
    requires n <= |frames|
  {
    if n == 0 then []
    else NewFrames(p, after, frames, n - 1)
         + if IsNew(p, after, frames, n - 1) && Running(p, after, frames, n - 1) then [frames[n - 1]] else []
  }

  /** The cursor is the highest number seen before the end. */
  ghost predicate CursorIs(p: Parser, after: int, frames: seq<string>, n: nat, cursor: int)
    requires n <= |frames|
  {
    && cursor >= after
    && (forall i :: 0 <= i < n && !p.blank(frames[i]) && p.sequence(frames[i]) > 0 ==> p.sequence(frames[i]) <= cursor)
    && (cursor == after || exists i :: 0 <= i < n && !p.blank(frames[i]) && p.sequence(frames[i]) == cursor > 0)
  }

  /** What reading the first n frames has come to. */
  ghost predicate ReadSoFar(p: Parser, c: Client, frames: seq<string>, n: nat, end: Client)
    requires n <= |frames|
  {
    && end.yielded == c.yielded + NewFrames(p, c.after, frames, n)
    && (end.done <==> !Running(p, c.after, frames, n))
    && (!end.done ==> CursorIs(p, c.after, frames, n, end.after))
  }

  lemma RunningAdds(p: Parser, after: int, frames: seq<string>, n: nat)
    requires n < |frames|
    ensures Running(p, after, frames, n + 1) <==>
            Running(p, after, frames, n) && !(IsNew(p, after, frames, n) && p.event(frames[n]) == "done")
  {
    hide IsNew;
  }

  /** Until `done`, a frame is new exactly if it is not blank and not numbered at or below the cursor. */
  lemma NewIsAbove(p: Parser, c: Client, frames: seq<string>, n: nat, cursor: int)
    requires n < |frames| && c.after >= 0 && CursorIs(p, c.after, frames, n, cursor)
    ensures var number := p.sequence(frames[n]);
      && (IsNew(p, c.after, frames, n) <==> !p.blank(frames[n]) && (number <= 0 || number > cursor))
      && CursorIs(p, c.after, frames, n + 1,
           if IsNew(p, c.after, frames, n) && number > 0 then number else cursor)
  {
  }

  lemma FrameAdds(p: Parser, c: Client, frames: seq<string>, n: nat, end: Client)
    requires n < |frames| && c.after >= 0 && ReadSoFar(p, c, frames, n, end)
    ensures ReadSoFar(p, c, frames, n + 1, Accept(p, end, frames[n]))
  {
    RunningAdds(p, c.after, frames, n);
    if !end.done { NewIsAbove(p, c, frames, n, end.after); }
    assert end.yielded + [] == end.yielded;
    assert forall a: seq<string>, b: seq<string> :: c.yielded + (a + b) == c.yielded + a + b;
    hide IsNew, Running, CursorIs;
  }

  /** What a connection's frames make of a client that is not done: the new frames are yielded, in order, until
      one says `done`. */
  lemma {:induction false} AcceptedIs(p: Parser, c: Client, frames: seq<string>, n: nat)
    requires !c.done && c.after >= 0 && n <= |frames|
    ensures ReadSoFar(p, c, frames, n, AcceptAll(p, c, frames[..n]))
    decreases n
  {
    if n == 0 {
      assert frames[..0] == [] && c.yielded + [] == c.yielded;
    } else {
      hide ReadSoFar, Accept;
      assert frames[..n][..n - 1] == frames[..n - 1];
      AcceptedIs(p, c, frames, n - 1);
      FrameAdds(p, c, frames, n - 1, AcceptAll(p, c, frames[..n - 1]));
    }
  }

  // ---- how a connection ends ------------------------------------------------------------------------

  /** The outcome of a connection, in terms of how it ended and of the frames that came through: rejected,
      finished after `done` or when a halted run was fully delivered, aborted, or failed, which is shown. */
  lemma ConnectionEnds(p: Parser, c: Client, k: Connection)
    requires !c.done && c.after >= 0
    ensures var got, (end, outcome) := Split(Joined(k.chunks)).frames, AfterConnection(p, c, k);
      if k.end.Rejected? then end == c && outcome.Rejection?
      else
        var over := !Running(p, c.after, got, |got|);
        var failed := outcome.Reading? || outcome.GaveUp?;
        && (outcome.Finished? <==> over || (k.end.Closed? && !k.end.live && end.after >= k.end.lastSequence))
        && (outcome.Abort? <==> !outcome.Finished? && k.end.Aborted?)
        && (failed <==> !outcome.Finished? && !k.end.Aborted?)
        && (!over ==> CursorIs(p, c.after, got, |got|, end.after))
        && end.yielded == c.yielded + NewFrames(p, c.after, got, |got|)
             + if outcome.Reading? then [StatusFrame] else []
  {
    var got := Split(Joined(k.chunks)).frames;
    AcceptedIs(p, c, got, |got|);
    assert got[..|got|] == got;
    hide Split, Joined, AcceptAll, NewFrames, Running, CursorIs;
  }

  // ---- when the page gives up -----------------------------------------------------------------------

  function Cursor(p: Parser, conns: seq<Connection>): int {
    Session(p, Fresh, conns).0.after
  }

  predicate Goes(p: Parser, conns: seq<Connection>) {
    Session(p, Fresh, conns).1.Reading?
  }

  lemma {:induction false} AcceptAllRetries(p: Parser, c: Client, frames: seq<string>)
    requires c.after >= 0
    ensures var end := AcceptAll(p, c, frames);
      end.after >= c.after && end.retries == if end.after > c.after then 0 else c.retries
    decreases |frames|
  {
    if frames != [] {
      AcceptAllRetries(p, c, frames[..|frames| - 1]);
    }
  }

  lemma RetriesMove(p: Parser, c: Client, k: Connection)
    requires c.after >= 0
    ensures var (end, outcome) := AfterConnection(p, c, k);
      && end.after >= c.after
      && (outcome.Reading? || outcome.GaveUp? ==>
            && end.retries == 1 + (if end.after > c.after then 0 else c.retries)
            && (outcome.GaveUp? <==> end.retries > 10))
  {
    hide Split, Joined, AcceptAll;
    AcceptAllRetries(p, c, Split(Joined(k.chunks)).frames);
  }

  lemma SessionMoves(p: Parser, conns: seq<Connection>)
    requires conns != []
    ensures var front := conns[..|conns| - 1];
      Session(p, Fresh, conns) == if Goes(p, front)
          then AfterConnection(p, Session(p, Fresh, front).0, conns[|conns| - 1]) else Session(p, Fresh, front)
    ensures Cursor(p, []) == 0 && Session(p, Fresh, []).0.retries == 0
  {
    hide AfterConnection;
  }

  lemma {:induction false} CursorRises(p: Parser, conns: seq<Connection>, i: nat)
    requires i <= |conns|
    ensures 0 <= Cursor(p, conns[..i]) <= Cursor(p, conns)
    decreases |conns|
  {
    hide Session, AfterConnection;
    if conns == [] {
      assert conns[..i] == [];
      SessionMoves(p, [Connection([], Rejected)]);
    } else {
      var front := conns[..|conns| - 1];
      CursorRises(p, front, if i < |conns| then i else 0);
      SessionMoves(p, conns);
      RetriesMove(p, Session(p, Fresh, front).0, conns[|conns| - 1]);
      assert conns[..i] == if i < |conns| then front[..i] else conns;
    }
  }

  /** Counted failures: one for each connection since, and with, the last that brought something new. */
  ghost predicate Counted(p: Parser, conns: seq<Connection>, r: nat) {
    && r <= |conns| && (conns != [] ==> r >= 1)
    && (forall j :: |conns| - r < j <= |conns| ==> Cursor(p, conns[..j]) == Cursor(p, conns))
    && (r < |conns| ==> Cursor(p, conns[..|conns| - r]) < Cursor(p, conns))
  }

  lemma CountsOn(p: Parser, conns: seq<Connection>, r: nat)
    requires conns != [] && Counted(p, conns[..|conns| - 1], r)
    ensures Counted(p, conns, 1 + if Cursor(p, conns) > Cursor(p, conns[..|conns| - 1]) then 0 else r)
  {
    hide Cursor;
    var front := conns[..|conns| - 1];
    CursorRises(p, conns, |conns| - 1);
    assert conns[..|conns|] == conns && front[..|front|] == front;
    forall j | 0 <= j < |conns| ensures conns[..j] == front[..j] { }
    if Cursor(p, conns) == Cursor(p, front) {
      forall j | |conns| - 1 - r < j <= |conns| ensures Cursor(p, conns[..j]) == Cursor(p, conns) {
        if j < |conns| { assert Cursor(p, front[..j]) == Cursor(p, front); }
      }
    }
  }

  lemma {:induction false} RetriesCount(p: Parser, conns: seq<Connection>)
    requires Goes(p, conns) || (conns != [] && Goes(p, conns[..|conns| - 1]) && Session(p, Fresh, conns).1.GaveUp?)
    ensures Counted(p, conns, Session(p, Fresh, conns).0.retries)
    decreases |conns|
  {
    hide Session, AfterConnection;
    if conns == [] {
      SessionMoves(p, [Connection([], Rejected)]);
      assert conns[..0] == conns;
    } else {
      var front := conns[..|conns| - 1];
      SessionMoves(p, conns);
      assert Goes(p, front);
      RetriesCount(p, front);
      CursorRises(p, front, 0);
      RetriesMove(p, Session(p, Fresh, front).0, conns[|conns| - 1]);
      hide Counted;
      CountsOn(p, conns, Session(p, Fresh, front).0.retries);
    }
  }

  /** More than ten failures are counted exactly when ten connections in a row brought nothing new and there
      was another one before them. */
  lemma ManyCounted(p: Parser, conns: seq<Connection>, r: nat)
    requires Counted(p, conns, r)
    ensures r > 10 <==> |conns| > 10 && Cursor(p, conns[..|conns| - 10]) == Cursor(p, conns)
  {
    hide Cursor;
    if r <= 10 && |conns| > 10 {
      assert conns[..|conns| - 10][..|conns| - 10] == conns[..|conns| - 10];
      CursorRises(p, conns[..|conns| - r], |conns| - 10);
      assert conns[..|conns| - r][..|conns| - 10] == conns[..|conns| - 10];
    }
  }

  lemma GivesUpNow(p: Parser, conns: seq<Connection>)
    requires conns != [] && Goes(p, conns[..|conns| - 1])
    requires Goes(p, conns) || Session(p, Fresh, conns).1.GaveUp?
    ensures Session(p, Fresh, conns).1.GaveUp? <==>
            |conns| > 10 && Cursor(p, conns[..|conns| - 10]) == Cursor(p, conns)
  {
    var front := conns[..|conns| - 1];
    SessionMoves(p, conns);
    CursorRises(p, front, 0);
    RetriesMove(p, Session(p, Fresh, front).0, conns[|conns| - 1]);
    RetriesCount(p, conns);
    hide Session, AfterConnection, Counted, Cursor;
    ManyCounted(p, conns, Session(p, Fresh, conns).0.retries);
  }

  /** No connection of the page is rejected, aborted by it, or ends its stream quietly. */
  ghost predicate OnlyFails(p: Parser, conns: seq<Connection>) {
    forall i :: 0 <= i <= |conns| ==> Goes(p, conns[..i]) || Session(p, Fresh, conns[..i]).1.GaveUp?
  }

  /** Ten connections in a row brought no event beyond the cursor, and they were not the first. */
  ghost predicate TenBroughtNothing(p: Parser, conns: seq<Connection>) {
    exists i :: 10 < i <= |conns| && Cursor(p, conns[..i - 10]) == Cursor(p, conns[..i])
  }

  lemma TenMore(p: Parser, conns: seq<Connection>)
    requires conns != []
    ensures TenBroughtNothing(p, conns) <==>
            TenBroughtNothing(p, conns[..|conns| - 1])
            || (|conns| > 10 && Cursor(p, conns[..|conns| - 10]) == Cursor(p, conns))
  {
    hide Cursor;
    var n := |conns|;
    var front := conns[..n - 1];
    assert conns[..n] == conns;
    forall i | 0 <= i < n ensures front[..i] == conns[..i] { }
    if TenBroughtNothing(p, front) {
      var i :| 10 < i <= |front| && Cursor(p, front[..i - 10]) == Cursor(p, front[..i]);
      assert Cursor(p, conns[..i - 10]) == Cursor(p, conns[..i]);
    }
    if n > 10 && Cursor(p, conns[..n - 10]) == Cursor(p, conns) {
      assert Cursor(p, conns[..n - 10]) == Cursor(p, conns[..n]);
    }
    if TenBroughtNothing(p, conns) {
      var i :| 10 < i <= n && Cursor(p, conns[..i - 10]) == Cursor(p, conns[..i]);
      if i < n { assert Cursor(p, front[..i - 10]) == Cursor(p, front[..i]); }
    }
  }

  /** When the page gives up, over all connections that merely fail: exactly when ten of them in a row, not the
      first, brought nothing new. Anything new starts the count again, with the failure that follows it. */
  lemma {:induction false} GivesUpExactlyWhen(p: Parser, conns: seq<Connection>)
    requires OnlyFails(p, conns)
    ensures Session(p, Fresh, conns).1.GaveUp? <==> TenBroughtNothing(p, conns)
    decreases |conns|
  {
    hide Session, Cursor;
    if conns == [] {
      NothingFailed(p);
    } else {
      var n := |conns| - 1;
      var front := conns[..n];
      assert conns[..n + 1] == conns;
      forall i | 0 <= i <= n ensures front[..i] == conns[..i] { }
      assert OnlyFails(p, front);
      GivesUpExactlyWhen(p, front);
      SessionMoves(p, conns);
      TenMore(p, conns);
      assert Goes(p, front) || Session(p, Fresh, front).1.GaveUp?;
      assert Goes(p, conns) || Session(p, Fresh, conns).1.GaveUp?;
      hide OnlyFails, TenBroughtNothing, AfterConnection;
      if Goes(p, front) { GivesUpNow(p, conns); } else { StaysUp(p, conns); }
    }
  }

  lemma NothingFailed(p: Parser)
    ensures Session(p, Fresh, []).1.Reading?
  {
  }

  lemma StaysUp(p: Parser, conns: seq<Connection>)
    requires conns != [] && !Goes(p, conns[..|conns| - 1])
    ensures Session(p, Fresh, conns) == Session(p, Fresh, conns[..|conns| - 1])
  {
  }
}
