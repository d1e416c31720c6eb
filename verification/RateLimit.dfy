/** The sliding-window limiter: a script over a sorted set of admission times and a member counter,
    both of which expire. Times are milliseconds of a monotone clock. */
module RateLimit {
  import opened TaskTypes

  /** Members are unique by time and counter value. */
  datatype Member = Member(score: int, sequence: int)

  datatype Window = Window(members: seq<Member>, membersUntil: int, counter: int, counterUntil: int)
  datatype Reply = Reply(allowed: bool, count: int, retry: int)

  const ExpirySlack := 1000
  const Empty := Window([], 0, 0, 0)

  // ---- the script -----------------------------------------------------------------------------

  class SlidingWindow {
    const rate: int
    const window: int
    var members: seq<Member>
    var membersUntil: int
    var counter: int
    var counterUntil: int

    constructor (rate: int, window: int)
      ensures this.rate == rate && this.window == window && Value() == Empty
    {
      this.rate, this.window := rate, window;
      members, membersUntil, counter, counterUntil := [], 0, 0, 0;
    }

    function Value(): Window
      reads this
    {
      Window(members, membersUntil, counter, counterUntil)
    }

    /** Removes the scores up to the cutoff. */
    method Trim(cutoff: int)
      modifies this`members
      ensures members == After(old(members), cutoff)
    {
      var kept: seq<Member> := [];
      for i := 0 to |members|
        invariant kept == After(members[..i], cutoff) && members == old(members)
      {
        assert members[..i + 1][..i] == members[..i];
        if members[i].score > cutoff { kept := kept + [members[i]]; }
      }
      assert members[..|members|] == members;
      members := kept;
    }

    /** Expired keys are gone before the script looks; then it trims, counts and admits or refuses. */
    method Eval(now: int) returns (r: Reply)
      modifies this
      ensures (Value(), r) == Step(rate, window, old(Value()), now)
    {
      hide After;
      if now >= membersUntil { members := []; }
      if now >= counterUntil { counter := 0; }
      Trim(now - window);
      var count := |members|;
      if count >= rate {
        var retry := window;
        if count > 0 {
          var left := window - (now - members[0].score);
          retry := if left > 1 then left else 1;
        }
        return Reply(false, count, retry);
      }
      counter := counter + 1;
      var member := Member(now, counter);
      if member !in members { members := members + [member]; }
      membersUntil := now + window + ExpirySlack;
      counterUntil := now + window + ExpirySlack;
      return Reply(true, count + 1, 0);
    }
  }

  function After(ms: seq<Member>, cutoff: int): seq<Member> {
    if ms == [] then [] else After(ms[..|ms| - 1], cutoff) + if ms[|ms| - 1].score > cutoff then [ms[|ms| - 1]] else []
  }

  function Step(rate: int, window: int, w: Window, now: int): (Window, Reply) {
    var live := After(if now >= w.membersUntil then [] else w.members, now - window);
    var counter := if now >= w.counterUntil then 0 else w.counter;
    if |live| >= rate then
      (w.(members := live, counter := counter),
       Reply(false, |live|, if live == [] then window
                            else if window - (now - live[0].score) > 1 then window - (now - live[0].score)
                            else 1))
    else
      var m := Member(now, counter + 1);
      (Window(if m in live then live else live + [m], now + window + ExpirySlack, counter + 1,
          now + window + ExpirySlack),
       Reply(true, |live| + 1, 0))
  }

  // ---- the reference --------------------------------------------------------------------------

  /** All requests so far and which were admitted, never forgetting anything. */
  function Recent(admitted: seq<int>, cutoff: int): nat {
    if admitted == [] then 0
    else Recent(admitted[..|admitted| - 1], cutoff) + if admitted[|admitted| - 1] > cutoff then 1 else 0
  }

  ghost predicate Ascending(ts: seq<int>) {
    forall i, j :: 0 <= i < j < |ts| ==> ts[i] <= ts[j]
  }

  /** The stored members are the youngest admissions. */
  ghost predicate Tail(ms: seq<Member>, admitted: seq<int>) {
    && |ms| <= |admitted|
    && forall i :: 0 <= i < |ms| ==> ms[i].score == admitted[|admitted| - |ms| + i]
  }

  /** Everything that is not stored is out of the window. */
  ghost predicate OthersOld(ms: seq<Member>, admitted: seq<int>, cutoff: int) {
    forall i :: 0 <= i < |admitted| - |ms| ==> admitted[i] <= cutoff
  }

  ghost predicate Numbered(ms: seq<Member>, counter: int) {
    forall i :: 0 <= i < |ms| ==> ms[i].sequence <= counter
  }

  /** Admissions a full rate apart are a full window apart. */
  ghost predicate Spread(rate: int, window: int, admitted: seq<int>) {
    forall i :: 0 <= i < |admitted| && 0 <= i + rate < |admitted| ==> admitted[i + rate] - admitted[i] >= window
  }

  ghost predicate Faithful(rate: int, window: int, w: Window, admitted: seq<int>, now: int) {
    && Ascending(admitted) && (admitted != [] ==> admitted[|admitted| - 1] <= now)
    && Tail(w.members, admitted) && |w.members| <= rate && OthersOld(w.members, admitted, now - window)
    && (admitted != [] ==> w.membersUntil == w.counterUntil == admitted[|admitted| - 1] + window + ExpirySlack)
    && (now < w.counterUntil ==> Numbered(w.members, w.counter))
    && Spread(rate, window, admitted)
  }

  ghost predicate Rising(ms: seq<Member>) {
    forall i, j :: 0 <= i < j < |ms| ==> ms[i].score <= ms[j].score
  }

  lemma TailRises(ms: seq<Member>, admitted: seq<int>)
    requires Ascending(admitted) && Tail(ms, admitted)
    ensures Rising(ms)
  {
  }

  lemma {:induction false} AfterDrops(ms: seq<Member>, cutoff: int) returns (k: nat)
    requires Rising(ms)
    ensures k <= |ms| && After(ms, cutoff) == ms[k..]
    ensures (forall i :: 0 <= i < k ==> ms[i].score <= cutoff) && forall i :: k <= i < |ms| ==> ms[i].score > cutoff
    decreases |ms|
  {
    if ms == [] {
      k := 0;
    } else {
      var n := |ms| - 1;
      k := AfterDrops(ms[..n], cutoff);
      assert k < n ==> ms[k].score <= ms[n].score;
      if ms[n].score > cutoff {
        assert ms[k..] == ms[..n][k..] + [ms[n]];
      } else {
        k := |ms|;
      }
    }
  }

  lemma {:induction false} RecentCounts(ts: seq<int>, k: nat, cutoff: int)
    requires k <= |ts| && (forall i :: 0 <= i < k ==> ts[i] <= cutoff) && forall i :: k <= i < |ts| ==> ts[i] > cutoff
    ensures Recent(ts, cutoff) == |ts| - k
    decreases |ts|
  {
    if ts != [] {
      RecentCounts(ts[..|ts| - 1], if k < |ts| then k else |ts| - 1, cutoff);
    }
  }

  /** What is still stored once expired keys are gone. */
  function Unexpired(w: Window, now: int): Window {
    w.(members := if now >= w.membersUntil then [] else w.members,
       counter := if now >= w.counterUntil then 0 else w.counter)
  }

  /** Expiry drops nothing the window still counts. */
  lemma ExpiryIsHarmless(rate: int, window: int, w: Window, admitted: seq<int>, now: int, now': int)
    requires Faithful(rate, window, w, admitted, now) && now <= now' && rate >= 1 && window >= 0
    ensures var u := Unexpired(w, now');
      Tail(u.members, admitted) && OthersOld(u.members, admitted, now' - window) && Numbered(u.members, u.counter)
          && |u.members| <= rate
  {
    if admitted != [] {
      assert forall i :: 0 <= i < |admitted| ==> admitted[i] <= admitted[|admitted| - 1];
    }
  }

  /** Dropping the oldest members that left the window. */
  lemma TailDropped(ms: seq<Member>, admitted: seq<int>, k: nat, cutoff: int)
    requires Tail(ms, admitted) && OthersOld(ms, admitted, cutoff) && k <= |ms|
    requires forall i :: 0 <= i < k ==> ms[i].score <= cutoff
    requires forall i :: k <= i < |ms| ==> ms[i].score > cutoff
    ensures Tail(ms[k..], admitted) && OthersOld(ms[k..], admitted, cutoff)
    ensures forall i :: |admitted| - (|ms| - k) <= i < |admitted| ==> admitted[i] > cutoff
  {
    var d := |admitted| - |ms|;
    forall i | d <= i < |admitted| ensures admitted[i] == ms[i - d].score {
      assert ms[i - d].score == admitted[d + (i - d)];
    }
  }

  /** The live members are the admissions inside the window. */
  lemma LiveIsRecent(ms: seq<Member>, admitted: seq<int>, cutoff: int)
    requires Ascending(admitted) && Tail(ms, admitted) && OthersOld(ms, admitted, cutoff)
    ensures var live := After(ms, cutoff);
      && Tail(live, admitted) && OthersOld(live, admitted, cutoff) && |live| == Recent(admitted, cutoff) <= |ms|
      && (forall i :: |admitted| - |live| <= i < |admitted| ==> admitted[i] > cutoff)
      && (forall m :: m in live ==> m in ms)
  {
    hide After, Ascending;
    TailRises(ms, admitted);
    var k := AfterDrops(ms, cutoff);
    TailDropped(ms, admitted, k, cutoff);
    hide Tail;
    RecentCounts(admitted, |admitted| - |ms| + k, cutoff) by {
      assert |ms| <= |admitted| by { TailFits(ms, admitted); }
      assert OthersOld(ms[k..], admitted, cutoff);
    }
    hide Recent;
  }

  lemma TailFits(ms: seq<Member>, admitted: seq<int>)
    requires Tail(ms, admitted)
    ensures |ms| <= |admitted|
  {
  }

  lemma LiveNumbered(ms: seq<Member>, live: seq<Member>, counter: int, now: int)
    requires Numbered(ms, counter) && forall m :: m in live ==> m in ms
    ensures Numbered(live, counter) && Member(now, counter + 1) !in live
  {
    assert forall i :: 0 <= i < |live| ==> live[i] in live;
  }

  lemma AdmitFaithful(rate: int, window: int, live: seq<Member>, counter: int, admitted: seq<int>, now: int)
    requires Ascending(admitted) && (admitted != [] ==> admitted[|admitted| - 1] <= now) && |live| < rate
    requires Tail(live, admitted) && OthersOld(live, admitted, now - window) && Numbered(live, counter)
    requires Spread(rate, window, admitted)
    ensures Faithful(rate, window,
        Window(live + [Member(now, counter + 1)], now + window + ExpirySlack, counter + 1, now + window + ExpirySlack),
                     admitted + [now], now)
  {
    var more, ms := admitted + [now], live + [Member(now, counter + 1)];
    assert forall i :: 0 <= i < |admitted| ==> more[i] == admitted[i];
    assert Spread(rate, window, more) by {
      var i := |admitted| - rate;
      assert i >= 0 ==> admitted[i] <= now - window;
    }
  }

  /** One evaluation decides like the reference over the whole history, and keeps the window faithful. */
  lemma StepDecides(rate: int, window: int, w: Window, admitted: seq<int>, now: int, now': int)
    requires Faithful(rate, window, w, admitted, now) && now <= now' && rate >= 1 && window >= 0
    ensures var (w', r) := Step(rate, window, w, now');
      && (r.allowed <==> Recent(admitted, now' - window) < rate)
      && (!r.allowed ==> w'.members == After(Unexpired(w, now').members, now' - window) && |w'.members| == rate)
      && Faithful(rate, window, w', if r.allowed then admitted + [now'] else admitted, now')
  {
    ExpiryIsHarmless(rate, window, w, admitted, now, now');
    var u := Unexpired(w, now');
    LiveIsRecent(u.members, admitted, now' - window);
    var live := After(u.members, now' - window);
    LiveNumbered(u.members, live, u.counter, now');
    hide After, Recent, Tail, OthersOld, Spread, Numbered, Ascending;
    if |live| < rate {
      AdmitFaithful(rate, window, live, u.counter, admitted, now');
    }
  }

  // ---- theorems -------------------------------------------------------------------------------

  function Run(rate: int, window: int, times: seq<int>): (Window, seq<int>) {
    if times == [] then (Empty, [])
    else
      var (w, admitted) := Run(rate, window, times[..|times| - 1]);
      var now := times[|times| - 1];
      var (w', r) := Step(rate, window, w, now);
      (w', if r.allowed then admitted + [now] else admitted)
  }

  lemma {:induction false} RunFaithful(rate: int, window: int, times: seq<int>)
    requires Ascending(times) && rate >= 1 && window >= 0
    ensures var (w, admitted) := Run(rate, window, times);
      times != [] ==> Faithful(rate, window, w, admitted, times[|times| - 1])
    decreases |times|
  {
    if times != [] {
      var front, now := times[..|times| - 1], times[|times| - 1];
      RunFaithful(rate, window, front);
      var (w, admitted) := Run(rate, window, front);
      if front == [] {
        assert Faithful(rate, window, Empty, [], now);
        StepDecides(rate, window, Empty, [], now, now);
      } else {
        StepDecides(rate, window, w, admitted, front[|front| - 1], now);
      }
      hide Faithful, Step;
    }
  }

  function Inside(ts: seq<int>, from: int, to: int): nat {
    if ts == [] then 0 else Inside(ts[..|ts| - 1], from, to) + if from < ts[|ts| - 1] <= to then 1 else 0
  }

  lemma {:induction false} InsideSpread(ts: seq<int>, from: int, to: int, rate: nat)
    requires Ascending(ts) && rate >= 1 && Spread(rate, to - from, ts)
    ensures Inside(ts, from, to) <= rate
    ensures Inside(ts, from, to) > 0 ==> exists i :: 0 <= i < |ts| && from < ts[i] && i + Inside(ts, from, to) <= |ts|
    decreases |ts|
  {
    if ts != [] {
      var front, last := ts[..|ts| - 1], ts[|ts| - 1];
      InsideSpread(front, from, to, rate);
      var n := Inside(front, from, to);
      if n > 0 {
        var i :| 0 <= i < |front| && from < front[i] && i + n <= |front|;
        assert ts[i] == front[i];
        if n >= rate {
          var j := |front| - rate;
          assert ts[i] <= ts[j] && ts[j + rate] - ts[j] >= to - from;
          assert last > to;
        }
      } else {
        assert ts[|front|] == last;
      }
    }
  }

  /** The window bound: on any history of a monotone clock, every half-open interval as long as the
      window holds at most `rate` admissions. */
  lemma AtMostRatePerWindow(rate: int, window: int, times: seq<int>, t: int)
    requires Ascending(times) && rate >= 1 && window >= 0
    ensures Inside(Run(rate, window, times).1, t - window, t) <= rate
  {
    RunFaithful(rate, window, times);
    var admitted := Run(rate, window, times).1;
    hide Run;
    if times != [] { InsideSpread(admitted, t - window, t, rate); }
  }

  /** What a refusal says: the hint is the time until the oldest counted admission leaves. */
  lemma RefusalFacts(rate: int, window: int, w: Window, admitted: seq<int>, now: int, now': int)
    requires Faithful(rate, window, w, admitted, now) && now <= now' && rate >= 1 && window >= 0
    requires !Step(rate, window, w, now').1.allowed
    ensures |admitted| >= rate
    ensures var first := admitted[|admitted| - rate];
      Step(rate, window, w, now').1.retry == first + window - now' && now' - window < first <= now'
  {
    ExpiryIsHarmless(rate, window, w, admitted, now, now');
    LiveIsRecent(Unexpired(w, now').members, admitted, now' - window);
    StepDecides(rate, window, w, admitted, now, now');
    assert forall i :: 0 <= i < |admitted| ==> admitted[i] <= admitted[|admitted| - 1];
    hide After, Recent;
  }

  /** The hint is exact: if nothing else is admitted, a request before the hinted time is refused
      and a request at the hinted time is admitted. */
  lemma RetryIsExact(rate: int, window: int, w: Window, admitted: seq<int>, now: int, now': int)
    requires Faithful(rate, window, w, admitted, now) && now <= now' && rate >= 1 && window >= 0
    requires !Step(rate, window, w, now').1.allowed
    ensures var (w', r) := Step(rate, window, w, now');
      && 1 <= r.retry <= window
      && (forall t :: now' <= t < now' + r.retry ==> !Step(rate, window, w', t).1.allowed)
      && Step(rate, window, w', now' + r.retry).1.allowed
  {
    hide Step, Faithful, Recent, After;
    RefusalFacts(rate, window, w, admitted, now, now');
    StepDecides(rate, window, w, admitted, now, now');
    var (w', r) := Step(rate, window, w, now');
    forall t | now' <= t < now' + r.retry
      ensures !Step(rate, window, w', t).1.allowed
    {
      DecidedAt(rate, window, w', admitted, now', t);
    }
    DecidedAt(rate, window, w', admitted, now', now' + r.retry);
  }

  /** With a full window behind, a request is admitted exactly once the oldest counted admission is
      out of it. */
  lemma DecidedAt(rate: int, window: int, w: Window, admitted: seq<int>, now: int, t: int)
    requires Faithful(rate, window, w, admitted, now) && now <= t && rate >= 1 && window >= 0 && |admitted| >= rate
    ensures Step(rate, window, w, t).1.allowed <==> admitted[|admitted| - rate] <= t - window
  {
    hide Step, Recent, Tail, OthersOld, Spread, Numbered, After;
    StepDecides(rate, window, w, admitted, now, t);
    var d := |admitted| - rate;
    assert forall i, j :: 0 <= i < j < |admitted| ==> admitted[i] <= admitted[j];
    if admitted[d] <= t - window {
      RecentIsLess(admitted, d, t - window);
    } else {
      RecentIsMost(admitted, d, t - window);
    }
  }

  lemma {:induction false} RecentIsMost(ts: seq<int>, k: nat, cutoff: int)
    requires k <= |ts| && forall i :: k <= i < |ts| ==> ts[i] > cutoff
    ensures Recent(ts, cutoff) >= |ts| - k
    decreases |ts|
  {
    if k < |ts| { RecentIsMost(ts[..|ts| - 1], k, cutoff); }
  }

  lemma {:induction false} RecentIsLess(ts: seq<int>, k: nat, cutoff: int)
    requires k < |ts| && forall i :: 0 <= i <= k ==> ts[i] <= cutoff
    ensures Recent(ts, cutoff) < |ts| - k
    decreases |ts|
  {
    if k < |ts| - 1 {
      RecentIsLess(ts[..|ts| - 1], k, cutoff);
    } else {
      RecentCounts(ts, |ts|, cutoff);
    }
  }

  // ---- the header -----------------------------------------------------------------------------

  /** The seconds sent to the client are cut down to whole ones, at least one. */
  function RetryAfter(retry: int): int {
    if retry / 1000 <= 0 then 1 else retry / 1000
  }

  function Answer(rate: int, window: int, times: seq<int>, now: int): Reply {
    Step(rate, window, Run(rate, window, times).0, now).1
  }

  lemma FirstIsAdmitted(rate: int, window: int, now: int)
    requires rate >= 1
    ensures Answer(rate, window, [], now).allowed
  {
  }

  /** A client that waits as the Retry-After header says, with nothing admitted in between, is admitted if
      and only if the hint was at most a second or a whole number of seconds. */
  lemma AdvertisedWaitSuffices(rate: int, window: int, times: seq<int>, now: int, between: seq<int>)
    requires rate >= 1 && window >= 0 && !Answer(rate, window, times, now).allowed
    requires var t := now + 1000 * RetryAfter(Answer(rate, window, times, now).retry);
      Ascending(times + [now] + between + [t])
    requires Run(rate, window, times + [now] + between).1 == Run(rate, window, times).1
    ensures var hint := Answer(rate, window, times, now).retry;
      Answer(rate, window, times + [now] + between, now + 1000 * RetryAfter(hint)).allowed <==>
      hint <= 1000 || hint % 1000 == 0
  {
    var hint := Answer(rate, window, times, now).retry;
    var t, later := now + 1000 * RetryAfter(hint), times + [now] + between;
    FirstIsAdmitted(rate, window, now);
    TimesAscend(times, now, between, t);
    hide Step, Ascending, RetryAfter;
    RunFaithful(rate, window, times);
    RunFaithful(rate, window, later);
    var (w, admitted) := Run(rate, window, times);
    hide Run, Faithful;
    RefusalFacts(rate, window, w, admitted, times[|times| - 1], now);
    DecidedAt(rate, window, Run(rate, window, later).0, admitted, later[|later| - 1], t);
    assert hint <= 1000 * RetryAfter(hint) <==> hint <= 1000 || hint % 1000 == 0 by { HeaderRounds(hint); }
  }

  lemma HeaderRounds(hint: int)
    requires hint >= 1
    ensures hint <= 1000 * RetryAfter(hint) <==> hint <= 1000 || hint % 1000 == 0
  {
  }

  lemma TimesAscend(times: seq<int>, now: int, between: seq<int>, t: int)
    requires Ascending(times + [now] + between + [t])
    ensures Ascending(times) && Ascending(times + [now] + between)
    ensures times != [] ==> times[|times| - 1] <= now
    ensures var later := times + [now] + between;
      later[|later| - 1] <= t
  {
    var later := times + [now] + between;
    PrefixAscends(later, [t]);
    assert times + ([now] + between + [t]) == later + [t];
    PrefixAscends(times, [now] + between + [t]);
    assert times != [] ==> (later + [t])[|times| - 1] <= (later + [t])[|times|] == now;
    assert (later + [t])[|later| - 1] <= (later + [t])[|later|] == t;
  }

  lemma PrefixAscends(front: seq<int>, back: seq<int>)
    requires Ascending(front + back)
    ensures Ascending(front)
  {
    assert forall i :: 0 <= i < |front| ==> (front + back)[i] == front[i];
  }

  /** One request in two seconds: refused half a second after an admission, the client is told one second
      and is refused again. */
  lemma HeaderCutShort()
    ensures var first, again := Answer(1, 2000, [0], 500), Answer(1, 2000, [0, 500], 1500);
      !first.allowed && first.retry == 1500 && RetryAfter(first.retry) == 1 && !again.allowed
  {
    assert [0][..0] == [] && [0, 500][..1] == [0];
    assert Run(1, 2000, []) == (Empty, []);
    var once := [Member(0, 1)];
    assert once[..0] == [] && After(once, -1500) == once && After(once, -500) == once;
    assert Step(1, 2000, Empty, 0) == (Window(once, 3000, 1, 3000), Reply(true, 1, 0));
    assert [] + [0] == [0] && [0][|[0]| - 1] == 0;
    assert Run(1, 2000, [0]) == (Window(once, 3000, 1, 3000), [0]);
    assert Run(1, 2000, [0, 500]) == Run(1, 2000, [0]);
  }
}
