/** The sliding-window limiter of the HTTP API: per user, in memory, sixty seconds wide. */
module RateLimiting {

  const WINDOW: real := 60.0

  datatype Request = Request(user: string, at: real)

  /** The times later than the cutoff, in order. */
  function After(times: seq<real>, cutoff: real): seq<real> {
    if times == [] then []
    else
      var kept := After(times[..|times| - 1], cutoff);
      if times[|times| - 1] > cutoff then kept + [times[|times| - 1]] else kept
  }

  function Times(log: seq<Request>, user: string): seq<real> {
    if log == [] then []
    else
      var init := Times(log[..|log| - 1], user);
      if log[|log| - 1].user == user then init + [log[|log| - 1].at] else init
  }

  /** The rule: fewer than `limit` of this user's accepted requests fall in the last window. */
  predicate Admits(limit: int, accepted: seq<Request>, user: string, now: real) {
    |After(Times(accepted, user), now - WINDOW)| < limit
  }

  /** What the rule accepts out of a whole run when nothing is ever pruned. */
  function Accepted(limit: int, run: seq<Request>): seq<Request> {
    if run == [] then []
    else
      var prior := Accepted(limit, run[..|run| - 1]);
      var r := run[|run| - 1];
      if Admits(limit, prior, r.user, r.at) then prior + [r] else prior
  }

  predicate Chronological(run: seq<Request>) {
    forall i, j | 0 <= i < j < |run| :: run[i].at <= run[j].at
  }

  lemma {:induction false} AfterConcat(a: seq<real>, b: seq<real>, cutoff: real)
    ensures After(a + b, cutoff) == After(a, cutoff) + After(b, cutoff)
  {
    if b == [] {
      assert a + b == a;
    } else {
      AfterConcat(a, b[..|b| - 1], cutoff);
      assert (a + b)[..|a + b| - 1] == a + b[..|b| - 1];
    }
  }

  lemma {:induction false} AfterTwice(times: seq<real>, early: real, late: real)
    requires early <= late
    ensures After(After(times, early), late) == After(times, late)
  {
    if times == [] {
    } else {
      var n := |times| - 1;
      AfterTwice(times[..n], early, late);
      AfterConcat(After(times[..n], early), [times[n]], late);
    }
  }

  lemma AcceptedStep(limit: int, run: seq<Request>, r: Request)
    ensures Accepted(limit, run + [r])
            == if Admits(limit, Accepted(limit, run), r.user, r.at) then Accepted(limit, run) + [r]
               else Accepted(limit, run)
  {
    assert (run + [r])[..|run|] == run;
  }

  lemma TimesStep(log: seq<Request>, r: Request, user: string)
    ensures Times(log + [r], user) == if r.user == user then Times(log, user) + [r.at] else Times(log, user)
  {
    assert (log + [r])[..|log|] == log;
  }

  /** The pruned list answers every question about a cutoff at or beyond the horizon as the full one would. */
  ghost predicate Agrees(kept: seq<real>, full: seq<real>, horizon: real) {
    forall cutoff: real | horizon <= cutoff :: After(kept, cutoff) == After(full, cutoff)
  }

  lemma PruningAgrees(kept: seq<real>, full: seq<real>, horizon: real, cutoff: real)
    requires Agrees(kept, full, horizon) && horizon <= cutoff
    ensures Agrees(After(kept, cutoff), full, cutoff)
  {
    forall later: real | cutoff <= later ensures After(After(kept, cutoff), later) == After(full, later) {
      AfterTwice(kept, cutoff, later);
    }
  }

  lemma AppendingAgrees(kept: seq<real>, full: seq<real>, horizon: real, t: real)
    requires Agrees(kept, full, horizon)
    ensures Agrees(kept + [t], full + [t], horizon)
  {
    forall cutoff: real | horizon <= cutoff ensures After(kept + [t], cutoff) == After(full + [t], cutoff) {
      AfterConcat(kept, [t], cutoff);
      AfterConcat(full, [t], cutoff);
    }
  }

  lemma AgreeingAtTheHorizon(kept: seq<real>, full: seq<real>, horizon: real)
    requires Agrees(kept, full, horizon)
    ensures After(kept, horizon) == After(full, horizon)
  {
  }

  function HitsOf(hits: map<string, seq<real>>, user: string): seq<real> {
    if user in hits then hits[user] else []
  }

  /** No later call asks about a cutoff before this one. */
  function Horizon(run: seq<Request>): real {
    if run == [] then 0.0 else run[|run| - 1].at - WINDOW
  }

  /** The pruned lists stand for the full history of accepted requests. */
  ghost predicate Coherent(limit: int, run: seq<Request>, hits: map<string, seq<real>>) {
    && (run == [] ==> hits == map[])
    && forall user :: Agrees(HitsOf(hits, user), Times(Accepted(limit, run), user), Horizon(run))
  }

  lemma CoherentForUser(limit: int, run: seq<Request>, hits: map<string, seq<real>>, user: string, now: real)
    requires Coherent(limit, run, hits) && (run == [] || run[|run| - 1].at <= now)
    ensures Agrees(HitsOf(hits, user), Times(Accepted(limit, run), user), now - WINDOW)
  {
    if run == [] {
    } else {
      assert Agrees(HitsOf(hits, user), Times(Accepted(limit, run), user), Horizon(run));
    }
  }

  /** One call: storing the pruned list, with the new time when admitted, keeps the lists coherent. */
  lemma CoherentStep(
      limit: int, run: seq<Request>, hits: map<string, seq<real>>, user: string, now: real, kept: seq<real>)
    requires Coherent(limit, run, hits) && (run == [] || run[|run| - 1].at <= now)
    requires
      var recent := After(HitsOf(hits, user), now - WINDOW);
      kept == if |recent| < limit then recent + [now] else recent
    ensures |After(HitsOf(hits, user), now - WINDOW)| < limit <==> Admits(limit, Accepted(limit, run), user, now)
    ensures Coherent(limit, run + [Request(user, now)], hits[user := kept])
  {
    hide After, Times, Accepted, Agrees;
    var r, log, cutoff := Request(user, now), Accepted(limit, run), now - WINDOW;
    CoherentForUser(limit, run, hits, user, now);
    AcceptedStep(limit, run, r);
    PruningAgrees(HitsOf(hits, user), Times(log, user), cutoff, cutoff);
    AgreeingAtTheHorizon(HitsOf(hits, user), Times(log, user), cutoff);
    AppendingAgrees(After(HitsOf(hits, user), cutoff), Times(log, user), cutoff, now);
    forall u ensures Agrees(HitsOf(hits[user := kept], u), Times(Accepted(limit, run + [r]), u), cutoff) {
      TimesStep(log, r, u);
      CoherentForUser(limit, run, hits, u, now);
    }
  }

  lemma ChronologicalStep(run: seq<Request>, r: Request)
    requires Chronological(run) && (run == [] || run[|run| - 1].at <= r.at)
    ensures Chronological(run + [r])
  {
  }

  class RateLimiter {
    const limit: int
    var hits: map<string, seq<real>>
    ghost var run: seq<Request>  // every call so far, accepted or not

    ghost predicate Valid()
      reads this
    {
      Chronological(run) && Coherent(limit, run, hits)
    }

    constructor (limitPerMin: int)
      ensures Valid() && limit == limitPerMin && run == []
    {
      limit := limitPerMin;
      hits := map[];
      run := [];
    }

    method Allow(user: string, now: real) returns (ok: bool)
      requires Valid()
      requires run == [] || run[|run| - 1].at <= now
      modifies this
      ensures Valid()
      ensures run == old(run) + [Request(user, now)]
      ensures ok == Admits(limit, Accepted(limit, old(run)), user, now)
      ensures hits.Keys == old(hits.Keys) + {user}
      ensures forall other | other in old(hits) && other != user :: hits[other] == old(hits[other])
    {
      hide After, Coherent, Accepted, Times, Admits, Chronological;
      ChronologicalStep(run, Request(user, now));
      var windowStart := now - WINDOW;
      var recent := After(HitsOf(hits, user), windowStart);
      if |recent| >= limit {
        CoherentStep(limit, run, hits, user, now, recent);
        hits := hits[user := recent];
        run := run + [Request(user, now)];
        return false;
      }
      CoherentStep(limit, run, hits, user, now, recent + [now]);
      hits := hits[user := recent + [now]];
      run := run + [Request(user, now)];
      return true;
    }
  }

  // ---- What the rule guarantees over whole runs -------------------------------------------

  /** How many of the times lie in the half-open window (low, high]. */
  function CountIn(times: seq<real>, low: real, high: real): nat {
    if times == [] then 0
    else CountIn(times[..|times| - 1], low, high) + if low < times[|times| - 1] <= high then 1 else 0
  }

  /** How many of the times lie in the closed interval [low, high]. */
  function CountClosed(times: seq<real>, low: real, high: real): nat {
    if times == [] then 0
    else CountClosed(times[..|times| - 1], low, high) + if low <= times[|times| - 1] <= high then 1 else 0
  }

  function AtLeastZero(limit: int): nat { if limit < 0 then 0 else limit }

  lemma {:induction false} CountBelowAfter(times: seq<real>, low: real, high: real, cutoff: real)
    requires cutoff <= low
    ensures CountIn(times, low, high) <= |After(times, cutoff)|
  {
    if times == [] {
    } else {
      CountBelowAfter(times[..|times| - 1], low, high, cutoff);
    }
  }

  lemma CountInStep(times: seq<real>, t: real, low: real, high: real)
    ensures CountIn(times + [t], low, high) == CountIn(times, low, high) + if low < t <= high then 1 else 0
  {
    assert (times + [t])[..|times|] == times;
  }

  /** No window of sixty seconds, wherever it is placed, holds more than `limit` accepted requests of a user. */
  lemma {:induction false} WindowBound(limit: int, run: seq<Request>, user: string, end: real)
    ensures CountIn(Times(Accepted(limit, run), user), end - WINDOW, end) <= AtLeastZero(limit)
  {
    if run == [] {
    } else {
      var prior := Accepted(limit, run[..|run| - 1]);
      var r := run[|run| - 1];
      WindowBound(limit, run[..|run| - 1], user, end);
      if Admits(limit, prior, r.user, r.at) {
        TimesStep(prior, r, user);
        assert Accepted(limit, run) == prior + [r];
        if r.user == user {
          var times := Times(prior, user);
          assert Times(Accepted(limit, run), user) == times + [r.at];
          CountInStep(times, r.at, end - WINDOW, end);
          if end - WINDOW < r.at <= end {
            CountBelowAfter(times, end - WINDOW, end, r.at - WINDOW);
          }
        }
      }
    }
  }

  lemma {:induction false} ClosedSplits(times: seq<real>, low: real, mid: real, high: real)
    requires low <= mid <= high
    ensures CountClosed(times, low, high) == CountClosed(times, low, mid) + CountIn(times, mid, high)
  {
    if times == [] {
    } else {
      ClosedSplits(times[..|times| - 1], low, mid, high);
    }
  }

  lemma {:induction false} ClosedInsideWindow(times: seq<real>, low: real, below: real, high: real)
    requires below < low
    ensures CountClosed(times, low, high) <= CountIn(times, below, high)
  {
    if times == [] {
    } else {
      ClosedInsideWindow(times[..|times| - 1], low, below, high);
    }
  }

  /** A closed interval of any length holds at most `limit` requests per started window. */
  lemma {:induction false} IntervalBound(limit: int, run: seq<Request>, user: string, start: real, length: real)
    requires length >= 0.0
    ensures CountClosed(Times(Accepted(limit, run), user), start, start + length)
            <= AtLeastZero(limit) * ((length / WINDOW).Floor + 1)
    decreases length.Floor
  {
    hide Times, Accepted, CountIn, CountClosed;
    var times := Times(Accepted(limit, run), user);
    WindowBound(limit, run, user, start + length);
    StartedWindows(length, AtLeastZero(limit));
    if length < WINDOW {
      ClosedInsideWindow(times, start, start + length - WINDOW, start + length);
    } else {
      ClosedSplits(times, start, start + length - WINDOW, start + length);
      IntervalBound(limit, run, user, start, length - WINDOW);
      assert start + (length - WINDOW) == start + length - WINDOW;
    }
  }

  /** One window less is one started window less. */
  lemma StartedWindows(length: real, limit: nat)
    requires length >= 0.0
    ensures length < WINDOW ==> limit * ((length / WINDOW).Floor + 1) == limit
    ensures length >= WINDOW ==>
              limit * (((length - WINDOW) / WINDOW).Floor + 1) + limit == limit * ((length / WINDOW).Floor + 1)
  {
    var windows := (length / WINDOW).Floor;
    if length < WINDOW {
      assert windows == 0;
    } else {
      assert (length - WINDOW) / WINDOW == length / WINDOW - 1.0;
      assert ((length - WINDOW) / WINDOW).Floor == windows - 1;
    }
  }

  /** Rejected calls consume nothing: replaying only the accepted ones accepts every one of them again. */
  lemma {:induction false} RejectionsConsumeNothing(limit: int, run: seq<Request>)
    ensures Accepted(limit, Accepted(limit, run)) == Accepted(limit, run)
  {
    if run == [] {
    } else {
      RejectionsConsumeNothing(limit, run[..|run| - 1]);
      var prior := Accepted(limit, run[..|run| - 1]);
      var r := run[|run| - 1];
      if Admits(limit, prior, r.user, r.at) {
        assert (prior + [r])[..|prior|] == prior;
      }
    }
  }

  function Only(run: seq<Request>, user: string): seq<Request> {
    if run == [] then []
    else
      var init := Only(run[..|run| - 1], user);
      if run[|run| - 1].user == user then init + [run[|run| - 1]] else init
  }

  lemma OnlyStep(run: seq<Request>, r: Request, user: string)
    ensures Only(run + [r], user) == if r.user == user then Only(run, user) + [r] else Only(run, user)
  {
    assert (run + [r])[..|run|] == run;
  }

  /** Users do not affect each other: a user's accepted requests are those of a run without anybody else. */
  lemma {:induction false} UsersAreIndependent(limit: int, run: seq<Request>, user: string)
    ensures Only(Accepted(limit, run), user) == Accepted(limit, Only(run, user))
    ensures Times(Accepted(limit, run), user) == Times(Accepted(limit, Only(run, user)), user)
  {
    if run == [] {
    } else {
      var init, r := run[..|run| - 1], run[|run| - 1];
      UsersAreIndependent(limit, init, user);
      var prior, mine := Accepted(limit, init), Accepted(limit, Only(init, user));
      assert run == init + [r];
      AcceptedStep(limit, init, r);
      AcceptedStep(limit, Only(init, user), r);
      TimesStep(prior, r, user);
      TimesStep(mine, r, user);
      OnlyStep(prior, r, user);
    }
  }
}
