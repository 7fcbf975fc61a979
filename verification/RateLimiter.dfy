/**
 The sliding-window limiter of `create_task`. It keeps only the calls of the last minute;
 the history of all accepted calls is ghost, and the limiter is proved to answer as if it
 still had it.
 */
module RateLimits {
  import opened Common

  const WINDOW := 60.0

  /** One accepted call. */
  datatype Call = Call(user: int, at: real)

  /** The number of calls of `history` in the closed interval from `lo` to `hi`. */
  function Within(history: seq<Call>, lo: real, hi: real): nat {
    if history == [] then 0
    else
      var last := history[|history| - 1];
      Within(history[..|history| - 1], lo, hi) + if lo <= last.at <= hi then 1 else 0
  }

  /** The calls of one user. */
  function Of(history: seq<Call>, user: int): (r: seq<Call>) {
    if history == [] then []
    else
      var last := history[|history| - 1];
      Of(history[..|history| - 1], user) + if last.user == user then [last] else []
  }

  /** The decision taken with the whole history at hand. */
  predicate Admits(globalLimit: int, userLimit: int, history: seq<Call>, user: int, now: real) {
    && Within(history, now - WINDOW, now) < globalLimit
    && Within(Of(history, user), now - WINDOW, now) < userLimit
  }

  /** The history after a call, by that decision. */
  function Record(globalLimit: int, userLimit: int, history: seq<Call>, user: int, now: real): seq<Call> {
    if Admits(globalLimit, userLimit, history, user, now) then history + [Call(user, now)] else history
  }

  /** Accepted calls in order of time, none later than `clock`. */
  ghost predicate Ordered(history: seq<Call>, clock: real) {
    && (forall i, j :: 0 <= i < j < |history| ==> history[i].at <= history[j].at)
    && (forall i :: 0 <= i < |history| ==> history[i].at <= clock)
  }

  /** Each call of the history was admitted on the strength of the calls before it. */
  ghost predicate Earned(globalLimit: int, userLimit: int, history: seq<Call>) {
    history == [] ||
    var n := |history| - 1;
    Earned(globalLimit, userLimit, history[..n])
      && Admits(globalLimit, userLimit, history[..n], history[n].user, history[n].at)
  }

  function NonNegative(x: int): nat {
    if x < 0 then 0 else x
  }

  lemma {:induction false} OfIsOrdered(history: seq<Call>, user: int, clock: real)
    requires Ordered(history, clock)
    ensures Ordered(Of(history, user), clock)
    ensures forall c :: c in Of(history, user) ==> c in history && c.user == user
  {
    if history != [] {
      OfIsOrdered(history[..|history| - 1], user, history[|history| - 1].at);
    }
  }

  /** Widening the interval can only add calls. */
  lemma {:induction false} WithinMonotone(history: seq<Call>, lo: real, hi: real, lo': real, hi': real)
    requires forall c :: c in history && lo <= c.at <= hi ==> lo' <= c.at <= hi'
    ensures Within(history, lo, hi) <= Within(history, lo', hi')
  {
    if history != [] {
      WithinMonotone(history[..|history| - 1], lo, hi, lo', hi');
    }
  }

  /** What is needed of the accepted calls of one counter: each saw fewer than `limit` in its own last minute. */
  ghost predicate Spaced(history: seq<Call>, limit: int) {
    history == [] ||
    var n := |history| - 1;
    Spaced(history[..n], limit) && Within(history[..n], history[n].at - WINDOW, history[n].at) < limit
  }

  lemma {:induction false} SpacedBound(history: seq<Call>, limit: int, clock: real, t: real)
    requires Ordered(history, clock) && Spaced(history, limit)
    ensures Within(history, t, t + WINDOW) <= NonNegative(limit)
  {
    if history != [] {
      var n := |history| - 1;
      var before, last := history[..n], history[n];
      SpacedBound(before, limit, last.at, t);
      if t <= last.at <= t + WINDOW {
        WithinMonotone(before, t, t + WINDOW, last.at - WINDOW, last.at);
      }
    }
  }

  lemma {:induction false} EarnedSpaced(globalLimit: int, userLimit: int, history: seq<Call>, user: int)
    requires Earned(globalLimit, userLimit, history)
    ensures Spaced(history, globalLimit) && Spaced(Of(history, user), userLimit)
  {
    if history != [] {
      var n := |history| - 1;
      var before, last := history[..n], history[n];
      assert history == before + [last];
      EarnedSpaced(globalLimit, userLimit, before, user);
      OfOneMore(before, last, user);
      if last.user == user {
        var mine := Of(history, user);
        assert mine[..|mine| - 1] == Of(before, user) && mine[|mine| - 1] == last;
      }
    }
  }

  /** No closed minute, wherever it starts, holds more accepted calls than the limits allow. */
  lemma EveryMinuteIsBounded(globalLimit: int, userLimit: int, history: seq<Call>, clock: real, t: real, user: int)
    requires Ordered(history, clock) && Earned(globalLimit, userLimit, history)
    ensures Within(history, t, t + 60.0) <= NonNegative(globalLimit)
    ensures Within(Of(history, user), t, t + 60.0) <= NonNegative(userLimit)
  {
    EarnedSpaced(globalLimit, userLimit, history, user);
    OfIsOrdered(history, user, clock);
    SpacedBound(history, globalLimit, clock, t);
    SpacedBound(Of(history, user), userLimit, clock, t);
  }

  lemma RecordKeepsHistory(globalLimit: int, userLimit: int, history: seq<Call>, clock: real, user: int, now: real)
    requires Ordered(history, clock) && Earned(globalLimit, userLimit, history) && clock <= now
    ensures var h := Record(globalLimit, userLimit, history, user, now);
            Ordered(h, now) && Earned(globalLimit, userLimit, h)
  {
    var h := Record(globalLimit, userLimit, history, user, now);
    if h != history {
      assert h[..|h| - 1] == history;
    }
  }

  function Times(history: seq<Call>): (r: seq<real>)
    ensures |r| == |history|
    ensures forall i :: 0 <= i < |r| ==> r[i] == history[i].at
  {
    seq(|history|, i requires 0 <= i < |history| => history[i].at)
  }

  /** `kept` is what is left of `all` once calls older than some cutoff before `clock - WINDOW` are dropped. */
  ghost predicate Trimmed(kept: seq<real>, all: seq<Call>, clock: real) {
    && IsSuffix(kept, Times(all))
    && forall i :: 0 <= i < |all| - |kept| ==> all[i].at < clock - WINDOW
  }

  /** The last call is kept if any is, and the others are trimmed as before. */
  lemma LastOfKept(kept: seq<real>, all: seq<Call>, now: real)
    requires Ordered(all, now) && Trimmed(kept, all, now) && kept != [] && kept[0] >= now - WINDOW
    ensures all != []
    ensures var n, k := |all| - 1, kept[..|kept| - 1];
            && now - WINDOW <= all[n].at <= now
            && Ordered(all[..n], now) && Trimmed(k, all[..n], now) && (k == [] || k[0] >= now - WINDOW)
  {
    var n, k := |all| - 1, kept[..|kept| - 1];
    assert kept[0] == Times(all)[|all| - |kept|];
    assert kept[|kept| - 1] == Times(all)[n];
    assert Times(all[..n]) == Times(all)[..n];
    assert k == Times(all[..n])[n - |k|..];
  }

  /** Trimming to the last minute keeps exactly the calls the history counts in it. */
  lemma {:induction false} KeptAreCounted(kept: seq<real>, all: seq<Call>, now: real)
    requires Ordered(all, now) && Trimmed(kept, all, now)
    requires kept == [] || kept[0] >= now - WINDOW
    ensures |kept| == Within(all, now - WINDOW, now)
  {
    if all != [] {
      var n := |all| - 1;
      if kept == [] {
        KeptAreCounted([], all[..n], now);
      } else {
        LastOfKept(kept, all, now);
        var k := kept[..|kept| - 1];
        hide Trimmed, Ordered;
        KeptAreCounted(k, all[..n], now);
      }
    }
  }

  /** A user's queue; one that was never asked for is empty. */
  function Queue(queues: map<int, seq<real>>, user: int): seq<real> {
    if user in queues then queues[user] else []
  }

  /** Every user's queue is trimmed, though perhaps long ago. */
  ghost predicate QueuesTrimmed(queues: map<int, seq<real>>, history: seq<Call>, clock: real) {
    forall user :: Trimmed(Queue(queues, user), Of(history, user), clock)
  }

  lemma TrimAgain(events: seq<real>, kept: seq<real>, all: seq<Call>, clock: real, now: real)
    requires Trimmed(events, all, clock) && clock <= now
    requires IsSuffix(kept, events)
    requires forall i :: 0 <= i < |events| - |kept| ==> events[i] < now - WINDOW
    ensures Trimmed(kept, all, now)
  {
    var dropped := |all| - |events|;
    forall i | 0 <= i < |all| - |kept| ensures all[i].at < now - WINDOW {
      if dropped <= i {
        assert events[i - dropped] == Times(all)[i];
      }
    }
  }

  lemma Appended(kept: seq<real>, all: seq<Call>, call: Call, now: real)
    requires Trimmed(kept, all, now)
    ensures Trimmed(kept + [call.at], all + [call], now)
  {
    assert Times(all + [call]) == Times(all) + [call.at];
  }

  /** What one call does to the queues: its own is trimmed and perhaps extended, the others stay as they were. */
  lemma QueuesAfter(queues: map<int, seq<real>>, history: seq<Call>, clock: real, now: real, user: int,
      mine: seq<real>, ok: bool)
    requires QueuesTrimmed(queues, history, clock) && clock <= now
    requires Trimmed(mine, Of(history, user), now)
    ensures QueuesTrimmed(queues[user := if ok then mine + [now] else mine],
                          if ok then history + [Call(user, now)] else history, now)
  {
    var queues' := queues[user := if ok then mine + [now] else mine];
    var history' := if ok then history + [Call(user, now)] else history;
    forall u ensures Trimmed(Queue(queues', u), Of(history', u), now) {
      if ok {
        OfOneMore(history, Call(user, now), u);
      }
      if u == user {
        if ok {
          Appended(mine, Of(history, user), Call(user, now), now);
        }
      } else {
        TrimAgain(Queue(queues, u), Queue(queues, u), Of(history, u), clock, now);
      }
    }
  }

  lemma OfOneMore(history: seq<Call>, call: Call, user: int)
    ensures Of(history + [call], user) == if call.user == user then Of(history, user) + [call] else Of(history, user)
  {
    assert (history + [call])[..|history|] == history;
  }

  class RateLimiter {
    const globalLimit: int
    const userLimit: int
    var globalEvents: seq<real>
    var userEvents: map<int, seq<real>>
    ghost var accepted: seq<Call>
    ghost var clock: real

    ghost predicate Valid()
      reads this
    {
      && Ordered(accepted, clock)
      && Earned(globalLimit, userLimit, accepted)
      && Trimmed(globalEvents, accepted, clock)
      && QueuesTrimmed(userEvents, accepted, clock)
    }

    constructor (globalLimit: int, userLimit: int, now: real)
      ensures Valid() && accepted == [] && clock == now
      ensures this.globalLimit == globalLimit && this.userLimit == userLimit
    {
      this.globalLimit, this.userLimit := globalLimit, userLimit;
      globalEvents, userEvents := [], map[];
      accepted, clock := [], now;
    }

    /** Drops the calls before `cutoff` from the front of a queue. */
    static method Trim(events: seq<real>, cutoff: real) returns (kept: seq<real>)
      ensures IsSuffix(kept, events)
      ensures forall i :: 0 <= i < |events| - |kept| ==> events[i] < cutoff
      ensures kept == [] || kept[0] >= cutoff
    {
      kept := events;
      while kept != [] && kept[0] < cutoff
        invariant IsSuffix(kept, events)
        invariant forall i :: 0 <= i < |events| - |kept| ==> events[i] < cutoff
        decreases |kept|
      {
        kept := kept[1..];
      }
    }

    /** Accepts a call exactly when the full history leaves room for it, whichever queues were trimmed before. */
    method Check(user: int, now: real) returns (ok: bool)
      requires Valid() && clock <= now
      modifies this
      ensures Valid() && clock == now
      ensures ok == Admits(globalLimit, userLimit, old(accepted), user, now)
      ensures accepted == if ok then old(accepted) + [Call(user, now)] else old(accepted)
    {
      hide Within, Admits, Earned, Ordered, Trimmed, QueuesTrimmed, IsSuffix, Of;
      ghost var history := accepted;
      var cutoff := now - WINDOW;
      var global := Trim(globalEvents, cutoff);
      var mine := Trim(Queue(userEvents, user), cutoff);
      ok := !(|global| >= globalLimit || |mine| >= userLimit);
      Decision(history, global, mine, user, now);
      RecordKeepsHistory(globalLimit, userLimit, history, clock, user, now);
      QueuesAfter(userEvents, history, clock, now, user, mine, ok);
      if ok {
        Appended(global, history, Call(user, now), now);
        accepted := accepted + [Call(user, now)];
      }
      globalEvents := if ok then global + [now] else global;
      userEvents := userEvents[user := if ok then mine + [now] else mine];
      clock := now;
    }

    /** The trimmed queues count what the history counts. */
    lemma Decision(history: seq<Call>, global: seq<real>, mine: seq<real>, user: int, now: real)
      requires Valid() && clock <= now && history == accepted
      requires IsSuffix(global, globalEvents) && (global == [] || global[0] >= now - WINDOW)
      requires forall i :: 0 <= i < |globalEvents| - |global| ==> globalEvents[i] < now - WINDOW
      requires IsSuffix(mine, Queue(userEvents, user)) && (mine == [] || mine[0] >= now - WINDOW)
      requires forall i :: 0 <= i < |Queue(userEvents, user)| - |mine| ==> Queue(userEvents, user)[i] < now - WINDOW
      ensures Trimmed(global, history, now) && Trimmed(mine, Of(history, user), now)
      ensures Admits(globalLimit, userLimit, history, user, now) == (|global| < globalLimit && |mine| < userLimit)
    {
      OfIsOrdered(history, user, clock);
      TrimAgain(globalEvents, global, history, clock, now);
      TrimAgain(Queue(userEvents, user), mine, Of(history, user), clock, now);
      KeptAreCounted(global, history, now);
      KeptAreCounted(mine, Of(history, user), now);
    }
  }
}
