/** The in-memory fixed-window limiter: one window start and one count per key. */
module RateLimit {
  const SECOND: nat := 1_000_000_000
  const WORD: nat := 0x1_0000_0000_0000_0000

  datatype Entry = Entry(start: nat, count: nat)
  type Hits = map<string, Entry>

  /** `duration_since(..).as_secs()`: whole seconds, and zero for an instant that lies ahead. */
  function Elapsed(start: nat, now: nat): nat {
    if now < start then 0 else (now - start) / SECOND
  }

  /** `window_secs * 4` in 64-bit arithmetic. */
  function Horizon(window: nat): nat {
    window * 4 % WORD
  }

  /** What one request does to the table and whether it is granted. */
  function Asked(hits: Hits, key: string, limit: nat, window: nat, now: nat): (Hits, bool) {
    var entry := if key in hits then hits[key] else Entry(now, 0);
    if Elapsed(entry.start, now) >= window then (hits[key := Entry(now, 1)], true)
    else if entry.count >= limit then (hits[key := entry], false)
    else (hits[key := Entry(entry.start, entry.count + 1)], true)
  }

  function Pruned(hits: Hits, window: nat, now: nat): Hits {
    map key | key in hits && Elapsed(hits[key].start, now) < Horizon(window) :: hits[key]
  }

  class RateLimiter {
    var hits: Hits

    constructor ()
      ensures hits == map[]
    {
      hits := map[];
    }

    method Allow(key: string, limit: nat, window: nat, now: nat) returns (granted: bool)
      modifies this
      ensures (hits, granted) == Asked(old(hits), key, limit, window, now)
      ensures granted <==>
                if key in old(hits) then Elapsed(old(hits)[key].start, now) >= window || old(hits)[key].count < limit
                else window == 0 || limit > 0
      ensures key in hits && forall other :: other != key ==>
                (other in hits <==> other in old(hits)) && (other in hits ==> hits[other] == old(hits)[other])
      ensures !granted && key in old(hits) ==> hits == old(hits)
      ensures limit >= 1 && (key in old(hits) ==> old(hits)[key].count <= limit) ==> hits[key].count <= limit
    {
      var entry := if key in hits then hits[key] else Entry(now, 0);
      hits := hits[key := entry];
      if Elapsed(entry.start, now) >= window {
        hits := hits[key := Entry(now, 1)];
        assert hits == old(hits)[key := Entry(now, 1)];
        return true;
      }
      if entry.count >= limit {
        return false;
      }
      hits := hits[key := Entry(entry.start, entry.count + 1)];
      assert hits == old(hits)[key := Entry(entry.start, entry.count + 1)];
      return true;
    }

    method Prune(window: nat, now: nat)
      modifies this
      ensures hits == Pruned(old(hits), window, now)
    {
      var kept: Hits := map[];
      var keys := hits.Keys;
      while keys != {}
        invariant hits == old(hits) && keys <= hits.Keys
        invariant kept == map key | key in hits.Keys - keys
                  && Elapsed(hits[key].start, now) < Horizon(window) :: hits[key]
        decreases keys
      {
        var key :| key in keys;
        if Elapsed(hits[key].start, now) < Horizon(window) {
          kept := kept[key := hits[key]];
        }
        keys := keys - {key};
      }
      hits := kept;
    }
  }

  // --- traces -----------------------------------------------------------------------------

  datatype Event = Ask(key: string, limit: nat, window: nat, now: nat) | Prune(window: nat, now: nat)

  predicate Monotone(events: seq<Event>, from: nat) {
    events == [] || (from <= events[0].now && Monotone(events[1..], events[0].now))
  }

  function After(hits: Hits, event: Event): Hits {
    match event
    case Ask(key, limit, window, now) => Asked(hits, key, limit, window, now).0
    case Prune(window, now) => Pruned(hits, window, now)
  }

  /** The answers to the requests of a trace, in order. */
  function Answers(hits: Hits, events: seq<Event>): seq<bool>
    decreases |events|
  {
    if events == [] then []
    else (match events[0]
          case Ask(key, limit, window, now) => [Asked(hits, key, limit, window, now).1]
          case Prune(_, _) => []) + Answers(After(hits, events[0]), events[1..])
  }

  function WithoutPrunes(events: seq<Event>): seq<Event> {
    if events == [] then []
    else (if events[0].Prune? then [] else [events[0]]) + WithoutPrunes(events[1..])
  }

  // --- pruning ----------------------------------------------------------------------------

  /** A pruned table answers for the full one: what it lost is older than `bound` seconds. */
  ghost predicate Forgot(pruned: Hits, full: Hits, now: nat, bound: nat) {
    && (forall key :: key in pruned ==> key in full && pruned[key] == full[key])
    && (forall key :: key in full && key !in pruned ==> Elapsed(full[key].start, now) >= bound)
  }

  ghost predicate Within(events: seq<Event>, bound: nat) {
    forall i :: 0 <= i < |events| ==>
      match events[i]
      case Ask(_, limit, window, _) => limit >= 1 && window <= bound
      case Prune(window, _) => bound <= Horizon(window)
  }

  lemma ElapsedGrows(start: nat, now: nat, later: nat)
    requires now <= later
    ensures Elapsed(start, now) <= Elapsed(start, later)
  {
  }

  lemma ForgotStep(pruned: Hits, full: Hits, event: Event, from: nat, bound: nat)
    requires Forgot(pruned, full, from, bound) && from <= event.now && Within([event], bound)
    ensures event.Ask? ==> Asked(pruned, event.key, event.limit, event.window, event.now).1
                           == Asked(full, event.key, event.limit, event.window, event.now).1
    ensures Forgot(After(pruned, event), if event.Ask? then After(full, event) else full, event.now, bound)
  {
    assert [event][0] == event;
    forall key | key in full
      ensures Elapsed(full[key].start, from) <= Elapsed(full[key].start, event.now)
    {
      ElapsedGrows(full[key].start, from, event.now);
    }
  }

  /** Pruning at any moments changes no later answer, when no request window exceeds the pruning
      horizon and every limit admits at least one request. */
  lemma {:induction false} PruningChangesNoAnswer(pruned: Hits, full: Hits, events: seq<Event>, from: nat, bound: nat)
    requires Forgot(pruned, full, from, bound) && Monotone(events, from) && Within(events, bound)
    ensures Answers(pruned, events) == Answers(full, WithoutPrunes(events))
    decreases |events|
  {
    if events != [] {
      var event := events[0];
      assert Within([event], bound) by { assert [event][0] == events[0]; }
      assert Within(events[1..], bound) by {
        assert forall i :: 0 <= i < |events[1..]| ==> events[1..][i] == events[i + 1];
      }
      ForgotStep(pruned, full, event, from, bound);
      var rest := if event.Ask? then After(full, event) else full;
      PruningChangesNoAnswer(After(pruned, event), rest, events[1..], event.now, bound);
      if event.Ask? {
        assert WithoutPrunes(events)[1..] == WithoutPrunes(events[1..]);
      } else {
        assert WithoutPrunes(events) == WithoutPrunes(events[1..]);
      }
    }
  }

  /** One pruning pass never changes the next answer, whatever the table and the moments. */
  ghost predicate Neutral(limit: nat, window: nat, pruneWindow: nat) {
    forall hits: Hits, key: string, at: nat, now: nat :: at <= now ==>
      Asked(Pruned(hits, pruneWindow, at), key, limit, window, now).1 == Asked(hits, key, limit, window, now).1
  }

  /** Exactly when: a zero limit, or a horizon that is shorter than the window or has wrapped
      around 64 bits below it, lets pruning change an answer. */
  lemma NeutralExactly(limit: nat, window: nat, pruneWindow: nat)
    ensures Neutral(limit, window, pruneWindow) <==>
              window == 0 || (limit >= 1 && window <= Horizon(pruneWindow))
  {
    if window == 0 || (limit >= 1 && window <= Horizon(pruneWindow)) {
      forall hits: Hits, key: string, at: nat, now: nat | at <= now
        ensures Asked(Pruned(hits, pruneWindow, at), key, limit, window, now).1
             == Asked(hits, key, limit, window, now).1
      {
        if key in hits {
          ElapsedGrows(hits[key].start, at, now);
        }
      }
    } else {
      var hits: Hits := map["k" := Entry(0, limit)];
      var horizon := Horizon(pruneWindow);
      var age := if limit >= 1 then horizon else if horizon <= window then window else horizon;
      var at := age * SECOND;
      assert Elapsed(0, at) == age;
      assert "k" !in Pruned(hits, pruneWindow, at);
      assert Asked(Pruned(hits, pruneWindow, at), "k", limit, window, at).1 != Asked(hits, "k", limit, window, at).1;
    }
  }

  // --- the budget -------------------------------------------------------------------------

  /** Grants to `key` at instants of the half-open interval one window long that starts at `t`. */
  function Granted(hits: Hits, events: seq<Event>, key: string, window: nat, t: nat): nat
    decreases |events|
  {
    if events == [] then 0
    else
      var event := events[0];
      (if && event.Ask? && event.key == key && t <= event.now < t + window * SECOND
          && Asked(hits, key, event.limit, event.window, event.now).1 then 1 else 0)
      + Granted(After(hits, event), events[1..], key, window, t)
  }

  ghost predicate Uniform(events: seq<Event>, key: string, limit: nat, window: nat) {
    forall i :: 0 <= i < |events| ==>
      match events[i]
      case Ask(k, l, w, _) => k == key ==> l == limit && w == window
      case Prune(w, _) => window <= Horizon(w)
  }

  /** What may still be granted inside the interval from a table seen at `from`. */
  function Budget(hits: Hits, key: string, limit: nat, window: nat, t: nat, from: nat): int {
    if key !in hits then (if from >= t then limit else 2 * limit - 1)
    else if hits[key].start >= t then limit - hits[key].count
    else if hits[key].start + window * SECOND > t then 2 * limit - hits[key].count
    else 2 * limit - 1
  }

  lemma ElapsedAtLeast(start: nat, now: nat, window: nat)
    requires start <= now
    ensures Elapsed(start, now) >= window <==> now >= start + window * SECOND
  {
  }

  /** The grants left in the interval never exceed the budget of the current window. */
  lemma {:induction false} WithinBudget(hits: Hits, events: seq<Event>, key: string, limit: nat, window: nat, t: nat,
                                        from: nat)
    requires limit >= 1 && window >= 1 && Monotone(events, from) && Uniform(events, key, limit, window)
    requires key in hits ==> hits[key].start <= from && 1 <= hits[key].count <= limit
    ensures Granted(hits, events, key, window, t) <= Budget(hits, key, limit, window, t, from)
    decreases |events|
  {
    if events != [] {
      var event := events[0];
      var next := After(hits, event);
      assert Uniform(events[1..], key, limit, window) by {
        assert forall i :: 0 <= i < |events[1..]| ==> events[1..][i] == events[i + 1];
      }
      if key in hits {
        ElapsedAtLeast(hits[key].start, event.now, window);
      }
      if event.Ask? && event.key == key {
        WithinBudget(next, events[1..], key, limit, window, t, event.now);
        if key in hits && hits[key].start >= t && event.now >= hits[key].start + window * SECOND {
          NothingAfter(next, events[1..], key, window, t, event.now);
        }
      } else if event.Prune? && key in hits && key !in next {
        ElapsedAtLeast(hits[key].start, event.now, Horizon(event.window));
        if hits[key].start >= t {
          NothingAfter(next, events[1..], key, window, t, event.now);
        } else {
          WithinBudget(next, events[1..], key, limit, window, t, event.now);
        }
      } else {
        WithinBudget(next, events[1..], key, limit, window, t, event.now);
      }
    }
  }

  lemma {:induction false} NothingAfter(hits: Hits, events: seq<Event>, key: string, window: nat, t: nat, from: nat)
    requires Monotone(events, from) && from >= t + window * SECOND
    ensures Granted(hits, events, key, window, t) == 0
    decreases |events|
  {
    if events != [] {
      NothingAfter(After(hits, events[0]), events[1..], key, window, t, events[0].now);
    }
  }

  /** Any interval one window long grants a key fewer than twice its limit, with pruning passes
      of no shorter horizon at any moments. */
  lemma FewerThanTwiceTheLimit(events: seq<Event>, key: string, limit: nat, window: nat, t: nat)
    requires limit >= 1 && window >= 1 && Monotone(events, 0) && Uniform(events, key, limit, window)
    ensures Granted(map[], events, key, window, t) <= 2 * limit - 1
  {
    WithinBudget(map[], events, key, limit, window, t, 0);
  }

  // --- the bound is reached ---------------------------------------------------------------

  function Burst(n: nat, key: string, limit: nat, window: nat, now: nat): seq<Event> {
    seq(n, _ => Ask(key, limit, window, now))
  }

  /** One request opens a window, the rest of its budget goes at its last instant, and the whole
      budget of the next window one instant later. */
  function WorstCase(key: string, limit: nat, window: nat): seq<Event>
    requires limit >= 1 && window >= 1
  {
    Burst(1, key, limit, window, 0) + Burst(limit - 1, key, limit, window, window * SECOND - 1)
    + Burst(limit, key, limit, window, window * SECOND)
  }

  lemma OneGrant(hits: Hits, key: string, limit: nat, window: nat, now: nat)
    requires key in hits && window >= 1 && hits[key].start <= now < hits[key].start + window * SECOND
    requires hits[key].count < limit
    ensures Asked(hits, key, limit, window, now) == (hits[key := Entry(hits[key].start, hits[key].count + 1)], true)
  {
    ElapsedAtLeast(hits[key].start, now, window);
  }

  lemma BurstSplits(n: nat, key: string, limit: nat, window: nat, now: nat, rest: seq<Event>)
    requires n > 0
    ensures var events := Burst(n, key, limit, window, now) + rest;
            events != [] && events[0] == Ask(key, limit, window, now)
              && events[1..] == Burst(n - 1, key, limit, window, now) + rest
  {
  }

  lemma {:induction false} BurstGranted(hits: Hits, n: nat, rest: seq<Event>, key: string, limit: nat, window: nat,
                                        t: nat, now: nat)
    requires key in hits && window >= 1 && hits[key].start <= now < hits[key].start + window * SECOND
    requires hits[key].count + n <= limit && t <= now < t + window * SECOND
    ensures Granted(hits, Burst(n, key, limit, window, now) + rest, key, window, t)
         == n + Granted(hits[key := Entry(hits[key].start, hits[key].count + n)], rest, key, window, t)
  {
    if n == 0 {
      assert Burst(0, key, limit, window, now) + rest == rest;
      assert hits[key := Entry(hits[key].start, hits[key].count)] == hits;
    } else {
      hide Asked, Burst;
      BurstSplits(n, key, limit, window, now, rest);
      OneGrant(hits, key, limit, window, now);
      var next := hits[key := Entry(hits[key].start, hits[key].count + 1)];
      BurstGranted(next, n - 1, rest, key, limit, window, t, now);
      SameEntry(hits, key, next[key], Entry(hits[key].start, hits[key].count + n));
    }
  }

  lemma SameEntry(hits: Hits, key: string, one: Entry, last: Entry)
    ensures hits[key := one][key := last] == hits[key := last]
  {
  }

  /** The bound of `FewerThanTwiceTheLimit` cannot be lowered for any limit and window. */
  lemma BoundIsReached(key: string, limit: nat, window: nat)
    requires limit >= 1 && window >= 1
    ensures Granted(map[], WorstCase(key, limit, window), key, window, window * SECOND - 1) == 2 * limit - 1
  {
    var t := window * SECOND - 1;
    var late := Burst(limit, key, limit, window, t + 1);
    var rest := Burst(limit - 1, key, limit, window, t) + late;
    assert WorstCase(key, limit, window) == [Ask(key, limit, window, 0)] + rest;
    var one: Hits := map[key := Entry(0, 1)];
    assert After(map[], Ask(key, limit, window, 0)) == one;
    assert WorstCase(key, limit, window)[1..] == rest;
    BurstGranted(one, limit - 1, late, key, limit, window, t, t);
    var full := one[key := Entry(0, limit)];
    assert one[key := Entry(0, 1 + (limit - 1))] == full;
    ElapsedAtLeast(0, t + 1, window);
    var again := full[key := Entry(t + 1, 1)];
    assert late[0] == Ask(key, limit, window, t + 1) && After(full, late[0]) == again;
    assert late[1..] == Burst(limit - 1, key, limit, window, t + 1) + [];
    BurstGranted(again, limit - 1, [], key, limit, window, t, t + 1);
  }
}
