/** The sliding-window rate limiter (connector_gateway/rate_limit.py): an ordered table of queues of
    accepted times, compared with a full log that forgets nothing. */
module RateLimiter {

  datatype Config = Config(attempts: int, window: int, maxKeys: int)

  /** Keys from the least recently checked to the most recently checked, and their accepted times. */
  datatype Table = Table(order: seq<string>, buckets: map<string, seq<real>>)

  /** `Crashed` is the index error of an empty queue, which a limit of no attempts provokes. */
  datatype Verdict = Allowed | Exceeded(retryAfter: int) | Crashed

  datatype Outcome = Outcome(table: Table, verdict: Verdict)

  const EMPTY: Table := Table([], map[])

  ghost predicate Wellformed(t: Table) {
    && (forall k :: k in t.order <==> k in t.buckets)
    && (forall i, j | 0 <= i < j < |t.order| :: t.order[i] != t.order[j])
  }

  // ------------------------------------------------------------ transition

  /** What is left of a queue once the expired times at its front are dropped. */
  function Recent(s: seq<real>, cutoff: real): seq<real> {
    if s != [] && s[0] <= cutoff then Recent(s[1..], cutoff) else s
  }

  /** Drop whole queues from the stale end until one still has recent times. */
  function Purged(t: Table, cutoff: real): Table
    requires Wellformed(t)
    decreases |t.order|
  {
    if t.order == [] then t
    else
      var k := t.order[0];
      var b := Recent(t.buckets[k], cutoff);
      if b != [] then t.(buckets := t.buckets[k := b])
      else
        FrontRemoved(t);
        Purged(Table(t.order[1..], t.buckets - {k}), cutoff)
  }

  function Without(order: seq<string>, key: string): seq<string> {
    if order == [] then []
    else if order[0] == key then order[1..]
    else [order[0]] + Without(order[1..], key)
  }

  function Ceil(x: real): int {
    -(-x).Floor
  }

  /** Decide on the key's own queue, which is now the most recently checked one. */
  function Decide(c: Config, t: Table, key: string, now: real): Outcome
    requires key in t.buckets
  {
    var b := Recent(t.buckets[key], now - c.window as real);
    if |b| >= c.attempts then
      Outcome(t.(buckets := t.buckets[key := b]),
              if b == [] then Crashed
              else
                var wait := Ceil(b[0] + c.window as real - now);
                Exceeded(if wait > 1 then wait else 1))
    else Outcome(t.(buckets := t.buckets[key := b + [now]]), Allowed)
  }

  function Checked(c: Config, t: Table, key: string, now: real): Outcome
    requires Wellformed(t)
  {
    var p := Purged(t, now - c.window as real);
    if key in p.buckets then Decide(c, p.(order := Without(p.order, key) + [key]), key, now)
    else if |p.order| >= c.maxKeys then Outcome(p, Exceeded(c.window))
    else Decide(c, Table(p.order + [key], p.buckets[key := []]), key, now)
  }

  lemma FrontRemoved(t: Table)
    requires Wellformed(t) && t.order != []
    ensures Wellformed(Table(t.order[1..], t.buckets - {t.order[0]}))
  {
  }

  lemma {:induction false} PurgedIsWellformed(t: Table, cutoff: real)
    requires Wellformed(t)
    ensures Wellformed(Purged(t, cutoff)) && |Purged(t, cutoff).order| <= |t.order|
    ensures Purged(t, cutoff).buckets.Keys <= t.buckets.Keys
    ensures forall k | k in t.buckets && k !in Purged(t, cutoff).buckets :: |Purged(t, cutoff).order| < |t.order|
    decreases |t.order|
  {
    if t.order != [] && Recent(t.buckets[t.order[0]], cutoff) == [] {
      FrontRemoved(t);
      PurgedIsWellformed(Table(t.order[1..], t.buckets - {t.order[0]}), cutoff);
    }
  }

  lemma {:induction false} WithoutDrops(order: seq<string>, key: string)
    requires key in order && forall i, j | 0 <= i < j < |order| :: order[i] != order[j]
    ensures |Without(order, key)| == |order| - 1
    ensures forall k :: k in Without(order, key) <==> k in order && k != key
    ensures forall i, j | 0 <= i < j < |order| - 1 :: Without(order, key)[i] != Without(order, key)[j]
  {
    var rest := order[1..];
    assert order == [order[0]] + rest;
    assert order[0] !in rest;
    if order[0] != key {
      WithoutDrops(rest, key);
      assert order[0] !in Without(rest, key);
      assert forall i | 0 < i < |order| - 1 :: Without(order, key)[i] == Without(rest, key)[i - 1];
    }
  }

  /** The table never holds more keys than allowed. */
  lemma CheckKeepsTable(c: Config, t: Table, key: string, now: real)
    requires Wellformed(t) && |t.order| <= if c.maxKeys > 0 then c.maxKeys else 0
    ensures Wellformed(Checked(c, t, key, now).table)
    ensures |Checked(c, t, key, now).table.order| <= if c.maxKeys > 0 then c.maxKeys else 0
  {
    hide Purged, Recent, Without;
    var p := Purged(t, now - c.window as real);
    PurgedIsWellformed(t, now - c.window as real);
    if key in p.buckets {
      WithoutDrops(p.order, key);
    }
  }

  // --------------------------------------------------------------- queues

  lemma {:induction false} RecentTwice(s: seq<real>, c: real, d: real)
    requires c <= d
    ensures Recent(Recent(s, c), d) == Recent(s, d)
  {
    if s != [] && s[0] <= c {
      RecentTwice(s[1..], c, d);
    }
  }

  lemma {:induction false} RecentAppend(s: seq<real>, x: real, c: real)
    ensures Recent(s + [x], c) == if Recent(s, c) == [] && x <= c then [] else Recent(s, c) + [x]
  {
    if s != [] && s[0] <= c {
      assert (s + [x])[1..] == s[1..] + [x];
      RecentAppend(s[1..], x, c);
    } else if s == [] {
      assert s + [x] == [x];
    } else {
      assert (s + [x])[0] == s[0];
    }
  }

  function BucketOf(t: Table, key: string): seq<real> {
    if key in t.buckets then t.buckets[key] else []
  }

  /** Purging loses nothing recent, of any key. */
  lemma {:induction false} PurgeLosesNothing(t: Table, cutoff: real, k: string)
    requires Wellformed(t)
    ensures Recent(BucketOf(Purged(t, cutoff), k), cutoff) == Recent(BucketOf(t, k), cutoff)
    decreases |t.order|
  {
    if t.order != [] {
      var f := t.order[0];
      RecentTwice(t.buckets[f], cutoff, cutoff);
      if Recent(t.buckets[f], cutoff) == [] {
        FrontRemoved(t);
        PurgeLosesNothing(Table(t.order[1..], t.buckets - {f}), cutoff, k);
      }
    }
  }

  // ------------------------------------------------------------------ runs

  datatype Reading = Reading(key: string, now: real)

  ghost predicate Monotone(run: seq<Reading>) {
    forall i, j | 0 <= i <= j < |run| :: run[i].now <= run[j].now
  }

  ghost predicate TableOk(c: Config, t: Table) {
    Wellformed(t) && |t.order| <= if c.maxKeys > 0 then c.maxKeys else 0
  }

  /** The table after a run of checks. */
  ghost function After(c: Config, run: seq<Reading>): (t: Table)
    ensures TableOk(c, t)
  {
    if run == [] then EMPTY
    else
      var r := run[|run| - 1];
      var t := After(c, run[..|run| - 1]);
      CheckKeepsTable(c, t, r.key, r.now);
      Checked(c, t, r.key, r.now).table
  }

  /** The full log: every accepted time of one key. */
  ghost function Log(c: Config, run: seq<Reading>, key: string): seq<real> {
    if run == [] then []
    else
      var r := run[|run| - 1];
      var front := run[..|run| - 1];
      if r.key == key && Checked(c, After(c, front), r.key, r.now).verdict == Allowed then Log(c, front, key) + [r.now]
      else Log(c, front, key)
  }

  /** How many logged times lie after the cutoff. */
  function InWindow(log: seq<real>, cutoff: real): nat {
    if log == [] then 0 else InWindow(log[..|log| - 1], cutoff) + if log[|log| - 1] > cutoff then 1 else 0
  }

  ghost predicate Ascending(s: seq<real>) {
    forall i, j | 0 <= i <= j < |s| :: s[i] <= s[j]
  }

  /** In an ascending log the recent times are exactly those after the cutoff. */
  lemma {:induction false} RecentCounts(s: seq<real>, cutoff: real)
    requires Ascending(s)
    ensures |Recent(s, cutoff)| == InWindow(s, cutoff)
    ensures s != [] && s[|s| - 1] <= cutoff ==> Recent(s, cutoff) == []
  {
    if s != [] {
      var n := |s| - 1;
      RecentCounts(s[..n], cutoff);
      RecentAppend(s[..n], s[n], cutoff);
      assert s == s[..n] + [s[n]];
      if s[n] <= cutoff && n > 0 {
        assert s[..n][n - 1] <= cutoff;
      }
    }
  }

  lemma {:induction false} LogAscends(c: Config, run: seq<Reading>, key: string)
    requires Monotone(run)
    ensures Ascending(Log(c, run, key))
    ensures run == [] ==> Log(c, run, key) == []
    ensures run != [] ==> forall i | 0 <= i < |Log(c, run, key)| :: Log(c, run, key)[i] <= run[|run| - 1].now
  {
    hide Checked;
    if run != [] {
      var n := |run| - 1;
      LogAscends(c, run[..n], key);
      if n > 0 {
        assert run[..n][n - 1].now <= run[n].now;
      }
    }
  }

  /** Both forget the same: what the queue and the log hold after the cutoff is equal. */
  ghost predicate Agree(c: Config, t: Table, log: seq<real>, key: string, now: real) {
    Recent(BucketOf(t, key), now - c.window as real) == Recent(log, now - c.window as real)
  }

  lemma AgreeLater(c: Config, t: Table, log: seq<real>, key: string, now: real, later: real)
    requires Agree(c, t, log, key, now) && now <= later
    ensures Agree(c, t, log, key, later)
  {
    RecentTwice(BucketOf(t, key), now - c.window as real, later - c.window as real);
    RecentTwice(log, now - c.window as real, later - c.window as real);
  }

  /** The effect of a check on the recent times of every key. */
  lemma CheckOnQueues(c: Config, t: Table, key: string, now: real, k: string)
    requires Wellformed(t)
    ensures var cutoff := now - c.window as real; var o := Checked(c, t, key, now);
            Recent(BucketOf(o.table, k), cutoff) ==
              if k == key && o.verdict == Allowed then Recent(Recent(BucketOf(t, k), cutoff) + [now], cutoff)
              else Recent(BucketOf(t, k), cutoff)
  {
    hide Purged, Recent, Without;
    var cutoff := now - c.window as real;
    PurgeLosesNothing(t, cutoff, k);
    RecentTwice(BucketOf(Purged(t, cutoff), k), cutoff, cutoff);
    EmptyIsRecent(cutoff);
  }

  lemma EmptyIsRecent(cutoff: real)
    ensures Recent([], cutoff) == []
  {
  }

  lemma AppendAgrees(a: seq<real>, b: seq<real>, x: real, c: real)
    requires Recent(a, c) == Recent(b, c)
    ensures Recent(Recent(a, c) + [x], c) == Recent(b + [x], c)
  {
    RecentTwice(b, c, c);
    RecentAppend(Recent(a, c), x, c);
    RecentAppend(b, x, c);
  }

  lemma {:induction false} QueuesAgreeWithLog(c: Config, run: seq<Reading>, k: string, now: real)
    requires Monotone(run) && (run != [] ==> run[|run| - 1].now <= now)
    ensures Agree(c, After(c, run), Log(c, run, k), k, now)
  {
    hide Checked, Recent;
    if run != [] {
      var n := |run| - 1;
      var r := run[n];
      var front := run[..n];
      var t := After(c, front);
      QueuesAgreeWithLog(c, front, k, r.now);
      CheckOnQueues(c, t, r.key, r.now, k);
      AppendAgrees(BucketOf(t, k), Log(c, front, k), r.now, r.now - c.window as real);
      CheckKeepsTable(c, t, r.key, r.now);
      AgreeLater(c, After(c, run), Log(c, run, k), k, r.now, now);
    }
  }

  /** A key is looked after when it has a queue already or the purged table has room. */
  ghost predicate HasPlace(c: Config, t: Table, key: string, now: real)
    requires Wellformed(t)
  {
    key in t.buckets || |Purged(t, now - c.window as real).order| < c.maxKeys
  }

  /** The verdict depends only on the key's recent times. */
  lemma VerdictFromQueue(c: Config, t: Table, key: string, now: real)
    requires TableOk(c, t)
    ensures HasPlace(c, t, key, now) ==>
              (Checked(c, t, key, now).verdict == Allowed <==> |Recent(BucketOf(t, key), now - c.window as real)| < c.attempts)
    ensures !HasPlace(c, t, key, now) ==> Checked(c, t, key, now).verdict == Exceeded(c.window)
  {
    hide Purged, Recent, Without;
    var cutoff := now - c.window as real;
    PurgedIsWellformed(t, cutoff);
    PurgeLosesNothing(t, cutoff, key);
    EmptyIsRecent(cutoff);
  }

  /**
   * After any run with a clock that never goes back, a check with a place is accepted exactly
   * when fewer than `attempts` accepted checks of its key lie in the last window.
   */
  lemma AcceptedExactlyBelowTheLimit(c: Config, run: seq<Reading>, key: string, now: real)
    requires Monotone(run) && (run != [] ==> run[|run| - 1].now <= now)
    ensures var t := After(c, run);
            HasPlace(c, t, key, now) ==>
              (Checked(c, t, key, now).verdict == Allowed <==> InWindow(Log(c, run, key), now - c.window as real) < c.attempts)
    ensures var t := After(c, run); |t.order| <= if c.maxKeys > 0 then c.maxKeys else 0
    ensures var t := After(c, run); !HasPlace(c, t, key, now) ==> Checked(c, t, key, now).verdict == Exceeded(c.window)
  {
    hide Checked, Recent, HasPlace;
    VerdictFromQueue(c, After(c, run), key, now);
    QueuesAgreeWithLog(c, run, key, now);
    LogAscends(c, run, key);
    RecentCounts(Log(c, run, key), now - c.window as real);
  }

  // --------------------------------------------------------------- waiting

  /** No queue grows past the number of attempts. */
  ghost predicate Short(c: Config, t: Table) {
    forall k | k in t.buckets :: |t.buckets[k]| <= if c.attempts > 0 then c.attempts else 0
  }

  lemma {:induction false} RecentIsNoLonger(s: seq<real>, cutoff: real)
    ensures |Recent(s, cutoff)| <= |s|
  {
    if s != [] && s[0] <= cutoff {
      RecentIsNoLonger(s[1..], cutoff);
    }
  }

  lemma {:induction false} PurgedStaysShort(c: Config, t: Table, cutoff: real)
    requires Wellformed(t) && Short(c, t)
    ensures Short(c, Purged(t, cutoff))
    decreases |t.order|
  {
    if t.order != [] {
      RecentIsNoLonger(t.buckets[t.order[0]], cutoff);
      if Recent(t.buckets[t.order[0]], cutoff) == [] {
        FrontRemoved(t);
        PurgedStaysShort(c, Table(t.order[1..], t.buckets - {t.order[0]}), cutoff);
      }
    }
  }

  lemma CheckStaysShort(c: Config, t: Table, key: string, now: real)
    requires Wellformed(t) && Short(c, t)
    ensures Short(c, Checked(c, t, key, now).table)
  {
    hide Purged, Recent, Without;
    var cutoff := now - c.window as real;
    PurgedStaysShort(c, t, cutoff);
    RecentIsNoLonger(BucketOf(Purged(t, cutoff), key), cutoff);
    EmptyIsRecent(cutoff);
  }

  lemma {:induction false} RunsStayShort(c: Config, run: seq<Reading>)
    ensures Short(c, After(c, run))
  {
    hide Checked;
    if run != [] {
      RunsStayShort(c, run[..|run| - 1]);
      CheckStaysShort(c, After(c, run[..|run| - 1]), run[|run| - 1].key, run[|run| - 1].now);
    }
  }

  /** A limit of no attempts never answers: every check with a place fails on an empty queue. */
  lemma NoAttemptsCrash(c: Config, run: seq<Reading>, key: string, now: real)
    requires c.attempts <= 0 && HasPlace(c, After(c, run), key, now)
    ensures Checked(c, After(c, run), key, now).verdict == Crashed
  {
    hide Purged, Without;
    var t := After(c, run);
    var cutoff := now - c.window as real;
    RunsStayShort(c, run);
    PurgedIsWellformed(t, cutoff);
    PurgedStaysShort(c, t, cutoff);
    EmptyIsRecent(cutoff);
    var p := Purged(t, cutoff);
    assert key in p.buckets ==> p.buckets[key] == [];
  }

  lemma {:induction false} StaleTableEmpties(t: Table, cutoff: real)
    requires Wellformed(t) && forall k | k in t.buckets :: Recent(t.buckets[k], cutoff) == []
    ensures Purged(t, cutoff).order == []
    decreases |t.order|
  {
    if t.order != [] {
      FrontRemoved(t);
      StaleTableEmpties(Table(t.order[1..], t.buckets - {t.order[0]}), cutoff);
    }
  }

  /** A window after the last check nothing is recent any more. */
  lemma EverythingExpires(c: Config, run: seq<Reading>, k: string, later: real)
    requires Monotone(run) && run != []
    requires run[|run| - 1].now <= later && run[|run| - 1].now <= later - c.window as real
    ensures Recent(BucketOf(After(c, run), k), later - c.window as real) == []
  {
    hide Checked, Recent, After, Log, Monotone, InWindow, Wellformed, Ascending;
    QueuesAgreeWithLog(c, run, k, later);
    LogAscends(c, run, k);
    RecentCounts(Log(c, run, k), later - c.window as real);
    EmptyIsRecent(later - c.window as real);
  }

  /** Why the key was refused: its own queue is full, and the wait outlasts its oldest time. */
  lemma RefusedQueue(c: Config, t: Table, key: string, now: real, later: real)
    requires TableOk(c, t) && HasPlace(c, t, key, now) && Checked(c, t, key, now).verdict.Exceeded?
    requires later >= now + Checked(c, t, key, now).verdict.retryAfter as real
    ensures var b := BucketOf(Checked(c, t, key, now).table, key);
            key in Checked(c, t, key, now).table.buckets && b != [] && b[0] <= later - c.window as real
  {
    hide Purged, Recent, Without;
    var cutoff := now - c.window as real;
    PurgedIsWellformed(t, cutoff);
  }

  lemma OldestExpires(b: seq<real>, cutoff: real)
    requires b != [] && b[0] <= cutoff
    ensures |Recent(b, cutoff)| < |b|
  {
    RecentIsNoLonger(b[1..], cutoff);
  }

  /** A refused caller who waits out retry_after, while nobody else checks, is let in. */
  lemma WaitingWorks(c: Config, run: seq<Reading>, later: real)
    requires Monotone(run) && run != [] && c.attempts > 0 && c.maxKeys > 0
    requires var r := run[|run| - 1]; Checked(c, After(c, run[..|run| - 1]), r.key, r.now).verdict.Exceeded?
    requires later >= run[|run| - 1].now
    requires var r := run[|run| - 1];
             later >= r.now + Checked(c, After(c, run[..|run| - 1]), r.key, r.now).verdict.retryAfter as real
    ensures Checked(c, After(c, run), run[|run| - 1].key, later).verdict == Allowed
  {
    hide Checked, Recent, HasPlace, Monotone, Wellformed, BucketOf;
    var n := |run| - 1;
    var r := run[n];
    var before := After(c, run[..n]);
    VerdictFromQueue(c, before, r.key, r.now);
    OneMore(c, run);
    if HasPlace(c, before, r.key, r.now) {
      RunsStayShort(c, run);
      WaitingForTheQueue(c, before, r.key, r.now, later);
    } else {
      WaitingForTheTable(c, run, r.key, later);
    }
  }

  lemma OneMore(c: Config, run: seq<Reading>)
    requires run != []
    ensures var r := run[|run| - 1];
            After(c, run) == Checked(c, After(c, run[..|run| - 1]), r.key, r.now).table
  {
  }

  lemma WaitingForTheQueue(c: Config, t: Table, key: string, now: real, later: real)
    requires c.attempts > 0 && TableOk(c, t) && HasPlace(c, t, key, now) && Checked(c, t, key, now).verdict.Exceeded?
    requires later >= now + Checked(c, t, key, now).verdict.retryAfter as real
    requires Short(c, Checked(c, t, key, now).table) && TableOk(c, Checked(c, t, key, now).table)
    ensures Checked(c, Checked(c, t, key, now).table, key, later).verdict == Allowed
  {
    hide Checked, Recent, HasPlace, Wellformed;
    var u := Checked(c, t, key, now).table;
    RefusedQueue(c, t, key, now, later);
    OldestExpires(BucketOf(u, key), later - c.window as real);
    TrackedHasPlace(c, u, key, later);
    VerdictFromQueue(c, u, key, later);
  }

  lemma WaitingForTheTable(c: Config, run: seq<Reading>, key: string, later: real)
    requires Monotone(run) && run != [] && c.attempts > 0 && c.maxKeys > 0
    requires run[|run| - 1].now <= later && run[|run| - 1].now <= later - c.window as real
    ensures Checked(c, After(c, run), key, later).verdict == Allowed
  {
    hide Checked, Recent, HasPlace, After, Monotone;
    var t := After(c, run);
    var cutoff := later - c.window as real;
    VerdictFromQueue(c, t, key, later);
    forall k | k in t.buckets ensures Recent(t.buckets[k], cutoff) == [] {
      EverythingExpires(c, run, k, later);
    }
    StaleTableEmpties(t, cutoff);
    EverythingExpires(c, run, key, later);
    EmptyHasPlace(c, t, key, later);
  }

  lemma TrackedHasPlace(c: Config, t: Table, key: string, now: real)
    requires Wellformed(t) && key in t.buckets
    ensures HasPlace(c, t, key, now)
  {
  }

  lemma EmptyHasPlace(c: Config, t: Table, key: string, now: real)
    requires Wellformed(t) && c.maxKeys > 0 && Purged(t, now - c.window as real).order == []
    ensures HasPlace(c, t, key, now)
  {
  }

  /** The wait is no longer than needed: after any fewer whole seconds the caller is still refused. */
  lemma NoShorterWaitWorks(c: Config, t: Table, key: string, now: real, m: int)
    requires c.attempts > 0 && TableOk(c, t) && HasPlace(c, t, key, now) && Checked(c, t, key, now).verdict.Exceeded?
    requires 1 <= m < Checked(c, t, key, now).verdict.retryAfter
    ensures TableOk(c, Checked(c, t, key, now).table)
    ensures Checked(c, Checked(c, t, key, now).table, key, now + m as real).verdict.Exceeded?
  {
    hide Checked, Recent, HasPlace, Wellformed;
    CheckKeepsTable(c, t, key, now);
    FullQueueStays(c, t, key, now, m);
    var u := Checked(c, t, key, now).table;
    TrackedHasPlace(c, u, key, now + m as real);
    VerdictFromQueue(c, u, key, now + m as real);
    NoCrash(c, u, key, now + m as real);
  }

  lemma NoCrash(c: Config, t: Table, key: string, now: real)
    requires c.attempts > 0 && Wellformed(t)
    ensures Checked(c, t, key, now).verdict != Crashed
  {
    hide Purged, Recent, Without, Wellformed;
  }

  lemma FullQueueStays(c: Config, t: Table, key: string, now: real, m: int)
    requires c.attempts > 0 && TableOk(c, t) && HasPlace(c, t, key, now) && Checked(c, t, key, now).verdict.Exceeded?
    requires 1 <= m < Checked(c, t, key, now).verdict.retryAfter
    ensures key in Checked(c, t, key, now).table.buckets
    ensures |Recent(BucketOf(Checked(c, t, key, now).table, key), now + m as real - c.window as real)| >= c.attempts
  {
    hide Purged, Without, Recent;
    PurgedIsWellformed(t, now - c.window as real);
    var b := BucketOf(Checked(c, t, key, now).table, key);
    YoungFrontStays(b, now + m as real - c.window as real);
  }

  lemma YoungFrontStays(s: seq<real>, cutoff: real)
    ensures s != [] && s[0] > cutoff ==> Recent(s, cutoff) == s
  {
  }

  // ------------------------------------------------------------ stale end first

  /** Purging drops a stretch of keys from the stale end, all without recent times, up to the first that has some. */
  lemma {:induction false} PurgeDropsTheStaleEnd(t: Table, cutoff: real) returns (n: nat)
    requires Wellformed(t)
    ensures n <= |t.order| && Purged(t, cutoff).order == t.order[n..]
    ensures forall i | 0 <= i < n :: Recent(t.buckets[t.order[i]], cutoff) == []
    ensures n < |t.order| ==> Recent(t.buckets[t.order[n]], cutoff) != []
    decreases |t.order|
  {
    n := 0;
    if t.order != [] && Recent(t.buckets[t.order[0]], cutoff) == [] {
      FrontRemoved(t);
      var rest := Table(t.order[1..], t.buckets - {t.order[0]});
      var m := PurgeDropsTheStaleEnd(rest, cutoff);
      n := m + 1;
      assert t.order[1..][m..] == t.order[n..];
      forall i | 0 <= i < n ensures Recent(t.buckets[t.order[i]], cutoff) == [] {
        if i > 0 { assert rest.order[i - 1] == t.order[i]; }
      }
      if n < |t.order| { assert rest.order[m] == t.order[n]; }
    }
  }

  /** When a key was last checked, as a position of the run; -1 if never. */
  function LastAt(run: seq<Reading>, key: string): int {
    if run == [] then -1 else if run[|run| - 1].key == key then |run| - 1 else LastAt(run[..|run| - 1], key)
  }

  ghost predicate ByLastCheck(order: seq<string>, run: seq<Reading>) {
    forall i, j | 0 <= i < j < |order| :: LastAt(run, order[i]) < LastAt(run, order[j])
  }

  lemma {:induction false} LastAtWithin(run: seq<Reading>, key: string)
    ensures LastAt(run, key) < |run|
  {
    if run != [] { LastAtWithin(run[..|run| - 1], key); }
  }

  lemma {:induction false} WithoutKeepsOrder(order: seq<string>, key: string, run: seq<Reading>)
    requires ByLastCheck(order, run)
    ensures ByLastCheck(Without(order, key), run)
    ensures forall k :: k in Without(order, key) ==> k in order
  {
    if order != [] && order[0] != key {
      WithoutKeepsOrder(order[1..], key, run);
      var rest := Without(order[1..], key);
      forall i | 0 <= i < |rest| ensures LastAt(run, order[0]) < LastAt(run, rest[i]) {
        assert rest[i] in order[1..];
        var j :| 0 <= j < |order[1..]| && order[1..][j] == rest[i];
        assert order[j + 1] == rest[i];
      }
      assert Without(order, key) == [order[0]] + rest;
    }
  }

  /** The table lists its keys by their last check, the longest unchecked first. */
  lemma {:induction false} TableIsByLastCheck(c: Config, run: seq<Reading>)
    ensures ByLastCheck(After(c, run).order, run)
  {
    hide Checked, Wellformed, ByLastCheck;
    if run == [] {
      EmptyOrder(run);
    } else {
      var n := |run| - 1;
      TableIsByLastCheck(c, run[..n]);
      CheckKeepsOrder(c, After(c, run[..n]), run);
    }
  }

  lemma EmptyOrder(run: seq<Reading>)
    ensures ByLastCheck([], run)
  {
  }

  lemma CheckKeepsOrder(c: Config, t: Table, run: seq<Reading>)
    requires run != [] && Wellformed(t) && ByLastCheck(t.order, run[..|run| - 1])
    ensures ByLastCheck(Checked(c, t, run[|run| - 1].key, run[|run| - 1].now).table.order, run)
  {
    hide Checked, ByLastCheck, Without, Recent, Purged;
    var n := |run| - 1;
    var r := run[n];
    var cutoff := r.now - c.window as real;
    var p := Purged(t, cutoff);
    var m := PurgeDropsTheStaleEnd(t, cutoff);
    SuffixKeepsOrder(t.order, m, run[..n]);
    PurgedIsWellformed(t, cutoff);
    CheckedOrder(c, t, r.key, r.now);
    if r.key in p.buckets {
      WithoutDrops(p.order, r.key);
      WithoutKeepsOrder(p.order, r.key, run[..n]);
      LastCheckedGoesLast(Without(p.order, r.key), run, r.key);
    } else {
      LastCheckedGoesLast(p.order, run, r.key);
    }
  }

  lemma SuffixKeepsOrder(order: seq<string>, m: nat, run: seq<Reading>)
    requires m <= |order| && ByLastCheck(order, run)
    ensures ByLastCheck(order[m..], run)
  {
  }

  lemma CheckedOrder(c: Config, t: Table, key: string, now: real)
    requires Wellformed(t)
    ensures var p := Purged(t, now - c.window as real);
            Checked(c, t, key, now).table.order ==
              if key in p.buckets then Without(p.order, key) + [key]
              else if |p.order| >= c.maxKeys then p.order else p.order + [key]
  {
    hide Purged, Recent, Without;
  }

  lemma LastCheckedGoesLast(order: seq<string>, run: seq<Reading>, key: string)
    requires run != [] && run[|run| - 1].key == key && key !in order && ByLastCheck(order, run[..|run| - 1])
    ensures ByLastCheck(order + [key], run) && ByLastCheck(order, run)
  {
    forall i | 0 <= i < |order| ensures LastAt(run, order[i]) == LastAt(run[..|run| - 1], order[i]) < |run| - 1 {
      LastAtWithin(run[..|run| - 1], order[i]);
    }
  }

  // ----------------------------------------------------------------- class

  class SlidingWindowRateLimiter {
    const config: Config
    var order: seq<string>
    var buckets: map<string, seq<real>>

    ghost function View(): Table
      reads this
    {
      Table(order, buckets)
    }

    ghost predicate Valid()
      reads this
    {
      TableOk(config, View())
    }

    constructor (attempts: int, window: int, maxKeys: int)
      ensures Valid() && View() == EMPTY && config == Config(attempts, window, maxKeys)
    {
      config := Config(attempts, window, maxKeys);
      order, buckets := [], map[];
    }

    /** Pop the expired times off the front of one queue. */
    method DropExpired(bucket: seq<real>, cutoff: real) returns (rest: seq<real>)
      ensures rest == Recent(bucket, cutoff)
    {
      rest := bucket;
      while rest != [] && rest[0] <= cutoff
        invariant Recent(rest, cutoff) == Recent(bucket, cutoff)
        decreases |rest|
      {
        rest := rest[1..];
      }
    }

    method PurgeExpiredBuckets(cutoff: real)
      requires Wellformed(View())
      modifies this
      ensures Wellformed(View()) && View() == Purged(old(View()), cutoff)
    {
      hide Recent;
      ghost var t := View();
      PurgedIsWellformed(t, cutoff);
      while order != []
        invariant Wellformed(View()) && Purged(View(), cutoff) == Purged(t, cutoff)
        decreases |order|
      {
        var key := order[0];
        var bucket := DropExpired(buckets[key], cutoff);
        if bucket != [] {
          buckets := buckets[key := bucket];
          break;
        }
        FrontRemoved(View());
        order := order[1..];
        buckets := buckets - {key};
      }
    }

    /** Decide on the queue of a key that has one. */
    method DecideOn(key: string, now: real) returns (verdict: Verdict)
      requires key in buckets
      modifies this`buckets
      ensures Outcome(View(), verdict) == Decide(config, old(View()), key, now)
    {
      hide Recent;
      var bucket := DropExpired(buckets[key], now - config.window as real);
      buckets := buckets[key := bucket];
      if |bucket| >= config.attempts {
        if bucket == [] {
          return Crashed;
        }
        var wait := Ceil(bucket[0] + config.window as real - now);
        return Exceeded(if wait > 1 then wait else 1);
      }
      buckets := buckets[key := bucket + [now]];
      return Allowed;
    }

    method Check(key: string, now: real) returns (verdict: Verdict)
      requires Valid()
      modifies this
      ensures Valid() && Outcome(View(), verdict) == Checked(config, old(View()), key, now)
    {
      hide Purged, Recent, Without, Decide, Wellformed;
      CheckKeepsTable(config, View(), key, now);
      PurgeExpiredBuckets(now - config.window as real);
      if key !in buckets {
        if |order| >= config.maxKeys {
          return Exceeded(config.window);
        }
        order := order + [key];
        buckets := buckets[key := []];
      } else {
        order := Without(order, key) + [key];
      }
      verdict := DecideOn(key, now);
    }
  }
}
