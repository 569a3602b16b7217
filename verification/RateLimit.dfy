/** The sliding-window rate limiter over a Redis sorted set (app/core/rate_limit.py). */
module RateLimit {
  import opened Wrappers

  // ----- Counting readings --------------------------------------------------------------

  /** How many of the readings are later than `c`. */
  function CountAbove(s: seq<real>, c: real): (n: nat)
    ensures n <= |s|
  {
    if s == [] then 0 else (if s[0] > c then 1 else 0) + CountAbove(s[1..], c)
  }

  /** How many of the readings lie in the half-open window `(a, a + w]`. */
  function CountIn(s: seq<real>, a: real, w: real): int {
    CountAbove(s, a) - CountAbove(s, a + w)
  }

  predicate Within(s: seq<real>, lo: real, hi: real) {
    forall i | 0 <= i < |s| :: lo <= s[i] <= hi
  }

  lemma {:induction false} CountAppend(s: seq<real>, t: seq<real>, c: real)
    ensures CountAbove(s + t, c) == CountAbove(s, c) + CountAbove(t, c)
  {
    if s == [] {
      assert s + t == t;
    } else {
      assert (s + t)[1..] == s[1..] + t;
      CountAppend(s[1..], t, c);
    }
  }

  lemma CountSnoc(s: seq<real>, x: real, c: real)
    ensures CountAbove(s + [x], c) == CountAbove(s, c) + (if x > c then 1 else 0)
  {
    CountAppend(s, [x], c);
  }

  lemma {:induction false} CountNone(s: seq<real>, lo: real, c: real)
    requires Within(s, lo, c)
    ensures CountAbove(s, c) == 0
  {
    if s != [] { CountNone(s[1..], lo, c); }
  }

  /** The readings without the one at index `i`. */
  function Without(s: seq<real>, i: nat): seq<real>
    requires i < |s|
  {
    s[..i] + s[i + 1..]
  }

  lemma CountWithout(s: seq<real>, i: nat, c: real)
    requires i < |s|
    ensures CountAbove(s, c) == CountAbove(Without(s, i), c) + (if s[i] > c then 1 else 0)
  {
    assert s == s[..i] + ([s[i]] + s[i + 1..]);
    CountAppend(s[..i], [s[i]] + s[i + 1..], c);
    CountAppend(s[..i], s[i + 1..], c);
  }

  // ----- The sorted set -----------------------------------------------------------------

  /**
   * The members of a bucket by ascending score, and when the key expires. Members carry a
   * random suffix, so two requests of the same instant are two members.
   */
  datatype Zset = Zset(scores: seq<real>, expiresAt: Option<real>)

  const EMPTY := Zset([], None)

  predicate Ascending(s: seq<real>) {
    forall i, j | 0 <= i < j < |s| :: s[i] <= s[j]
  }

  /** What a command sees at time `now`: nothing, once the key has expired. */
  function Present(z: Zset, now: real): seq<real> {
    if z.expiresAt.Some? && z.expiresAt.value <= now then [] else z.scores
  }

  /** `zremrangebyscore key 0 cutoff` on the scores. */
  function Pruned(s: seq<real>, cutoff: real): (r: seq<real>)
    ensures |r| <= |s|
  {
    if s == [] then []
    else if 0.0 <= s[0] <= cutoff then Pruned(s[1..], cutoff)
    else [s[0]] + Pruned(s[1..], cutoff)
  }

  /** `zadd` of one new member. */
  function Inserted(s: seq<real>, x: real): (r: seq<real>)
    ensures |r| == |s| + 1
  {
    if s == [] || x < s[0] then [x] + s else [s[0]] + Inserted(s[1..], x)
  }

  lemma {:induction false} PrunedKeeps(s: seq<real>, cutoff: real, lo: real, hi: real)
    requires Within(s, lo, hi) && Ascending(s)
    ensures Within(Pruned(s, cutoff), lo, hi) && Ascending(Pruned(s, cutoff))
  {
    if s != [] {
      PrunedKeeps(s[1..], cutoff, lo, hi);
      PrunedKeeps(s[1..], cutoff, s[0], hi);
    }
  }

  lemma {:induction false} InsertedKeeps(s: seq<real>, x: real, lo: real, hi: real)
    requires Within(s, lo, hi) && Ascending(s) && lo <= x <= hi
    ensures Within(Inserted(s, x), lo, hi) && Ascending(Inserted(s, x))
  {
    if s != [] {
      InsertedKeeps(s[1..], x, lo, hi);
      if x >= s[0] { InsertedKeeps(s[1..], x, s[0], hi); }
    }
  }

  lemma {:induction false} CountPruned(s: seq<real>, cutoff: real, c: real, hi: real)
    requires cutoff <= c && Within(s, 0.0, hi)
    ensures CountAbove(Pruned(s, cutoff), c) == CountAbove(s, c)
  {
    if s != [] { CountPruned(s[1..], cutoff, c, hi); }
  }

  lemma {:induction false} CountOfPruned(s: seq<real>, cutoff: real, hi: real)
    requires Within(s, 0.0, hi)
    ensures |Pruned(s, cutoff)| == CountAbove(s, cutoff)
  {
    if s != [] { CountOfPruned(s[1..], cutoff, hi); }
  }

  lemma {:induction false} CountInserted(s: seq<real>, x: real, c: real)
    ensures CountAbove(Inserted(s, x), c) == CountAbove(s, c) + (if x > c then 1 else 0)
  {
    if s != [] { CountInserted(s[1..], x, c); }
  }

  // ----- The two halves of a request ----------------------------------------------------

  /** The set after the prune of a check at time `now`. */
  function AfterPrune(z: Zset, now: real, window: int): Zset {
    z.(scores := Pruned(Present(z, now), now - window as real))
  }

  /** The set after a caller admitted at `score` has recorded itself at time `now`. */
  function AfterRecord(z: Zset, score: real, now: real, window: int): Zset {
    Zset(Inserted(Present(z, now), score), Some(now + window as real))
  }

  /** Python's `int()` of a float: truncation toward zero. */
  function Trunc(x: real): int {
    if x >= 0.0 then x.Floor else -((-x).Floor)
  }

  function RetryAfter(oldest: real, now: real, window: int): int {
    var r := Trunc(oldest + window as real - now) + 1;
    if r < 1 then 1 else r
  }

  // ----- Runs of interleaved checks and inserts -----------------------------------------

  /**
   * `pending`: scores of callers past the check that have not inserted yet; `admitted`: the
   * scores of all requests ever let through, in order; `clock`: the last reading.
   */
  datatype State = State(zset: Zset, pending: seq<real>, admitted: seq<real>, clock: real)

  datatype Event = Check(now: real) | Insert(caller: nat, now: real)

  const INIT := State(EMPTY, [], [], 0.0)

  /** One shared clock that never goes back, and at most `callers` requests under way. */
  predicate Enabled(s: State, e: Event, callers: nat) {
    && s.clock <= e.now
    && (e.Check? ==> |s.pending| < callers)
    && (e.Insert? ==> e.caller < |s.pending|)
  }

  predicate Passes(s: State, now: real, limit: int, window: int) {
    |AfterPrune(s.zset, now, window).scores| < limit
  }

  function Next(s: State, e: Event, limit: int, window: int): State {
    match e
    case Check(now) =>
      var checked := s.(zset := AfterPrune(s.zset, now, window), clock := now);
      if Passes(s, now, limit, window)
      then checked.(pending := s.pending + [now], admitted := s.admitted + [now])
      else checked
    case Insert(i, now) =>
      if i >= |s.pending| then s
      else s.(zset := AfterRecord(s.zset, s.pending[i], now, window), pending := Without(s.pending, i), clock := now)
  }

  /** The state after a run, and whether every event of the run was possible when it came. */
  function After(s: State, run: seq<Event>, limit: int, window: int): State
    decreases run
  {
    if run == [] then s else After(Next(s, run[0], limit, window), run[1..], limit, window)
  }

  predicate Possible(s: State, run: seq<Event>, limit: int, window: int, callers: nat)
    decreases run
  {
    run == [] || (Enabled(s, run[0], callers) && Possible(Next(s, run[0], limit, window), run[1..], limit, window, callers))
  }

  /** Scores are readings up to now, and the key outlives every score still in a window. */
  ghost predicate Shaped(s: State, window: int) {
    && 0.0 <= s.clock
    && Within(s.zset.scores, 0.0, s.clock) && Within(s.pending, 0.0, s.clock) && Within(s.admitted, 0.0, s.clock)
    && Ascending(s.zset.scores)
    && (s.zset.expiresAt.Some? ==> Within(s.zset.scores, 0.0, s.zset.expiresAt.value - window as real))
  }

  ghost predicate Counted(s: State, c: real) {
    CountAbove(s.admitted, c) == CountAbove(s.zset.scores, c) + CountAbove(s.pending, c)
  }

  /** The pruned, expiring set and the callers under way agree with the full history. */
  ghost predicate Agrees(s: State, window: int) {
    && Shaped(s, window)
    && forall c | c >= s.clock - window as real :: Counted(s, c)
  }

  /** No window `(a, a + w]` holds more than `bound` admissions. */
  ghost predicate WindowsHold(admitted: seq<real>, w: real, bound: int) {
    forall a :: CountIn(admitted, a, w) <= bound
  }

  /** Seen through expiry at time `now`, the set still has every score the windows from now on need. */
  lemma PresentAgrees(s: State, now: real, window: int, c: real)
    requires Agrees(s, window) && s.clock <= now && now - window as real <= c
    ensures CountAbove(Present(s.zset, now), c) == CountAbove(s.zset.scores, c)
    ensures Within(Present(s.zset, now), 0.0, s.clock) && Ascending(Present(s.zset, now))
  {
    if Present(s.zset, now) != s.zset.scores {
      CountNone(s.zset.scores, 0.0, c);
    }
  }

  /** The number a check compares with the limit: what the history holds, less who is under way. */
  lemma CheckCounts(s: State, now: real, window: int)
    requires Agrees(s, window) && s.clock <= now
    ensures var cutoff := now - window as real;
            |AfterPrune(s.zset, now, window).scores| == CountAbove(s.admitted, cutoff) - CountAbove(s.pending, cutoff)
  {
    var cutoff := now - window as real;
    assert Counted(s, cutoff);
    PresentAgrees(s, now, window, cutoff);
    CountOfPruned(Present(s.zset, now), cutoff, s.clock);
  }

  lemma CheckKeepsCounts(s: State, now: real, limit: int, window: int, c: real)
    requires Agrees(s, window) && s.clock <= now && now - window as real <= c
    ensures Counted(Next(s, Check(now), limit, window), c)
  {
    assert Counted(s, c);
    PresentAgrees(s, now, window, c);
    CountPruned(Present(s.zset, now), now - window as real, c, s.clock);
    CountSnoc(s.admitted, now, c);
    CountSnoc(s.pending, now, c);
  }

  lemma Later(s: seq<real>, hi: real, now: real)
    requires Within(s, 0.0, hi) && 0.0 <= hi <= now
    ensures Within(s, 0.0, now) && Within(s + [now], 0.0, now)
  {}

  lemma AfterPruneKeeps(z: Zset, now: real, window: int, hi: real)
    requires Within(z.scores, 0.0, hi) && Ascending(z.scores)
    ensures var s := AfterPrune(z, now, window).scores; Within(s, 0.0, hi) && Ascending(s)
  {
    PrunedKeeps(Present(z, now), now - window as real, 0.0, hi);
  }

  lemma CheckKeepsShape(s: State, now: real, limit: int, window: int)
    requires Shaped(s, window) && s.clock <= now
    ensures Shaped(Next(s, Check(now), limit, window), window)
  {
    AfterPruneKeeps(s.zset, now, window, s.clock);
    if s.zset.expiresAt.Some? {
      AfterPruneKeeps(s.zset, now, window, s.zset.expiresAt.value - window as real);
    }
    var s' := Next(s, Check(now), limit, window);
    assert s'.zset == AfterPrune(s.zset, now, window);
    Later(s'.zset.scores, s.clock, now);
    Later(s.pending, s.clock, now);
    Later(s.admitted, s.clock, now);
  }

  lemma CheckKeepsAgreement(s: State, now: real, limit: int, window: int)
    requires Agrees(s, window) && s.clock <= now
    ensures Agrees(Next(s, Check(now), limit, window), window)
  {
    CheckKeepsShape(s, now, limit, window);
    forall c | c >= now - window as real
      ensures Counted(Next(s, Check(now), limit, window), c)
    {
      CheckKeepsCounts(s, now, limit, window, c);
    }
  }

  lemma InsertKeepsCounts(s: State, i: nat, now: real, limit: int, window: int, c: real)
    requires Agrees(s, window) && s.clock <= now && i < |s.pending| && now - window as real <= c
    ensures Counted(Next(s, Insert(i, now), limit, window), c)
  {
    assert Counted(s, c);
    PresentAgrees(s, now, window, c);
    CountInserted(Present(s.zset, now), s.pending[i], c);
    CountWithout(s.pending, i, c);
  }

  lemma InsertKeepsAgreement(s: State, i: nat, now: real, limit: int, window: int)
    requires Agrees(s, window) && s.clock <= now && i < |s.pending|
    ensures Agrees(Next(s, Insert(i, now), limit, window), window)
  {
    forall c | c >= now - window as real
      ensures Counted(Next(s, Insert(i, now), limit, window), c)
    {
      InsertKeepsCounts(s, i, now, limit, window, c);
    }
    PresentAgrees(s, now, window, now - window as real);
    InsertedKeeps(Present(s.zset, now), s.pending[i], 0.0, now);
  }

  /** A check only lets a request through where the bound leaves room for it. */
  lemma CheckKeepsBound(s: State, now: real, limit: int, window: int, callers: nat)
    requires Agrees(s, window) && 0 <= window && 1 <= limit
    requires Enabled(s, Check(now), callers) && WindowsHold(s.admitted, window as real, limit + callers - 1)
    ensures WindowsHold(Next(s, Check(now), limit, window).admitted, window as real, limit + callers - 1)
  {
    var s' := Next(s, Check(now), limit, window);
    if Passes(s, now, limit, window) {
      var w := window as real;
      forall a ensures CountIn(s'.admitted, a, w) <= limit + callers - 1 {
        CountSnoc(s.admitted, now, a);
        CountSnoc(s.admitted, now, a + w);
        assert CountIn(s.admitted, a, w) <= limit + callers - 1;
        if a < now <= a + w {
          CheckCounts(s, now, window);
          CheckKeepsAgreement(s, now, limit, window);
          assert Counted(s', a);
        }
      }
    }
  }

  lemma EventKeepsBound(s: State, e: Event, limit: int, window: int, callers: nat)
    requires 0 <= window && 1 <= limit && 1 <= callers && Enabled(s, e, callers)
    requires Agrees(s, window) && WindowsHold(s.admitted, window as real, limit + callers - 1)
    ensures var s' := Next(s, e, limit, window);
            Agrees(s', window) && WindowsHold(s'.admitted, window as real, limit + callers - 1)
  {
    match e
    case Check(now) =>
      CheckKeepsAgreement(s, now, limit, window);
      CheckKeepsBound(s, now, limit, window, callers);
    case Insert(i, now) =>
      InsertKeepsAgreement(s, i, now, limit, window);
      assert Next(s, e, limit, window).admitted == s.admitted;
  }

  /**
   * With at most `callers` requests between their check and their insert, no window ever
   * holds more than `limit + callers - 1` admissions, and the pruned, expiring set keeps
   * agreeing with the full history.
   */
  lemma {:induction false} RunKeepsBound(s: State, run: seq<Event>, limit: int, window: int, callers: nat)
    requires 0 <= window && 1 <= limit && 1 <= callers && Possible(s, run, limit, window, callers)
    requires Agrees(s, window) && WindowsHold(s.admitted, window as real, limit + callers - 1)
    ensures var last := After(s, run, limit, window);
            Agrees(last, window) && WindowsHold(last.admitted, window as real, limit + callers - 1)
    decreases run
  {
    if run != [] {
      EventKeepsBound(s, run[0], limit, window, callers);
      RunKeepsBound(Next(s, run[0], limit, window), run[1..], limit, window, callers);
    }
  }

  /** Main theorem: the concurrent bound, over every run from the empty bucket. */
  lemma EveryWindowIsBounded(run: seq<Event>, limit: int, window: int, callers: nat, a: real)
    requires 0 <= window && 1 <= limit && 1 <= callers && Possible(INIT, run, limit, window, callers)
    ensures CountIn(After(INIT, run, limit, window).admitted, a, window as real) <= limit + callers - 1
  {
    RunKeepsBound(INIT, run, limit, window, callers);
  }

  // ----- Idle buckets are forgotten -----------------------------------------------------

  /** A key that holds anything expires a window after the last event at the latest. */
  ghost predicate Fleeting(s: State, window: int) {
    s.zset.scores != [] ==> s.zset.expiresAt.Some? && s.zset.expiresAt.value <= s.clock + window as real
  }

  lemma EventKeepsFleeting(s: State, e: Event, limit: int, window: int, callers: nat)
    requires Fleeting(s, window) && Enabled(s, e, callers)
    ensures Fleeting(Next(s, e, limit, window), window)
  {
    if e.Check? && s.zset.scores == [] { assert Present(s.zset, e.now) == []; }
  }

  lemma {:induction false} RunKeepsFleeting(s: State, run: seq<Event>, limit: int, window: int, callers: nat)
    requires Fleeting(s, window) && Possible(s, run, limit, window, callers)
    ensures Fleeting(After(s, run, limit, window), window)
    decreases run
  {
    if run != [] {
      EventKeepsFleeting(s, run[0], limit, window, callers);
      RunKeepsFleeting(Next(s, run[0], limit, window), run[1..], limit, window, callers);
    }
  }

  /** After every run, a bucket nobody uses for a whole window is gone. */
  lemma IdleBucketIsForgotten(run: seq<Event>, now: real, limit: int, window: int, callers: nat)
    requires Possible(INIT, run, limit, window, callers)
    requires After(INIT, run, limit, window).clock + window as real <= now
    ensures Present(After(INIT, run, limit, window).zset, now) == []
  {
    RunKeepsFleeting(INIT, run, limit, window, callers);
  }

  // ----- The bound is sharp -------------------------------------------------------------

  function Same(n: nat, t: real): seq<real> {
    seq(n, _ => t)
  }

  /**
   * At one instant `t`: `k` requests recorded and `p` under way, after the admissions
   * `history`. Before the first is recorded the set is empty and expires as it did.
   */
  function Wave(expiry: Option<real>, history: seq<real>, t: real, k: nat, p: nat, window: int): State {
    State(Zset(Same(k, t), if k == 0 then expiry else Some(t + window as real)), Same(p, t), history + Same(k + p, t), t)
  }

  lemma {:induction false} Extend(s: State, run: seq<Event>, e: Event, limit: int, window: int, callers: nat)
    requires Possible(s, run, limit, window, callers) && Enabled(After(s, run, limit, window), e, callers)
    ensures Possible(s, run + [e], limit, window, callers)
    ensures After(s, run + [e], limit, window) == Next(After(s, run, limit, window), e, limit, window)
    decreases run
  {
    if run == [] {
      assert run + [e] == [e];
    } else {
      assert (run + [e])[1..] == run[1..] + [e];
      Extend(Next(s, run[0], limit, window), run[1..], e, limit, window, callers);
    }
  }

  lemma {:induction false} PrunedSame(k: nat, t: real, cutoff: real)
    requires cutoff < t
    ensures Pruned(Same(k, t), cutoff) == Same(k, t)
  {
    if k > 0 {
      assert Same(k, t)[1..] == Same(k - 1, t);
      PrunedSame(k - 1, t, cutoff);
    }
  }

  lemma {:induction false} InsertedSame(k: nat, t: real)
    ensures Inserted(Same(k, t), t) == Same(k + 1, t)
  {
    if k > 0 {
      assert Same(k, t)[1..] == Same(k - 1, t);
      InsertedSame(k - 1, t);
    }
  }

  lemma OneMore(history: seq<real>, n: nat, t: real)
    ensures Same(n, t) + [t] == Same(n + 1, t) && history + Same(n, t) + [t] == history + Same(n + 1, t)
  {}

  lemma WaveCheck(expiry: Option<real>, history: seq<real>, t: real, k: nat, p: nat, limit: int, window: int)
    requires k < limit && 0 < window
    ensures Next(Wave(expiry, history, t, k, p, window), Check(t), limit, window) == Wave(expiry, history, t, k, p + 1, window)
  {
    PrunedSame(k, t, t - window as real);
    OneMore(history, p, t);
    OneMore(history, k + p, t);
    assert Same(0, t) == [];
  }

  lemma WaveInsert(expiry: Option<real>, history: seq<real>, t: real, k: nat, p: nat, limit: int, window: int)
    requires 0 < window && 0 < p
    ensures Next(Wave(expiry, history, t, k, p, window), Insert(0, t), limit, window)
         == Wave(expiry, history, t, k + 1, p - 1, window)
  {
    InsertedSame(k, t);
    assert Without(Same(p, t), 0) == Same(p - 1, t);
    assert Same(0, t) == [];
  }

  /** A run from state `s` reaches the wave. */
  ghost predicate Reaches(s: State, run: seq<Event>, to: State, limit: int, window: int, callers: nat) {
    Possible(s, run, limit, window, callers) && After(s, run, limit, window) == to
  }

  lemma AndThen(s: State, run: seq<Event>, to: State, e: Event, next: State, limit: int, window: int, callers: nat)
    requires Reaches(s, run, to, limit, window, callers) && Enabled(to, e, callers) && Next(to, e, limit, window) == next
    ensures Reaches(s, run + [e], next, limit, window, callers)
  {
    Extend(s, run, e, limit, window, callers);
  }

  lemma InsertOne(
    s: State, run: seq<Event>, expiry: Option<real>, history: seq<real>, t: real, k: nat, p: nat,
    limit: int, window: int, callers: nat)
    requires 0 < window && 0 < p
    requires Reaches(s, run, Wave(expiry, history, t, k, p, window), limit, window, callers)
    ensures Reaches(s, run + [Insert(0, t)], Wave(expiry, history, t, k + 1, p - 1, window), limit, window, callers)
  {
    WaveInsert(expiry, history, t, k, p, limit, window);
    AndThen(s, run, Wave(expiry, history, t, k, p, window), Insert(0, t),
            Wave(expiry, history, t, k + 1, p - 1, window), limit, window, callers);
  }

  lemma CheckOne(
    s: State, run: seq<Event>, expiry: Option<real>, history: seq<real>, t: real, k: nat, p: nat,
    limit: int, window: int, callers: nat)
    requires 0 < window && k < limit && p < callers
    requires Reaches(s, run, Wave(expiry, history, t, k, p, window), limit, window, callers)
    ensures Reaches(s, run + [Check(t)], Wave(expiry, history, t, k, p + 1, window), limit, window, callers)
  {
    WaveCheck(expiry, history, t, k, p, limit, window);
    AndThen(s, run, Wave(expiry, history, t, k, p, window), Check(t),
            Wave(expiry, history, t, k, p + 1, window), limit, window, callers);
  }

  /** From the first check of an instant: `k` requests that each insert before the next comes, and one under way. */
  lemma {:induction false} Recorded(
    s: State, first: seq<Event>, expiry: Option<real>, history: seq<real>, t: real, k: nat,
    limit: int, window: int, callers: nat)
    returns (run: seq<Event>)
    requires 0 < window && k < limit && 1 <= callers
    requires Reaches(s, first, Wave(expiry, history, t, 0, 1, window), limit, window, callers)
    ensures Reaches(s, run, Wave(expiry, history, t, k, 1, window), limit, window, callers)
    decreases k
  {
    run := first;
    if k > 0 {
      run := Recorded(s, first, expiry, history, t, k - 1, limit, window, callers);
      InsertOne(s, run, expiry, history, t, k - 1, 1, limit, window, callers);
      run := run + [Insert(0, t)];
      CheckOne(s, run, expiry, history, t, k, 0, limit, window, callers);
      run := run + [Check(t)];
    }
  }

  /** Then `p` in all that pass the check before the first of them inserts. */
  lemma {:induction false} Crowded(
    s: State, first: seq<Event>, expiry: Option<real>, history: seq<real>, t: real, k: nat, p: nat,
    limit: int, window: int, callers: nat)
    returns (run: seq<Event>)
    requires 0 < window && k < limit && 1 <= p <= callers
    requires Reaches(s, first, Wave(expiry, history, t, 0, 1, window), limit, window, callers)
    ensures Reaches(s, run, Wave(expiry, history, t, k, p, window), limit, window, callers)
    decreases p
  {
    if p == 1 {
      run := Recorded(s, first, expiry, history, t, k, limit, window, callers);
    } else {
      run := Crowded(s, first, expiry, history, t, k, p - 1, limit, window, callers);
      CheckOne(s, run, expiry, history, t, k, p - 1, limit, window, callers);
      run := run + [Check(t)];
    }
  }

  /** And all of them insert. */
  lemma {:induction false} Drained(
    s: State, before: seq<Event>, expiry: Option<real>, history: seq<real>, t: real, k: nat, p: nat,
    limit: int, window: int, callers: nat)
    returns (run: seq<Event>)
    requires 0 < window
    requires Reaches(s, before, Wave(expiry, history, t, k, p, window), limit, window, callers)
    ensures Reaches(s, run, Wave(expiry, history, t, k + p, 0, window), limit, window, callers)
    decreases p
  {
    run := before;
    if p > 0 {
      InsertOne(s, before, expiry, history, t, k, p, limit, window, callers);
      run := Drained(s, before + [Insert(0, t)], expiry, history, t, k + 1, p - 1, limit, window, callers);
    }
  }

  lemma FirstCheck(limit: int, window: int, callers: nat)
    requires 0 < window && 1 <= limit && 1 <= callers
    ensures Reaches(INIT, [Check(0.0)], Wave(None, [], 0.0, 0, 1, window), limit, window, callers)
  {
    assert Same(0, 0.0) == [] && [] + Same(0, 0.0) == [];
    assert INIT == Wave(None, [], 0.0, 0, 0, window);
    WaveCheck(None, [], 0.0, 0, 0, limit, window);
    assert [] + [Check(0.0)] == [Check(0.0)];
    AndThen(INIT, [], INIT, Check(0.0), Wave(None, [], 0.0, 0, 1, window), limit, window, callers);
  }

  lemma {:induction false} CountSame(n: nat, t: real, c: real)
    ensures CountAbove(Same(n, t), c) == if c < t then n else 0
  {
    if n > 0 {
      assert Same(n, t)[1..] == Same(n - 1, t);
      CountSame(n - 1, t, c);
    }
  }

  /** The bound of `EveryWindowIsBounded` is reached, for every limit and number of callers. */
  lemma BoundIsReached(limit: int, window: int, callers: nat)
    requires 0 < window && 1 <= limit && 1 <= callers
    ensures exists run :: Possible(INIT, run, limit, window, callers)
              && CountIn(After(INIT, run, limit, window).admitted, -0.5, window as real) == limit + callers - 1
  {
    FirstCheck(limit, window, callers);
    var run := Crowded(INIT, [Check(0.0)], None, [], 0.0, limit - 1, callers, limit, window, callers);
    assert After(INIT, run, limit, window).admitted == Same(limit - 1 + callers, 0.0);
    CountSame(limit - 1 + callers, 0.0, -0.5);
    CountSame(limit - 1 + callers, 0.0, -0.5 + window as real);
  }

  // ----- Closed windows -----------------------------------------------------------------

  /** How many of the readings are exactly `c`. */
  function CountAt(s: seq<real>, c: real): nat {
    if s == [] then 0 else (if s[0] == c then 1 else 0) + CountAt(s[1..], c)
  }

  /** How many of the readings lie in the closed window `[a, a + w]`. */
  function CountClosed(s: seq<real>, a: real, w: real): int {
    CountAt(s, a) + CountIn(s, a, w)
  }

  lemma {:induction false} CountAtWithin(s: seq<real>, a: real, w: real)
    requires 0.0 < w
    ensures CountAt(s, a) <= CountIn(s, a - w, w)
  {
    if s != [] { CountAtWithin(s[1..], a, w); }
  }

  lemma {:induction false} CountAtAppend(s: seq<real>, t: seq<real>, c: real)
    ensures CountAt(s + t, c) == CountAt(s, c) + CountAt(t, c)
  {
    if s == [] {
      assert s + t == t;
    } else {
      assert (s + t)[1..] == s[1..] + t;
      CountAtAppend(s[1..], t, c);
    }
  }

  lemma {:induction false} CountAtSame(n: nat, t: real, c: real)
    ensures CountAt(Same(n, t), c) == if c == t then n else 0
  {
    if n > 0 {
      assert Same(n, t)[1..] == Same(n - 1, t);
      CountAtSame(n - 1, t, c);
    }
  }

  /** A closed window can hold twice as many admissions as a half-open one, but never more. */
  lemma ClosedWindowsAreBounded(run: seq<Event>, limit: int, window: int, callers: nat, a: real)
    requires 0 < window && 1 <= limit && 1 <= callers && Possible(INIT, run, limit, window, callers)
    ensures CountClosed(After(INIT, run, limit, window).admitted, a, window as real) <= 2 * (limit + callers - 1)
  {
    var admitted := After(INIT, run, limit, window).admitted;
    CountAtWithin(admitted, a, window as real);
    EveryWindowIsBounded(run, limit, window, callers, a);
    EveryWindowIsBounded(run, limit, window, callers, a - window as real);
  }

  /** When a window has passed, the set is as good as empty. */
  lemma SecondFirstCheck(n: nat, limit: int, window: int)
    requires 0 < window && 1 <= limit && 1 <= n
    ensures var w := window as real; var s := Wave(None, [], 0.0, n, 0, window);
            Next(s, Check(w), limit, window) == Wave(Some(w), Same(n, 0.0), w, 0, 1, window)
  {
    var w := window as real;
    assert Same(0, w) == [] && Same(0, 0.0) == [] && Same(1, w) == [w];
    assert [] + Same(n, 0.0) == Same(n, 0.0);
  }

  /** That bound is reached too, by a burst at zero and another one as the window ends. */
  lemma ClosedWindowHoldsMore(limit: int, window: int, callers: nat)
    requires 0 < window && 1 <= limit && 1 <= callers
    ensures exists run :: Possible(INIT, run, limit, window, callers)
              && CountClosed(After(INIT, run, limit, window).admitted, 0.0, window as real) == 2 * (limit + callers - 1)
  {
    var w, n := window as real, limit - 1 + callers;
    FirstCheck(limit, window, callers);
    var run := Crowded(INIT, [Check(0.0)], None, [], 0.0, limit - 1, callers, limit, window, callers);
    run := Drained(INIT, run, None, [], 0.0, limit - 1, callers, limit, window, callers);
    SecondFirstCheck(n, limit, window);
    AndThen(INIT, run, Wave(None, [], 0.0, n, 0, window), Check(w), Wave(Some(w), Same(n, 0.0), w, 0, 1, window), limit, window, callers);
    run := Crowded(INIT, run + [Check(w)], Some(w), Same(n, 0.0), w, limit - 1, callers, limit, window, callers);
    CountClosedBursts(n, w);
  }

  lemma CountClosedBursts(n: nat, w: real)
    requires 0.0 < w
    ensures CountClosed(Same(n, 0.0) + Same(n, w), 0.0, w) == 2 * n
  {
    CountAtAppend(Same(n, 0.0), Same(n, w), 0.0);
    CountAtSame(n, 0.0, 0.0);
    CountAtSame(n, w, 0.0);
    CountAppend(Same(n, 0.0), Same(n, w), 0.0);
    CountAppend(Same(n, 0.0), Same(n, w), w);
    CountSame(n, 0.0, 0.0);
    CountSame(n, w, 0.0);
    CountSame(n, 0.0, w);
    CountSame(n, w, w);
    assert 0.0 + w == w;
  }

  // ----- Retry-After --------------------------------------------------------------------

  /** After a refusal and no other event, a retry passes exactly when few enough scores are still young. */
  lemma RetryPassesIff(s: State, now: real, later: real, limit: int, window: int)
    requires Agrees(s, window) && s.clock <= now <= later && !Passes(s, now, limit, window)
    ensures Passes(Next(s, Check(now), limit, window), later, limit, window)
       <==> CountAbove(AfterPrune(s.zset, now, window).scores, later - window as real) < limit
  {
    var s' := Next(s, Check(now), limit, window);
    CheckKeepsAgreement(s, now, limit, window);
    PresentAgrees(s', later, window, later - window as real);
    CountOfPruned(Present(s'.zset, later), later - window as real, s'.clock);
  }

  lemma EventKeepsAgreement(s: State, e: Event, limit: int, window: int, callers: nat)
    requires Agrees(s, window) && Enabled(s, e, callers)
    ensures Agrees(Next(s, e, limit, window), window)
  {
    match e
    case Check(now) => CheckKeepsAgreement(s, now, limit, window);
    case Insert(i, now) => InsertKeepsAgreement(s, i, now, limit, window);
  }

  lemma {:induction false} RunKeepsAgreement(s: State, run: seq<Event>, limit: int, window: int, callers: nat)
    requires Agrees(s, window) && Possible(s, run, limit, window, callers)
    ensures Agrees(After(s, run, limit, window), window)
    decreases run
  {
    if run != [] {
      EventKeepsAgreement(s, run[0], limit, window, callers);
      RunKeepsAgreement(Next(s, run[0], limit, window), run[1..], limit, window, callers);
    }
  }

  /** A run that ends by `later` and lets nobody through; callers already under way may record themselves. */
  ghost predicate Quiet(s: State, run: seq<Event>, later: real, limit: int, window: int, callers: nat) {
    && Possible(s, run, limit, window, callers)
    && After(s, run, limit, window).admitted == s.admitted && After(s, run, limit, window).clock <= later
  }

  /** If nobody is let through until `later`, the retry is, whatever else happens. */
  ghost predicate RetryAssured(s: State, later: real, limit: int, window: int, callers: nat) {
    forall run | Quiet(s, run, later, limit, window, callers) ::
      Passes(After(s, run, limit, window), later, limit, window)
  }

  /** All callers under way record themselves at the time of the last check. */
  lemma {:induction false} Settle(s: State, limit: int, window: int, callers: nat) returns (run: seq<Event>)
    ensures Quiet(s, run, s.clock, limit, window, callers) && After(s, run, limit, window).pending == []
    decreases |s.pending|
  {
    run := [];
    if s.pending != [] {
      var first := Insert(0, s.clock);
      var rest := Settle(Next(s, first, limit, window), limit, window, callers);
      run := [first] + rest;
      assert run[0] == first && run[1..] == rest;
    }
  }

  /** What the retry is up against: the entries there are and the callers under way, so far as they are still young. */
  lemma QuietRetryPasses(s: State, run: seq<Event>, later: real, limit: int, window: int, callers: nat)
    requires Agrees(s, window) && Quiet(s, run, later, limit, window, callers)
    ensures var c := later - window as real; var t := After(s, run, limit, window);
            |AfterPrune(t.zset, later, window).scores| == CountAbove(s.admitted, c) - CountAbove(t.pending, c)
  {
    RunKeepsAgreement(s, run, limit, window, callers);
    CheckCounts(After(s, run, limit, window), later, window);
  }

  /**
   * Main theorem: after a refusal at `now`, a retry at `later` passes in every run in which
   * nobody is let through in between, exactly when fewer than `limit` of all admissions, those
   * still to be recorded included, are young at `later`.
   */
  lemma QuietRetryPassesIff(s: State, now: real, later: real, limit: int, window: int, callers: nat)
    requires Agrees(s, window) && s.clock <= now <= later && !Passes(s, now, limit, window)
    ensures var c := later - window as real;
            && CountAbove(s.admitted, c) == CountAbove(s.zset.scores, c) + CountAbove(s.pending, c)
            && (RetryAssured(Next(s, Check(now), limit, window), later, limit, window, callers)
                <==> CountAbove(s.admitted, c) < limit)
  {
    var s' := Next(s, Check(now), limit, window);
    CheckKeepsAgreement(s, now, limit, window);
    assert Counted(s, later - window as real);
    forall run | Quiet(s', run, later, limit, window, callers)
      ensures CountAbove(s.admitted, later - window as real) < limit ==> Passes(After(s', run, limit, window), later, limit, window)
    {
      QuietRetryPasses(s', run, later, limit, window, callers);
    }
    var run := Settle(s', limit, window, callers);
    assert Quiet(s', run, later, limit, window, callers);
    QuietRetryPasses(s', run, later, limit, window, callers);
  }

  /**
   * Whoever waits the Retry-After seconds is sure to pass exactly when few enough of all
   * admissions are then still young.
   */
  lemma PatientRetryPassesIff(s: State, now: real, limit: int, window: nat, callers: nat)
    requires Agrees(s, window) && s.clock <= now && !Passes(s, now, limit, window)
    requires AfterPrune(s.zset, now, window).scores != []
    ensures var later := now + RetryAfter(AfterPrune(s.zset, now, window).scores[0], now, window) as real;
            RetryAssured(Next(s, Check(now), limit, window), later, limit, window, callers)
            <==> CountAbove(s.admitted, later - window as real) < limit
  {
    var later := now + RetryAfter(AfterPrune(s.zset, now, window).scores[0], now, window) as real;
    QuietRetryPassesIff(s, now, later, limit, window, callers);
  }

  lemma {:induction false} PrunedIsYoung(s: seq<real>, cutoff: real, hi: real)
    requires Within(s, 0.0, hi)
    ensures forall i | 0 <= i < |Pruned(s, cutoff)| :: cutoff < Pruned(s, cutoff)[i]
  {
    if s != [] { PrunedIsYoung(s[1..], cutoff, hi); }
  }

  /** The Retry-After value brackets the moment the oldest score leaves the window. */
  lemma RetryBrackets(oldest: real, now: real, window: nat)
    requires now - window as real < oldest <= now
    ensures var r := RetryAfter(oldest, now, window);
            && 1 <= r <= window + 1
            && (r - 1) as real <= oldest + window as real - now < r as real
  {}

  /** A refusal happens only with a full window, never an empty set, when no other request is under way. */
  lemma RefusalMeansFull(s: State, now: real, limit: int, window: nat)
    requires Agrees(s, window) && s.pending == [] && WindowsHold(s.admitted, window as real, limit) && 1 <= limit
    requires s.clock <= now && !Passes(s, now, limit, window)
    ensures var z := AfterPrune(s.zset, now, window).scores;
            |z| == limit && now - window as real < z[0] <= now
  {
    var z := AfterPrune(s.zset, now, window).scores;
    CheckCounts(s, now, window);
    Later(s.admitted, s.clock, now);
    CountNone(s.admitted, 0.0, now);
    assert CountIn(s.admitted, now - window as real, window as real) <= limit;
    PresentAgrees(s, now, window, now - window as real);
    PrunedIsYoung(Present(s.zset, now), now - window as real, s.clock);
    AfterPruneKeeps(s.zset, now, window, s.clock);
  }

  /** With nobody else under way, whoever waits the Retry-After seconds is let through, unless others are first. */
  lemma RetrySucceeds(s: State, now: real, later: real, limit: int, window: nat, callers: nat)
    requires Agrees(s, window) && s.pending == [] && WindowsHold(s.admitted, window as real, limit) && 1 <= limit
    requires s.clock <= now && !Passes(s, now, limit, window)
    requires now + RetryAfter(AfterPrune(s.zset, now, window).scores[0], now, window) as real <= later
    ensures Passes(Next(s, Check(now), limit, window), later, limit, window)
    ensures RetryAssured(Next(s, Check(now), limit, window), later, limit, window, callers)
  {
    var z := AfterPrune(s.zset, now, window).scores;
    RefusalMeansFull(s, now, limit, window);
    RetryBrackets(z[0], now, window);
    assert CountAbove(z, later - window as real) == CountAbove(z[1..], later - window as real);
    RetryPassesIff(s, now, later, limit, window);
    var s' := Next(s, Check(now), limit, window);
    CheckKeepsAgreement(s, now, limit, window);
    CheckCounts(s', later, window);
    QuietRetryPassesIff(s, now, later, limit, window, callers);
  }

  /**
   * With two callers under way the promise fails: two requests at limit one, recorded at 0 and
   * at 30 seconds, make a caller refused at 31 wait 30 seconds, and then be refused again.
   */
  lemma RetryCanFailWithTwoCallers()
    ensures var run := [Check(0.0), Check(30.0), Insert(1, 30.0), Insert(0, 30.0)];
            var s := After(INIT, run, 1, 60);
            && Possible(INIT, run, 1, 60, 2)
            && s.zset.scores == [0.0, 30.0] && !Passes(s, 31.0, 1, 60)
            && RetryAfter(0.0, 31.0, 60) == 30
            && !Passes(Next(s, Check(31.0), 1, 60), 61.0, 1, 60)
  {
    var e0, e1, e2, e3 := Check(0.0), Check(30.0), Insert(1, 30.0), Insert(0, 30.0);
    var run := [e0, e1, e2, e3];
    assert run[1..] == [e1, e2, e3] && run[1..][1..] == [e2, e3] && run[1..][1..][1..] == [e3];
    var s1 := State(EMPTY, [0.0], [0.0], 0.0);
    assert Next(INIT, e0, 1, 60) == s1;
    var s2 := State(EMPTY, [0.0, 30.0], [0.0, 30.0], 30.0);
    assert Next(s1, e1, 1, 60) == s2;
    var s3 := State(Zset([30.0], Some(90.0)), [0.0], [0.0, 30.0], 30.0);
    assert Next(s2, e2, 1, 60) == s3 by { assert Inserted([], 30.0) == [30.0]; }
    var s4 := State(Zset([0.0, 30.0], Some(90.0)), [], [0.0, 30.0], 30.0);
    assert Next(s3, e3, 1, 60) == s4 by { assert Inserted([30.0], 0.0) == [0.0, 30.0]; }
    assert After(s3, [e3], 1, 60) == s4 && Possible(s3, [e3], 1, 60, 2);
    assert After(s2, [e2, e3], 1, 60) == s4 && Possible(s2, [e2, e3], 1, 60, 2);
    assert After(s1, [e1, e2, e3], 1, 60) == s4 && Possible(s1, [e1, e2, e3], 1, 60, 2);
    PrunePair();
  }

  lemma PrunePair()
    ensures Pruned([0.0, 30.0], -29.0) == [0.0, 30.0] && Pruned([0.0, 30.0], 1.0) == [30.0]
  {
    assert [0.0, 30.0][1..] == [30.0];
    assert Pruned([30.0], -29.0) == [30.0] && Pruned([30.0], 1.0) == [30.0];
  }

  // ----- One caller at a time -----------------------------------------------------------

  /** The full history leaves room for one more request at time `now`. */
  predicate HasRoom(admitted: seq<real>, now: real, limit: int, window: nat) {
    CountAbove(admitted, now - window as real) < limit
  }

  /** Of the admissions still in the window that ends now, the oldest. */
  ghost predicate IsOldest(admitted: seq<real>, now: real, window: int, oldest: real) {
    && oldest in admitted && now - window as real < oldest
    && forall i | 0 <= i < |admitted| && now - window as real < admitted[i] :: oldest <= admitted[i]
  }

  lemma {:induction false} CountFalls(s: seq<real>, a: real, b: real)
    requires a <= b
    ensures CountAbove(s, b) <= CountAbove(s, a)
    ensures forall i | 0 <= i < |s| && a < s[i] <= b :: CountAbove(s, b) < CountAbove(s, a)
  {
    if s != [] { CountFalls(s[1..], a, b); }
  }

  /** Below a value that is not in the list the count stays the same for a while. */
  lemma {:induction false} CountPauses(s: seq<real>, x: real, lo: real) returns (c: real)
    requires x !in s && lo < x
    ensures lo <= c < x && CountAbove(s, c) == CountAbove(s, x)
    ensures forall d | c <= d <= x :: CountAbove(s, d) == CountAbove(s, x)
  {
    c := lo;
    if s != [] {
      c := CountPauses(s[1..], x, lo);
      if s[0] < x && c < s[0] { c := s[0]; }
    }
  }

  lemma {:induction false} CountOfYoung(s: seq<real>, c: real)
    requires forall i | 0 <= i < |s| :: c < s[i]
    ensures CountAbove(s, c) == |s|
  {
    if s != [] { CountOfYoung(s[1..], c); }
  }

  /** From the cutoff on, the set left by a check holds what the history holds. */
  lemma CheckedCounts(s: State, now: real, limit: int, window: int, c: real)
    requires Agrees(s, window) && s.pending == [] && s.clock <= now && now - window as real <= c
    ensures CountAbove(AfterPrune(s.zset, now, window).scores, c) == CountAbove(s.admitted, c)
  {
    assert Counted(s, c);
    PresentAgrees(s, now, window, c);
    CountPruned(Present(s.zset, now), now - window as real, c, s.clock);
  }

  /** The entry Retry-After is computed from is the oldest admission in the window. */
  lemma FirstIsOldest(s: State, now: real, limit: int, window: int)
    requires Agrees(s, window) && s.pending == [] && s.clock <= now
    requires AfterPrune(s.zset, now, window).scores != []
    ensures IsOldest(s.admitted, now, window, AfterPrune(s.zset, now, window).scores[0])
  {
    var cutoff, z := now - window as real, AfterPrune(s.zset, now, window).scores;
    PresentAgrees(s, now, window, cutoff);
    PrunedIsYoung(Present(s.zset, now), cutoff, s.clock);
    AfterPruneKeeps(s.zset, now, window, s.clock);
    forall c | cutoff <= c < z[0] ensures CountAbove(s.admitted, c) == |z| {
      CheckedCounts(s, now, limit, window, c);
      CountOfYoung(z, c);
    }
    CheckedCounts(s, now, limit, window, z[0]);
    CountFalls(z, cutoff, z[0]);
    assert CountAbove(s.admitted, z[0]) < CountAbove(s.admitted, cutoff) by { CheckedCounts(s, now, limit, window, cutoff); }
    if z[0] !in s.admitted {
      var c := CountPauses(s.admitted, z[0], cutoff);
      assert false;
    }
    forall i | 0 <= i < |s.admitted| && cutoff < s.admitted[i] ensures z[0] <= s.admitted[i] {
      CountFalls(s.admitted, cutoff, s.admitted[i]);
    }
  }

  /** The delay in whole seconds after which the oldest admission of the window has left it. */
  ghost predicate DelayFits(admitted: seq<real>, now: real, window: nat, delay: int) {
    exists oldest :: IsOldest(admitted, now, window, oldest)
                     && (delay - 1) as real <= oldest + window as real - now < delay as real
  }

  lemma RefusedCallerMayRetry(s: State, now: real, limit: int, window: nat)
    requires Agrees(s, window) && s.pending == [] && WindowsHold(s.admitted, window as real, limit) && 1 <= limit
    requires s.clock <= now && !Passes(s, now, limit, window)
    ensures var z := AfterPrune(s.zset, now, window).scores;
            && z != [] && 1 <= RetryAfter(z[0], now, window) <= window + 1
            && DelayFits(s.admitted, now, window, RetryAfter(z[0], now, window))
            && forall later | now + RetryAfter(z[0], now, window) as real <= later ::
                 HasRoom(s.admitted, later, limit, window)
  {
    var z := AfterPrune(s.zset, now, window).scores;
    RefusalMeansFull(s, now, limit, window);
    RetryBrackets(z[0], now, window);
    FirstIsOldest(s, now, limit, window);
    forall later | now + RetryAfter(z[0], now, window) as real <= later
      ensures HasRoom(s.admitted, later, limit, window)
    {
      var s' := Next(s, Check(now), limit, window);
      CheckKeepsAgreement(s, now, limit, window);
      RetrySucceeds(s, now, later, limit, window, 1);
      CheckCounts(s', later, window);
    }
  }

  lemma AdmissionKeepsBound(s: State, now: real, limit: int, window: nat)
    requires Agrees(s, window) && s.pending == [] && WindowsHold(s.admitted, window as real, limit) && 1 <= limit
    requires s.clock <= now && Passes(s, now, limit, window)
    ensures var s' := Next(Next(s, Check(now), limit, window), Insert(0, now), limit, window);
            && Agrees(s', window) && WindowsHold(s'.admitted, window as real, limit) && s'.pending == []
            && s'.admitted == s.admitted + [now] && s'.clock == now
            && s'.zset == AfterRecord(AfterPrune(s.zset, now, window), now, now, window)
  {
    EventKeepsBound(s, Check(now), limit, window, 1);
    assert Next(s, Check(now), limit, window).pending == [now];
    assert Without([now], 0) == [];
    EventKeepsBound(Next(s, Check(now), limit, window), Insert(0, now), limit, window, 1);
  }

  /** The bucket of one API key, used by one request at a time. */
  class Bucket {
    const limit: int
    const windowSeconds: nat
    var scores: seq<real>
    var expiresAt: Option<real>
    ghost var admitted: seq<real>  // every admission ever, never pruned
    ghost var clock: real

    constructor (limit: int, windowSeconds: nat)
      ensures this.limit == limit && this.windowSeconds == windowSeconds
      ensures Valid() && admitted == [] && clock == 0.0
    {
      this.limit, this.windowSeconds := limit, windowSeconds;
      scores, expiresAt, admitted, clock := [], None, [], 0.0;
    }

    ghost function View(): State
      reads this
    {
      State(Zset(scores, expiresAt), [], admitted, clock)
    }

    /** The set agrees with the full history, and no window ever held more than the limit. */
    ghost predicate Valid()
      reads this
    {
      Agrees(View(), windowSeconds) && WindowsHold(admitted, windowSeconds as real, if limit < 0 then 0 else limit)
    }

    /**
     * Decides as the full, never pruned history does. A refused caller learns a delay after
     * which, if nobody else is admitted meanwhile, the history has room again.
     */
    method CheckAndRecord(now: real) returns (allowed: bool, retryAfter: int)
      requires Valid() && clock <= now
      modifies this
      ensures Valid() && clock == now
      ensures allowed <==> HasRoom(old(admitted), now, limit, windowSeconds)
      ensures admitted == if allowed then old(admitted) + [now] else old(admitted)
      ensures allowed ==> retryAfter == 0
      ensures !allowed && limit <= 0 && scores == [] ==> retryAfter == windowSeconds
      ensures !allowed && limit >= 1 ==> 1 <= retryAfter <= windowSeconds + 1
      ensures !allowed && limit >= 1 ==> DelayFits(admitted, now, windowSeconds, retryAfter)
      ensures !allowed && limit >= 1 ==>
                forall later | now + retryAfter as real <= later :: HasRoom(admitted, later, limit, windowSeconds)
    {
      ghost var s := View();
      CheckCounts(s, now, windowSeconds);
      CheckKeepsAgreement(s, now, limit, windowSeconds);
      // the first pipeline: prune, then count
      scores := Pruned(Present(Zset(scores, expiresAt), now), now - windowSeconds as real);
      clock := now;
      if |scores| >= limit {
        assert View() == Next(s, Check(now), limit, windowSeconds);
        if scores == [] {
          return false, windowSeconds;
        }
        retryAfter := RetryAfter(scores[0], now, windowSeconds);
        if limit >= 1 { RefusedCallerMayRetry(s, now, limit, windowSeconds); }
        return false, retryAfter;
      }
      AdmissionKeepsBound(s, now, limit, windowSeconds);
      // the second pipeline: add, then renew the expiry
      scores := Inserted(Present(Zset(scores, expiresAt), now), now);
      expiresAt := Some(now + windowSeconds as real);
      admitted := admitted + [now];
      return true, 0;
    }
  }
}
