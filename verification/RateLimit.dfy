/**
  Token buckets per principal, and the sweep that forgets idle ones. Tokens and seconds are reals.
 */
module RateLimit {
  import opened Wrappers

  datatype Bucket = Bucket(tokens: real, last: real)
  type Buckets = map<string, Bucket>

  datatype Limits = Limits(burst: real, rate: real)

  ghost predicate Sane(l: Limits) {
    l.burst >= 0.0 && l.rate >= 0.0
  }

  function Min(a: real, b: real): real {
    if a <= b then a else b
  }

  /** Tokens that trickle in during `d` seconds. */
  function Refilled(l: Limits, d: real): real {
    d * l.rate
  }

  /** The tokens `who` would have at `now`; nobody known means a full bucket. */
  function Level(l: Limits, bs: Buckets, who: string, now: real): real {
    if who in bs then Min(l.burst, bs[who].tokens + Refilled(l, now - bs[who].last)) else l.burst
  }

  function Allowed(l: Limits, bs: Buckets, who: string, now: real): bool {
    Level(l, bs, who, now) >= 1.0
  }

  function Used(l: Limits, bs: Buckets, who: string, now: real): Buckets {
    var level := Level(l, bs, who, now);
    bs[who := Bucket(if level < 1.0 then level else level - 1.0, now)]
  }

  function Swept(bs: Buckets, idle: real, now: real): Buckets {
    map k | k in bs && now - bs[k].last <= idle :: bs[k]
  }

  // ── relay/ratelimit.go ──────────────────────────────────────────────────────

  class KindLimiter {
    var buckets: Buckets
    const limits: Limits
    const kinds: set<int>

    constructor (burst: real, refillPerSec: real, kinds: set<int>)
      ensures buckets == map[] && limits == Limits(burst, refillPerSec) && this.kinds == kinds
    {
      buckets, limits, this.kinds := map[], Limits(burst, refillPerSec), kinds;
    }

    method Reject(kind: int, principal: string, now: real) returns (rejected: bool)
      modifies this
      ensures kind !in kinds ==> !rejected && buckets == old(buckets)
      ensures kind in kinds ==> rejected == !Allowed(limits, old(buckets), principal, now)
      ensures kind in kinds ==> buckets == Used(limits, old(buckets), principal, now)
    {
      if kind !in kinds {
        return false;
      }
      var b := if principal in buckets then buckets[principal] else Bucket(limits.burst, now);
      var tokens := b.tokens + (now - b.last) * limits.rate;
      if tokens > limits.burst {
        tokens := limits.burst;
      }
      if tokens < 1.0 {
        buckets := buckets[principal := Bucket(tokens, now)];
        return true;
      }
      buckets := buckets[principal := Bucket(tokens - 1.0, now)];
      return false;
    }

    method Sweep(idle: real, now: real)
      modifies this
      ensures buckets == Swept(old(buckets), idle, now)
    {
      buckets := SweepMap(buckets, idle, now);
    }
  }

  /** The same bucket keyed by address, for the HTTP routes and listener beats. */
  class IPLimiter {
    var buckets: Buckets
    const limits: Limits

    constructor (burst: real, refillPerSec: real)
      ensures buckets == map[] && limits == Limits(burst, refillPerSec)
    {
      buckets, limits := map[], Limits(burst, refillPerSec);
    }

    method Allow(ip: string, now: real) returns (allowed: bool)
      modifies this
      ensures allowed == Allowed(limits, old(buckets), ip, now)
      ensures buckets == Used(limits, old(buckets), ip, now)
    {
      var b := if ip in buckets then buckets[ip] else Bucket(limits.burst, now);
      var tokens := b.tokens + (now - b.last) * limits.rate;
      if tokens > limits.burst {
        tokens := limits.burst;
      }
      allowed := tokens >= 1.0;
      buckets := buckets[ip := Bucket(if allowed then tokens - 1.0 else tokens, now)];
    }

    method Sweep(idle: real, now: real)
      modifies this
      ensures buckets == Swept(old(buckets), idle, now)
    {
      buckets := SweepMap(buckets, idle, now);
    }
  }

  method SweepMap(bs: Buckets, idle: real, now: real) returns (r: Buckets)
    ensures r == Swept(bs, idle, now)
  {
    r := bs;
    var rest := bs.Keys;
    while rest != {}
      invariant rest <= bs.Keys
      invariant r == map k | k in bs && (k in rest || now - bs[k].last <= idle) :: bs[k]
      decreases |rest|
    {
      var k :| k in rest;
      rest := rest - {k};
      if now - bs[k].last > idle {
        r := r - {k};
      }
    }
  }

  // ── runs ────────────────────────────────────────────────────────────────────

  datatype Call = Use(who: string, at: real) | Sweep(idle: real, at: real)

  function Do(l: Limits, bs: Buckets, c: Call): Buckets {
    match c case Use(who, at) => Used(l, bs, who, at) case Sweep(idle, at) => Swept(bs, idle, at)
  }

  /** The decision of every use, in order. */
  function Decisions(l: Limits, bs: Buckets, cs: seq<Call>): seq<bool>
    decreases |cs|
  {
    if cs == [] then []
    else if cs[0].Use? then [Allowed(l, bs, cs[0].who, cs[0].at)] + Decisions(l, Do(l, bs, cs[0]), cs[1..])
    else Decisions(l, Do(l, bs, cs[0]), cs[1..])
  }

  function Passed(l: Limits, bs: Buckets, cs: seq<Call>, who: string): nat
    decreases |cs|
  {
    if cs == [] then 0
    else (if cs[0].Use? && cs[0].who == who && Allowed(l, bs, who, cs[0].at) then 1 else 0)
         + Passed(l, Do(l, bs, cs[0]), cs[1..], who)
  }

  function WithoutSweeps(cs: seq<Call>): seq<Call> {
    if cs == [] then []
    else if cs[0].Use? then [cs[0]] + WithoutSweeps(cs[1..])
    else WithoutSweeps(cs[1..])
  }

  /** Nondecreasing times from `start` on; every sweep waits long enough for a bucket to refill. */
  predicate Timely(l: Limits, cs: seq<Call>, start: real) {
    cs != [] ==>
      && start <= cs[0].at
      && (cs[0].Sweep? ==> l.rate * cs[0].idle >= l.burst)
      && Timely(l, cs[1..], cs[0].at)
  }

  ghost predicate Valid(l: Limits, bs: Buckets, now: real) {
    forall k | k in bs :: 0.0 <= bs[k].tokens <= l.burst && bs[k].last <= now
  }

  lemma RefillGrows(l: Limits, d: real, e: real)
    requires Sane(l)
    ensures d <= e ==> Refilled(l, d) <= Refilled(l, e)
    ensures Refilled(l, d + e) == Refilled(l, d) + Refilled(l, e)
    ensures d >= 0.0 ==> Refilled(l, d) >= 0.0
  {
    assert e * l.rate - d * l.rate == (e - d) * l.rate;
  }

  lemma LevelBounds(l: Limits, bs: Buckets, who: string, now: real)
    requires Sane(l) && Valid(l, bs, now)
    ensures 0.0 <= Level(l, bs, who, now) <= l.burst
  {
    hide Refilled;
    if who in bs { RefillGrows(l, now - bs[who].last, 0.0); }
  }

  /** Time only refills, at the configured rate, up to the burst. */
  lemma LevelLater(l: Limits, bs: Buckets, who: string, now: real, later: real)
    requires Sane(l) && Valid(l, bs, now) && now <= later
    ensures Level(l, bs, who, later) == Min(l.burst, Level(l, bs, who, now) + Refilled(l, later - now))
  {
    hide Refilled;
    RefillGrows(l, later - now, 0.0);
    if who in bs {
      RefillGrows(l, now - bs[who].last, later - now);
      assert now - bs[who].last + (later - now) == later - bs[who].last;
    }
  }

  lemma DoKeepsValid(l: Limits, bs: Buckets, c: Call, start: real)
    requires Sane(l) && Valid(l, bs, start) && start <= c.at
    ensures Valid(l, Do(l, bs, c), c.at)
  {
    hide Level;
    if c.Use? { LevelBounds(l, bs, c.who, c.at); }
  }

  /** A swept bucket would have been full again: sweeping changes nobody's level. */
  lemma SweepKeepsLevel(l: Limits, bs: Buckets, idle: real, now: real, who: string)
    requires Sane(l) && Valid(l, bs, now) && l.rate * idle >= l.burst
    ensures Level(l, Swept(bs, idle, now), who, now) == Level(l, bs, who, now)
  {
    if who in bs && now - bs[who].last > idle {
      RefillGrows(l, idle, now - bs[who].last);
      assert Refilled(l, idle) == l.rate * idle;
    }
  }

  ghost predicate SameLevels(l: Limits, a: Buckets, b: Buckets, now: real) {
    forall who :: Level(l, a, who, now) == Level(l, b, who, now)
  }

  lemma SameLevelsLater(l: Limits, a: Buckets, b: Buckets, now: real, later: real)
    requires Sane(l) && Valid(l, a, now) && Valid(l, b, now) && now <= later && SameLevels(l, a, b, now)
    ensures SameLevels(l, a, b, later)
  {
    hide Level;
    forall who ensures Level(l, a, who, later) == Level(l, b, who, later) {
      LevelLater(l, a, who, now, later);
      LevelLater(l, b, who, now, later);
    }
  }

  lemma UseKeepsSame(l: Limits, a: Buckets, b: Buckets, who: string, now: real)
    requires SameLevels(l, a, b, now)
    ensures SameLevels(l, Used(l, a, who, now), Used(l, b, who, now), now)
  {
    forall x ensures Level(l, Used(l, a, who, now), x, now) == Level(l, Used(l, b, who, now), x, now) {
      assert Level(l, a, x, now) == Level(l, b, x, now);
      assert Level(l, a, who, now) == Level(l, b, who, now);
    }
  }

  /** Two limiters at the same levels decide alike, whether or not one of them is swept. */
  lemma {:induction false} SweepInvisible(l: Limits, a: Buckets, b: Buckets, cs: seq<Call>, start: real)
    requires Sane(l) && Valid(l, a, start) && Valid(l, b, start)
    requires SameLevels(l, a, b, start) && Timely(l, cs, start)
    ensures Decisions(l, a, cs) == Decisions(l, b, WithoutSweeps(cs))
    decreases |cs|
  {
    hide Level, Valid, SameLevels, Swept, Used;
    if cs != [] {
      var c, rest := cs[0], cs[1..];
      SameLevelsLater(l, a, b, start, c.at);
      DoKeepsValid(l, a, c, start);
      match c {
        case Use(who, at) =>
          DoKeepsValid(l, b, c, start);
          UseKeepsSame(l, a, b, who, at);
          AllowedAlike(l, a, b, who, at);
          SweepInvisible(l, Do(l, a, c), Do(l, b, c), rest, at);
          assert ([c] + WithoutSweeps(rest))[1..] == WithoutSweeps(rest);
        case Sweep(idle, at) =>
          ValidLater(l, a, start, at);
          ValidLater(l, b, start, at);
          SweptAlike(l, a, b, idle, at);
          SweepInvisible(l, Do(l, a, c), b, rest, at);
      }
    }
  }

  lemma ValidLater(l: Limits, bs: Buckets, now: real, later: real)
    requires Valid(l, bs, now) && now <= later
    ensures Valid(l, bs, later)
  {
  }

  lemma AllowedAlike(l: Limits, a: Buckets, b: Buckets, who: string, now: real)
    requires SameLevels(l, a, b, now)
    ensures Allowed(l, a, who, now) == Allowed(l, b, who, now)
  {
  }

  lemma SweptAlike(l: Limits, a: Buckets, b: Buckets, idle: real, now: real)
    requires Sane(l) && Valid(l, a, now) && l.rate * idle >= l.burst && SameLevels(l, a, b, now)
    ensures SameLevels(l, Swept(a, idle, now), b, now)
  {
    hide Level;
    forall who ensures Level(l, Swept(a, idle, now), who, now) == Level(l, b, who, now) {
      SweepKeepsLevel(l, a, idle, now, who);
    }
  }

  // ── exactly how long a sweep has to wait ────────────────────────────────────

  /** Nondecreasing times from `start` on, every sweep with the same waiting time. */
  predicate OneWait(cs: seq<Call>, start: real, idle: real) {
    cs != [] ==>
      && start <= cs[0].at
      && (cs[0].Sweep? ==> cs[0].idle == idle)
      && OneWait(cs[1..], cs[0].at, idle)
  }

  lemma {:induction false} LongWaitIsTimely(l: Limits, cs: seq<Call>, start: real, idle: real)
    requires OneWait(cs, start, idle) && l.rate * idle >= l.burst
    ensures Timely(l, cs, start)
    decreases |cs|
  {
    if cs != [] { LongWaitIsTimely(l, cs[1..], cs[0].at, idle); }
  }

  /** With a burst below one token nothing ever passes. */
  lemma {:induction false} NothingPasses(l: Limits, a: Buckets, b: Buckets, cs: seq<Call>, start: real, idle: real)
    requires Sane(l) && l.burst < 1.0 && Valid(l, a, start) && Valid(l, b, start) && OneWait(cs, start, idle)
    ensures Decisions(l, a, cs) == Decisions(l, b, WithoutSweeps(cs))
    decreases |cs|
  {
    hide Level, Valid, Swept, Used;
    if cs != [] {
      var c, rest := cs[0], cs[1..];
      DoKeepsValid(l, a, c, start);
      ValidLater(l, a, start, c.at);
      ValidLater(l, b, start, c.at);
      match c {
        case Use(who, at) =>
          DoKeepsValid(l, b, c, start);
          LevelBounds(l, a, who, at);
          LevelBounds(l, b, who, at);
          NothingPasses(l, Do(l, a, c), Do(l, b, c), rest, at, idle);
          assert ([c] + WithoutSweeps(rest))[1..] == WithoutSweeps(rest);
        case Sweep(_, at) =>
          NothingPasses(l, Do(l, a, c), b, rest, at, idle);
      }
    }
  }

  lemma UseTakesOne(l: Limits, bs: Buckets, who: string, t: real)
    requires Sane(l) && Valid(l, bs, t)
    ensures Level(l, Used(l, bs, who, t), who, t) == Level(l, bs, who, t) - if Allowed(l, bs, who, t) then 1.0 else 0.0
  {
    LevelBounds(l, bs, who, t);
    assert Refilled(l, t - t) == 0.0;
  }

  /** Wherever two limiters hold different levels, some uses tell them apart. */
  lemma {:induction false} SomeUsesTell(l: Limits, a: Buckets, b: Buckets, who: string, t: real) returns (cs: seq<Call>)
    requires Sane(l) && l.burst >= 1.0 && l.rate > 0.0 && Valid(l, a, t) && Valid(l, b, t)
    requires Level(l, a, who, t) < Level(l, b, who, t)
    ensures OneWait(cs, t, 0.0) && (forall c | c in cs :: c.Use?)
    ensures Decisions(l, a, cs) != Decisions(l, b, cs)
    decreases Level(l, b, who, t).Floor
  {
    hide Level, Valid, Used, Refilled, Decisions;
    var c := Use(who, t);
    LevelBounds(l, a, who, t);
    UseTakesOne(l, a, who, t);
    UseTakesOne(l, b, who, t);
    if Level(l, a, who, t) >= 1.0 {
      DoKeepsValid(l, a, c, t);
      DoKeepsValid(l, b, c, t);
      var more := SomeUsesTell(l, Do(l, a, c), Do(l, b, c), who, t);
      cs := [c] + more;
      assert cs[1..] == more;
      FirstUse(l, a, c, more);
      FirstUse(l, b, c, more);
    } else if Level(l, b, who, t) >= 1.0 {
      cs := [c] + [];
      FirstUse(l, a, c, []);
      FirstUse(l, b, c, []);
    } else {
      var d := (1.0 - Level(l, b, who, t)) / l.rate;
      Trickle(l, 1.0 - Level(l, b, who, t));
      LevelLater(l, a, who, t, t + d);
      LevelLater(l, b, who, t, t + d);
      assert t + d - t == d;
      cs := [Use(who, t + d)] + [];
      FirstUse(l, a, Use(who, t + d), []);
      FirstUse(l, b, Use(who, t + d), []);
    }
  }

  lemma FirstUse(l: Limits, bs: Buckets, c: Call, more: seq<Call>)
    requires c.Use?
    ensures |Decisions(l, bs, [c] + more)| >= 1
    ensures Decisions(l, bs, [c] + more)[..1] == [Allowed(l, bs, c.who, c.at)]
    ensures Decisions(l, bs, [c] + more)[1..] == Decisions(l, Do(l, bs, c), more)
  {
    assert ([c] + more)[1..] == more;
  }

  lemma Trickle(l: Limits, x: real)
    requires l.rate > 0.0 && x >= 0.0
    ensures x / l.rate >= 0.0 && Refilled(l, x / l.rate) == x
  {
  }

  lemma {:induction false} OnlyUses(cs: seq<Call>)
    requires forall c | c in cs :: c.Use?
    ensures WithoutSweeps(cs) == cs
  {
    if cs != [] {
      assert cs[0] in cs && forall c | c in cs[1..] :: c in cs;
      OnlyUses(cs[1..]);
    }
  }

  lemma {:induction false} OnlyUsesWait(cs: seq<Call>, start: real, idle: real)
    requires OneWait(cs, start, 0.0) && forall c | c in cs :: c.Use?
    ensures OneWait(cs, start, idle)
    decreases |cs|
  {
    if cs != [] {
      assert cs[0] in cs && forall c | c in cs[1..] :: c in cs;
      OnlyUsesWait(cs[1..], cs[0].at, idle);
    }
  }

  /** A sweep that waits too short a time forgets a bucket that is not full yet, and some use shows it. */
  lemma ShortWaitShows(l: Limits, idle: real) returns (bs: Buckets, cs: seq<Call>)
    requires Sane(l) && idle >= 0.0 && l.burst >= 1.0 && l.rate * idle < l.burst
    ensures Valid(l, bs, 0.0) && OneWait(cs, 0.0, idle)
    ensures Decisions(l, bs, cs) != Decisions(l, bs, WithoutSweeps(cs))
  {
    hide Decisions;
    var gap := if l.rate > 0.0 then (idle + l.burst / l.rate) / 2.0 else idle + 1.0;
    Between(l, idle, gap);
    bs := map["a" := Bucket(0.0, 0.0)];
    var s := Sweep(idle, gap);
    assert Valid(l, bs, gap) && Valid(l, Swept(bs, idle, gap), gap);
    assert "a" !in Swept(bs, idle, gap);
    assert gap - 0.0 == gap;
    var uses := [Use("a", gap)] + [];
    if l.rate > 0.0 {
      uses := SomeUsesTell(l, bs, Swept(bs, idle, gap), "a", gap);
    } else {
      FirstUse(l, bs, Use("a", gap), []);
      FirstUse(l, Swept(bs, idle, gap), Use("a", gap), []);
    }
    cs := [s] + uses;
    assert cs[1..] == uses;
    OnlyUses(uses);
    OnlyUsesWait(uses, gap, idle);
    SweepFirst(l, bs, s, uses);
  }

  lemma SweepFirst(l: Limits, bs: Buckets, s: Call, uses: seq<Call>)
    requires s.Sweep?
    ensures Decisions(l, bs, [s] + uses) == Decisions(l, Swept(bs, s.idle, s.at), uses)
    ensures WithoutSweeps([s] + uses) == WithoutSweeps(uses)
  {
    assert ([s] + uses)[1..] == uses;
  }

  lemma Between(l: Limits, idle: real, gap: real)
    requires Sane(l) && idle >= 0.0 && l.rate * idle < l.burst && l.burst > 0.0
    requires gap == if l.rate > 0.0 then (idle + l.burst / l.rate) / 2.0 else idle + 1.0
    ensures idle < gap && 0.0 <= gap && Refilled(l, gap) < l.burst
  {
    if l.rate > 0.0 {
      var full := l.burst / l.rate;
      assert full * l.rate == l.burst;
      assert (full - idle) * l.rate > 0.0;
      assert gap * l.rate == (idle * l.rate + full * l.rate) / 2.0;
    }
  }

  /**
    Sweeps with one waiting time change no decision, for any limiter state and any calls, exactly if
    that time refills the whole burst, or the burst is below one token and nothing passes anyway.
   */
  lemma SweepExact(l: Limits, idle: real)
    requires Sane(l) && idle >= 0.0
    ensures (l.burst < 1.0 || l.rate * idle >= l.burst)
       <==> forall bs, cs, start | Valid(l, bs, start) && OneWait(cs, start, idle) ::
              Decisions(l, bs, cs) == Decisions(l, bs, WithoutSweeps(cs))
  {
    hide Decisions, OneWait, Valid, WithoutSweeps, Timely;
    if l.burst < 1.0 || l.rate * idle >= l.burst {
      forall bs, cs, start | Valid(l, bs, start) && OneWait(cs, start, idle)
        ensures Decisions(l, bs, cs) == Decisions(l, bs, WithoutSweeps(cs))
      {
        if l.burst < 1.0 {
          NothingPasses(l, bs, bs, cs, start, idle);
        } else {
          LongWaitIsTimely(l, cs, start, idle);
          SweepInvisible(l, bs, bs, cs, start);
        }
      }
    } else {
      var bs, cs := ShortWaitShows(l, idle);
    }
  }

  // ── the window bound ────────────────────────────────────────────────────────

  predicate Within(cs: seq<Call>, end: real) {
    forall c | c in cs :: c.at <= end
  }

  /** What passes is paid for by the level at the start and what refills until the end. */
  lemma {:induction false} PassedIsPaid(l: Limits, bs: Buckets, cs: seq<Call>, who: string, start: real, end: real)
    requires Sane(l) && Valid(l, bs, start) && Timely(l, cs, start) && Within(cs, end) && start <= end
    ensures Passed(l, bs, cs, who) as real <= Level(l, bs, who, start) + Refilled(l, end - start)
    decreases |cs|
  {
    hide Valid, Swept, Level, Refilled, Used, Allowed;
    LevelBounds(l, bs, who, start);
    RefillGrows(l, end - start, 0.0);
    if cs != [] {
      var c, rest := cs[0], cs[1..];
      assert c in cs && forall x | x in rest :: x in cs;
      DoKeepsValid(l, bs, c, start);
      ValidLater(l, bs, start, c.at);
      PassedIsPaid(l, Do(l, bs, c), rest, who, c.at, end);
      LevelLater(l, bs, who, start, c.at);
      StepPays(l, bs, c, who);
      RefillGrows(l, c.at - start, end - c.at);
      assert c.at - start + (end - c.at) == end - start;
    }
  }

  /** A call lowers the principal's level by one if it lets them pass, and never raises it. */
  lemma StepPays(l: Limits, bs: Buckets, c: Call, who: string)
    requires Sane(l) && Valid(l, bs, c.at) && (c.Sweep? ==> l.rate * c.idle >= l.burst)
    ensures Level(l, Do(l, bs, c), who, c.at)
         == Level(l, bs, who, c.at) - if c.Use? && c.who == who && Allowed(l, bs, who, c.at) then 1.0 else 0.0
  {
    if c.Sweep? {
      SweepKeepsLevel(l, bs, c.idle, c.at, who);
    } else {
      LevelBounds(l, bs, c.who, c.at);
      assert Refilled(l, c.at - c.at) == 0.0;
    }
  }

  lemma RefilledIs(l: Limits, w: real)
    ensures Refilled(l, w) == l.rate * w
  {
  }

  /** In any window of length w at most burst + rate * w uses of one principal pass. */
  lemma WindowBound(l: Limits, bs: Buckets, cs: seq<Call>, who: string, start: real, w: real)
    requires Sane(l) && Valid(l, bs, start) && Timely(l, cs, start) && Within(cs, start + w) && w >= 0.0
    ensures Passed(l, bs, cs, who) as real <= l.burst + l.rate * w
  {
    hide Valid, Level, Refilled;
    PassedIsPaid(l, bs, cs, who, start, start + w);
    LevelBounds(l, bs, who, start);
    assert start + w - start == w;
    RefilledIs(l, w);
  }

  // ── exactly when a use passes ───────────────────────────────────────────────

  /** The limiter after some calls. */
  function After(l: Limits, bs: Buckets, cs: seq<Call>): Buckets
    decreases |cs|
  {
    if cs == [] then bs else After(l, Do(l, bs, cs[0]), cs[1..])
  }

  /** In the window that call j opens, x more would still be within burst + rate * length. */
  ghost predicate WindowAllows(l: Limits, bs: Buckets, cs: seq<Call>, who: string, t: real, x: real, j: nat)
    requires j < |cs|
  {
    Passed(l, After(l, bs, cs[..j]), cs[j..], who) as real + x <= l.burst + l.rate * (t - cs[j].at)
  }

  ghost predicate WindowsAllow(l: Limits, bs: Buckets, cs: seq<Call>, who: string, t: real, x: real) {
    forall j: nat | j < |cs| :: WindowAllows(l, bs, cs, who, t, x, j)
  }

  lemma WindowsOfRest(l: Limits, bs: Buckets, cs: seq<Call>, who: string, t: real, x: real)
    requires cs != []
    ensures WindowsAllow(l, bs, cs, who, t, x)
       <==> WindowAllows(l, bs, cs, who, t, x, 0) && WindowsAllow(l, Do(l, bs, cs[0]), cs[1..], who, t, x)
  {
    hide Do, Passed;
    var bs1, rest := Do(l, bs, cs[0]), cs[1..];
    forall j: nat | j < |rest|
      ensures WindowAllows(l, bs1, rest, who, t, x, j) <==> WindowAllows(l, bs, cs, who, t, x, j + 1)
    {
      assert cs[..j + 1][1..] == rest[..j] && cs[j + 1..] == rest[j..];
    }
    if WindowAllows(l, bs, cs, who, t, x, 0) && WindowsAllow(l, bs1, rest, who, t, x) {
      forall j: nat | j < |cs| ensures WindowAllows(l, bs, cs, who, t, x, j) {
        if j > 0 { assert WindowAllows(l, bs1, rest, who, t, x, j - 1); }
      }
    }
    if WindowsAllow(l, bs, cs, who, t, x) {
      forall j: nat | j < |rest| ensures WindowAllows(l, bs1, rest, who, t, x, j) {
        assert WindowAllows(l, bs, cs, who, t, x, j + 1);
      }
    }
  }

  lemma FirstWindow(l: Limits, bs: Buckets, cs: seq<Call>, who: string, t: real, x: real)
    requires cs != []
    ensures WindowAllows(l, bs, cs, who, t, x, 0)
       <==> Passed(l, bs, cs, who) as real + x <= l.burst + Refilled(l, t - cs[0].at)
  {
    hide Passed;
    assert cs[..0] == [] && cs[0..] == cs;
    RefilledIs(l, t - cs[0].at);
  }

  lemma PassedFirst(l: Limits, bs: Buckets, cs: seq<Call>, who: string)
    requires cs != []
    ensures Passed(l, bs, cs, who)
         == Passed(l, Do(l, bs, cs[0]), cs[1..], who)
            + if cs[0].Use? && cs[0].who == who && Allowed(l, bs, who, cs[0].at) then 1 else 0
  {
  }

  lemma RefillSplits(l: Limits, a: real, b: real, c: real)
    ensures Refilled(l, c - a) == Refilled(l, b - a) + Refilled(l, c - b)
  {
    assert (c - a) * l.rate == (b - a) * l.rate + (c - b) * l.rate;
  }

  /** The level is the tightest of the windows that lie behind it. */
  lemma {:induction false} LevelIsTightest(
    l: Limits, bs: Buckets, cs: seq<Call>, who: string, start: real, t: real, x: real)
    requires Sane(l) && Valid(l, bs, start) && Timely(l, cs, start) && Within(cs, t) && start <= t
    ensures Level(l, After(l, bs, cs), who, t) >= x
       <==> x <= l.burst && WindowsAllow(l, bs, cs, who, t, x)
            && Passed(l, bs, cs, who) as real + x <= Level(l, bs, who, start) + Refilled(l, t - start)
    decreases |cs|
  {
    hide Valid, Level, Refilled, Used, Swept, Do, Passed, WindowsAllow, WindowAllows, Allowed;
    if cs == [] {
      LevelLater(l, bs, who, start, t);
      NothingPassed(l, bs, who);
    } else {
      var c, rest := cs[0], cs[1..];
      assert c in cs && forall y | y in rest :: y in cs;
      var bs1 := Do(l, bs, c);
      DoKeepsValid(l, bs, c, start);
      ValidLater(l, bs, start, c.at);
      LevelIsTightest(l, bs1, rest, who, c.at, t, x);
      WindowsOfRest(l, bs, cs, who, t, x);
      FirstWindow(l, bs, cs, who, t, x);
      StepPays(l, bs, c, who);
      LevelLater(l, bs, who, start, c.at);
      PassedFirst(l, bs, cs, who);
      RefillSplits(l, start, c.at, t);
    }
  }

  lemma NothingPassed(l: Limits, bs: Buckets, who: string)
    ensures Passed(l, bs, [], who) == 0 && WindowsAllow(l, bs, [], who, 0.0, 0.0) && After(l, bs, []) == bs
    ensures forall t, x :: WindowsAllow(l, bs, [], who, t, x)
  {
  }

  /**
    A use passes exactly if letting it through breaks no window bound: a whole token fits the burst,
    and in the window opened by any earlier call at most burst + rate * length uses pass with it.
   */
  lemma {:induction false} PassesExactly(l: Limits, cs: seq<Call>, who: string, start: real, t: real)
    requires Sane(l) && Timely(l, cs, start) && Within(cs, t) && start <= t
    ensures Allowed(l, After(l, map[], cs), who, t)
       <==> 1.0 <= l.burst
            && forall j: nat | j < |cs| ::
              Passed(l, After(l, map[], cs[..j]), cs[j..], who) as real + 1.0 <= l.burst + l.rate * (t - cs[j].at)
  {
    hide Level, Refilled, Passed, WindowsAllow, WindowAllows, Allowed, Valid, Timely, After;
    UnknownIsFull(l, who, start);
    LevelIsTightest(l, map[], cs, who, start, t, 1.0);
    FromTheStart(l, cs, who, start, t);
    WindowsSpelled(l, cs, who, t);
    AllowedIsLevel(l, After(l, map[], cs), who, t);
  }

  /** Before its first call the bucket is full, so the window from the start allows what the first one does. */
  lemma FromTheStart(l: Limits, cs: seq<Call>, who: string, start: real, t: real)
    requires Sane(l) && Timely(l, cs, start) && Within(cs, t) && start <= t
    ensures 1.0 <= l.burst && WindowsAllow(l, map[], cs, who, t, 1.0)
        ==> Passed(l, map[], cs, who) as real + 1.0 <= l.burst + Refilled(l, t - start)
  {
    hide Refilled;
    RefillGrows(l, 0.0, t - start);
    if cs == [] {
      NothingPassed(l, map[], who);
    } else {
      hide Passed;
      assert cs[0] in cs;
      FirstWindow(l, map[], cs, who, t, 1.0);
      RefillGrows(l, t - cs[0].at, t - start);
    }
  }

  lemma WindowsSpelled(l: Limits, cs: seq<Call>, who: string, t: real)
    ensures WindowsAllow(l, map[], cs, who, t, 1.0)
       <==> forall j: nat | j < |cs| ::
              Passed(l, After(l, map[], cs[..j]), cs[j..], who) as real + 1.0 <= l.burst + l.rate * (t - cs[j].at)
  {
    hide Passed, After;
    forall j: nat | j < |cs|
      ensures WindowAllows(l, map[], cs, who, t, 1.0, j)
         <==> Passed(l, After(l, map[], cs[..j]), cs[j..], who) as real + 1.0 <= l.burst + l.rate * (t - cs[j].at)
    {
    }
  }

  lemma AllowedIsLevel(l: Limits, bs: Buckets, who: string, t: real)
    ensures Allowed(l, bs, who, t) <==> Level(l, bs, who, t) >= 1.0
  {
  }

  lemma UnknownIsFull(l: Limits, who: string, now: real)
    ensures Valid(l, map[], now) && Level(l, map[], who, now) == l.burst
  {
  }

  // ── the configured limiters ─────────────────────────────────────────────────

  const CHAT := Limits(6.0, 1.0 / 3.0)
  const REACTION := Limits(12.0, 1.0)
  const LISTENER := Limits(6.0, 0.1)
  const LISTENER_IP := Limits(30.0, 2.0)
  const MOOD := Limits(1.0, 0.1)
  const YOUTUBE := Limits(10.0, 1.0 / 3.0)
  const IP_EVENT := Limits(600.0, 10.0)
  const IP_CONN := Limits(60.0, 1.0)
  const SWEEP_IDLE := 600.0

  /** The limits in the source; those of the address limiters can be overridden by the environment. */
  lemma ConfiguredSweepsAreInvisible(l: Limits)
    requires l in {CHAT, REACTION, LISTENER, LISTENER_IP, MOOD, YOUTUBE, IP_EVENT, IP_CONN}
    ensures Sane(l) && l.rate * SWEEP_IDLE >= l.burst
    ensures forall bs, cs, start | Valid(l, bs, start) && OneWait(cs, start, SWEEP_IDLE) ::
              Decisions(l, bs, cs) == Decisions(l, bs, WithoutSweeps(cs))
  {
    hide Decisions, OneWait, Valid, WithoutSweeps;
    SweepExact(l, SWEEP_IDLE);
  }

  /**
    A limiter set through the environment, a refill of zero included: its sweep is invisible exactly if
    ten minutes refill its burst, or the burst is below one token.
   */
  lemma OverriddenSweepExact(l: Limits)
    requires Sane(l)
    ensures (l.burst < 1.0 || l.burst <= 600.0 * l.rate)
       <==> forall bs, cs, start | Valid(l, bs, start) && OneWait(cs, start, SWEEP_IDLE) ::
              Decisions(l, bs, cs) == Decisions(l, bs, WithoutSweeps(cs))
  {
    hide Decisions, OneWait, Valid, WithoutSweeps;
    SweepExact(l, SWEEP_IDLE);
  }

  /** Two accepted mood votes of one account are at least ten seconds apart. */
  lemma MoodVotesTenSecondsApart(bs: Buckets, cs: seq<Call>, who: string, start: real, w: real)
    requires Valid(MOOD, bs, start) && Timely(MOOD, cs, start) && Within(cs, start + w) && w >= 0.0
    requires Passed(MOOD, bs, cs, who) >= 2
    ensures w >= 10.0
  {
    WindowBound(MOOD, bs, cs, who, start, w);
  }

  // ── one token at a time ─────────────────────────────────────────────────────

  /** When `who` last passed, `last` standing for the time before the run. */
  function LastPass(l: Limits, bs: Buckets, cs: seq<Call>, who: string, last: Option<real>): Option<real>
    decreases |cs|
  {
    if cs == [] then last
    else
      var passes := cs[0].Use? && cs[0].who == who && Allowed(l, bs, who, cs[0].at);
      LastPass(l, Do(l, bs, cs[0]), cs[1..], who, if passes then Some(cs[0].at) else last)
  }

  function SinceLast(l: Limits, last: Option<real>, now: real): real {
    if last.None? then l.burst else Min(l.burst, Refilled(l, now - last.value))
  }

  /** With a burst of one the level tells only how long ago the last pass was. */
  lemma {:induction false} LevelIsSinceLast(
    l: Limits, bs: Buckets, cs: seq<Call>, who: string, start: real, t: real, last: Option<real>)
    requires Sane(l) && l.burst == 1.0
    requires Valid(l, bs, start) && Timely(l, cs, start) && Within(cs, t) && start <= t
    requires (last.Some? ==> last.value <= start) && Level(l, bs, who, start) == SinceLast(l, last, start)
    ensures Level(l, After(l, bs, cs), who, t) == SinceLast(l, LastPass(l, bs, cs, who, last), t)
    decreases |cs|
  {
    hide Valid, Level, Refilled, Used, Swept, Do, SinceLast;
    if cs == [] {
      LevelLater(l, bs, who, start, t);
      SinceLastLater(l, last, start, t);
    } else {
      var c := cs[0];
      assert c in cs && forall y | y in cs[1..] :: y in cs;
      DoKeepsValid(l, bs, c, start);
      ValidLater(l, bs, start, c.at);
      LevelLater(l, bs, who, start, c.at);
      SinceLastLater(l, last, start, c.at);
      StepPays(l, bs, c, who);
      LevelBounds(l, bs, who, c.at);
      AllowedIsLevel(l, bs, who, c.at);
      JustPassed(l, c.at);
      var passes := c.Use? && c.who == who && Allowed(l, bs, who, c.at);
      LevelIsSinceLast(l, Do(l, bs, c), cs[1..], who, c.at, t, if passes then Some(c.at) else last);
    }
  }

  lemma SinceLastLater(l: Limits, last: Option<real>, now: real, later: real)
    requires Sane(l) && now <= later && (last.Some? ==> last.value <= now)
    ensures SinceLast(l, last, later) == Min(l.burst, SinceLast(l, last, now) + Refilled(l, later - now))
  {
    hide Refilled;
    RefillGrows(l, 0.0, later - now);
    RefilledIs(l, 0.0);
    if last.Some? { RefillSplits(l, last.value, now, later); }
  }

  lemma JustPassed(l: Limits, now: real)
    requires Sane(l)
    ensures SinceLast(l, Some(now), now) == 0.0
  {
    assert now - now == 0.0;
    RefilledIs(l, 0.0);
  }

  /** A mood vote is accepted exactly if the account's last accepted one is ten seconds old or older. */
  lemma MoodVotesExactly(cs: seq<Call>, who: string, start: real, t: real)
    requires Timely(MOOD, cs, start) && Within(cs, t) && start <= t
    ensures var last := LastPass(MOOD, map[], cs, who, None);
            Allowed(MOOD, After(MOOD, map[], cs), who, t) <==> last.None? || t - last.value >= 10.0
  {
    hide After, LastPass, Level, Timely;
    UnknownIsFull(MOOD, who, start);
    LevelIsSinceLast(MOOD, map[], cs, who, start, t, None);
    AllowedIsLevel(MOOD, After(MOOD, map[], cs), who, t);
  }
}
