/** The signer's token buckets (signer/ratelimit.go). Token counts are reals and
    times are integers; rounding of the floating-point counts is not modelled. */
module RateLimit {
  import opened Common

  type Rule = string

  /** N requests per `per`; ParseRate lets only positive values through. */
  datatype RawRate = RawRate(n: int, per: int)
  type Rate = r: RawRate | r.n >= 1 && r.per >= 1 witness RawRate(1, 1)

  datatype Bucket = Bucket(rate: Rate, tokens: real, last: int)

  /** N tokens over `per`, as tokens for a stretch of time. */
  function Earned(r: Rate, elapsed: int): real {
    (r.n as real) * (elapsed as real) / (r.per as real)
  }

  function Min(x: real, y: real): real { if x <= y then x else y }

  function Refill(b: Option<Bucket>, r: Rate, now: int): Bucket {
    var b0 := if b.Some? && b.value.rate == r then b.value else Bucket(r, r.n as real, now);
    if now > b0.last then Bucket(r, Min(b0.tokens + Earned(r, now - b0.last), r.n as real), now)
    else b0.(last := now)
  }

  // ------------------------------------------------------------ one bucket

  datatype Call = Take(now: int) | Peek(now: int)

  function After(b: Option<Bucket>, r: Rate, c: Call): Bucket {
    var b' := Refill(b, r, c.now);
    if c.Take? && b'.tokens >= 1.0 then b'.(tokens := b'.tokens - 1.0) else b'
  }

  function Verdict(b: Option<Bucket>, r: Rate, c: Call): bool {
    Refill(b, r, c.now).tokens >= 1.0
  }

  /** The bucket a run of calls leaves. */
  function Leaves(b: Option<Bucket>, r: Rate, calls: seq<Call>): Option<Bucket>
    decreases |calls|
  {
    if calls == [] then b else Leaves(Some(After(b, r, calls[0])), r, calls[1..])
  }

  function Granted(b: Option<Bucket>, r: Rate, calls: seq<Call>): nat
    decreases |calls|
  {
    if calls == [] then 0
    else (if calls[0].Take? && Verdict(b, r, calls[0]) then 1 else 0)
         + Granted(Some(After(b, r, calls[0])), r, calls[1..])
  }

  /** The answers to the Allow calls, in order. */
  function Answers(b: Option<Bucket>, r: Rate, calls: seq<Call>): seq<bool>
    decreases |calls|
  {
    if calls == [] then []
    else (if calls[0].Take? then [Verdict(b, r, calls[0])] else [])
         + Answers(Some(After(b, r, calls[0])), r, calls[1..])
  }

  ghost predicate InOrder(calls: seq<Call>, from: int) {
    calls == [] || (from <= calls[0].now && InOrder(calls[1..], calls[0].now))
  }

  /** A bucket as any run leaves it, not used after `t0`. */
  ghost predicate Sound(b: Option<Bucket>, t0: int) {
    b.Some? ==> b.value.last <= t0 && 0.0 <= b.value.tokens <= b.value.rate.n as real
  }

  lemma EarnedAdds(r: Rate, x: int, y: int)
    ensures Earned(r, x) + Earned(r, y) == Earned(r, x + y)
    ensures x >= 0 ==> Earned(r, x) >= 0.0
  {
    var n, p, a, b := r.n as real, r.per as real, x as real, y as real;
    assert (x + y) as real == a + b;
    assert n * (a + b) == n * a + n * b;
    if x >= 0 {
      assert n * a >= 0.0;
    }
  }

  lemma AfterSound(b: Option<Bucket>, r: Rate, c: Call, t0: int)
    requires Sound(b, t0) && t0 <= c.now
    ensures Sound(Some(After(b, r, c)), c.now)
    ensures After(b, r, c).rate == r && After(b, r, c).last == c.now
  {
    if b.Some? && b.value.rate == r {
      EarnedAdds(r, c.now - b.value.last, 0);
    }
  }

  /** Whatever the order of the calls, a bucket holds between none and N. */
  predicate Holds(b: Option<Bucket>) {
    b.Some? ==> 0.0 <= b.value.tokens <= b.value.rate.n as real
  }

  lemma AfterHolds(b: Option<Bucket>, r: Rate, c: Call)
    requires Holds(b)
    ensures Holds(Some(After(b, r, c))) && After(b, r, c).rate == r && After(b, r, c).last == c.now
  {
    if b.Some? && b.value.rate == r {
      EarnedAdds(r, c.now - b.value.last, 0);
    }
  }

  /** How far the times of calls rise in all, and how far they fall. */
  function Rises(from: int, calls: seq<Call>): nat
    decreases |calls|
  {
    if calls == [] then 0
    else (if calls[0].now > from then calls[0].now - from else 0) + Rises(calls[0].now, calls[1..])
  }

  function Falls(from: int, calls: seq<Call>): nat
    decreases |calls|
  {
    if calls == [] then 0
    else (if calls[0].now < from then from - calls[0].now else 0) + Falls(calls[0].now, calls[1..])
  }

  lemma {:induction false} RisesLessFalls(from: int, calls: seq<Call>)
    ensures Rises(from, calls) == LastTime(calls, from) - from + Falls(from, calls)
    decreases |calls|
  {
    if calls != [] {
      RisesLessFalls(calls[0].now, calls[1..]);
    }
  }

  /** Tokens can only come from the starting fill and from time that rises: what a
      run grants plus what it leaves is bounded by both. */
  lemma {:induction false} Spending(b: Bucket, r: Rate, calls: seq<Call>)
    requires b.rate == r && Holds(Some(b))
    ensures Granted(Some(b), r, calls) as real <= b.tokens + Earned(r, Rises(b.last, calls))
    decreases |calls|
  {
    EarnedAdds(r, Rises(b.last, calls), 0);
    if calls != [] {
      var b' := After(Some(b), r, calls[0]);
      AfterHolds(Some(b), r, calls[0]);
      Spending(b', r, calls[1..]);
      var up := if calls[0].now > b.last then calls[0].now - b.last else 0;
      EarnedAdds(r, up, Rises(calls[0].now, calls[1..]));
      EarnedAdds(r, up, 0);
    }
  }

  /** From any state, calls at whatever times are granted at most N, and what N per
      Per earns over the time from the first to the last and over every fall back. */
  lemma GrantedInWindow(b: Option<Bucket>, r: Rate, calls: seq<Call>)
    requires Holds(b) && calls != []
    ensures var t := calls[0].now;
            Granted(b, r, calls) as real <= r.n as real + Earned(r, LastTime(calls, t) - t + Falls(t, calls))
  {
    var t := calls[0].now;
    // the first call refills the bucket to at most N; count from there
    var full := Refill(b, r, t);
    AfterHolds(b, r, Peek(t));
    assert After(Some(full), r, calls[0]) == After(b, r, calls[0]);
    assert Granted(Some(full), r, calls) == Granted(b, r, calls);
    Spending(full, r, calls);
    RisesLessFalls(t, calls);
  }

  /** The time of the last of `calls`, or `from` when there is none. */
  function LastTime(calls: seq<Call>, from: int): int {
    if calls == [] then from else calls[|calls| - 1].now
  }

  lemma {:induction false} LeavesHolds(b: Option<Bucket>, r: Rate, before: seq<Call>)
    requires Holds(b)
    ensures Holds(Leaves(b, r, before))
    decreases |before|
  {
    if before != [] {
      AfterHolds(b, r, before[0]);
      LeavesHolds(Some(After(b, r, before[0])), r, before[1..]);
    }
  }

  lemma {:induction false} NoFalls(calls: seq<Call>, from: int)
    requires InOrder(calls, from)
    ensures Falls(from, calls) == 0
  {
    if calls != [] {
      NoFalls(calls[1..], calls[0].now);
    }
  }

  /** The rate holds over every window whose calls come in order, after any run of
      a fresh limiter: N + N * T / Per, here without the division. */
  lemma RateHolds(r: Rate, before: seq<Call>, window: seq<Call>)
    requires window != [] && InOrder(window, window[0].now)
    ensures Granted(Leaves(None, r, before), r, window) as real
            <= r.n as real + Earned(r, window[|window| - 1].now - window[0].now)
    ensures r.per * Granted(Leaves(None, r, before), r, window) <= r.per * r.n + r.n * (window[|window| - 1].now - window[0].now)
  {
    LeavesHolds(None, r, before);
    GrantedInWindow(Leaves(None, r, before), r, window);
    NoFalls(window, window[0].now);
    WithoutDivision(r, Granted(Leaves(None, r, before), r, window), window[|window| - 1].now - window[0].now);
  }

  lemma WithoutDivision(r: Rate, g: nat, t: int)
    requires g as real <= r.n as real + Earned(r, t)
    ensures r.per * g <= r.per * r.n + r.n * t
  {
    EarnedIsParts(r, t);
    PartsWhole(g - r.n, r);
    PartsLe((g - r.n) * r.per, r.n * t, r);
    assert (g - r.n) * r.per == r.per * g - r.per * r.n;
  }

  /** What a bucket holds at a time: N to begin with or on another rate, and what
      elapsed time earns over what it held, up to N. */
  lemma RefillIs(b: Option<Bucket>, r: Rate, now: int)
    ensures b.None? || b.value.rate != r ==> Refill(b, r, now).tokens == r.n as real
    ensures b.Some? && b.value.rate == r && now <= b.value.last ==> Refill(b, r, now).tokens == b.value.tokens
    ensures b.Some? && b.value.rate == r && now > b.value.last ==>
              var earned := (r.n * (now - b.value.last)) as real / r.per as real;
              Refill(b, r, now).tokens == if b.value.tokens + earned <= r.n as real then b.value.tokens + earned else r.n as real
    ensures Refill(b, r, now).last == now && Refill(b, r, now).rate == r
  {
    if b.Some? {
      EarnedIsParts(r, now - b.value.last);
    }
  }

  /** Ready says what Allow would say at that time: whether there is a whole token. */
  lemma ReadyForetells(b: Option<Bucket>, r: Rate, now: int)
    ensures Verdict(b, r, Peek(now)) == Verdict(b, r, Take(now)) == (Refill(b, r, now).tokens >= 1.0)
    ensures Leaves(b, r, [Peek(now), Take(now)]) == Leaves(b, r, [Take(now)])
  {
    assert [Peek(now), Take(now)][1..] == [Take(now)];
    assert Refill(Some(Refill(b, r, now)), r, now) == Refill(b, r, now);
  }

  // ----------------------------------------------------------- out of order

  /** q parts of a token, of which a whole one has `per`. */
  function Parts(q: int, r: Rate): real {
    q as real / r.per as real
  }

  lemma RealDiv(z: real, w: real, p: real)
    requires p > 0.0 && z * p == w
    ensures z == w / p
  {
  }

  lemma PartsTimes(q: int, r: Rate)
    ensures Parts(q, r) * r.per as real == q as real
  {
  }

  lemma PartsLess(q: int, r: Rate)
    ensures Parts(q, r) - 1.0 == Parts(q - r.per, r)
  {
    var p := r.per as real;
    PartsTimes(q, r);
    assert (Parts(q, r) - 1.0) * p == (q - r.per) as real;
    RealDiv(Parts(q, r) - 1.0, (q - r.per) as real, p);
  }

  lemma PartsMore(q: int, r: Rate)
    ensures Parts(q, r) + Earned(r, 1) == Parts(q + r.n, r)
  {
    var p := r.per as real;
    PartsTimes(q, r);
    PartsTimes(r.n, r);
    assert Earned(r, 1) == Parts(r.n, r);
    assert (Parts(q, r) + Parts(r.n, r)) * p == (q + r.n) as real;
    RealDiv(Parts(q, r) + Parts(r.n, r), (q + r.n) as real, p);
  }

  lemma PartsWhole(q: int, r: Rate)
    ensures Parts(q * r.per, r) == q as real
  {
    RealDiv(q as real, (q * r.per) as real, r.per as real);
  }

  lemma RealMono(x: real, y: real, p: real)
    requires p > 0.0
    ensures x * p <= y * p <==> x <= y
  {
    if x <= y {
      assert (y - x) * p >= 0.0;
    } else {
      assert (x - y) * p > 0.0;
    }
  }

  lemma PartsLe(q: int, k: int, r: Rate)
    ensures Parts(q, r) <= Parts(k, r) <==> q <= k
  {
    PartsTimes(q, r);
    PartsTimes(k, r);
    RealMono(Parts(q, r), Parts(k, r), r.per as real);
  }

  lemma PartsFacts(q: int, r: Rate)
    ensures Parts(q, r) >= 1.0 <==> q >= r.per
    ensures Parts(q, r) - 1.0 == Parts(q - r.per, r)
    ensures Parts(q, r) + Earned(r, 1) == Parts(q + r.n, r)
  {
    PartsLess(q, r);
    PartsMore(q, r);
    PartsWhole(1, r);
    PartsLe(r.per, q, r);
  }

  lemma MulMono(p: int, a: int, b: int)
    requires p >= 0 && a <= b
    ensures p * a <= p * b
  {
    assert p * (b - a) >= 0;
  }

  lemma FloorIff(k: int, x: int, p: int)
    requires p >= 1
    ensures p * k <= x <==> k <= x / p
  {
    assert x == p * (x / p) + x % p;
    if k <= x / p {
      MulMono(p, k, x / p);
    } else {
      MulMono(p, x / p + 1, k);
    }
  }

  function Burst(t: int, n: nat): seq<Call> {
    if n == 0 then [] else [Take(t)] + Burst(t, n - 1)
  }

  lemma {:induction false} RunConcat(b: Option<Bucket>, r: Rate, x: seq<Call>, y: seq<Call>)
    ensures Granted(b, r, x + y) == Granted(b, r, x) + Granted(Leaves(b, r, x), r, y)
    ensures Leaves(b, r, x + y) == Leaves(Leaves(b, r, x), r, y)
    decreases |x|
  {
    if x == [] {
      assert x + y == y;
    } else {
      RunConcat(Some(After(b, r, x[0])), r, x[1..], y);
      assert (x + y)[1..] == x[1..] + y;
    }
  }

  /** As many at one time as there are whole tokens. */
  lemma {:induction false} BurstGrants(r: Rate, t: int, q: nat, n: nat)
    requires q / r.per <= n
    ensures Granted(Some(Bucket(r, Parts(q, r), t)), r, Burst(t, n)) == q / r.per
    ensures Leaves(Some(Bucket(r, Parts(q, r), t)), r, Burst(t, n)) == Some(Bucket(r, Parts(q % r.per, r), t))
    decreases n
  {
    PartsFacts(q, r);
    var b := Bucket(r, Parts(q, r), t);
    if n > 0 {
      assert Burst(t, n)[1..] == Burst(t, n - 1);
      assert Refill(Some(b), r, t) == b;
      if q >= r.per {
        LessOne(q, r.per);
        BurstGrants(r, t, q - r.per, n - 1);
      } else {
        BurstGrants(r, t, q, n - 1);
      }
    }
  }

  lemma LessOne(q: nat, p: nat)
    requires q >= p >= 1
    ensures (q - p) / p == q / p - 1 && (q - p) % p == q % p
  {
    var d := q / p;
    assert q == p * d + q % p;
    assert q - p == p * (d - 1) + q % p;
    DivUnique(q - p, p, d - 1, q % p);
  }

  lemma DivUnique(a: int, p: int, d: int, m: int)
    requires p >= 1 && a == p * d + m && 0 <= m < p
    ensures a / p == d && a % p == m
  {
    FloorIff(d, a, p);
    FloorIff(d + 1, a, p);
    assert p * (d + 1) == p * d + p;
  }

  lemma DivStep(a: nat, n: nat, p: nat)
    requires p >= 1
    ensures (a + n) / p == a / p + (a % p + n) / p && (a + n) % p == (a % p + n) % p
  {
    var m := a % p + n;
    assert a == p * (a / p) + a % p && m == p * (m / p) + m % p;
    assert a + n == p * (a / p + m / p) + m % p;
    DivUnique(a + n, p, a / p + m / p, m % p);
  }

  /** One unit of time later, everything earned is taken: the bucket never
      overflows. */
  lemma RiseGrants(r: Rate, t: int, a: nat)
    ensures var b := Some(Bucket(r, Parts(a % r.per, r), t));
            Granted(b, r, Burst(t + 1, r.n)) == (a + r.n) / r.per - a / r.per
            && Leaves(b, r, Burst(t + 1, r.n)) == Some(Bucket(r, Parts((a + r.n) % r.per, r), t + 1))
  {
    var m, b := a % r.per, Bucket(r, Parts(a % r.per, r), t);
    var full := Bucket(r, Parts(m + r.n, r), t + 1);
    RiseFits(m, r);
    PartsFacts(m, r);
    assert Refill(Some(b), r, t + 1) == full;
    assert Refill(Some(full), r, t + 1) == full;
    var calls := Burst(t + 1, r.n);
    assert calls[0] == Take(t + 1) && After(Some(b), r, calls[0]) == After(Some(full), r, calls[0]);
    RiseWhole(m, r);
    BurstGrants(r, t + 1, m + r.n, r.n);
    DivStep(a, r.n, r.per);
  }

  lemma RiseFits(m: nat, r: Rate)
    requires m < r.per
    ensures m + r.n <= r.n * r.per && Parts(m + r.n, r) <= r.n as real
  {
    MulMono(r.n - 1, 0, r.per - 1);
    assert (r.n - 1) * (r.per - 1) == r.n * r.per - r.n - (r.per - 1);
    PartsLe(m + r.n, r.n * r.per, r);
    PartsWhole(r.n, r);
  }

  lemma RiseWhole(m: nat, r: Rate)
    requires m < r.per
    ensures (m + r.n) / r.per <= r.n
  {
    RiseFits(m, r);
    MulMono(r.per, r.n, r.n + 1);
    FloorIff(r.n + 1, m + r.n, r.per);
    assert r.per * (r.n + 1) == r.n * r.per + r.per;
  }

  /** Up one unit and back, `f` times; then up `t` units. */
  function Zigzag(r: Rate, f: nat): seq<Call> {
    if f == 0 then [] else Burst(1, r.n) + ([Peek(0)] + Zigzag(r, f - 1))
  }

  function Climb(r: Rate, from: int, t: nat): seq<Call>
    decreases t
  {
    if t == 0 then [] else Burst(from + 1, r.n) + Climb(r, from + 1, t - 1)
  }

  lemma {:induction false} ClimbGrants(r: Rate, from: int, t: nat, a: nat)
    ensures Granted(Some(Bucket(r, Parts(a % r.per, r), from)), r, Climb(r, from, t)) == (a + r.n * t) / r.per - a / r.per
    decreases t
  {
    if t > 0 {
      var b := Some(Bucket(r, Parts(a % r.per, r), from));
      RiseGrants(r, from, a);
      RunConcat(b, r, Burst(from + 1, r.n), Climb(r, from + 1, t - 1));
      ClimbGrants(r, from + 1, t - 1, a + r.n);
      assert a + r.n + r.n * (t - 1) == a + r.n * t;
    }
  }

  lemma {:induction false} ZigzagGrants(r: Rate, f: nat, a: nat)
    ensures var b := Some(Bucket(r, Parts(a % r.per, r), 0));
            Granted(b, r, Zigzag(r, f)) == (a + r.n * f) / r.per - a / r.per
            && Leaves(b, r, Zigzag(r, f)) == Some(Bucket(r, Parts((a + r.n * f) % r.per, r), 0))
    decreases f
  {
    if f > 0 {
      var b, rest := Some(Bucket(r, Parts(a % r.per, r), 0)), [Peek(0)] + Zigzag(r, f - 1);
      RiseGrants(r, 0, a);
      RunConcat(b, r, Burst(1, r.n), rest);
      assert rest[1..] == Zigzag(r, f - 1);
      ZigzagGrants(r, f - 1, a + r.n);
      assert a + r.n + r.n * (f - 1) == a + r.n * f;
    }
  }

  /** N at once, then the zigzag, then the climb. */
  function Greedy(r: Rate, t: nat, f: nat): seq<Call> {
    Burst(0, r.n) + (Zigzag(r, f) + Climb(r, 0, t))
  }

  /** A fresh bucket gives N at once, and holds nothing then. */
  lemma BurstStart(r: Rate)
    ensures Granted(None, r, Burst(0, r.n)) == r.n && Leaves(None, r, Burst(0, r.n)) == Some(Bucket(r, Parts(0, r), 0))
  {
    PartsWhole(r.n, r);
    DivUnique(r.n * r.per, r.per, r.n, 0);
    BurstGrants(r, 0, r.n * r.per, r.n);
    FirstFills(r, r.n);
  }

  lemma ZigzagClimb(r: Rate, t: nat, f: nat)
    ensures Granted(Some(Bucket(r, Parts(0, r), 0)), r, Zigzag(r, f) + Climb(r, 0, t)) == (r.n * f + r.n * t) / r.per
  {
    var b := Some(Bucket(r, Parts(0, r), 0));
    DivUnique(0, r.per, 0, 0);
    ZigzagGrants(r, f, 0);
    RunConcat(b, r, Zigzag(r, f), Climb(r, 0, t));
    ClimbGrants(r, 0, t, r.n * f);
  }

  lemma GreedyGrants(r: Rate, t: nat, f: nat)
    ensures Granted(None, r, Greedy(r, t, f)) == r.n + (r.n * (t + f)) / r.per
  {
    BurstStart(r);
    RunConcat(None, r, Burst(0, r.n), Zigzag(r, f) + Climb(r, 0, t));
    ZigzagClimb(r, t, f);
    assert r.n * f + r.n * t == r.n * (t + f);
  }

  /** A fresh bucket is a full one. */
  lemma FirstFills(r: Rate, n: nat)
    requires n >= 1
    ensures var full := Some(Bucket(r, r.n as real, 0));
            Granted(None, r, Burst(0, n)) == Granted(full, r, Burst(0, n)) && Leaves(None, r, Burst(0, n)) == Leaves(full, r, Burst(0, n))
  {
    var full := Bucket(r, r.n as real, 0);
    assert Refill(None, r, 0) == full && Refill(Some(full), r, 0) == full;
    assert After(None, r, Take(0)) == After(Some(full), r, Take(0));
    assert Burst(0, n)[0] == Take(0);
  }

  lemma {:induction false} BurstTimes(from: int, t: int, n: nat, rest: seq<Call>)
    requires n >= 1
    ensures Falls(from, Burst(t, n) + rest) == (if t < from then from - t else 0) + Falls(t, rest)
    ensures LastTime(Burst(t, n) + rest, from) == LastTime(rest, t)
    decreases n
  {
    var calls := Burst(t, n) + rest;
    assert calls[0] == Take(t) && calls[1..] == Burst(t, n - 1) + rest;
    if n == 1 {
      assert calls[1..] == rest;
    } else {
      BurstTimes(t, t, n - 1, rest);
    }
  }

  lemma {:induction false} ClimbTimes(r: Rate, from: int, t: nat)
    ensures Falls(from, Climb(r, from, t)) == 0 && LastTime(Climb(r, from, t), from) == from + t
    decreases t
  {
    if t > 0 {
      BurstTimes(from, from + 1, r.n, Climb(r, from + 1, t - 1));
      ClimbTimes(r, from + 1, t - 1);
    }
  }

  lemma {:induction false} ZigzagTimes(r: Rate, f: nat, rest: seq<Call>)
    ensures Falls(0, Zigzag(r, f) + rest) == f + Falls(0, rest)
    ensures LastTime(Zigzag(r, f) + rest, 0) == LastTime(rest, 0)
    decreases f
  {
    if f == 0 {
      assert Zigzag(r, f) + rest == rest;
    } else {
      var tail := [Peek(0)] + (Zigzag(r, f - 1) + rest);
      assert Zigzag(r, f) + rest == Burst(1, r.n) + tail;
      assert tail[1..] == Zigzag(r, f - 1) + rest;
      BurstTimes(0, 1, r.n, tail);
      ZigzagTimes(r, f - 1, rest);
    }
  }

  lemma GreedyTimes(r: Rate, t: nat, f: nat)
    ensures var calls := Greedy(r, t, f);
            calls != [] && calls[0].now == 0 && Falls(0, calls) == f && LastTime(calls, 0) == t
  {
    assert Burst(0, r.n)[0] == Take(0);
    BurstTimes(0, 0, r.n, Zigzag(r, f) + Climb(r, 0, t));
    ZigzagTimes(r, f, Climb(r, 0, t));
    ClimbTimes(r, 0, t);
  }

  /** Calls over `t` units of time that fall back by `f` in all. */
  ghost predicate Spans(calls: seq<Call>, t: nat, f: nat) {
    calls != [] && LastTime(calls, calls[0].now) - calls[0].now == t && Falls(calls[0].now, calls) <= f
  }

  /** Windows of that kind obey the bound for calls in order. */
  ghost predicate ObeysOrdered(r: Rate, t: nat, f: nat) {
    forall b, calls :: Holds(b) && Spans(calls, t, f) ==> Granted(b, r, calls) as real <= r.n as real + Earned(r, t)
  }

  /** Falling back by `f` in all leaves the bound for ordered calls in force, over
      `t` units of time and for that rate, exactly when it earns no whole token
      more; and otherwise some window is granted one too many. */
  lemma OrderedBoundIff(r: Rate, t: nat, f: nat)
    ensures ObeysOrdered(r, t, f) <==> (r.n * (t + f)) / r.per == (r.n * t) / r.per
  {
    MoreEarnsMore(r, t, f);
    if (r.n * (t + f)) / r.per == (r.n * t) / r.per {
      forall b, calls: seq<Call> | Holds(b) && Spans(calls, t, f) ensures Granted(b, r, calls) as real <= r.n as real + Earned(r, t) {
        GrantedInWindow(b, r, calls);
        WholeTokens(r, Granted(b, r, calls), t + Falls(calls[0].now, calls), t, t + f);
      }
    } else {
      GreedyGrants(r, t, f);
      GreedyTimes(r, t, f);
      OneTooMany(r, t, f);
      assert Holds(None) && Spans(Greedy(r, t, f), t, f);
    }
  }

  lemma MoreEarnsMore(r: Rate, t: nat, f: nat)
    ensures (r.n * t) / r.per <= (r.n * (t + f)) / r.per
  {
    MulMono(r.n, t, t + f);
    FloorIff((r.n * t) / r.per, r.n * t, r.per);
    FloorIff((r.n * t) / r.per, r.n * (t + f), r.per);
  }

  lemma EarnedIsParts(r: Rate, t: int)
    ensures Earned(r, t) == Parts(r.n * t, r)
  {
    assert (r.n * t) as real == r.n as real * t as real;
  }

  /** A count of at most N and what u <= v earns is at most N and what t earns, if v
      earns no whole token more than t. */
  lemma WholeTokens(r: Rate, g: nat, u: nat, t: nat, v: nat)
    requires g as real <= r.n as real + Earned(r, u) && u <= v
    requires (r.n * v) / r.per == (r.n * t) / r.per
    ensures g as real <= r.n as real + Earned(r, t)
  {
    EarnedIsParts(r, u);
    EarnedIsParts(r, t);
    var k := g - r.n;
    PartsWhole(k, r);
    PartsLe(k * r.per, r.n * u, r);
    MulMono(r.n, u, v);
    FloorIff(k, r.n * v, r.per);
    FloorIff(k, r.n * t, r.per);
    PartsLe(k * r.per, r.n * t, r);
  }

  lemma OneTooMany(r: Rate, t: nat, f: nat)
    requires (r.n * (t + f)) / r.per > (r.n * t) / r.per
    ensures (r.n + (r.n * (t + f)) / r.per) as real > r.n as real + Earned(r, t)
  {
    var e := (r.n * (t + f)) / r.per;
    EarnedIsParts(r, t);
    PartsWhole(e, r);
    FloorIff(e, r.n * t, r.per);
    PartsLe(e * r.per, r.n * t, r);
  }

  // ------------------------------------------------- Ready changes nothing

  /** Two buckets that will hold the same tokens at every time from `t` on. */
  ghost predicate Alike(x: Option<Bucket>, y: Option<Bucket>, r: Rate, t: int) {
    forall now :: now >= t ==> Refill(x, r, now) == Refill(y, r, now)
  }

  /** Refilling early and again later is refilling once. */
  lemma RefillTwice(b: Option<Bucket>, r: Rate, t: int, now: int, t0: int)
    requires Sound(b, t0) && t0 <= t <= now
    ensures Refill(Some(Refill(b, r, t)), r, now) == Refill(b, r, now)
  {
    AfterSound(b, r, Peek(t), t0);
    EarnedAdds(r, now - t, 0);
    if b.Some? && b.value.rate == r {
      EarnedAdds(r, t - b.value.last, now - t);
      EarnedAdds(r, t - b.value.last, 0);
    }
  }

  lemma ReadyIsAlike(b: Option<Bucket>, r: Rate, t: int, t0: int)
    requires Sound(b, t0) && t0 <= t
    ensures Alike(b, Some(After(b, r, Peek(t))), r, t)
  {
    forall now | now >= t ensures Refill(b, r, now) == Refill(Some(After(b, r, Peek(t))), r, now) {
      RefillTwice(b, r, t, now, t0);
    }
  }

  function AllowsOnly(calls: seq<Call>): seq<Call> {
    Filter(calls, (c: Call) => c.Take?)
  }

  /** Ready calls anywhere in a run change no answer of an Allow call. */
  lemma {:induction false} ReadyIsInvisible(x: Option<Bucket>, y: Option<Bucket>, r: Rate, calls: seq<Call>, from: int)
    requires InOrder(calls, from) && Sound(x, from) && Sound(y, from) && Alike(x, y, r, from)
    ensures Answers(x, r, calls) == Answers(y, r, AllowsOnly(calls))
    decreases |calls|
  {
    if calls != [] {
      var c := calls[0];
      AfterSound(x, r, c, from);
      assert Refill(x, r, c.now) == Refill(y, r, c.now);
      if c.Take? {
        AfterSound(y, r, c, from);
        ReadyIsInvisible(Some(After(x, r, c)), Some(After(y, r, c)), r, calls[1..], c.now);
        assert AllowsOnly(calls) == [c] + AllowsOnly(calls[1..]);
      } else {
        ReadyIsAlike(x, r, c.now, from);
        assert Alike(Some(After(x, r, c)), y, r, c.now);
        ReadyIsInvisible(Some(After(x, r, c)), y, r, calls[1..], c.now);
      }
    }
  }

  /** One Ready call changes what some later Allow finds exactly when it read a
      clock behind the bucket's and the bucket was not full. */
  lemma ReadyVisibleIff(b: Bucket, r: Rate, t: int)
    requires b.rate == r && Holds(Some(b))
    ensures (exists now :: now >= t && now >= b.last && Changed(b, r, t, now)) <==> t < b.last && b.tokens < r.n as real
  {
    if t < b.last && b.tokens < r.n as real {
      EarnedPositive(r, b.last - t);
      assert Changed(b, r, t, b.last);
    } else {
      forall now | now >= t && now >= b.last ensures !Changed(b, r, t, now) {
        if t >= b.last {
          RefillTwice(Some(b), r, t, now, b.last);
        } else {
          EarnedAdds(r, now - b.last, 0);
          EarnedAdds(r, now - t, 0);
        }
      }
    }
  }

  /** Whether a Ready at `t` changes the tokens found at `now`. */
  predicate Changed(b: Bucket, r: Rate, t: int, now: int) {
    Refill(Some(After(Some(b), r, Peek(t))), r, now).tokens != Refill(Some(b), r, now).tokens
  }

  lemma EarnedPositive(r: Rate, elapsed: int)
    requires elapsed > 0
    ensures Earned(r, elapsed) > 0.0
  {
    var n, e := r.n as real, elapsed as real;
    assert n * e > 0.0;
  }

  // ------------------------------------------------------------ the limiter

  class Limiter {
    var buckets: map<Rule, Bucket>

    constructor ()
      ensures buckets == map[]
    {
      buckets := map[];
    }

    ghost function At(rule: Rule): Option<Bucket>
      reads this
    {
      if rule in buckets then Some(buckets[rule]) else None
    }

    method Refresh(rule: Rule, r: Rate, now: int) returns (b: Bucket)
      modifies this
      ensures b == Refill(old(At(rule)), r, now)
      ensures buckets == old(buckets)[rule := b]
    {
      b := if rule in buckets && buckets[rule].rate == r then buckets[rule] else Bucket(r, r.n as real, now);
      var elapsed := now - b.last;
      if elapsed > 0 {
        var tokens := b.tokens + (r.n as real) * (elapsed as real) / (r.per as real);
        if tokens > r.n as real {
          tokens := r.n as real;
        }
        b := b.(tokens := tokens);
      }
      b := b.(last := now);
      buckets := buckets[rule := b];
    }

    /** Takes one token from the rule's bucket, if it holds one. */
    method Allow(rule: Rule, r: Rate, now: int) returns (ok: bool)
      modifies this
      ensures ok <==> Refill(old(At(rule)), r, now).tokens >= 1.0
      ensures At(rule) == Some(After(old(At(rule)), r, Take(now)))
      ensures forall other :: other != rule ==> At(other) == old(At(other))
    {
      var b := Refresh(rule, r, now);
      if b.tokens < 1.0 {
        return false;
      }
      buckets := buckets[rule := b.(tokens := b.tokens - 1.0)];
      ok := true;
    }

    method Ready(rule: Rule, r: Rate, now: int) returns (ok: bool)
      modifies this
      ensures ok <==> Refill(old(At(rule)), r, now).tokens >= 1.0
      ensures At(rule) == Some(Refill(old(At(rule)), r, now))
      ensures forall other :: other != rule ==> At(other) == old(At(other))
    {
      var b := Refresh(rule, r, now);
      ok := b.tokens >= 1.0;
    }
  }
}
