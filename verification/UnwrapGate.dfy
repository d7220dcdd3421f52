/** unwrap_from rules (signer/server.go, signer/refused.go): a wrap is decided by
    what it decrypts to. Reading the policy, looking the wrap up, the rate, the
    check of the result, the record of a failure and a policy reload are steps of
    their own, and may interleave in any order. */
module UnwrapGate {
  import opened Common
  import opened BoundedFifo
  import opened RateLimit

  type Key = string
  type Req = nat
  type Policy = nat

  const REFUSED_MAX: nat := 4096

  /** unwrapCheck: a decision waiting for its result. */
  datatype Check = Check(rule: Rule, rate: Option<Rate>, policy: Policy, key: Key)

  /** refusedWraps: the wraps refused under one policy. */
  datatype Refused = Refused(policy: Option<Policy>, order: seq<Key>) {

    predicate Has(p: Policy, k: Key) {
      policy == Some(p) && k in order
    }

    function Add(p: Policy, k: Key): Refused {
      Refused(Some(p), Insert(if policy == Some(p) then order else [], k, REFUSED_MAX))
    }
  }

  datatype Verdict = Released | RateDenied | NotAllowedSeal | Undecryptable | RefusedBefore

  /** How one request ended, under which policy. */
  datatype Outcome = Outcome(policy: Policy, key: Key, rule: Rule, verdict: Verdict)

  /** A request inside authorize: the time and the policy it read, and whether the
      memory was looked up. */
  datatype Entering = Entering(check: Check, now: int, looked: bool)

  datatype State = State(
    policy: Policy, buckets: map<Rule, Bucket>, refused: Refused,
    entering: map<Req, Entering>, waiting: map<Req, Check>, history: seq<Outcome>)

  datatype Step =
    | Enter(req: Req, rule: Rule, rate: Option<Rate>, key: Key, now: int)
    | Look(req: Req)
    | Admit(req: Req)
    | Result(req: Req, listedSeal: bool, now: int)
    | Record(req: Req, allowed: bool)
    | Reload(policy: Policy)

  function BucketOf(s: State, rule: Rule): Option<Bucket> {
    if rule in s.buckets then Some(s.buckets[rule]) else None
  }

  function Ends(s: State, c: Check, v: Verdict): State {
    s.(history := s.history + [Outcome(c.policy, c.key, c.rule, v)])
  }

  function Next(s: State, step: Step): State {
    match step
    case Enter(req, rule, rate, key, now) =>
      s.(entering := s.entering[req := Entering(Check(rule, rate, s.policy, key), now, false)])
    case Look(req) =>
      if req !in s.entering || s.entering[req].looked then s else
        var e := s.entering[req];
        if s.refused.Has(e.check.policy, e.check.key) then Ends(s.(entering := s.entering - {req}), e.check, RefusedBefore)
        else s.(entering := s.entering[req := e.(looked := true)])
    case Admit(req) =>
      if req !in s.entering || !s.entering[req].looked then s else
        var c, s1 := s.entering[req].check, s.(entering := s.entering - {req});
        if c.rate.None? then s1.(waiting := s.waiting[req := c])
        else
          var b := After(BucketOf(s, c.rule), c.rate.value, Peek(s.entering[req].now));
          var s2 := s1.(buckets := s.buckets[c.rule := b]);
          if b.tokens >= 1.0 then s2.(waiting := s.waiting[req := c]) else Ends(s2, c, RateDenied)
    case Result(req, listedSeal, now) =>
      if req !in s.waiting then s else
        var c := s.waiting[req];
        var s1 := s.(waiting := s.waiting - {req});
        if !listedSeal then Ends(s1.(refused := s.refused.Add(c.policy, c.key)), c, NotAllowedSeal)
        else if c.rate.None? then Ends(s1, c, Released)
        else
          var b := BucketOf(s, c.rule);
          var s2 := s1.(buckets := s.buckets[c.rule := After(b, c.rate.value, Take(now))]);
          Ends(s2, c, if RateLimit.Verdict(b, c.rate.value, Take(now)) then Released else RateDenied)
    case Record(req, allowed) =>
      if req !in s.waiting then s else
        var c := s.waiting[req];
        var s1 := s.(waiting := s.waiting - {req});
        if allowed then s1 else Ends(s1.(refused := s.refused.Add(c.policy, c.key)), c, Undecryptable)
    case Reload(policy) => s.(policy := policy)
  }

  // ---------------------------------------------------------- the invariant

  /** The wrap was turned away for what it is, under that policy. */
  ghost predicate TurnedAway(s: State, p: Policy, k: Key) {
    exists o :: o in s.history && o.policy == p && o.key == k && (o.verdict.NotAllowedSeal? || o.verdict.Undecryptable?)
  }

  ghost predicate Inv(s: State) {
    && Fits(s.refused.order, REFUSED_MAX)
    && forall p, k :: s.refused.Has(p, k) ==> TurnedAway(s, p, k)
  }

  lemma RefuseKeeps(s: State, c: Check, v: Verdict)
    requires Inv(s) && (v.NotAllowedSeal? || v.Undecryptable?)
    ensures Inv(Ends(s.(refused := s.refused.Add(c.policy, c.key)), c, v))
  {
    var base := if s.refused.policy == Some(c.policy) then s.refused.order else [];
    InsertFits(base, c.key, REFUSED_MAX);
    var s' := Ends(s.(refused := s.refused.Add(c.policy, c.key)), c, v);
    forall p, k | s'.refused.Has(p, k) ensures TurnedAway(s', p, k) {
      if k == c.key {
        assert s'.history[|s.history|] == Outcome(c.policy, c.key, c.rule, v);
      } else {
        assert s.refused.Has(p, k);
        assert TurnedAway(Ends(s, c, v), p, k);
      }
    }
  }

  lemma StepKeeps(s: State, step: Step)
    requires Inv(s)
    ensures Inv(Next(s, step))
  {
    match step
    case Enter(req, rule, rate, key, now) =>
    case Look(req) =>
    case Admit(req) =>
    case Result(req, listedSeal, now) =>
      if req in s.waiting {
        var c := s.waiting[req];
        var s1 := s.(waiting := s.waiting - {req});
        RefuseKeeps(s1, c, NotAllowedSeal);
      }
    case Record(req, allowed) =>
      if req in s.waiting {
        RefuseKeeps(s.(waiting := s.waiting - {req}), s.waiting[req], Undecryptable);
      }
    case Reload(policy) =>
  }

  ghost predicate Run(states: seq<State>, steps: seq<Step>) {
    && |states| == |steps| + 1
    && states[0].refused == Refused(None, []) && states[0].buckets == map[] && states[0].waiting == map[] && states[0].entering == map[]
    && states[0].history == []
    && forall i :: 0 <= i < |steps| ==> states[i + 1] == Next(states[i], steps[i])
  }

  /** In every interleaving the memory is a duplicate-free list of at most
      REFUSED_MAX keys, and a key is in it for a policy only if that wrap was
      turned away under that policy for what it is; one that was only ever
      rate-limited or released under it is not. */
  lemma {:induction false} RefusedOnlyForContent(states: seq<State>, steps: seq<Step>, i: nat, p: Policy, k: Key)
    requires Run(states, steps) && i < |states|
    ensures Inv(states[i])
    ensures states[i].refused.Has(p, k) ==> TurnedAway(states[i], p, k)
    ensures (forall o :: o in states[i].history && o.policy == p && o.key == k ==>
               o.verdict.RateDenied? || o.verdict.Released? || o.verdict.RefusedBefore?) ==> !states[i].refused.Has(p, k)
  {
    if i > 0 {
      RefusedOnlyForContent(states, steps, i - 1, p, k);
      StepKeeps(states[i - 1], steps[i - 1]);
    }
  }

  // ------------------------------------------------------ what each step does

  function Denied(c: Check): Outcome {
    Outcome(c.policy, c.key, c.rule, RateDenied)
  }

  /** Tokens a rule's bucket holds at a time, for a rate. */
  function TokensAt(s: State, rule: Rule, r: Rate, now: int): real {
    Refill(BucketOf(s, rule), r, now).tokens
  }

  /** A wrap whose seal is not listed is turned away: its key is remembered under
      the policy that was read for it, and no bucket is touched. */
  lemma UnlistedIsTurnedAway(s: State, req: Req, now: int)
    requires req in s.waiting
    ensures var s', c := Next(s, Result(req, false, now)), s.waiting[req];
            && s'.refused.Has(c.policy, c.key) && s'.buckets == s.buckets && req !in s'.waiting
            && s'.history == s.history + [Outcome(c.policy, c.key, c.rule, NotAllowedSeal)]
  {
    InsertHolds(if s.refused.policy == Some(s.waiting[req].policy) then s.refused.order else [], s.waiting[req].key);
  }

  lemma InsertHolds(order: seq<Key>, k: Key)
    ensures k in Insert(order, k, REFUSED_MAX)
  {
    var all := LastN(order + [k], REFUSED_MAX);
    assert all[|all| - 1] == k;
  }

  /** A wrap whose seal is listed is released exactly when its rule has no rate, or
      its bucket holds a whole token then; the memory is left alone. */
  lemma ListedIsReleasedIff(s: State, req: Req, now: int)
    requires req in s.waiting
    ensures var s', c := Next(s, Result(req, true, now)), s.waiting[req];
            var free := c.rate.None? || TokensAt(s, c.rule, c.rate.value, now) >= 1.0;
            && s'.refused == s.refused && req !in s'.waiting
            && s'.history == s.history + [Outcome(c.policy, c.key, c.rule, if free then Released else RateDenied)]
  {
  }

  /** A wrap in memory is turned away before it is decrypted; any other goes on. */
  lemma RememberedIsTurnedAway(s: State, req: Req)
    requires req in s.entering && !s.entering[req].looked
    ensures var s', c := Next(s, Look(req)), s.entering[req].check;
            if s.refused.policy == Some(c.policy) && c.key in s.refused.order
            then req !in s'.entering && s'.waiting == s.waiting && s'.history == s.history + [Outcome(c.policy, c.key, c.rule, RefusedBefore)]
            else req in s'.entering && s'.entering[req].looked && s'.entering[req].check == c && s'.history == s.history
  {
  }

  /** And it goes on to be decrypted exactly when its rule has no rate, or its bucket
      held a whole token when the request came. */
  lemma AdmittedIff(s: State, req: Req)
    requires req in s.entering && s.entering[req].looked
    ensures var s', e := Next(s, Admit(req)), s.entering[req];
            var free := e.check.rate.None? || TokensAt(s, e.check.rule, e.check.rate.value, e.now) >= 1.0;
            && req !in s'.entering && s'.refused == s.refused
            && (free ==> req in s'.waiting && s'.waiting[req] == e.check && s'.history == s.history)
            && (!free ==> s'.waiting == s.waiting && s'.history == s.history + [Denied(e.check)])
  {
  }

  // ------------------------------------------------ how a release comes about

  /** Step `i` brought the request in, under the policy in force then. */
  ghost predicate EnteredAt(states: seq<State>, steps: seq<Step>, i: nat, req: Req, c: Check, now: int)
    requires i < |steps| <= |states|
  {
    steps[i] == Enter(req, c.rule, c.rate, c.key, now) && c.policy == states[i].policy
  }

  /** Step `i` looked the wrap up and did not find it. */
  ghost predicate LookedAt(states: seq<State>, steps: seq<Step>, i: nat, req: Req, c: Check)
    requires i < |steps| <= |states|
  {
    steps[i] == Look(req) && !(states[i].refused.policy == Some(c.policy) && c.key in states[i].refused.order)
  }

  /** Step `i` let it be decrypted, with a token in hand if its rule has a rate. */
  ghost predicate AdmittedAt(states: seq<State>, steps: seq<Step>, i: nat, req: Req, c: Check, now: int)
    requires i < |steps| <= |states|
  {
    steps[i] == Admit(req) && (c.rate.Some? ==> TokensAt(states[i], c.rule, c.rate.value, now) >= 1.0)
  }

  ghost predicate CameIn(states: seq<State>, steps: seq<Step>, n: nat, req: Req, e: Entering)
    requires n <= |steps| <= |states|
  {
    exists i :: 0 <= i < n && EnteredAt(states, steps, i, req, e.check, e.now)
      && (e.looked ==> exists l :: i < l < n && LookedAt(states, steps, l, req, e.check))
  }

  ghost predicate LetIn(states: seq<State>, steps: seq<Step>, n: nat, req: Req, c: Check)
    requires n <= |steps| <= |states|
  {
    exists i, l, a, now :: 0 <= i < l < a < n && EnteredAt(states, steps, i, req, c, now)
      && LookedAt(states, steps, l, req, c) && AdmittedAt(states, steps, a, req, c, now)
  }

  ghost predicate Traced(states: seq<State>, steps: seq<Step>, n: nat)
    requires n <= |steps| < |states|
  {
    && (forall req :: req in states[n].entering ==> CameIn(states, steps, n, req, states[n].entering[req]))
    && (forall req :: req in states[n].waiting ==> LetIn(states, steps, n, req, states[n].waiting[req]))
  }

  lemma CameInLater(states: seq<State>, steps: seq<Step>, n: nat, req: Req, e: Entering)
    requires n < |steps| <= |states| && CameIn(states, steps, n, req, e)
    ensures CameIn(states, steps, n + 1, req, e)
  {
    var i :| 0 <= i < n && EnteredAt(states, steps, i, req, e.check, e.now)
      && (e.looked ==> exists l :: i < l < n && LookedAt(states, steps, l, req, e.check));
    if e.looked {
      var l :| i < l < n && LookedAt(states, steps, l, req, e.check);
      assert i < l < n + 1;
    }
  }

  lemma LookedNow(states: seq<State>, steps: seq<Step>, n: nat, req: Req, e: Entering)
    requires n < |steps| <= |states| && CameIn(states, steps, n, req, e) && LookedAt(states, steps, n, req, e.check)
    ensures CameIn(states, steps, n + 1, req, e.(looked := true))
  {
    var i :| 0 <= i < n && EnteredAt(states, steps, i, req, e.check, e.now)
      && (e.looked ==> exists l :: i < l < n && LookedAt(states, steps, l, req, e.check));
    assert i < n < n + 1;
  }

  lemma AdmittedNow(states: seq<State>, steps: seq<Step>, n: nat, req: Req, e: Entering)
    requires n < |steps| <= |states| && CameIn(states, steps, n, req, e) && e.looked
    requires AdmittedAt(states, steps, n, req, e.check, e.now)
    ensures LetIn(states, steps, n + 1, req, e.check)
  {
    var i :| 0 <= i < n && EnteredAt(states, steps, i, req, e.check, e.now)
      && (e.looked ==> exists l :: i < l < n && LookedAt(states, steps, l, req, e.check));
    var l :| i < l < n && LookedAt(states, steps, l, req, e.check);
    assert 0 <= i < l < n < n + 1;
  }

  /** How a request comes to be inside authorize as it is. */
  lemma EnteringChange(s: State, step: Step, req: Req)
    requires req in Next(s, step).entering
    ensures var e := Next(s, step).entering[req];
            || (req in s.entering && e == s.entering[req])
            || (step == Enter(req, e.check.rule, e.check.rate, e.check.key, e.now) && e.check.policy == s.policy && !e.looked)
            || (step == Look(req) && req in s.entering && e == s.entering[req].(looked := true)
                && !(s.refused.policy == Some(e.check.policy) && e.check.key in s.refused.order))
  {
  }

  lemma WaitingChange(s: State, step: Step, req: Req)
    requires req in Next(s, step).waiting
    ensures var c := Next(s, step).waiting[req];
            || (req in s.waiting && c == s.waiting[req])
            || (step == Admit(req) && req in s.entering && s.entering[req].looked && c == s.entering[req].check
                && (c.rate.Some? ==> TokensAt(s, c.rule, c.rate.value, s.entering[req].now) >= 1.0))
  {
  }

  lemma EnteringTraced(states: seq<State>, steps: seq<Step>, n: nat, req: Req, s: State, e: Entering)
    requires n < |steps| < |states| && states[n] == s
    requires req in s.entering ==> CameIn(states, steps, n, req, s.entering[req])
    requires || (req in s.entering && e == s.entering[req])
             || (steps[n] == Enter(req, e.check.rule, e.check.rate, e.check.key, e.now) && e.check.policy == s.policy && !e.looked)
             || (steps[n] == Look(req) && req in s.entering && e == s.entering[req].(looked := true)
                 && !(s.refused.policy == Some(e.check.policy) && e.check.key in s.refused.order))
    ensures CameIn(states, steps, n + 1, req, e)
  {
    if req in s.entering && e == s.entering[req] {
      CameInLater(states, steps, n, req, e);
    } else if steps[n].Enter? {
      assert EnteredAt(states, steps, n, req, e.check, e.now);
    } else {
      LookedNow(states, steps, n, req, s.entering[req]);
    }
  }

  lemma LetInLater(states: seq<State>, steps: seq<Step>, n: nat, req: Req, c: Check)
    requires n < |steps| <= |states| && LetIn(states, steps, n, req, c)
    ensures LetIn(states, steps, n + 1, req, c)
  {
    var i, l, a, now :| 0 <= i < l < a < n && EnteredAt(states, steps, i, req, c, now)
      && LookedAt(states, steps, l, req, c) && AdmittedAt(states, steps, a, req, c, now);
    assert 0 <= i < l < a < n + 1;
  }

  lemma TracedStep(states: seq<State>, steps: seq<Step>, n: nat)
    requires n < |steps| < |states| && states[n + 1] == Next(states[n], steps[n]) && Traced(states, steps, n)
    ensures Traced(states, steps, n + 1)
  {
    var s, s' := states[n], states[n + 1];
    forall req | req in s'.entering ensures CameIn(states, steps, n + 1, req, s'.entering[req]) {
      EnteringChange(s, steps[n], req);
      EnteringTraced(states, steps, n, req, s, s'.entering[req]);
    }
    forall req | req in s'.waiting ensures LetIn(states, steps, n + 1, req, s'.waiting[req]) {
      WaitingChange(s, steps[n], req);
      if req in s.waiting && s'.waiting[req] == s.waiting[req] {
        LetInLater(states, steps, n, req, s.waiting[req]);
      } else {
        AdmittedNow(states, steps, n, req, s.entering[req]);
      }
    }
  }

  lemma {:induction false} AllTraced(states: seq<State>, steps: seq<Step>, n: nat)
    requires Run(states, steps) && n <= |steps|
    ensures Traced(states, steps, n)
  {
    if n > 0 {
      AllTraced(states, steps, n - 1);
      TracedStep(states, steps, n - 1);
    }
  }

  /** Step `i` released the wrap of outcome `o`: the seal it held was listed, and the
      rule's bucket, if it has a rate, held a whole token. */
  ghost predicate ReleasedAt(states: seq<State>, steps: seq<Step>, i: nat, o: Outcome)
    requires i < |steps| < |states|
  {
    && steps[i].Result? && steps[i].listedSeal && steps[i].req in states[i].waiting
    && var c := states[i].waiting[steps[i].req];
       && o == Outcome(c.policy, c.key, c.rule, Released)
       && (c.rate.Some? ==> TokensAt(states[i], c.rule, c.rate.value, steps[i].now) >= 1.0)
       && LetIn(states, steps, i, steps[i].req, c)
  }

  /** In every run, every release comes of a request that was brought in, looked up
      and not found, let in with a token in hand, and whose decrypted seal was listed,
      again with a token in hand. */
  lemma {:induction false} ReleasedOnlyIfListed(states: seq<State>, steps: seq<Step>, n: nat, j: nat)
    requires Run(states, steps) && n <= |steps| && j < |states[n].history| && states[n].history[j].verdict.Released?
    ensures exists i :: 0 <= i < n && ReleasedAt(states, steps, i, states[n].history[j])
  {
    assert states[n] == Next(states[n - 1], steps[n - 1]);
    HistoryGrows(states[n - 1], steps[n - 1]);
    if j < |states[n - 1].history| {
      ReleasedOnlyIfListed(states, steps, n - 1, j);
    } else {
      ReleaseTraced(states, steps, n - 1);
    }
  }

  lemma ReleaseTraced(states: seq<State>, steps: seq<Step>, i: nat)
    requires Run(states, steps) && i < |steps| && |states[i + 1].history| == |states[i].history| + 1
    requires states[i + 1].history[|states[i].history|].verdict.Released?
    ensures ReleasedAt(states, steps, i, states[i + 1].history[|states[i].history|])
  {
    AllTraced(states, steps, i);
    assert states[i + 1] == Next(states[i], steps[i]);
    ReleaseStep(states[i], steps[i]);
  }

  lemma HistoryGrows(s: State, step: Step)
    ensures s.history <= Next(s, step).history && |Next(s, step).history| <= |s.history| + 1
  {
  }

  lemma ReleaseStep(s: State, step: Step)
    requires |Next(s, step).history| == |s.history| + 1 && Next(s, step).history[|s.history|].verdict.Released?
    ensures step.Result? && step.listedSeal && step.req in s.waiting
    ensures var c := s.waiting[step.req];
            Next(s, step).history[|s.history|] == Outcome(c.policy, c.key, c.rule, Released)
            && (c.rate.Some? ==> TokensAt(s, c.rule, c.rate.value, step.now) >= 1.0)
  {
  }

  // ------------------------------------------------------- who pays a token

  ghost predicate BucketsHold(s: State) {
    forall rule :: rule in s.buckets ==> Holds(Some(s.buckets[rule]))
  }

  /** The step released a wrap under `rule`. */
  predicate Releases(s: State, step: Step, rule: Rule) {
    && |Next(s, step).history| == |s.history| + 1
    && Next(s, step).history[|s.history|].verdict.Released?
    && Next(s, step).history[|s.history|].rule == rule
  }

  /** A step that does not release a wrap under the rule takes nothing from its
      bucket: it holds at least as many tokens at every time, at whatever time and
      in whatever order the steps read the clock. */
  lemma OnlyReleasesPay(s: State, step: Step, rule: Rule, r: Rate, at: int)
    requires BucketsHold(s)
    ensures BucketsHold(Next(s, step))
    ensures !Releases(s, step, rule) ==>
              Refill(BucketOf(Next(s, step), rule), r, at).tokens >= Refill(BucketOf(s, rule), r, at).tokens
  {
    match step
    case Admit(req) =>
      if req in s.entering && s.entering[req].looked && s.entering[req].check.rate.Some? {
        var c, call := s.entering[req].check, Peek(s.entering[req].now);
        AfterHolds(BucketOf(s, c.rule), c.rate.value, call);
        if c.rule == rule {
          NotTakenKeeps(BucketOf(s, rule), c.rate.value, r, call, at);
        }
      }
    case Result(req, listedSeal, now) =>
      if req in s.waiting && listedSeal && s.waiting[req].rate.Some? {
        var c := s.waiting[req];
        AfterHolds(BucketOf(s, c.rule), c.rate.value, Take(now));
        if c.rule == rule && !Releases(s, step, rule) {
          NotTakenKeeps(BucketOf(s, rule), c.rate.value, r, Take(now), at);
        }
      }
    case _ =>
  }

  /** A call that grants no token only refills, or turns the clock back. */
  lemma NotTakenKeeps(b: Option<Bucket>, used: Rate, r: Rate, call: Call, at: int)
    requires Holds(b)
    requires call.Take? ==> !RateLimit.Verdict(b, used, call)
    ensures Refill(Some(After(b, used, call)), r, at).tokens >= Refill(b, r, at).tokens
  {
    AfterHolds(b, used, call);
    AfterHolds(b, r, Peek(at));
    if used == r && b.Some? && b.value.rate == r {
      RefillGrows(b.value, r, call.now, at);
    }
  }

  lemma RefillGrows(b: Bucket, r: Rate, now: int, at: int)
    requires b.rate == r && Holds(Some(b))
    ensures Refill(Some(Refill(Some(b), r, now)), r, at).tokens >= Refill(Some(b), r, at).tokens
  {
    EarnedAdds(r, now - b.last, at - now);
    EarnedAdds(r, at - now, 0);
    EarnedAdds(r, now - b.last, 0);
    EarnedAdds(r, at - b.last, 0);
    if now > b.last && at < now {
      EarnedAdds(r, now - at, at - b.last);
      EarnedAdds(r, now - at, 0);
    }
    if now < b.last {
      EarnedAdds(r, b.last - now, at - b.last);
      EarnedAdds(r, b.last - now, 0);
    }
  }

  /** A release under a rated rule takes exactly one token, there and then. */
  lemma ReleasePaysOne(s: State, req: Req, now: int)
    requires req in s.waiting && s.waiting[req].rate.Some?
    requires Releases(s, Result(req, true, now), s.waiting[req].rule)
    ensures var c := s.waiting[req];
            Refill(BucketOf(Next(s, Result(req, true, now)), c.rule), c.rate.value, now).tokens ==
            Refill(BucketOf(s, c.rule), c.rate.value, now).tokens - 1.0
  {
  }

  // -------------------------------------------------------- as an object

  class RefusedWraps {
    var policy: Option<Policy>
    var seen: set<Key>
    var order: seq<Key>

    ghost predicate Valid()
      reads this
    {
      Fits(order, REFUSED_MAX) && seen == set k | k in order
    }

    ghost function Value(): Refused
      reads this
    {
      Refused(policy, order)
    }

    constructor ()
      ensures Valid() && Value() == Refused(None, [])
    {
      policy, seen, order := None, {}, [];
    }

    predicate Has(p: Policy, k: Key)
      requires Valid()
      reads this
      ensures Has(p, k) == Value().Has(p, k)
    {
      policy == Some(p) && k in seen
    }

    /** Drops the memory of another policy, then evicts the oldest if full. */
    method Add(p: Policy, k: Key)
      requires Valid()
      modifies this
      ensures Valid() && Value() == old(Value()).Add(p, k)
    {
      if policy != Some(p) {
        policy, seen, order := Some(p), {}, [];
      }
      if k in seen {
        return;
      }
      InsertFits(order, k, REFUSED_MAX);
      ghost var base := order;
      if |order| >= REFUSED_MAX {
        DropFirst(order);
        seen := seen - {order[0]};
        order := order[1..];
      }
      seen := seen + {k};
      order := order + [k];
      assert order == Insert(base, k, REFUSED_MAX);
    }
  }
}
