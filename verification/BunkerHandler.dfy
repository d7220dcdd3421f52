/** The bunker's request policy (cli/bunker/handler.go): each request is decided
    against the remembered grants, then by a human. Requests run concurrently;
    every access to the store or to the staged grants is a step of its own. */
module BunkerHandler {
  import opened Common
  import opened GrantStore
  import opened GrantSpecs

  const CONNECT := "connect"

  datatype Request = Request(id: string, client: Pubkey, verb: string, kind: Option<int>, perms: string, appName: string, appUrl: string)

  /** A request as the queue shows it to a human. */
  datatype Asked = Asked(id: string, client: Pubkey, body: string)

  /** What asking the queue returned: a decision, and the request it was taken on,
      which the queue finds by id. */
  datatype Answer = Busy | Given(verdict: Decision, remembered: bool, on: Asked)

  datatype Spec = Spec(nickname: string, entries: seq<EntrySpec>)

  /** A staged grants file; each staging has its own serial. */
  datatype Staged = Staged(serial: nat, spec: Spec)

  datatype Source = FromPerms | FromSpec(serial: nat, nickname: string)

  datatype Stage =
    | Start
    | Deciding
    | Asking
    | Pairing(persist: bool)
    | Storing(todo: seq<Grant>, source: Source, at: int)
    | Allowed
    | Refused

  datatype Call = Call(req: Request, stage: Stage)

  datatype Note =
    | AutoPaired(call: nat)
    | Answered(call: nat, verdict: Decision, remembered: bool, on: Asked)
    | Took(call: nat, serial: nat)
    | Stored(call: nat, g: Grant, source: Source)

  datatype State = State(store: Sessions, staged: Option<Staged>, serial: nat, calls: seq<Call>, log: seq<Note>)

  datatype Step =
    | Arrive(req: Request)
    | SetSecret
    | SetGrants(spec: Spec)
    | Outside(op: Op)
    | Advance(t: nat, now: int, answer: Answer)

  function KindOf(r: Request): int {
    if r.kind.Some? then r.kind.value else 0
  }

  predicate Enabled(s: State, st: Step) {
    match st
    case Advance(t, _, answer) =>
      && t < |s.calls| && !s.calls[t].stage.Allowed? && !s.calls[t].stage.Refused?
      && (answer.Given? ==> answer.on.id == s.calls[t].req.id)
    case _ => true
  }

  function Next(s: State, st: Step): State
    requires Enabled(s, st)
  {
    match st
    case Arrive(req) => s.(calls := s.calls + [Call(req, Start)])
    case SetSecret => s.(staged := None)
    case SetGrants(spec) => s.(staged := Some(Staged(s.serial, spec)), serial := s.serial + 1)
    case Outside(op) => s.(store := Apply(s.store, op))
    case Advance(t, now, answer) =>
      match s.calls[t].stage
      case Start => NextStart(s, t)
      case Deciding => NextDecide(s, t, now)
      case Asking => NextAnswer(s, t, answer)
      case Pairing(persist) => NextPair(s, t, persist, now)
      case Storing(todo, source, at) => NextStore(s, t, todo, source, at)
  }

  function Move(s: State, t: nat, stage: Stage): State
    requires t < |s.calls|
  {
    s.(calls := s.calls[t := s.calls[t].(stage := stage)])
  }

  function Note1(s: State, n: Note): State {
    s.(log := s.log + [n])
  }

  function NextStart(s: State, t: nat): State
    requires t < |s.calls|
  {
    var r := s.calls[t].req;
    if r.verb == CONNECT && s.staged.Some? then Note1(Move(s, t, Pairing(true)), AutoPaired(t))
    else if r.verb == "switch_relays" || r.verb == "logout" then Move(s, t, if r.client in s.store then Allowed else Refused)
    else Move(s, t, Deciding)
  }

  function NextDecide(s: State, t: nat, now: int): State
    requires t < |s.calls|
  {
    var r := s.calls[t].req;
    var s' := s.(store := Apply(s.store, Decide(r.client, r.verb, KindOf(r), now)));
    match Verdict(s.store, r.client, r.verb, KindOf(r), now)
    case Deny => Move(s', t, Refused)
    case Ask => Move(s', t, Asking)
    case Allow => Move(s', t, if r.verb == CONNECT then Pairing(false) else Allowed)
  }

  function NextAnswer(s: State, t: nat, answer: Answer): State
    requires t < |s.calls|
  {
    var r := s.calls[t].req;
    match answer
    case Busy => Move(s, t, Refused)
    case Given(verdict, remembered, on) =>
      var s' := Note1(s, Answered(t, verdict, remembered, on));
      if verdict != Allow then Move(s', t, Refused)
      else Move(s', t, if r.verb == CONNECT then Pairing(remembered) else Allowed)
  }

  function NextPair(s: State, t: nat, persist: bool, now: int): State
    requires t < |s.calls|
  {
    var r := s.calls[t].req;
    Move(s.(store := Apply(s.store, Pair(r.client, r.appName, r.appUrl, now))), t,
         Storing(if persist then PermGrants(r.perms, now) else [], FromPerms, now))
  }

  function NextStore(s: State, t: nat, todo: seq<Grant>, source: Source, at: int): State
    requires t < |s.calls|
  {
    var r := s.calls[t].req;
    if todo != [] then
      Note1(Move(s.(store := Apply(s.store, Remember(r.client, todo[0], at))), t, Storing(todo[1..], source, at)),
            Stored(t, todo[0], source))
    else match source
      case FromPerms =>
        if s.staged.None? then Move(s, t, Allowed)
        else
          var Staged(serial, spec) := s.staged.value;
          Note1(Move(s.(staged := None), t, Storing(ResolveAll(spec.entries, at), FromSpec(serial, spec.nickname), at)),
                Took(t, serial))
      case FromSpec(_, nickname) =>
        Move(if nickname == "" then s else s.(store := Apply(s.store, SetName(r.client, nickname))), t, Allowed)
  }

  // --------------------------------------------------- how a request is settled

  /** The grant the app's table answers a request by. */
  ghost function StandingGrant(store: Sessions, r: Request, now: int): Option<Grant> {
    var m := Held(store, r.client);
    var a := AnswerOf(m, r.verb, if r.kind == None then 0 else r.kind.value, now);
    if a.Some? then Some(m[a.value]) else None
  }

  /** Requests that are decided by a grant or a human. */
  predicate Policed(r: Request, staged: bool) {
    !(r.verb == "connect" && staged) && r.verb != "switch_relays" && r.verb != "logout"
  }

  /** The call was let through; if it is a connect, its app may still be registering. */
  predicate LetThrough(stage: Stage) {
    stage.Pairing? || stage.Storing? || stage.Allowed?
  }

  lemma StartOutcome(s: State, t: nat)
    requires t < |s.calls|
    ensures var r, stage := s.calls[t].req, NextStart(s, t).calls[t].stage;
            if Policed(r, s.staged.Some?) then stage == Deciding
            else if r.verb == "connect" || r.client in s.store then LetThrough(stage)
            else stage == Refused
  {
  }

  lemma GrantStands(store: Sessions, r: Request, now: int)
    requires StoreOk(store)
    ensures var g := StandingGrant(store, r, now);
            Verdict(store, r.client, r.verb, KindOf(r), now) == if g.Some? then g.value.verdict else Ask
  {
    VerdictRefines(store, r.client, r.verb, KindOf(r), now);
  }

  /** The table's answer settles the request; without one a human is asked. */
  lemma DecideOutcome(s: State, t: nat, now: int)
    requires StoreOk(s.store) && t < |s.calls|
    ensures var g, stage := StandingGrant(s.store, s.calls[t].req, now), NextDecide(s, t, now).calls[t].stage;
            if g == None || g.value.verdict == Ask then stage == Asking
            else if g.value.verdict == Deny then stage == Refused
            else LetThrough(stage)
  {
    GrantStands(s.store, s.calls[t].req, now);
  }

  lemma AnswerOutcome(s: State, t: nat, answer: Answer)
    requires t < |s.calls|
    ensures var stage := NextAnswer(s, t, answer).calls[t].stage;
            if answer.Given? && answer.verdict == Allow then LetThrough(stage) else stage == Refused
  {
  }

  // -------------------------------------------------------------- invariants

  /** The queue told this call Allow, by a decision on a request with its id. */
  ghost predicate Approved(log: seq<Note>, t: nat, id: string) {
    exists remembered, on: Asked :: on.id == id && Answered(t, Allow, remembered, on) in log
  }

  /** And with the choice to remember. */
  ghost predicate ToldToRemember(log: seq<Note>, t: nat, id: string) {
    exists on: Asked :: on.id == id && Answered(t, Allow, true, on) in log
  }

  /** Its requested permissions may be kept: the pairing was staged, or a human
      chose to remember. */
  ghost predicate Consented(log: seq<Note>, t: nat, id: string) {
    AutoPaired(t) in log || ToldToRemember(log, t, id)
  }

  ghost predicate CallOk(c: Call, t: nat, log: seq<Note>) {
    match c.stage
    case Pairing(persist) => c.req.verb == CONNECT && (persist ==> Consented(log, t, c.req.id))
    case Storing(todo, source, _) =>
      && c.req.verb == CONNECT
      && (source == FromPerms && todo != [] ==> Consented(log, t, c.req.id))
      && (source.FromSpec? ==> Took(t, source.serial) in log)
    case Allowed => Sensitive(c.req.verb, KindOf(c.req)) ==> Approved(log, t, c.req.id)
    case _ => true
  }

  ghost predicate NoteOk(calls: seq<Call>, log: seq<Note>, k: nat)
    requires k < |log|
  {
    match log[k]
    case Stored(t, g, FromPerms) => t < |calls| && Consented(log[..k], t, calls[t].req.id)
    case Stored(t, g, FromSpec(serial, _)) => Took(t, serial) in log[..k]
    case Took(_, serial) => forall u :: Took(u, serial) !in log[..k]
    case _ => true
  }

  ghost predicate Inv(s: State) {
    && StoreOk(s.store)
    && (forall t :: 0 <= t < |s.calls| ==> CallOk(s.calls[t], t, s.log))
    && (forall k :: 0 <= k < |s.log| ==> NoteOk(s.calls, s.log, k))
    && (forall u: nat, serial: nat :: Took(u, serial) in s.log ==> serial < s.serial)
    && (s.staged.Some? ==> s.staged.value.serial < s.serial && forall u :: Took(u, s.staged.value.serial) !in s.log)
  }

  /** The store changes freely; call `t` moves; at most one note is added. */
  lemma MoveKeeps(s: State, s': State, t: nat, added: seq<Note>)
    requires Inv(s) && t < |s.calls| && StoreOk(s'.store) && s'.serial == s.serial
    requires |s'.calls| == |s.calls| && s'.calls[t].req == s.calls[t].req && s'.calls == s.calls[t := s'.calls[t]]
    requires s'.log == s.log + added && |added| <= 1 && CallOk(s'.calls[t], t, s'.log)
    requires |added| == 1 ==> NoteOk(s'.calls, s'.log, |s.log|)
    requires forall n :: n in added && n.Took? ==> n.serial < s.serial && s'.staged.None?
    requires s'.staged.Some? ==> s'.staged == s.staged
    ensures Inv(s')
  {
    assert forall u :: 0 <= u < |s'.calls| && u != t ==> CallOk(s'.calls[u], u, s'.log);
    forall k | 0 <= k < |s.log| ensures NoteOk(s'.calls, s'.log, k) {
      assert NoteOk(s.calls, s.log, k) && s'.log[..k] == s.log[..k] && s'.log[k] == s.log[k];
    }
  }

  lemma StartKeeps(s: State, t: nat)
    requires Inv(s) && t < |s.calls|
    ensures Inv(NextStart(s, t))
  {
    var r := s.calls[t].req;
    if r.verb == CONNECT && s.staged.Some? {
      MoveKeeps(s, NextStart(s, t), t, [AutoPaired(t)]);
    } else {
      MoveKeeps(s, NextStart(s, t), t, []);
    }
  }

  lemma DecideKeeps(s: State, t: nat, now: int)
    requires Inv(s) && t < |s.calls|
    ensures Inv(NextDecide(s, t, now))
  {
    var r := s.calls[t].req;
    ApplyRefines(s.store, Decide(r.client, r.verb, KindOf(r), now), r.client);
    if Sensitive(r.verb, KindOf(r)) && r.client in s.store {
      SensitiveNeverAllowed(s.store[r.client].grants, KindOf(r), now);
    }
    MoveKeeps(s, NextDecide(s, t, now), t, []);
  }

  lemma AnswerKeeps(s: State, t: nat, answer: Answer)
    requires Inv(s) && t < |s.calls| && (answer.Given? ==> answer.on.id == s.calls[t].req.id)
    ensures Inv(NextAnswer(s, t, answer))
  {
    var r := s.calls[t].req;
    match answer
    case Busy => MoveKeeps(s, NextAnswer(s, t, answer), t, []);
    case Given(verdict, remembered, on) =>
      var n := Answered(t, verdict, remembered, on);
      assert n in s.log + [n];
      MoveKeeps(s, NextAnswer(s, t, answer), t, [n]);
  }

  lemma PairKeeps(s: State, t: nat, now: int)
    requires Inv(s) && t < |s.calls| && s.calls[t].stage.Pairing?
    ensures Inv(NextPair(s, t, s.calls[t].stage.persist, now))
  {
    var r := s.calls[t].req;
    assert CallOk(s.calls[t], t, s.log);
    ApplyRefines(s.store, Pair(r.client, r.appName, r.appUrl, now), r.client);
    MoveKeeps(s, NextPair(s, t, s.calls[t].stage.persist, now), t, []);
  }

  lemma StoreKeeps(s: State, t: nat)
    requires Inv(s) && t < |s.calls| && s.calls[t].stage.Storing?
    ensures var c := s.calls[t].stage; Inv(NextStore(s, t, c.todo, c.source, c.at))
  {
    var r, c := s.calls[t].req, s.calls[t].stage;
    var s' := NextStore(s, t, c.todo, c.source, c.at);
    assert CallOk(s.calls[t], t, s.log);
    if c.todo != [] {
      var n := Stored(t, c.todo[0], c.source);
      ApplyRefines(s.store, Remember(r.client, c.todo[0], c.at), r.client);
      assert s'.log[..|s.log|] == s.log;
      MoveKeeps(s, s', t, [n]);
    } else if c.source.FromSpec? {
      ApplyRefines(s.store, SetName(r.client, c.source.nickname), r.client);
      MoveKeeps(s, s', t, []);
    } else if s.staged.None? {
      MoveKeeps(s, s', t, []);
    } else {
      var n := Took(t, s.staged.value.serial);
      assert s'.log[..|s.log|] == s.log && n in s'.log;
      MoveKeeps(s, s', t, [n]);
    }
  }

  lemma ArriveKeeps(s: State, req: Request)
    requires Inv(s)
    ensures Inv(Next(s, Arrive(req)))
  {
    var s' := Next(s, Arrive(req));
    forall k | 0 <= k < |s.log| ensures NoteOk(s'.calls, s'.log, k) {
      assert NoteOk(s.calls, s.log, k);
    }
  }

  lemma StepKeeps(s: State, st: Step)
    requires Inv(s) && Enabled(s, st)
    ensures Inv(Next(s, st))
  {
    match st
    case Arrive(req) => ArriveKeeps(s, req);
    case SetSecret =>
    case SetGrants(_) =>
    case Outside(op) => ApplyRefines(s.store, op, "");
    case Advance(t, now, answer) =>
      match s.calls[t].stage
      case Start => StartKeeps(s, t);
      case Deciding => DecideKeeps(s, t, now);
      case Asking => AnswerKeeps(s, t, answer);
      case Pairing(_) => PairKeeps(s, t, now);
      case Storing(_, _, _) => StoreKeeps(s, t);
  }

  // -------------------------------------------------------------------- runs

  ghost predicate Reaches(s: State, steps: seq<Step>, s': State)
    decreases |steps|
  {
    if steps == [] then s' == s
    else Enabled(s, steps[0]) && Reaches(Next(s, steps[0]), steps[1..], s')
  }

  lemma {:induction false} RunKeeps(s: State, steps: seq<Step>, s': State)
    requires Inv(s) && Reaches(s, steps, s')
    ensures Inv(s')
    decreases |steps|
  {
    if steps != [] {
      StepKeeps(s, steps[0]);
      RunKeeps(Next(s, steps[0]), steps[1..], s');
    }
  }

  function Init(store: Sessions): State {
    State(store, None, 0, [], [])
  }

  /** What a client asked for is remembered only after its pairing was staged by
      the operator or a human chose to remember: approving once keeps nothing. */
  lemma PermsNeedConsent(store: Sessions, steps: seq<Step>, s: State, k: nat)
    requires StoreOk(store) && Reaches(Init(store), steps, s)
    requires k < |s.log| && s.log[k].Stored? && s.log[k].source == FromPerms
    ensures s.log[k].call < |s.calls| && Consented(s.log[..k], s.log[k].call, s.calls[s.log[k].call].req.id)
  {
    RunKeeps(Init(store), steps, s);
    assert NoteOk(s.calls, s.log, k);
  }

  lemma SpentOrSame(m: map<Scope, Grant>, pub: Pubkey, op: Op, sc: Scope)
    requires op.Decide? && sc in HeldAfter(m, pub, op)
    ensures sc in m && HeldAfter(m, pub, op)[sc] == m[sc].(uses := HeldAfter(m, pub, op)[sc].uses)
  {
  }

  lemma DecideNoted(s: State, t: nat, now: int, pub: Pubkey, sc: Scope)
    requires StoreOk(s.store) && t < |s.calls| && sc in Held(NextDecide(s, t, now).store, pub)
    ensures sc in Held(s.store, pub)
    ensures var g := Held(NextDecide(s, t, now).store, pub)[sc]; g == Held(s.store, pub)[sc].(uses := g.uses)
  {
    var r := s.calls[t].req;
    var op := Decide(r.client, r.verb, KindOf(r), now);
    ApplyRefines(s.store, op, pub);
    SpentOrSame(Held(s.store, pub), pub, op, sc);
  }

  lemma StoreNoted(s: State, t: nat, pub: Pubkey, sc: Scope)
    requires StoreOk(s.store) && t < |s.calls| && s.calls[t].stage.Storing?
    requires var c := s.calls[t].stage; sc in Held(NextStore(s, t, c.todo, c.source, c.at).store, pub)
    ensures var c := s.calls[t].stage; var s' := NextStore(s, t, c.todo, c.source, c.at);
            var g := Held(s'.store, pub)[sc];
            || (sc in Held(s.store, pub) && g == Held(s.store, pub)[sc])
            || (pub == s.calls[t].req.client && exists source :: s'.log == s.log + [Stored(t, g, source)])
  {
    var r, c := s.calls[t].req, s.calls[t].stage;
    if c.todo != [] {
      ApplyRefines(s.store, Remember(r.client, c.todo[0], c.at), pub);
      assert NextStore(s, t, c.todo, c.source, c.at).log == s.log + [Stored(t, c.todo[0], c.source)];
    } else if c.source.FromSpec? {
      ApplyRefines(s.store, SetName(r.client, c.source.nickname), pub);
    }
  }

  /** Serving a request gives an app nothing that is not noted as stored for it: a
      grant it holds after a step is the one it held, or that one with other uses,
      or the one the step notes. */
  lemma GrantsAreNoted(s: State, s': State, t: nat, now: int, answer: Answer, pub: Pubkey, sc: Scope)
    requires StoreOk(s.store) && Enabled(s, Advance(t, now, answer)) && s' == Next(s, Advance(t, now, answer))
    requires sc in Held(s'.store, pub)
    ensures var g := Held(s'.store, pub)[sc];
            || (sc in Held(s.store, pub) && g == Held(s.store, pub)[sc].(uses := g.uses))
            || (pub == s.calls[t].req.client && exists source :: s'.log == s.log + [Stored(t, g, source)])
  {
    var r := s.calls[t].req;
    match s.calls[t].stage
    case Start => assert s'.store == s.store;
    case Deciding => DecideNoted(s, t, now, pub, sc);
    case Asking => assert s'.store == s.store;
    case Pairing(_) => ApplyRefines(s.store, Pair(r.client, r.appName, r.appUrl, now), pub);
    case Storing(_, _, _) => StoreNoted(s, t, pub, sc);
  }

  /** A staged grants file reaches at most one pairing: all grants stored from one
      staging were stored by the same call. */
  lemma SpecReachesOneClient(store: Sessions, steps: seq<Step>, s: State, j: nat, k: nat)
    requires StoreOk(store) && Reaches(Init(store), steps, s) && j < |s.log| && k < |s.log|
    requires s.log[j].Stored? && s.log[k].Stored? && s.log[j].source.FromSpec? && s.log[j].source == s.log[k].source
    ensures s.log[j].call == s.log[k].call
  {
    RunKeeps(Init(store), steps, s);
    assert NoteOk(s.calls, s.log, j) && NoteOk(s.calls, s.log, k);
    var serial := s.log[j].source.serial;
    var a :| 0 <= a < j && s.log[..j][a] == Took(s.log[j].call, serial);
    var b :| 0 <= b < k && s.log[..k][b] == Took(s.log[k].call, serial);
    TookOnce(s, a, b);
  }

  lemma TookOnce(s: State, a: nat, b: nat)
    requires Inv(s) && a < |s.log| && b < |s.log|
    requires s.log[a].Took? && s.log[b].Took? && s.log[a].serial == s.log[b].serial
    ensures a == b
  {
    assert NoteOk(s.calls, s.log, a) && NoteOk(s.calls, s.log, b);
  }

  // ------------------------------------------------- one request on its own

  /** Remembers grants one by one, for one app. */
  method RememberEach(store: Store, pub: Pubkey, grants: seq<Grant>, now: int)
    requires store.Valid() && DistinctScopes(grants)
    modifies store
    ensures store.Valid() && (pub in old(store.byPub) ==> pub in store.byPub)
    ensures Held(store.byPub, pub) == Held(old(store.byPub), pub) + View(grants)
    ensures forall p :: p != pub ==> Held(store.byPub, p) == Held(old(store.byPub), p)
  {
    ViewEmpty();
    assert grants[..0] == [];
    for i := 0 to |grants|
      invariant store.Valid() && (pub in old(store.byPub) ==> pub in store.byPub)
      invariant Held(store.byPub, pub) == Held(old(store.byPub), pub) + View(grants[..i])
      invariant forall p :: p != pub ==> Held(store.byPub, p) == Held(old(store.byPub), p)
    {
      OneMoreGrant(Held(old(store.byPub), pub), grants, i);
      store.Remember(pub, grants[i], now);
    }
    assert grants[..|grants|] == grants;
  }

  lemma OneMoreGrant(m: map<Scope, Grant>, grants: seq<Grant>, i: nat)
    requires DistinctScopes(grants) && i < |grants|
    ensures m + View(grants[..i + 1]) == (m + View(grants[..i]))[ScopeOf(grants[i]) := grants[i]]
  {
    assert grants[..i + 1] == grants[..i] + [grants[i]];
    AppendRefines(grants[..i], grants[i]);
  }

  /** What pairing leaves an app holding: what it had, then what it asked for if
      that is to be kept, then what the operator staged. */
  ghost function AfterPairing(m: map<Scope, Grant>, perms: string, persist: bool, spec: Option<Spec>, now: int): map<Scope, Grant> {
    var m' := if persist then m + View(PermGrants(perms, now)) else m;
    if spec.Some? then m' + View(ResolveAll(spec.value.entries, now)) else m'
  }

  class Handler {
    const store: Store
    var pendingSpec: Option<Spec>

    ghost predicate Valid()
      reads this, store
    {
      store.Valid() && (pendingSpec.Some? ==> SpecOk(pendingSpec.value.entries))
    }

    constructor (store: Store)
      requires store.Valid()
      ensures Valid() && this.store == store && pendingSpec == None
    {
      this.store := store;
      pendingSpec := None;
    }

    method SetPendingSecret()
      requires Valid()
      modifies this
      ensures Valid() && pendingSpec == None
    {
      pendingSpec := None;
    }

    /** `spec` was loaded, so it passed validation. */
    method SetPendingGrants(spec: Option<Spec>)
      requires Valid() && (spec.Some? ==> SpecOk(spec.value.entries))
      modifies this
      ensures Valid() && pendingSpec == spec
    {
      pendingSpec := spec;
    }

    method TakePendingGrantSpec() returns (spec: Option<Spec>)
      requires Valid()
      modifies this
      ensures Valid() && spec == old(pendingSpec) && pendingSpec == None
    {
      spec := pendingSpec;
      pendingSpec := None;
    }

    /** Registers the app, with what it asked for if that is to be kept, and with
        what the operator staged. */
    method PairApp(r: Request, persist: bool, now: int)
      requires Valid()
      modifies this, store
      ensures Valid() && pendingSpec == None && r.client in store.byPub
      ensures Held(store.byPub, r.client) == AfterPairing(Held(old(store.byPub), r.client), r.perms, persist, old(pendingSpec), now)
    {
      store.Pair(r.client, r.appName, r.appUrl, now);
      if persist {
        var grants := ParsePerms(r.perms, now);
        RememberEach(store, r.client, grants, now);
      }
      var spec := TakePendingGrantSpec();
      if spec.Some? {
        ApplySpec(r.client, spec.value, now);
      }
    }

    method ApplySpec(pub: Pubkey, spec: Spec, now: int)
      requires Valid() && pub in store.byPub && SpecOk(spec.entries)
      modifies store
      ensures Valid() && pub in store.byPub
      ensures Held(store.byPub, pub) == Held(old(store.byPub), pub) + View(ResolveAll(spec.entries, now))
    {
      AcceptedIffDistinct(spec.entries, now);
      var grants := Resolve(spec.entries, now);
      RememberEach(store, pub, grants, now);
      if spec.nickname != "" {
        ApplyRefines(store.byPub, Op.SetName(pub, spec.nickname), pub);
        var _ := store.SetName(pub, spec.nickname);
      }
    }

    /** Decides one request; `answer` is what the queue returns if it is asked. */
    method Authorize(r: Request, answer: Answer, now: int) returns (ok: bool)
      requires Valid()
      modifies this, store
      ensures Valid()
      ensures r.verb == "connect" && old(pendingSpec).Some? ==> ok
      ensures r.verb == "switch_relays" || r.verb == "logout" ==> (ok <==> r.client in old(store.byPub))
      ensures Policed(r, old(pendingSpec).Some?) ==>
                var g := StandingGrant(old(store.byPub), r, now);
                if g.Some? && g.value.verdict != Ask then ok <==> g.value.verdict == Allow
                else ok <==> answer.Given? && answer.verdict == Allow
      ensures Sensitive(r.verb, KindOf(r)) && ok ==> answer.Given? && answer.verdict == Allow
      ensures r.verb != CONNECT || !ok ==> pendingSpec == old(pendingSpec)
      ensures r.verb == CONNECT && ok ==> pendingSpec == None && r.client in store.byPub
      ensures r.verb == CONNECT && ok ==>
                Held(store.byPub, r.client) == Paired(Held(old(store.byPub), r.client), old(pendingSpec), r,
                                                      Remembers(old(store.byPub), r, answer, now), now)
      ensures r.verb == CONNECT && ok && old(pendingSpec).None? && (answer.Busy? || !answer.remembered) ==>
                forall sc :: sc in Held(store.byPub, r.client) ==> sc in Held(old(store.byPub), r.client)
    {
      if r.verb == CONNECT && pendingSpec.Some? {
        PairApp(r, true, now);
        return true;
      }
      if r.verb == "switch_relays" || r.verb == "logout" {
        return r.client in store.byPub;
      }
      var persist := false;
      GrantStands(store.byPub, r, now);
      DecideAddsNothing(Held(store.byPub, r.client), r, now);
      ApplyRefines(store.byPub, DecideOp(r, now), r.client);
      var d := store.Decide(r.client, r.verb, KindOf(r), now);
      match d {
        case Deny => return false;
        case Ask =>
          if answer.Busy? || answer.verdict != Allow {
            return false;
          }
          persist := answer.remembered;
        case Allow =>
      }
      if r.verb == CONNECT {
        PairApp(r, persist, now);
      }
      return true;
    }
  }

  /** What an app holds once its connect is let through: staged, its permissions
      and the staged grants over what it held; otherwise what deciding left, with
      its permissions over that only if the human chose to remember. */
  ghost function Paired(m: map<Scope, Grant>, staged: Option<Spec>, r: Request, remembers: bool, now: int): map<Scope, Grant> {
    if staged.Some? then AfterPairing(m, r.perms, true, staged, now)
    else AfterPairing(HeldAfter(m, r.client, DecideOp(r, now)), r.perms, remembers, None, now)
  }

  lemma DecideAddsNothing(m: map<Scope, Grant>, r: Request, now: int)
    ensures forall sc :: sc in Paired(m, None, r, false, now) ==> sc in m
  {
  }

  function DecideOp(r: Request, now: int): Op {
    Op.Decide(r.client, r.verb, KindOf(r), now)
  }

  /** The human was asked, and chose to remember. */
  predicate Remembers(st: Sessions, r: Request, answer: Answer, now: int) {
    Verdict(st, r.client, r.verb, KindOf(r), now) == Ask && answer.Given? && answer.remembered
  }
}
