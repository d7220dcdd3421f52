/** The remembered grants of paired apps (cli/bunker/policy.go). A session keeps
    them as a list; the list is shown to behave as a table from scope to grant. */
module GrantStore {
  import opened Common

  type Pubkey = string

  const SIGN_EVENT := "sign_event"

  /** `kind` None covers any kind, `expires` None never lapses, `uses` None is unlimited. */
  datatype Grant = Grant(verb: string, verdict: Decision, kind: Option<int>, expires: Option<int>, uses: Option<int>, created: int)

  datatype Scope = Scope(verb: string, kind: Option<int>)

  datatype Session = Session(pubkey: Pubkey, appName: string, appUrl: string, nickname: string, pairedAt: int, grants: seq<Grant>)

  type Sessions = map<Pubkey, Session>

  /** Profile, contacts and deletion: never signed on a remembered grant. */
  predicate Sensitive(verb: string, kind: int) {
    verb == SIGN_EVENT && (kind == 0 || kind == 3 || kind == 5)
  }

  predicate Lapsed(g: Grant, now: int) {
    g.expires.Some? && g.expires.value <= now
  }

  predicate Matches(g: Grant, verb: string, kind: int, exactOnly: bool) {
    if g.verb != verb then false
    else if g.kind.Some? then
      if g.kind.value != kind then false
      else if g.verdict == Allow && Sensitive(verb, kind) then false
      else true
    else if exactOnly then false
    else if Sensitive(verb, kind) then false
    else true
  }

  predicate SameScope(a: Grant, b: Grant) {
    if a.verb != b.verb then false
    else if a.kind.None? != b.kind.None? then false
    else a.kind.None? || a.kind.value == b.kind.value
  }

  function ScopeOf(g: Grant): Scope {
    Scope(g.verb, g.kind)
  }

  ghost predicate DistinctScopes(gs: seq<Grant>) {
    forall i, j :: 0 <= i < j < |gs| ==> ScopeOf(gs[i]) != ScopeOf(gs[j])
  }

  // ------------------------------------------------------ the list operations

  function Unlapsed(gs: seq<Grant>, now: int): seq<Grant> {
    Filter(gs, (g: Grant) => !Lapsed(g, now))
  }

  /** The first grant that matches, or |gs|. */
  function FirstMatch(gs: seq<Grant>, verb: string, kind: int, exactOnly: bool): (i: nat)
    ensures i <= |gs|
    ensures i < |gs| ==> Matches(gs[i], verb, kind, exactOnly)
    ensures forall k :: 0 <= k < i ==> !Matches(gs[k], verb, kind, exactOnly)
  {
    if gs == [] then 0
    else if Matches(gs[0], verb, kind, exactOnly) then 0
    else 1 + FirstMatch(gs[1..], verb, kind, exactOnly)
  }

  function RemoveAt<T>(s: seq<T>, i: nat): seq<T>
    requires i < |s|
  {
    s[..i] + s[i + 1..]
  }

  /** One use of the i-th grant. */
  function Spend(gs: seq<Grant>, i: nat): seq<Grant>
    requires i < |gs|
  {
    if gs[i].uses.None? then gs
    else if gs[i].uses.value - 1 <= 0 then RemoveAt(gs, i)
    else gs[i := OneLess(gs[i])]
  }

  function OneLess(g: Grant): Grant
    requires g.uses.Some?
  {
    g.(uses := Some(g.uses.value - 1))
  }

  /** The grant that answers, among unlapsed ones: exact kind first. */
  function Answering(gs: seq<Grant>, verb: string, kind: int): nat {
    var i := FirstMatch(gs, verb, kind, true);
    if i < |gs| then i else FirstMatch(gs, verb, kind, false)
  }

  function DecideIn(gs: seq<Grant>, verb: string, kind: int, now: int): (Decision, seq<Grant>) {
    var live := Unlapsed(gs, now);
    var i := Answering(live, verb, kind);
    if i < |live| then (live[i].verdict, Spend(live, i)) else (Ask, live)
  }

  /** Where the scope of `g` is held, or |gs|. */
  function FirstSame(gs: seq<Grant>, g: Grant): (i: nat)
    ensures i <= |gs|
    ensures i < |gs| ==> SameScope(gs[i], g)
    ensures forall k :: 0 <= k < i ==> !SameScope(gs[k], g)
  {
    if gs == [] then 0 else if SameScope(gs[0], g) then 0 else 1 + FirstSame(gs[1..], g)
  }

  function RememberIn(gs: seq<Grant>, g: Grant): seq<Grant> {
    var i := FirstSame(gs, g);
    if i < |gs| then gs[i := g] else gs + [g]
  }

  function Target(verb: string, kind: Option<int>): Grant {
    Grant(verb, Ask, kind, None, None, 0)
  }

  function RevokeIn(gs: seq<Grant>, verb: string, kind: Option<int>): (bool, seq<Grant>) {
    var i := FirstSame(gs, Target(verb, kind));
    if i < |gs| then (true, RemoveAt(gs, i)) else (false, gs)
  }

  // ------------------------------------------------------ the table reference

  /** `m` holds exactly the grants of the list, each under its scope. */
  ghost predicate Shows(gs: seq<Grant>, m: map<Scope, Grant>) {
    && (forall g :: g in gs ==> ScopeOf(g) in m && m[ScopeOf(g)] == g)
    && (forall sc :: sc in m ==> m[sc] in gs && ScopeOf(m[sc]) == sc)
  }

  ghost function View(gs: seq<Grant>): map<Scope, Grant> {
    map sc | sc in (set g | g in gs :: ScopeOf(g)) :: gs[FirstOf(gs, sc)]
  }

  ghost function FirstOf(gs: seq<Grant>, sc: Scope): (i: nat)
    requires exists g :: g in gs && ScopeOf(g) == sc
    ensures i < |gs| && ScopeOf(gs[i]) == sc
  {
    if ScopeOf(gs[0]) == sc then 0
    else
      assert forall g :: g in gs ==> g == gs[0] || g in gs[1..];
      1 + FirstOf(gs[1..], sc)
  }

  lemma ViewShows(gs: seq<Grant>)
    requires DistinctScopes(gs)
    ensures Shows(gs, View(gs))
  {
    forall g | g in gs ensures ScopeOf(g) in View(gs) && View(gs)[ScopeOf(g)] == g {
      var i :| 0 <= i < |gs| && gs[i] == g;
      assert ScopeOf(gs[i]) in (set x | x in gs :: ScopeOf(x));
      var j := FirstOf(gs, ScopeOf(g));
      assert i == j;
    }
  }

  lemma ShownIsView(gs: seq<Grant>, m: map<Scope, Grant>)
    requires DistinctScopes(gs) && Shows(gs, m)
    ensures View(gs) == m
  {
    ViewShows(gs);
    var v := View(gs);
    assert forall sc :: sc in v <==> sc in m;
    assert forall sc :: sc in v ==> v[sc] == m[sc];
  }

  /** The grant a request is answered by: an unlapsed one for its exact kind,
      unless that would allow a sensitive kind, else an unlapsed one for any kind,
      unless the kind is sensitive. */
  ghost function AnswerOf(m: map<Scope, Grant>, verb: string, kind: int, now: int): Option<Scope> {
    var exact, any := Scope(verb, Some(kind)), Scope(verb, None);
    if exact in m && !Lapsed(m[exact], now) && !(Sensitive(verb, kind) && m[exact].verdict == Allow) then Some(exact)
    else if any in m && !Lapsed(m[any], now) && !Sensitive(verb, kind) then Some(any)
    else None
  }

  ghost function Live(m: map<Scope, Grant>, now: int): map<Scope, Grant> {
    map sc | sc in m && !Lapsed(m[sc], now) :: m[sc]
  }

  /** One use taken from the grant under `sc`. */
  ghost function Spent(m: map<Scope, Grant>, sc: Scope): map<Scope, Grant>
    requires sc in m
  {
    var g := m[sc];
    if g.uses.None? then m
    else if g.uses.value <= 1 then m - {sc}
    else m[sc := OneLess(g)]
  }

  lemma SameScopeIff(a: Grant, b: Grant)
    ensures SameScope(a, b) <==> ScopeOf(a) == ScopeOf(b)
  {
  }

  // ------------------------------------------------- the list acts as a table

  lemma {:induction false} UnlapsedDistinct(gs: seq<Grant>, now: int)
    requires DistinctScopes(gs)
    ensures DistinctScopes(Unlapsed(gs, now))
  {
    if gs != [] {
      UnlapsedDistinct(gs[1..], now);
      forall g | g in gs[1..] ensures ScopeOf(g) != ScopeOf(gs[0]) {
        var i :| 0 <= i < |gs| - 1 && gs[1..][i] == g;
        assert g == gs[i + 1];
      }
    }
  }

  lemma PruneRefines(gs: seq<Grant>, now: int)
    requires DistinctScopes(gs)
    ensures DistinctScopes(Unlapsed(gs, now)) && View(Unlapsed(gs, now)) == Live(View(gs), now)
  {
    UnlapsedDistinct(gs, now);
    ViewShows(gs);
    ShownIsView(Unlapsed(gs, now), Live(View(gs), now));
  }

  /** The first match is the grant the table names. */
  lemma AnsweringRefines(gs: seq<Grant>, verb: string, kind: int, now: int)
    requires DistinctScopes(gs) && forall g :: g in gs ==> !Lapsed(g, now)
    ensures var i, a := Answering(gs, verb, kind), AnswerOf(View(gs), verb, kind, now);
            i <= |gs| && (i < |gs| <==> a.Some?) && (i < |gs| ==> a.value == ScopeOf(gs[i]))
  {
    ViewShows(gs);
    var m, exact, any := View(gs), Scope(verb, Some(kind)), Scope(verb, None);
    MatchExact(gs, verb, kind, m);
    if FirstMatch(gs, verb, kind, true) == |gs| {
      MatchAny(gs, verb, kind, m);
    }
  }

  lemma MatchExact(gs: seq<Grant>, verb: string, kind: int, m: map<Scope, Grant>)
    requires Shows(gs, m)
    ensures var i, exact := FirstMatch(gs, verb, kind, true), Scope(verb, Some(kind));
            if i < |gs| then exact in m && m[exact] == gs[i] && !(Sensitive(verb, kind) && gs[i].verdict == Allow)
            else exact in m ==> Sensitive(verb, kind) && m[exact].verdict == Allow
  {
    var i, exact := FirstMatch(gs, verb, kind, true), Scope(verb, Some(kind));
    if i < |gs| {
      assert gs[i] in gs;
    } else if exact in m {
      var k :| 0 <= k < |gs| && gs[k] == m[exact];
      assert !Matches(gs[k], verb, kind, true);
    }
  }

  lemma MatchAny(gs: seq<Grant>, verb: string, kind: int, m: map<Scope, Grant>)
    requires Shows(gs, m) && FirstMatch(gs, verb, kind, true) == |gs|
    ensures var i, any := FirstMatch(gs, verb, kind, false), Scope(verb, None);
            if i < |gs| then any in m && m[any] == gs[i] && !Sensitive(verb, kind)
            else any in m ==> Sensitive(verb, kind)
  {
    var i, any := FirstMatch(gs, verb, kind, false), Scope(verb, None);
    if i < |gs| {
      assert gs[i] in gs && !Matches(gs[i], verb, kind, true);
    } else if any in m {
      var k :| 0 <= k < |gs| && gs[k] == m[any];
      assert !Matches(gs[k], verb, kind, false);
    }
  }

  lemma RemoveAtElements(gs: seq<Grant>, i: nat)
    requires DistinctScopes(gs) && i < |gs|
    ensures DistinctScopes(RemoveAt(gs, i))
    ensures forall g :: g in RemoveAt(gs, i) <==> g in gs && ScopeOf(g) != ScopeOf(gs[i])
  {
    var r := RemoveAt(gs, i);
    assert forall k :: 0 <= k < |r| ==> r[k] == gs[if k < i then k else k + 1];
    forall g | g in gs && ScopeOf(g) != ScopeOf(gs[i]) ensures g in r {
      var k :| 0 <= k < |gs| && gs[k] == g;
      assert r[if k < i then k else k - 1] == g;
    }
  }

  lemma RemoveRefines(gs: seq<Grant>, i: nat)
    requires DistinctScopes(gs) && i < |gs|
    ensures DistinctScopes(RemoveAt(gs, i)) && View(RemoveAt(gs, i)) == View(gs) - {ScopeOf(gs[i])}
  {
    RemoveAtElements(gs, i);
    ViewShows(gs);
    ShownIsView(RemoveAt(gs, i), View(gs) - {ScopeOf(gs[i])});
  }

  lemma ReplaceRefines(gs: seq<Grant>, i: nat, g: Grant)
    requires DistinctScopes(gs) && i < |gs| && ScopeOf(g) == ScopeOf(gs[i])
    ensures DistinctScopes(gs[i := g]) && View(gs[i := g]) == View(gs)[ScopeOf(g) := g]
  {
    ViewShows(gs);
    var gs', m := gs[i := g], View(gs)[ScopeOf(g) := g];
    assert DistinctScopes(gs');
    forall x | x in gs' ensures ScopeOf(x) in m && m[ScopeOf(x)] == x {
      var k :| 0 <= k < |gs'| && gs'[k] == x;
      assert gs[k] in gs;
    }
    forall sc | sc in m ensures m[sc] in gs' {
      if sc == ScopeOf(g) {
        assert gs'[i] == g;
      } else {
        var k :| 0 <= k < |gs| && gs[k] == View(gs)[sc];
        assert gs'[k] == m[sc];
      }
    }
    ShownIsView(gs', m);
  }

  lemma AppendRefines(gs: seq<Grant>, g: Grant)
    requires DistinctScopes(gs) && forall x :: x in gs ==> ScopeOf(x) != ScopeOf(g)
    ensures DistinctScopes(gs + [g]) && View(gs + [g]) == View(gs)[ScopeOf(g) := g]
  {
    ViewShows(gs);
    assert DistinctScopes(gs + [g]);
    ShownIsView(gs + [g], View(gs)[ScopeOf(g) := g]);
  }

  lemma ViewHas(gs: seq<Grant>, i: nat)
    requires DistinctScopes(gs) && i < |gs|
    ensures ScopeOf(gs[i]) in View(gs) && View(gs)[ScopeOf(gs[i])] == gs[i]
  {
    ViewShows(gs);
    assert gs[i] in gs;
  }

  /** What one use does to the list and to the table, case by case. */
  lemma SpendCases(gs: seq<Grant>, i: nat, m: map<Scope, Grant>)
    requires i < |gs| && ScopeOf(gs[i]) in m && m[ScopeOf(gs[i])] == gs[i]
    ensures var g := gs[i];
            if g.uses.None? then Spend(gs, i) == gs && Spent(m, ScopeOf(g)) == m
            else if g.uses.value <= 1 then Spend(gs, i) == RemoveAt(gs, i) && Spent(m, ScopeOf(g)) == m - {ScopeOf(g)}
            else Spend(gs, i) == gs[i := OneLess(g)] && Spent(m, ScopeOf(g)) == m[ScopeOf(g) := OneLess(g)]
  {
  }

  lemma SpendRefines(gs: seq<Grant>, i: nat)
    requires DistinctScopes(gs) && i < |gs|
    ensures ScopeOf(gs[i]) in View(gs) && View(gs)[ScopeOf(gs[i])] == gs[i]
    ensures DistinctScopes(Spend(gs, i)) && View(Spend(gs, i)) == Spent(View(gs), ScopeOf(gs[i]))
  {
    ViewHas(gs, i);
    SpendCases(gs, i, View(gs));
    var g := gs[i];
    if g.uses.Some? {
      if g.uses.value <= 1 {
        RemoveRefines(gs, i);
      } else {
        ReplaceRefines(gs, i, OneLess(g));
      }
    }
  }

  /** A request is answered by the grant the table names, one use of it is taken,
      lapsed grants go, and scopes stay distinct. */
  lemma DecideRefines(gs: seq<Grant>, verb: string, kind: int, now: int)
    requires DistinctScopes(gs)
    ensures DistinctScopes(DecideIn(gs, verb, kind, now).1)
    ensures var a := AnswerOf(View(gs), verb, kind, now);
            if a.Some? then
              a.value in Live(View(gs), now)
              && DecideIn(gs, verb, kind, now).0 == View(gs)[a.value].verdict
              && View(DecideIn(gs, verb, kind, now).1) == Spent(Live(View(gs), now), a.value)
            else
              DecideIn(gs, verb, kind, now).0 == Ask && View(DecideIn(gs, verb, kind, now).1) == Live(View(gs), now)
  {
    var live := Unlapsed(gs, now);
    PruneRefines(gs, now);
    AnsweringRefines(live, verb, kind, now);
    assert AnswerOf(Live(View(gs), now), verb, kind, now) == AnswerOf(View(gs), verb, kind, now);
    var i := Answering(live, verb, kind);
    if i < |live| {
      SpendRefines(live, i);
    }
  }

  /** Remembering replaces the grant of that scope and no other. */
  lemma RememberRefines(gs: seq<Grant>, g: Grant)
    requires DistinctScopes(gs)
    ensures DistinctScopes(RememberIn(gs, g)) && View(RememberIn(gs, g)) == View(gs)[ScopeOf(g) := g]
  {
    var i := FirstSame(gs, g);
    if i < |gs| {
      SameScopeIff(gs[i], g);
      ReplaceRefines(gs, i, g);
    } else {
      forall x | x in gs ensures ScopeOf(x) != ScopeOf(g) {
        var k :| 0 <= k < |gs| && gs[k] == x;
        SameScopeIff(gs[k], g);
      }
      AppendRefines(gs, g);
    }
  }

  lemma RevokeRefines(gs: seq<Grant>, verb: string, kind: Option<int>)
    requires DistinctScopes(gs)
    ensures RevokeIn(gs, verb, kind).0 <==> Scope(verb, kind) in View(gs)
    ensures DistinctScopes(RevokeIn(gs, verb, kind).1) && View(RevokeIn(gs, verb, kind).1) == View(gs) - {Scope(verb, kind)}
  {
    var i, g := FirstSame(gs, Target(verb, kind)), Target(verb, kind);
    ViewShows(gs);
    if i < |gs| {
      SameScopeIff(gs[i], g);
      assert gs[i] in gs;
      RemoveRefines(gs, i);
    } else {
      forall x | x in gs ensures ScopeOf(x) != ScopeOf(g) {
        var k :| 0 <= k < |gs| && gs[k] == x;
        SameScopeIff(gs[k], g);
      }
    }
  }

  /** No remembered grants, distinct or not, allow signing a profile (0), a contact
      list (3) or a deletion (5). */
  lemma SensitiveNeverAllowed(gs: seq<Grant>, kind: int, now: int)
    requires kind == 0 || kind == 3 || kind == 5
    ensures DecideIn(gs, "sign_event", kind, now).0 != Allow
  {
  }

  // -------------------------------------------------- how a grant is answered by

  /** A grant for the exact kind, or one for any kind with none for the exact kind
      beside it; kinds 0, 3 and 5 are signed on neither, and rejected only on the
      first. */
  ghost predicate Serves(gs: seq<Grant>, g: Grant, kind: int) {
    var guarded := g.verb == "sign_event" && (kind == 0 || kind == 3 || kind == 5);
    && g in gs
    && ((g.kind == Some(kind) && !(guarded && g.verdict == Allow))
        || (g.kind == None && !guarded && forall x :: x in gs ==> !(x.verb == g.verb && x.kind == Some(kind))))
  }

  /** Until its lapse, or for good if it has none, its verdict is the answer. */
  lemma ServesUntilLapse(gs: seq<Grant>, g: Grant, kind: int, at: int)
    requires DistinctScopes(gs) && Serves(gs, g, kind) && (g.expires == None || at < g.expires.value)
    ensures DecideIn(gs, g.verb, kind, at).0 == g.verdict
  {
    ServesInTable(gs, g, kind, at);
    DecideRefines(gs, g.verb, kind, at);
  }

  lemma ServesInTable(gs: seq<Grant>, g: Grant, kind: int, at: int)
    requires DistinctScopes(gs) && Serves(gs, g, kind) && (g.expires == None || at < g.expires.value)
    ensures AnswerOf(View(gs), g.verb, kind, at) == Some(ScopeOf(g))
    ensures ScopeOf(g) in View(gs) && View(gs)[ScopeOf(g)] == g
  {
    ViewShows(gs);
  }

  /** The other scope that could answer a request `g` could answer. */
  function OtherScope(g: Grant, kind: int): Scope {
    if g.kind == None then Scope(g.verb, Some(kind)) else Scope(g.verb, None)
  }

  /** `g` answers requests for that kind, and nothing else held does. */
  ghost predicate Sole(m: map<Scope, Grant>, g: Grant, kind: int) {
    var guarded := g.verb == "sign_event" && (kind == 0 || kind == 3 || kind == 5);
    && ScopeOf(g) in m && m[ScopeOf(g)] == g && OtherScope(g, kind) !in m
    && (g.kind == None || g.kind == Some(kind)) && !(guarded && (g.kind == None || g.verdict == Allow))
  }

  /** From its lapse on, a human is asked. */
  lemma AskedFromLapse(gs: seq<Grant>, g: Grant, kind: int, at: int)
    requires DistinctScopes(gs) && Sole(View(gs), g, kind) && g.expires.Some? && g.expires.value <= at
    ensures DecideIn(gs, g.verb, kind, at).0 == Ask
  {
    DecideRefines(gs, g.verb, kind, at);
  }

  /** The answers to requests for one kind, one after the other. */
  function DecideTimes(gs: seq<Grant>, verb: string, kind: int, times: seq<int>): (r: seq<Decision>)
    ensures |r| == |times|
    decreases |times|
  {
    if times == [] then []
    else
      var (d, gs') := DecideIn(gs, verb, kind, times[0]);
      [d] + DecideTimes(gs', verb, kind, times[1..])
  }

  lemma {:induction false} NothingAnswers(gs: seq<Grant>, verb: string, kind: int, times: seq<int>)
    requires DistinctScopes(gs) && Scope(verb, None) !in View(gs) && Scope(verb, Some(kind)) !in View(gs)
    ensures forall i :: 0 <= i < |times| ==> DecideTimes(gs, verb, kind, times)[i] == Ask
    decreases |times|
  {
    if times != [] {
      var gs' := DecideIn(gs, verb, kind, times[0]).1;
      DecideRefines(gs, verb, kind, times[0]);
      assert AnswerOf(View(gs), verb, kind, times[0]) == None;
      NothingAnswers(gs', verb, kind, times[1..]);
    }
  }

  /** One of the N answers: one use fewer, and after the last nothing answers. */
  lemma UsedOnce(gs: seq<Grant>, g: Grant, kind: int, at: int)
    requires DistinctScopes(gs) && Sole(View(gs), g, kind) && g.expires == None && g.uses.Some? && g.uses.value >= 1
    ensures var (d, gs') := DecideIn(gs, g.verb, kind, at);
            && d == g.verdict && DistinctScopes(gs')
            && (g.uses.value == 1 ==> Scope(g.verb, None) !in View(gs') && Scope(g.verb, Some(kind)) !in View(gs'))
            && (g.uses.value > 1 ==> Sole(View(gs'), OneLess(g), kind))
  {
    DecideRefines(gs, g.verb, kind, at);
    assert AnswerOf(View(gs), g.verb, kind, at) == Some(ScopeOf(g));
  }

  /** A grant of N uses answers N requests, and then a human is asked. */
  lemma {:induction false} UsesAnswerExactly(gs: seq<Grant>, g: Grant, kind: int, times: seq<int>)
    requires DistinctScopes(gs) && Sole(View(gs), g, kind) && g.expires == None && g.uses.Some? && g.uses.value >= 1
    ensures forall i :: 0 <= i < |times| ==>
              DecideTimes(gs, g.verb, kind, times)[i] == if i < g.uses.value then g.verdict else Ask
    decreases |times|
  {
    if times != [] {
      var gs' := DecideIn(gs, g.verb, kind, times[0]).1;
      UsedOnce(gs, g, kind, times[0]);
      if g.uses.value == 1 {
        NothingAnswers(gs', g.verb, kind, times[1..]);
      } else {
        UsesAnswerExactly(gs', OneLess(g), kind, times[1..]);
      }
    }
  }

  /** A remembered any-kind rejection does not reach the sensitive kinds: with no
      unlapsed grant for the exact kind, it rejects every other kind, and leaves
      these to a human. */
  lemma AnyKindDenyReaches(gs: seq<Grant>, g: Grant, kind: int, now: int)
    requires DistinctScopes(gs) && g in gs
    requires g.verdict == Deny && g.kind == None && g.verb == SIGN_EVENT && !Lapsed(g, now)
    requires forall x :: x in gs && ScopeOf(x) == Scope(SIGN_EVENT, Some(kind)) ==> Lapsed(x, now)
    ensures DecideIn(gs, SIGN_EVENT, kind, now).0 == if Sensitive(SIGN_EVENT, kind) then Ask else Deny
  {
    ViewShows(gs);
    DecideRefines(gs, SIGN_EVENT, kind, now);
  }

  // ------------------------------------------------------------- the sessions

  datatype Op =
    | Decide(pub: Pubkey, verb: string, kind: int, now: int)
    | Remember(pub: Pubkey, g: Grant, now: int)
    | RevokeGrant(pub: Pubkey, verb: string, scopeKind: Option<int>)
    | Revoke(pub: Pubkey)
    | Pair(pub: Pubkey, appName: string, appUrl: string, now: int)
    | Prune(now: int)
    | SetName(pub: Pubkey, nickname: string)

  function WithGrants(st: Sessions, pub: Pubkey, gs: seq<Grant>): Sessions
    requires pub in st
  {
    st[pub := st[pub].(grants := gs)]
  }

  /** The session a Remember writes to, created on first use. */
  function Opened(st: Sessions, pub: Pubkey, now: int): Sessions {
    if pub in st then st else st[pub := Session(pub, "", "", "", now, [])]
  }

  function Apply(st: Sessions, op: Op): Sessions {
    match op
    case Decide(pub, verb, kind, now) =>
      if pub in st then WithGrants(st, pub, DecideIn(st[pub].grants, verb, kind, now).1) else st
    case Remember(pub, g, now) =>
      WithGrants(Opened(st, pub, now), pub, RememberIn(Opened(st, pub, now)[pub].grants, g))
    case RevokeGrant(pub, verb, kind) =>
      if pub in st then WithGrants(st, pub, RevokeIn(st[pub].grants, verb, kind).1) else st
    case Revoke(pub) => st - {pub}
    case Pair(pub, appName, appUrl, now) =>
      if pub in st then st else st[pub := Session(pub, appName, appUrl, "", now, [])]
    case Prune(now) => Pruned(st, now)
    case SetName(pub, nickname) => if pub in st then st[pub := st[pub].(nickname := nickname)] else st
  }

  function Pruned(st: Sessions, now: int): Sessions {
    map p | p in st :: st[p].(grants := Unlapsed(st[p].grants, now))
  }

  function Verdict(st: Sessions, pub: Pubkey, verb: string, kind: int, now: int): Decision {
    if pub in st then DecideIn(st[pub].grants, verb, kind, now).0 else Ask
  }

  function ApplyAll(st: Sessions, ops: seq<Op>): Sessions
    decreases |ops|
  {
    if ops == [] then st else ApplyAll(Apply(st, ops[0]), ops[1..])
  }

  ghost predicate StoreOk(st: Sessions) {
    forall p :: p in st ==> st[p].pubkey == p && DistinctScopes(st[p].grants)
  }

  /** What an app holds, by scope. */
  ghost function Held(st: Sessions, pub: Pubkey): map<Scope, Grant> {
    if pub in st then View(st[pub].grants) else map[]
  }

  /** Every operation on the table an app holds; other apps are left as they are,
      except by Prune. */
  ghost function HeldAfter(m: map<Scope, Grant>, pub: Pubkey, op: Op): map<Scope, Grant> {
    if !op.Prune? && op.pub != pub then m
    else match op
      case Decide(_, verb, kind, now) =>
        var a := AnswerOf(m, verb, kind, now);
        if a.Some? && a.value in Live(m, now) then Spent(Live(m, now), a.value) else Live(m, now)
      case Remember(_, g, _) => m[ScopeOf(g) := g]
      case RevokeGrant(_, verb, kind) => m - {Scope(verb, kind)}
      case Revoke(_) => map[]
      case Prune(now) => Live(m, now)
      case Pair(_, _, _, _) => m
      case SetName(_, _) => m
  }

  lemma ViewEmpty()
    ensures View([]) == map[]
  {
    assert Shows([], map[]);
    ShownIsView([], map[]);
  }

  lemma WithGrantsHeld(st: Sessions, p: Pubkey, gs: seq<Grant>, pub: Pubkey)
    requires StoreOk(st) && p in st && DistinctScopes(gs)
    ensures StoreOk(WithGrants(st, p, gs)) && Held(WithGrants(st, p, gs), pub) == if pub == p then View(gs) else Held(st, pub)
  {
  }

  lemma OpenedHeld(st: Sessions, p: Pubkey, now: int, pub: Pubkey)
    requires StoreOk(st)
    ensures StoreOk(Opened(st, p, now)) && Held(Opened(st, p, now), pub) == Held(st, pub)
  {
    ViewEmpty();
  }

  lemma DecideStep(st: Sessions, p: Pubkey, verb: string, kind: int, now: int, pub: Pubkey)
    requires StoreOk(st)
    ensures var op := Decide(p, verb, kind, now);
            StoreOk(Apply(st, op)) && Held(Apply(st, op), pub) == HeldAfter(Held(st, pub), pub, op)
  {
    if p in st {
      DecideRefines(st[p].grants, verb, kind, now);
      WithGrantsHeld(st, p, DecideIn(st[p].grants, verb, kind, now).1, pub);
    }
  }

  lemma RememberStep(st: Sessions, p: Pubkey, g: Grant, now: int, pub: Pubkey)
    requires StoreOk(st)
    ensures var op := Remember(p, g, now);
            StoreOk(Apply(st, op)) && Held(Apply(st, op), pub) == HeldAfter(Held(st, pub), pub, op)
  {
    var st' := Opened(st, p, now);
    OpenedHeld(st, p, now, pub);
    OpenedHeld(st, p, now, p);
    RememberRefines(st'[p].grants, g);
    WithGrantsHeld(st', p, RememberIn(st'[p].grants, g), pub);
  }

  lemma RevokeGrantStep(st: Sessions, p: Pubkey, verb: string, kind: Option<int>, pub: Pubkey)
    requires StoreOk(st)
    ensures var op := RevokeGrant(p, verb, kind);
            StoreOk(Apply(st, op)) && Held(Apply(st, op), pub) == HeldAfter(Held(st, pub), pub, op)
  {
    if p in st {
      RevokeRefines(st[p].grants, verb, kind);
      WithGrantsHeld(st, p, RevokeIn(st[p].grants, verb, kind).1, pub);
    }
  }

  lemma RevokeStep(st: Sessions, p: Pubkey, pub: Pubkey)
    requires StoreOk(st)
    ensures StoreOk(Apply(st, Revoke(p))) && Held(Apply(st, Revoke(p)), pub) == HeldAfter(Held(st, pub), pub, Revoke(p))
  {
  }

  lemma PairStep(st: Sessions, p: Pubkey, appName: string, appUrl: string, now: int, pub: Pubkey)
    requires StoreOk(st)
    ensures var op := Pair(p, appName, appUrl, now);
            StoreOk(Apply(st, op)) && Held(Apply(st, op), pub) == HeldAfter(Held(st, pub), pub, op)
  {
    ViewEmpty();
  }

  lemma SetNameStep(st: Sessions, p: Pubkey, nickname: string, pub: Pubkey)
    requires StoreOk(st)
    ensures var op := SetName(p, nickname);
            StoreOk(Apply(st, op)) && Held(Apply(st, op), pub) == HeldAfter(Held(st, pub), pub, op)
  {
    var st' := Apply(st, SetName(p, nickname));
    assert forall q :: q in st' ==> q in st && st'[q].grants == st[q].grants && st'[q].pubkey == st[q].pubkey;
  }

  /** Each operation does to every app's table what it says, and keeps scopes distinct. */
  lemma ApplyRefines(st: Sessions, op: Op, pub: Pubkey)
    requires StoreOk(st)
    ensures StoreOk(Apply(st, op)) && Held(Apply(st, op), pub) == HeldAfter(Held(st, pub), pub, op)
  {
    match op
    case Decide(p, verb, kind, now) => DecideStep(st, p, verb, kind, now, pub);
    case Remember(p, g, now) => RememberStep(st, p, g, now, pub);
    case RevokeGrant(p, verb, kind) => RevokeGrantStep(st, p, verb, kind, pub);
    case Prune(now) => PruneAllRefines(st, now, pub);
    case Revoke(p) => RevokeStep(st, p, pub);
    case Pair(p, appName, appUrl, now) => PairStep(st, p, appName, appUrl, now, pub);
    case SetName(p, nickname) => SetNameStep(st, p, nickname, pub);
  }

  lemma PruneAllRefines(st: Sessions, now: int, pub: Pubkey)
    requires StoreOk(st)
    ensures StoreOk(Pruned(st, now)) && Held(Pruned(st, now), pub) == Live(Held(st, pub), now)
  {
    forall p | p in st ensures DistinctScopes(Unlapsed(st[p].grants, now)) && View(Unlapsed(st[p].grants, now)) == Live(View(st[p].grants), now) {
      PruneRefines(st[p].grants, now);
    }
  }

  lemma {:induction false} RunRefines(st: Sessions, ops: seq<Op>)
    requires StoreOk(st)
    ensures StoreOk(ApplyAll(st, ops))
    decreases |ops|
  {
    if ops != [] {
      ApplyRefines(st, ops[0], "");
      RunRefines(Apply(st, ops[0]), ops[1..]);
    }
  }

  /** The verdict is the table's: the answering grant's, or Ask. */
  lemma VerdictRefines(st: Sessions, pub: Pubkey, verb: string, kind: int, now: int)
    requires StoreOk(st)
    ensures var a := AnswerOf(Held(st, pub), verb, kind, now);
            Verdict(st, pub, verb, kind, now) == if a.Some? then Held(st, pub)[a.value].verdict else Ask
  {
    if pub in st {
      DecideRefines(st[pub].grants, verb, kind, now);
    }
  }

  // ---------------------------------------------------------------- budgets

  /** Requests the grant under `sc` can still answer, when it has a budget. */
  ghost function UsesLeft(m: map<Scope, Grant>, sc: Scope): nat {
    if sc !in m || m[sc].uses.None? then 0
    else if m[sc].uses.value <= 1 then 1
    else m[sc].uses.value
  }

  ghost predicate Budgeted(m: map<Scope, Grant>, sc: Scope) {
    sc in m ==> m[sc].uses.Some?
  }

  ghost predicate AnsweredBy(m: map<Scope, Grant>, op: Op, pub: Pubkey, sc: Scope) {
    op.Decide? && op.pub == pub && AnswerOf(m, op.verb, op.kind, op.now) == Some(sc)
  }

  ghost predicate Renews(op: Op, pub: Pubkey, sc: Scope) {
    op.Remember? && op.pub == pub && ScopeOf(op.g) == sc
  }

  /** How many requests of a run the grant under `sc` answers. */
  ghost function Answers(st: Sessions, ops: seq<Op>, pub: Pubkey, sc: Scope): nat
    decreases |ops|
  {
    if ops == [] then 0
    else (if AnsweredBy(Held(st, pub), ops[0], pub, sc) then 1 else 0) + Answers(Apply(st, ops[0]), ops[1..], pub, sc)
  }

  /** An answer costs exactly one use; nothing else but its renewal adds any. */
  lemma StepBudget(m: map<Scope, Grant>, op: Op, pub: Pubkey, sc: Scope)
    requires Budgeted(m, sc) && !Renews(op, pub, sc)
    ensures Budgeted(HeldAfter(m, pub, op), sc)
    ensures AnsweredBy(m, op, pub, sc) ==> UsesLeft(m, sc) == UsesLeft(HeldAfter(m, pub, op), sc) + 1
    ensures !AnsweredBy(m, op, pub, sc) ==>
              UsesLeft(HeldAfter(m, pub, op), sc) == UsesLeft(m, sc) || sc !in HeldAfter(m, pub, op)
  {
  }

  /** A grant of N uses answers at most N requests, over any run that does not
      renew it, whatever else happens to the store. */
  lemma {:induction false} BudgetHolds(st: Sessions, ops: seq<Op>, pub: Pubkey, sc: Scope)
    requires StoreOk(st) && Budgeted(Held(st, pub), sc)
    requires forall k :: 0 <= k < |ops| ==> !Renews(ops[k], pub, sc)
    ensures Answers(st, ops, pub, sc) + UsesLeft(Held(ApplyAll(st, ops), pub), sc) <= UsesLeft(Held(st, pub), sc)
    decreases |ops|
  {
    if ops != [] {
      assert !Renews(ops[0], pub, sc);
      ApplyRefines(st, ops[0], pub);
      StepBudget(Held(st, pub), ops[0], pub, sc);
      BudgetHolds(Apply(st, ops[0]), ops[1..], pub, sc);
    }
  }

  lemma RememberedUses(m: map<Scope, Grant>, pub: Pubkey, g: Grant, now: int)
    requires g.uses.Some? && g.uses.value >= 1
    ensures Budgeted(HeldAfter(m, pub, Remember(pub, g, now)), ScopeOf(g))
    ensures UsesLeft(HeldAfter(m, pub, Remember(pub, g, now)), ScopeOf(g)) == g.uses.value
  {
  }

  /** From the moment it is remembered. */
  lemma GrantedUsesHold(st: Sessions, pub: Pubkey, g: Grant, now: int, ops: seq<Op>)
    requires StoreOk(st) && g.uses.Some? && g.uses.value >= 1
    requires forall k :: 0 <= k < |ops| ==> !Renews(ops[k], pub, ScopeOf(g))
    ensures Answers(Apply(st, Remember(pub, g, now)), ops, pub, ScopeOf(g)) <= g.uses.value
  {
    var st' := Apply(st, Remember(pub, g, now));
    RememberStep(st, pub, g, now, pub);
    RememberedUses(Held(st, pub), pub, g, now);
    BudgetHolds(st', ops, pub, ScopeOf(g));
  }

  // ------------------------------------------------------------ the file

  function LoadSessions(saved: seq<Session>): Sessions
    decreases |saved|
  {
    if saved == [] then map[] else LoadSessions(saved[..|saved| - 1])[saved[|saved| - 1].pubkey := saved[|saved| - 1]]
  }

  /** The file lists every session once, in any order. */
  ghost predicate Saves(st: Sessions, saved: seq<Session>) {
    && (forall x :: x in saved ==> x.pubkey in st && st[x.pubkey] == x)
    && (forall p :: p in st ==> st[p] in saved)
  }

  lemma SaveThenLoad(st: Sessions, saved: seq<Session>)
    requires StoreOk(st) && Saves(st, saved)
    ensures LoadSessions(saved) == st
  {
    LoadedIs(st, saved);
    assert forall p :: p in st ==> st[p] in saved;
  }

  lemma {:induction false} LoadedIs(st: Sessions, saved: seq<Session>)
    requires forall x :: x in saved ==> x.pubkey in st && st[x.pubkey] == x
    ensures forall p :: p in LoadSessions(saved) ==> p in st && LoadSessions(saved)[p] == st[p]
    ensures forall x :: x in saved ==> x.pubkey in LoadSessions(saved)
    decreases |saved|
  {
    if saved != [] {
      var front, last := saved[..|saved| - 1], saved[|saved| - 1];
      assert saved == front + [last];
      LoadedIs(st, front);
    }
  }

  // ---------------------------------------------------------------- loops

  method IndexOfMatch(gs: seq<Grant>, verb: string, kind: int, exactOnly: bool) returns (i: nat)
    ensures i <= |gs|
    ensures i < |gs| ==> Matches(gs[i], verb, kind, exactOnly)
    ensures forall k :: 0 <= k < i ==> !Matches(gs[k], verb, kind, exactOnly)
    ensures i == FirstMatch(gs, verb, kind, exactOnly)
  {
    i := 0;
    while i < |gs|
      invariant 0 <= i <= |gs|
      invariant forall k :: 0 <= k < i ==> !Matches(gs[k], verb, kind, exactOnly)
    {
      if Matches(gs[i], verb, kind, exactOnly) {
        return;
      }
      i := i + 1;
    }
  }

  lemma {:induction false} UnlapsedSnoc(gs: seq<Grant>, g: Grant, now: int)
    ensures Unlapsed(gs + [g], now) == Unlapsed(gs, now) + if Lapsed(g, now) then [] else [g]
  {
    if gs == [] {
      assert gs + [g] == [g];
    } else {
      UnlapsedSnoc(gs[1..], g, now);
      assert (gs + [g])[1..] == gs[1..] + [g];
    }
  }

  /** Keeps the unlapsed grants, in order. */
  method PruneGrants(gs: seq<Grant>, now: int) returns (kept: seq<Grant>, changed: bool)
    ensures kept == Unlapsed(gs, now)
    ensures changed <==> exists g :: g in gs && Lapsed(g, now)
  {
    kept, changed := [], false;
    for i := 0 to |gs|
      invariant kept == Unlapsed(gs[..i], now)
      invariant changed <==> exists g :: g in gs[..i] && Lapsed(g, now)
    {
      assert gs[..i + 1] == gs[..i] + [gs[i]];
      UnlapsedSnoc(gs[..i], gs[i], now);
      if Lapsed(gs[i], now) {
        changed := true;
      } else {
        kept := kept + [gs[i]];
      }
    }
    assert gs[..|gs|] == gs;
  }

  method IndexOfScope(gs: seq<Grant>, g: Grant) returns (i: nat)
    ensures i == FirstSame(gs, g) && i <= |gs|
    ensures i < |gs| <==> exists k :: 0 <= k < |gs| && ScopeOf(gs[k]) == ScopeOf(g)
  {
    i := 0;
    while i < |gs|
      invariant 0 <= i <= |gs|
      invariant forall k :: 0 <= k < i ==> !SameScope(gs[k], g)
    {
      if SameScope(gs[i], g) {
        assert ScopeOf(gs[i]) == ScopeOf(g);
        return;
      }
      i := i + 1;
    }
    forall k | 0 <= k < |gs| ensures ScopeOf(gs[k]) != ScopeOf(g) {
      SameScopeIff(gs[k], g);
    }
  }

  lemma RevokeGrantFound(st: Sessions, pub: Pubkey, verb: string, kind: Option<int>)
    requires StoreOk(st)
    ensures StoreOk(Apply(st, RevokeGrant(pub, verb, kind)))
    ensures Scope(verb, kind) in Held(st, pub) <==> pub in st && FirstSame(st[pub].grants, Target(verb, kind)) < |st[pub].grants|
  {
    if pub in st {
      RevokeRefines(st[pub].grants, verb, kind);
    }
  }

  class Store {
    var byPub: Sessions

    ghost predicate Valid()
      reads this
    {
      StoreOk(byPub)
    }

    /** From the sessions read from the file; a missing file holds none. */
    constructor (saved: seq<Session>)
      ensures byPub == LoadSessions(saved) && (Valid() <==> StoreOk(LoadSessions(saved)))
    {
      byPub := LoadSessions(saved);
    }

    method Decide(pub: Pubkey, verb: string, kind: int, now: int) returns (d: Decision)
      requires Valid()
      modifies this
      ensures Valid() && byPub == Apply(old(byPub), Op.Decide(pub, verb, kind, now))
      ensures d == Verdict(old(byPub), pub, verb, kind, now)
      ensures Sensitive(verb, kind) ==> d != Allow
    {
      ApplyRefines(byPub, Op.Decide(pub, verb, kind, now), pub);
      if pub !in byPub {
        return Ask;
      }
      var live, _ := PruneGrants(byPub[pub].grants, now);
      var i := IndexOfMatch(live, verb, kind, true);
      if i == |live| {
        i := IndexOfMatch(live, verb, kind, false);
      }
      if i < |live| {
        d := live[i].verdict;
        live := ResolveGrant(live, i);
      } else {
        d := Ask;
      }
      byPub := byPub[pub := byPub[pub].(grants := live)];
    }

    method Remember(pub: Pubkey, g: Grant, now: int)
      requires Valid()
      modifies this
      ensures Valid() && byPub == Apply(old(byPub), Op.Remember(pub, g, now))
      ensures Held(byPub, pub) == Held(old(byPub), pub)[ScopeOf(g) := g]
    {
      ApplyRefines(byPub, Op.Remember(pub, g, now), pub);
      var st := Opened(byPub, pub, now);
      var gs := st[pub].grants;
      var i := IndexOfScope(gs, g);
      gs := if i < |gs| then gs[i := g] else gs + [g];
      byPub := st[pub := st[pub].(grants := gs)];
    }

    method RevokeGrant(pub: Pubkey, verb: string, kind: Option<int>) returns (found: bool)
      requires Valid()
      modifies this
      ensures Valid() && byPub == Apply(old(byPub), Op.RevokeGrant(pub, verb, kind))
      ensures found <==> Scope(verb, kind) in Held(old(byPub), pub)
    {
      RevokeGrantFound(byPub, pub, verb, kind);
      if pub !in byPub {
        return false;
      }
      var gs := byPub[pub].grants;
      var i := IndexOfScope(gs, Target(verb, kind));
      if i == |gs| {
        return false;
      }
      byPub := byPub[pub := byPub[pub].(grants := gs[..i] + gs[i + 1..])];
      found := true;
    }

    method Revoke(pub: Pubkey) returns (found: bool)
      requires Valid()
      modifies this
      ensures Valid() && byPub == Apply(old(byPub), Op.Revoke(pub))
      ensures found <==> pub in old(byPub)
    {
      found := pub in byPub;
      byPub := byPub - {pub};
    }

    method Pair(pub: Pubkey, appName: string, appUrl: string, now: int)
      requires Valid()
      modifies this
      ensures Valid() && byPub == Apply(old(byPub), Op.Pair(pub, appName, appUrl, now))
      ensures Held(byPub, pub) == Held(old(byPub), pub)
    {
      ApplyRefines(byPub, Op.Pair(pub, appName, appUrl, now), pub);
      if pub !in byPub {
        byPub := byPub[pub := Session(pub, appName, appUrl, "", now, [])];
      }
    }

    method SetName(pub: Pubkey, nickname: string) returns (found: bool)
      requires Valid()
      modifies this
      ensures Valid() && byPub == Apply(old(byPub), Op.SetName(pub, nickname))
      ensures found <==> pub in byPub
    {
      found := pub in byPub;
      if found {
        byPub := byPub[pub := byPub[pub].(nickname := nickname)];
      }
    }

    method Prune(now: int)
      requires Valid()
      modifies this
      ensures Valid() && byPub == Apply(old(byPub), Op.Prune(now))
    {
      ApplyRefines(byPub, Op.Prune(now), "");
      byPub := PruneSessions(byPub, now);
    }
  }

  method PruneSessions(st: Sessions, now: int) returns (st': Sessions)
    ensures st' == Pruned(st, now)
  {
    st' := st;
    var left := st.Keys;
    assert HalfPruned(st, left, now) == st;
    while left != {}
      invariant left <= st.Keys && st' == HalfPruned(st, left, now)
    {
      var p :| p in left;
      var kept, _ := PruneGrants(st'[p].grants, now);
      st' := st'[p := st'[p].(grants := kept)];
      left := left - {p};
    }
  }

  /** The sessions with `left` still to prune. */
  function HalfPruned(st: Sessions, left: set<Pubkey>, now: int): Sessions {
    map p | p in st :: if p in left then st[p] else st[p].(grants := Unlapsed(st[p].grants, now))
  }

  /** One use of a grant: counted down, and gone with its last. */
  method ResolveGrant(gs: seq<Grant>, i: nat) returns (gs': seq<Grant>)
    requires i < |gs|
    ensures gs' == Spend(gs, i)
  {
    gs' := gs;
    if gs[i].uses.Some? {
      var remaining := gs[i].uses.value - 1;
      if remaining <= 0 {
        gs' := gs[..i] + gs[i + 1..];
      } else {
        gs' := gs[i := gs[i].(uses := Some(remaining))];
      }
    }
  }
}
