/** Paging back through a relay's stored events (client/followpage.go and the
    paging part of stream in client/follow.go). A relay answers with at most
    `cap` of the newest matches; the pager asks again for what is older. */
module FollowPager {
  import opened Common

  type Id = string

  const PAGE_MIN: nat := 50
  const MAX_PAGES: nat := 100
  const MAX_BYTES: nat := 33_554_432
  const EVENT_BYTES: nat := 256

  /** A stored event; `extra` is what its content and tags add to its size. */
  datatype Event = Event(id: Id, createdAt: nat, extra: nat)

  datatype Pager = Pager(
    ok: bool, since: nat, until: nat, n: nat, newIds: nat, minAt: nat, ids: set<Id>, pages: nat, bytes: nat, cut: bool)

  /** The filters of a subscription, as far as paging reads them. */
  datatype Filter = Filter(since: nat, until: nat, limit: nat)

  function LowestSince(filters: seq<Filter>): nat
    requires filters != []
  {
    if |filters| == 1 then filters[0].since
    else
      var rest := LowestSince(filters[1..]);
      if filters[0].since < rest then filters[0].since else rest
  }

  /** A subscription just sent: pageable unless a filter has its own limit or
      until. */
  function Sent(filters: seq<Filter>): Pager {
    Pager(forall f :: f in filters ==> f.limit == 0 && f.until == 0,
          if filters == [] then 0 else LowestSince(filters), 0, 0, 0, 0, {}, 0, 0, false)
  }

  lemma {:induction false} LowestIs(filters: seq<Filter>)
    requires filters != []
    ensures exists i :: 0 <= i < |filters| && filters[i].since == LowestSince(filters)
    ensures forall i :: 0 <= i < |filters| ==> LowestSince(filters) <= filters[i].since
  {
    if |filters| == 1 || LowestSince(filters) == filters[0].since {
      assert filters[0].since == LowestSince(filters);
    }
    if |filters| > 1 {
      LowestIs(filters[1..]);
      assert forall i :: 1 <= i < |filters| ==> filters[i] == filters[1..][i - 1];
      var i :| 0 <= i < |filters| - 1 && filters[1..][i].since == LowestSince(filters[1..]);
      assert filters[i + 1].since == LowestSince(filters[1..]);
    }
  }

  /** A subscription is paged exactly when no filter has a limit or an until of its
      own; it starts unbounded above, and its since is one of the filters', none of
      which is lower. */
  lemma SentIs(filters: seq<Filter>)
    ensures Sent(filters).ok <==> forall i :: 0 <= i < |filters| ==> filters[i].limit == 0 && filters[i].until == 0
    ensures forall i :: 0 <= i < |filters| ==> Sent(filters).since <= filters[i].since
    ensures filters != [] ==> exists i :: 0 <= i < |filters| && filters[i].since == Sent(filters).since
    ensures var p := Sent(filters); p.until == 0 && p.pages == 0 && p.bytes == 0 && p.ids == {} && !p.cut
  {
    if filters != [] {
      LowestIs(filters);
    }
    assert forall f :: f in filters <==> exists i :: 0 <= i < |filters| && filters[i] == f;
  }

  function Saw(p: Pager, e: Event): Pager {
    p.(n := p.n + 1,
       ids := p.ids + {e.id},
       newIds := if e.id in p.ids then p.newIds else p.newIds + 1,
       minAt := if p.minAt == 0 || e.createdAt < p.minAt then e.createdAt else p.minAt,
       bytes := p.bytes + EVENT_BYTES + e.extra)
  }

  function SawAll(p: Pager, es: seq<Event>): Pager {
    if es == [] then p else Saw(SawAll(p, es[..|es| - 1]), es[|es| - 1])
  }

  /** The until `next` would ask for, budgets aside. */
  function Older(p: Pager): nat {
    if p.until != 0 && p.minAt >= p.until then p.until - 1 else p.minAt
  }

  predicate WantsMore(p: Pager) {
    p.ok && p.n >= PAGE_MIN && p.newIds != 0 && Older(p) != 0 && Older(p) >= p.since
  }

  predicate OverBudget(p: Pager) {
    p.pages >= MAX_PAGES || p.bytes >= MAX_BYTES
  }

  predicate Asks(p: Pager) {
    WantsMore(p) && !OverBudget(p)
  }

  function Asked(p: Pager): Pager {
    if Asks(p) then p.(pages := p.pages + 1, until := Older(p), n := 0, newIds := 0, minAt := 0)
    else if WantsMore(p) then p.(cut := true, ok := false)
    else p
  }

  // -------------------------------------------------------------- any relay

  /** Phase i brought answers[i] to pagers[i]; every phase but the last asked
      for another. */
  ghost predicate Run(filters: seq<Filter>, pagers: seq<Pager>, answers: seq<seq<Event>>) {
    && |pagers| == |answers| > 0
    && pagers[0] == Sent(filters)
    && forall i {:trigger answers[i]} :: 0 <= i < |pagers| - 1 ==> Asks(SawAll(pagers[i], answers[i])) && pagers[i + 1] == Asked(SawAll(pagers[i], answers[i]))
  }

  lemma {:induction false} SawAllFrame(p: Pager, es: seq<Event>)
    ensures var q := SawAll(p, es);
            && q.ok == p.ok && q.since == p.since && q.until == p.until && q.pages == p.pages && q.cut == p.cut
            && q.n == p.n + |es|
            && q.bytes >= p.bytes + |es| * EVENT_BYTES
  {
    if es != [] {
      SawAllFrame(p, es[..|es| - 1]);
    }
  }

  /** Against any relay at all: page untils strictly decrease, never fall below
      since, and are at most MAX_PAGES. */
  lemma {:induction false} PagesAdvance(filters: seq<Filter>, pagers: seq<Pager>, answers: seq<seq<Event>>, i: nat)
    requires Run(filters, pagers, answers) && i < |pagers|
    ensures pagers[i].pages == i <= MAX_PAGES && pagers[i].since == Sent(filters).since
    ensures i > 0 ==> pagers[i].until >= 1 && pagers[i].until >= Sent(filters).since
    ensures i > 1 ==> pagers[i].until < pagers[i - 1].until
    ensures i == 0 ==> pagers[i].until == 0
  {
    if i > 0 {
      PagesAdvance(filters, pagers, answers, i - 1);
      SawAllFrame(pagers[i - 1], answers[i - 1]);
    }
  }

  // --------------------------------------------------------- an honest relay

  predicate InRange(e: Event, since: nat, until: nat) {
    since <= e.createdAt && (until == 0 || e.createdAt <= until)
  }

  function Matches(store: set<Event>, since: nat, until: nat): set<Event> {
    set e | e in store && InRange(e, since, until)
  }

  /** The newest `cap` of the matches, or all of them; which of several equally
      old ones, and in what order, is up to the relay. */
  ghost predicate Honest(store: set<Event>, cap: nat, since: nat, until: nat, answer: seq<Event>) {
    var all := Matches(store, since, until);
    && NoDup(answer) && (forall e :: e in answer ==> e in all)
    && |answer| == (if |all| <= cap then |all| else cap)
    && forall e, a :: e in all && e !in answer && a in answer ==> e.createdAt <= a.createdAt
  }

  /** Ids name events, and no event is dated zero. */
  ghost predicate WellFormed(store: set<Event>) {
    && (forall e, f :: e in store && f in store && e.id == f.id ==> e == f)
    && forall e :: e in store ==> e.createdAt >= 1
  }

  function InSecond(store: set<Event>, t: nat): set<Event> {
    set e | e in store && e.createdAt == t
  }

  ghost predicate AtMostPerSecond(store: set<Event>, k: nat) {
    forall t :: |InSecond(store, t)| <= k
  }

  /** Every stored event the subscription asked for was handed on. */
  ghost predicate AllSeen(store: set<Event>, p: Pager) {
    forall e :: e in store && e.createdAt >= p.since ==> e.id in p.ids
  }

  lemma {:induction false} SawAllIds(p: Pager, es: seq<Event>)
    ensures forall e :: e in es ==> e.id in SawAll(p, es).ids
    ensures p.ids <= SawAll(p, es).ids
    ensures forall id :: id in SawAll(p, es).ids ==> id in p.ids || exists e :: e in es && e.id == id
    ensures SawAll(p, es).newIds >= p.newIds
    ensures (exists e :: e in es && e.id !in p.ids) ==> SawAll(p, es).newIds > p.newIds
  {
    if es != [] {
      var front, last := es[..|es| - 1], es[|es| - 1];
      SawAllIds(p, front);
      assert es == front + [last];
      forall id | id in SawAll(p, es).ids && id !in p.ids ensures exists e :: e in es && e.id == id {
        if id == last.id {
          assert last in es;
        } else {
          var e :| e in front && e.id == id;
          assert e in es;
        }
      }
    }
  }

  ghost predicate IsOldest(es: seq<Event>, m: nat) {
    m >= 1 && (forall e :: e in es ==> m <= e.createdAt) && exists e :: e in es && e.createdAt == m
  }

  lemma {:induction false} SawAllMin(p: Pager, es: seq<Event>)
    requires p.minAt == 0 && es != [] && forall e :: e in es ==> e.createdAt >= 1
    ensures IsOldest(es, SawAll(p, es).minAt)
  {
    var front, last := es[..|es| - 1], es[|es| - 1];
    assert es == front + [last] && last in es;
    if front != [] {
      SawAllMin(p, front);
    }
  }

  lemma ShortAnswerIsAll(store: set<Event>, cap: nat, since: nat, until: nat, answer: seq<Event>)
    requires Honest(store, cap, since, until, answer) && |answer| < cap
    ensures forall e :: e in Matches(store, since, until) ==> e in answer
  {
    var got, all := (set e | e in answer), Matches(store, since, until);
    NoDupSize(answer);
    assert got <= all;
    assert all == got + (all - got);
    assert |all - got| == 0;
  }

  /** A full answer can not come from one second that holds fewer than `cap`. */
  lemma FullAnswerSpans(store: set<Event>, k: nat, answer: seq<Event>, t: nat)
    requires AtMostPerSecond(store, k) && NoDup(answer) && |answer| > k && forall e :: e in answer ==> e in store
    ensures exists e :: e in answer && e.createdAt != t
  {
    if forall e :: e in answer ==> e.createdAt == t {
      NoDupSize(answer);
      var got := set e | e in answer;
      assert got <= InSecond(store, t);
      SubsetSize(got, InSecond(store, t));
    }
  }

  /** Before a page with until `u` is asked: what is newer than `u` was seen, and
      nothing older; or everything was. */
  ghost predicate Swept(store: set<Event>, p: Pager) {
    AllSeen(store, p) || SweptTo(store, p)
  }

  ghost predicate SweptTo(store: set<Event>, p: Pager) {
    && (p.until != 0 ==> forall e :: e in store && e.createdAt > p.until && e.createdAt >= p.since ==> e.id in p.ids)
    && (forall e :: e in store && e.id in p.ids ==> p.until != 0 && e.createdAt >= p.until)
  }

  ghost predicate PhaseStart(p: Pager) {
    p.n == 0 && p.newIds == 0 && p.minAt == 0
  }

  /** A page that brings everything that is left. */
  lemma ShortPhase(store: set<Event>, cap: nat, p: Pager, answer: seq<Event>)
    requires Swept(store, p) && Honest(store, cap, p.since, p.until, answer) && |answer| < cap
    ensures AllSeen(store, SawAll(p, answer))
  {
    SawAllIds(p, answer);
    SawAllFrame(p, answer);
    ShortAnswerIsAll(store, cap, p.since, p.until, answer);
    forall e | e in store && e.createdAt >= p.since ensures e.id in SawAll(p, answer).ids {
      if p.until == 0 || e.createdAt <= p.until {
        assert e in Matches(store, p.since, p.until);
      }
    }
  }

  /** A full page brings something new, and reaches below its until. */
  lemma FullPhase(store: set<Event>, k: nat, cap: nat, p: Pager, answer: seq<Event>)
    requires WellFormed(store) && AtMostPerSecond(store, k) && k < cap && PAGE_MIN <= cap
    requires PhaseStart(p) && Swept(store, p) && !AllSeen(store, p)
    requires Honest(store, cap, p.since, p.until, answer) && |answer| == cap
    ensures var q := SawAll(p, answer);
            && q.newIds > 0 && q.minAt >= 1 && q.minAt >= p.since && Older(q) == q.minAt
            && (forall e :: e in store && e.createdAt > q.minAt && e.createdAt >= p.since ==> e.id in q.ids)
            && (forall e :: e in store && e.id in q.ids ==> e.createdAt >= q.minAt)
  {
    var q := SawAll(p, answer);
    SawAllFrame(p, answer);
    SawAllIds(p, answer);
    SawAllMin(p, answer);
    FullAnswerSpans(store, k, answer, p.until);
    var x :| x in answer && x.createdAt != p.until;
    assert x in Matches(store, p.since, p.until);
    assert x.id !in p.ids;
    var low :| low in answer && low.createdAt == q.minAt;
    assert low in Matches(store, p.since, p.until);
    FullPhaseSeen(store, cap, p, answer);
  }

  lemma FullPhaseSeen(store: set<Event>, cap: nat, p: Pager, answer: seq<Event>)
    requires WellFormed(store) && PhaseStart(p) && Swept(store, p) && !AllSeen(store, p) && answer != []
    requires Honest(store, cap, p.since, p.until, answer)
    ensures var q := SawAll(p, answer);
            && (forall e :: e in store && e.createdAt > q.minAt && e.createdAt >= p.since ==> e.id in q.ids)
            && (forall e :: e in store && e.id in q.ids ==> e.createdAt >= q.minAt)
  {
    var q := SawAll(p, answer);
    SawAllIds(p, answer);
    SawAllMin(p, answer);
    var low :| low in answer && low.createdAt == q.minAt;
    assert low in Matches(store, p.since, p.until);
    forall e | e in store && e.createdAt > q.minAt && e.createdAt >= p.since ensures e.id in q.ids {
      if p.until == 0 || e.createdAt <= p.until {
        assert e in Matches(store, p.since, p.until);
        assert e in answer;
      }
    }
    forall e | e in store && e.id in q.ids ensures e.createdAt >= q.minAt {
      if e.id !in p.ids {
        var a :| a in answer && a.id == e.id;
        assert a in store;
      } else {
        assert e.createdAt >= p.until >= low.createdAt;
      }
    }
  }

  ghost predicate Served(store: set<Event>, cap: nat, pagers: seq<Pager>, answers: seq<seq<Event>>) {
    |pagers| == |answers| && forall i {:trigger answers[i]} :: 0 <= i < |pagers| ==> Honest(store, cap, pagers[i].since, pagers[i].until, answers[i])
  }

  lemma SeenStaysSeen(store: set<Event>, p: Pager, answer: seq<Event>)
    requires AllSeen(store, p)
    ensures AllSeen(store, SawAll(p, answer)) && AllSeen(store, Asked(SawAll(p, answer)))
  {
    SawAllIds(p, answer);
    SawAllFrame(p, answer);
  }

  /** One phase: swept before it, swept before the next; and if it asks for no
      other and was not cut, everything was seen. */
  lemma PhaseSweeps(store: set<Event>, k: nat, cap: nat, p: Pager, answer: seq<Event>)
    requires WellFormed(store) && AtMostPerSecond(store, k) && k < cap && PAGE_MIN <= cap
    requires p.ok && PhaseStart(p) && Swept(store, p) && Honest(store, cap, p.since, p.until, answer)
    ensures Asks(SawAll(p, answer)) ==> Swept(store, Asked(SawAll(p, answer))) && PhaseStart(Asked(SawAll(p, answer)))
    ensures !WantsMore(SawAll(p, answer)) ==> AllSeen(store, SawAll(p, answer))
  {
    var q := SawAll(p, answer);
    SawAllFrame(p, answer);
    if AllSeen(store, p) {
      SeenStaysSeen(store, p, answer);
    } else if |answer| < cap {
      ShortPhase(store, cap, p, answer);
    } else {
      FullPhase(store, k, cap, p, answer);
    }
  }

  lemma SentSweeps(store: set<Event>, filter: Filter)
    requires filter.limit == 0 && filter.until == 0
    ensures var p := Sent([filter]); p.ok && p.since == filter.since && PhaseStart(p) && Swept(store, p)
  {
  }

  lemma NextSweeps(store: set<Event>, k: nat, cap: nat, p: Pager, answer: seq<Event>, p': Pager)
    requires WellFormed(store) && AtMostPerSecond(store, k) && k < cap && PAGE_MIN <= cap
    requires p.ok && PhaseStart(p) && Swept(store, p) && Honest(store, cap, p.since, p.until, answer)
    requires Asks(SawAll(p, answer)) && p' == Asked(SawAll(p, answer))
    ensures p'.ok && p'.since == p.since && PhaseStart(p') && Swept(store, p')
  {
    SawAllFrame(p, answer);
    PhaseSweeps(store, k, cap, p, answer);
  }

  lemma {:induction false} RunSweeps(store: set<Event>, k: nat, cap: nat, filter: Filter,
                                     pagers: seq<Pager>, answers: seq<seq<Event>>, i: nat)
    requires WellFormed(store) && AtMostPerSecond(store, k) && k < cap && PAGE_MIN <= cap
    requires filter.limit == 0 && filter.until == 0
    requires Run([filter], pagers, answers) && Served(store, cap, pagers, answers) && i < |pagers|
    ensures pagers[i].ok && pagers[i].since == filter.since && PhaseStart(pagers[i]) && Swept(store, pagers[i])
  {
    if i == 0 {
      SentSweeps(store, filter);
    } else {
      RunSweeps(store, k, cap, filter, pagers, answers, i - 1);
      NextSweeps(store, k, cap, pagers[i - 1], answers[i - 1], pagers[i]);
    }
  }

  /** The run ended by itself: no budget cut it short. */
  ghost predicate Finished(pagers: seq<Pager>, answers: seq<seq<Event>>)
    requires |pagers| == |answers| > 0
  {
    !WantsMore(SawAll(pagers[|pagers| - 1], answers[|answers| - 1]))
  }

  /** Against a static relay with at most `k` events in any one second and a cap
      above that, paging that ends uncut has handed on every stored event. */
  lemma PagingComplete(store: set<Event>, k: nat, cap: nat, filter: Filter, pagers: seq<Pager>, answers: seq<seq<Event>>)
    requires WellFormed(store) && AtMostPerSecond(store, k) && k < cap && PAGE_MIN <= cap
    requires filter.limit == 0 && filter.until == 0
    requires Run([filter], pagers, answers) && Served(store, cap, pagers, answers) && Finished(pagers, answers)
    ensures AllSeen(store, SawAll(pagers[|pagers| - 1], answers[|answers| - 1]))
  {
    var n := |pagers| - 1;
    RunSweeps(store, k, cap, filter, pagers, answers, n);
    PhaseSweeps(store, k, cap, pagers[n], answers[n]);
  }

  // --------------------------------------------------- exactly when it holds

  /** Paging that ends uncut is complete, for every store with at most `k`
      events in any one second and every relay with that cap. */
  ghost predicate AlwaysComplete(k: nat, cap: nat) {
    forall store, filter: Filter, pagers, answers ::
      && WellFormed(store) && AtMostPerSecond(store, k) && filter.limit == 0 && filter.until == 0
      && Run([filter], pagers, answers) && Served(store, cap, pagers, answers) && Finished(pagers, answers)
      ==> AllSeen(store, SawAll(pagers[|pagers| - 1], answers[|answers| - 1]))
  }

  lemma {:induction false} SeenForever(store: set<Event>, filters: seq<Filter>, pagers: seq<Pager>, answers: seq<seq<Event>>, i: nat)
    requires Run(filters, pagers, answers) && i < |pagers| && AllSeen(store, SawAll(pagers[0], answers[0]))
    ensures AllSeen(store, SawAll(pagers[i], answers[i]))
  {
    if i > 0 {
      SeenForever(store, filters, pagers, answers, i - 1);
      SeenStaysSeen(store, SawAll(pagers[i - 1], answers[i - 1]), []);
      SeenStaysSeen(store, pagers[i], answers[i]);
    }
  }

  lemma BigPageStops(store: set<Event>, cap: nat, filter: Filter, answer: seq<Event>)
    requires WellFormed(store) && filter.limit == 0 && filter.until == 0 && PAGE_MIN <= cap == |answer|
    requires cap * EVENT_BYTES >= MAX_BYTES && Honest(store, cap, filter.since, 0, answer)
    ensures var q := SawAll(Sent([filter]), answer); WantsMore(q) && OverBudget(q)
  {
    var p := Sent([filter]);
    SawAllFrame(p, answer);
    SawAllMin(p, answer);
    var low :| low in answer && low.createdAt == SawAll(p, answer).minAt;
    SawAllIds(p, answer);
    assert low.id !in p.ids;
  }

  /** A first page of more than the byte budget is cut at once. */
  lemma BigPagesAreCut(store: set<Event>, cap: nat, filter: Filter, pagers: seq<Pager>, answers: seq<seq<Event>>)
    requires WellFormed(store) && filter.limit == 0 && filter.until == 0 && PAGE_MIN <= cap
    requires cap * EVENT_BYTES >= MAX_BYTES
    requires Run([filter], pagers, answers) && Served(store, cap, pagers, answers) && Finished(pagers, answers)
    ensures AllSeen(store, SawAll(pagers[|pagers| - 1], answers[|answers| - 1]))
  {
    var p, answer := pagers[0], answers[0];
    if |answer| < cap {
      ShortPhase(store, cap, p, answer);
      SeenForever(store, [filter], pagers, answers, |pagers| - 1);
    } else {
      BigPageStops(store, cap, filter, answer);
      assert false;
    }
  }

  function NumberedId(i: nat): Id { seq(i, _ => 'a') }

  /** `cap` events in second 2. */
  function BusySecond(cap: nat): seq<Event> {
    seq(cap, i requires 0 <= i < cap => Event(NumberedId(i), 2, 0))
  }

  /** Those, and one event a second before. */
  function BusyStore(cap: nat): set<Event> {
    (set e | e in BusySecond(cap)) + {Event(NumberedId(cap), 1, 0)}
  }

  lemma NumberedIdLength(i: nat)
    ensures |NumberedId(i)| == i
  {
  }

  lemma BusyFacts(cap: nat)
    ensures NoDup(BusySecond(cap))
    ensures |BusyStore(cap)| == cap + 1
    ensures WellFormed(BusyStore(cap))
    ensures forall e :: e in BusySecond(cap) ==> e.id != NumberedId(cap)
  {
    var es := BusySecond(cap);
    forall i | 0 <= i < cap ensures |es[i].id| == i {
      NumberedIdLength(i);
    }
    NumberedIdLength(cap);
    NoDupSize(es);
  }

  lemma BusyPerSecond(cap: nat, k: nat)
    requires 1 <= cap <= k
    ensures AtMostPerSecond(BusyStore(cap), k)
  {
    BusyFacts(cap);
    forall t ensures |InSecond(BusyStore(cap), t)| <= k {
      var last := Event(NumberedId(cap), 1, 0);
      if t == 1 {
        assert InSecond(BusyStore(cap), t) == {last};
      } else {
        assert InSecond(BusyStore(cap), t) <= BusyStore(cap) - {last};
        SubsetSize(InSecond(BusyStore(cap), t), BusyStore(cap) - {last});
      }
    }
  }

  lemma BusyHonest(cap: nat, until: nat)
    requires until == 0 || until == 2
    ensures Honest(BusyStore(cap), cap, 0, until, BusySecond(cap))
  {
    BusyFacts(cap);
    assert Matches(BusyStore(cap), 0, until) == BusyStore(cap);
  }

  lemma {:induction false} SawAllPlain(p: Pager, es: seq<Event>)
    requires forall e :: e in es ==> e.extra == 0
    ensures SawAll(p, es).bytes == p.bytes + |es| * EVENT_BYTES
    ensures (forall e :: e in es ==> e.id in p.ids) ==> SawAll(p, es).newIds == p.newIds && SawAll(p, es).ids == p.ids
  {
    if es != [] {
      SawAllPlain(p, es[..|es| - 1]);
    }
  }

  lemma BusyIds(cap: nat)
    ensures var q := SawAll(Sent([Filter(0, 0, 0)]), BusySecond(cap));
            && (forall e :: e in BusySecond(cap) ==> e.id in q.ids) && NumberedId(cap) !in q.ids
            && (cap > 0 ==> q.newIds > 0)
  {
    var p, es := Sent([Filter(0, 0, 0)]), BusySecond(cap);
    BusyFacts(cap);
    SawAllIds(p, es);
    if cap > 0 {
      assert es[0] in es && es[0].id !in p.ids;
    }
  }

  /** The first page, all of one second, asks for another up to that second. */
  lemma BusyFirst(cap: nat)
    requires PAGE_MIN <= cap && cap * EVENT_BYTES < MAX_BYTES
    ensures var q := SawAll(Sent([Filter(0, 0, 0)]), BusySecond(cap));
            Asks(q) && Older(q) == 2 && q.since == 0
  {
    var p, es := Sent([Filter(0, 0, 0)]), BusySecond(cap);
    SawAllFrame(p, es);
    SawAllPlain(p, es);
    SawAllMin(p, es);
    BusyIds(cap);
  }

  /** The second page brings the same events, and the paging stops. */
  lemma BusySecondPage(cap: nat, p: Pager)
    requires PhaseStart(p) && forall e :: e in BusySecond(cap) ==> e.id in p.ids
    ensures !WantsMore(SawAll(p, BusySecond(cap))) && SawAll(p, BusySecond(cap)).ids == p.ids
    ensures SawAll(p, BusySecond(cap)).since == p.since
  {
    SawAllPlain(p, BusySecond(cap));
    SawAllFrame(p, BusySecond(cap));
  }

  /** `cap` events in the newest second stop the paging after one page more, and
      the older event is never handed on. */
  lemma BusySecondStops(cap: nat)
    requires PAGE_MIN <= cap && cap * EVENT_BYTES < MAX_BYTES
    ensures var p, es := Sent([Filter(0, 0, 0)]), BusySecond(cap);
            var p' := Asked(SawAll(p, es));
            && Run([Filter(0, 0, 0)], [p, p'], [es, es]) && Served(BusyStore(cap), cap, [p, p'], [es, es])
            && Finished([p, p'], [es, es]) && !AllSeen(BusyStore(cap), SawAll(p', es))
  {
    var p, es := Sent([Filter(0, 0, 0)]), BusySecond(cap);
    var p' := Asked(SawAll(p, es));
    BusyFirst(cap);
    BusyIds(cap);
    BusySecondPage(cap, p');
    BusyHonest(cap, 0);
    BusyHonest(cap, 2);
    assert Event(NumberedId(cap), 1, 0) in BusyStore(cap);
  }

  /** Paging is complete for all stores with at most `k` events in any one second
      exactly when `k` is below the relay's cap (or the very first full page is
      already past the byte budget, and always reported as cut). */
  lemma CompletenessThreshold(k: nat, cap: nat)
    requires PAGE_MIN <= cap
    ensures AlwaysComplete(k, cap) <==> k < cap || cap * EVENT_BYTES >= MAX_BYTES
  {
    if k < cap || cap * EVENT_BYTES >= MAX_BYTES {
      forall store, filter: Filter, pagers, answers |
        && WellFormed(store) && AtMostPerSecond(store, k) && filter.limit == 0 && filter.until == 0
        && Run([filter], pagers, answers) && Served(store, cap, pagers, answers) && Finished(pagers, answers)
        ensures AllSeen(store, SawAll(pagers[|pagers| - 1], answers[|answers| - 1]))
      {
        if k < cap {
          PagingComplete(store, k, cap, filter, pagers, answers);
        } else {
          BigPagesAreCut(store, cap, filter, pagers, answers);
        }
      }
    } else {
      BusyIncomplete(k, cap);
    }
  }

  lemma BusyIncomplete(k: nat, cap: nat)
    requires PAGE_MIN <= cap <= k && cap * EVENT_BYTES < MAX_BYTES
    ensures !AlwaysComplete(k, cap)
  {
    BusySecondStops(cap);
    BusyPerSecond(cap, k);
    BusyFacts(cap);
    var p, es, filter := Sent([Filter(0, 0, 0)]), BusySecond(cap), Filter(0, 0, 0);
    var pagers, answers := [p, Asked(SawAll(p, es))], [es, es];
    assert Run([filter], pagers, answers) && Served(BusyStore(cap), cap, pagers, answers);
    assert !AllSeen(BusyStore(cap), SawAll(pagers[|pagers| - 1], answers[|answers| - 1]));
  }

  // -------------------------------------------------------------- as an object

  class FollowPager {
    var ok: bool
    var since: nat
    var until: nat
    var n: nat
    var newIds: nat
    var minAt: nat
    var ids: set<Id>
    var pages: nat
    var bytes: nat
    var cut: bool

    ghost function Value(): Pager
      reads this
    {
      Pager(ok, since, until, n, newIds, minAt, ids, pages, bytes, cut)
    }

    /** newFollowPager, then restart. */
    constructor (filters: seq<Filter>)
      ensures Value() == Sent(filters)
    {
      var pageable, lowest := true, 0;
      for i := 0 to |filters|
        invariant pageable == forall f :: f in filters[..i] ==> f.limit == 0 && f.until == 0
        invariant i == 0 ==> lowest == 0
        invariant i > 0 ==> lowest == LowestSince(filters[..i])
      {
        assert filters[..i + 1] == filters[..i] + [filters[i]];
        if i > 0 {
          LowestSnoc(filters[..i], filters[i]);
        }
        if filters[i].limit != 0 || filters[i].until != 0 {
          pageable := false;
        }
        if i == 0 || filters[i].since < lowest {
          lowest := filters[i].since;
        }
      }
      assert filters[..|filters|] == filters;
      ok, since, cut := pageable, lowest, false;
      until, n, newIds, minAt, ids, pages, bytes := 0, 0, 0, 0, {}, 0, 0;
    }

    method SawEvent(e: Event)
      modifies this
      ensures Value() == Saw(old(Value()), e)
    {
      n := n + 1;
      if e.id !in ids {
        ids := ids + {e.id};
        newIds := newIds + 1;
      }
      if minAt == 0 || e.createdAt < minAt {
        minAt := e.createdAt;
      }
      bytes := bytes + EVENT_BYTES + e.extra;
    }

    /** The until of the next page, or that there is none. */
    method NextPage() returns (page: nat, more: bool)
      modifies this
      ensures more == Asks(old(Value())) && Value() == Asked(old(Value()))
      ensures more ==> page == until
    {
      if !ok || n < PAGE_MIN || newIds == 0 {
        return 0, false;
      }
      page := minAt;
      if until != 0 && page >= until {
        page := until - 1;
      }
      if page == 0 || page < since {
        return 0, false;
      }
      if pages >= MAX_PAGES || bytes >= MAX_BYTES {
        cut, ok := true, false;
        return 0, false;
      }
      pages, until, n, newIds, minAt := pages + 1, page, 0, 0, 0;
      more := true;
    }
  }

  lemma {:induction false} LowestSnoc(filters: seq<Filter>, f: Filter)
    requires filters != []
    ensures LowestSince(filters + [f]) == if f.since < LowestSince(filters) then f.since else LowestSince(filters)
  {
    if |filters| > 1 {
      LowestSnoc(filters[1..], f);
      assert (filters + [f])[1..] == filters[1..] + [f];
    } else {
      assert (filters + [f])[1..] == [f];
    }
  }

  /** A relay: its answer to the phase-th request, up to `until`. */
  type Relay = (nat, nat) -> seq<Event>

  ghost predicate HandedOn(ids: set<Id>, emitted: seq<Event>) {
    forall id :: id in ids ==> exists x :: x in emitted && x.id == id
  }

  /** One phase of stored events: each is counted and handed to emit. */
  method ReadPhase(pager: FollowPager, answer: seq<Event>, before: seq<Event>) returns (emitted: seq<Event>)
    requires HandedOn(pager.ids, before)
    modifies pager
    ensures pager.Value() == SawAll(old(pager.Value()), answer)
    ensures HandedOn(pager.ids, emitted)
  {
    emitted := before;
    for i := 0 to |answer|
      invariant pager.Value() == SawAll(old(pager.Value()), answer[..i])
      invariant HandedOn(pager.ids, emitted)
    {
      assert answer[..i + 1][..i] == answer[..i];
      HandOneMore(pager.ids, emitted, answer[i]);
      pager.SawEvent(answer[i]);
      emitted := emitted + [answer[i]];
    }
    assert answer[..|answer|] == answer;
  }

  lemma HandOneMore(ids: set<Id>, emitted: seq<Event>, e: Event)
    requires HandedOn(ids, emitted)
    ensures HandedOn(ids + {e.id}, emitted + [e])
  {
    forall id | id in ids + {e.id} ensures exists x :: x in emitted + [e] && x.id == id {
      if id in ids {
        var x :| x in emitted && x.id == id;
        assert x in emitted + [e];
      } else {
        assert e in emitted + [e];
      }
    }
  }

  /** Every answer of the relay is honest for that store, cap and since. */
  ghost predicate HonestRelay(relay: Relay, store: set<Event>, cap: nat, since: nat) {
    forall i, u :: Honest(store, cap, since, u, relay(i, u))
  }

  ghost predicate Delivered(store: set<Event>, since: nat, emitted: seq<Event>) {
    forall e: Event :: e in store && e.createdAt >= since ==> exists x :: x in emitted && x.id == e.id
  }

  /** The stored part of stream: page until the pager asks for no more. Against
      any relay it ends, with page untils strictly falling, at or above since;
      against an honest one with fewer than `cap` events in any second, what was
      handed on is all there is, unless it was cut. */
  method PageAll(filter: Filter, relay: Relay) returns (emitted: seq<Event>, untils: seq<nat>, cut: bool)
    ensures |untils| <= MAX_PAGES
    ensures forall i :: 0 <= i < |untils| ==> untils[i] >= 1 && untils[i] >= filter.since
    ensures forall i :: 0 < i < |untils| ==> untils[i] < untils[i - 1]
    ensures forall store, k: nat, cap: nat ::
              && !cut && filter.limit == 0 && filter.until == 0
              && WellFormed(store) && AtMostPerSecond(store, k) && k < cap && PAGE_MIN <= cap
              && HonestRelay(relay, store, cap, filter.since)
              ==> Delivered(store, filter.since, emitted)
  {
    var pager := new FollowPager([filter]);
    emitted, untils := [], [];
    ghost var pagers: seq<Pager>, answers: seq<seq<Event>> := [pager.Value()], [relay(0, 0)];
    var more := true;
    while more
      invariant Paged(filter, relay, pagers, answers, untils)
      invariant more ==> pager.Value() == pagers[|untils|]
      invariant !more ==> var q := SawAll(pagers[|untils|], answers[|untils|]); !Asks(q) && pager.Value() == Asked(q)
      invariant HandedOn(pager.ids, emitted)
      decreases more, MAX_PAGES - |untils|
    {
      var answer := relay(|untils|, pager.until);
      emitted := ReadPhase(pager, answer, emitted);
      ghost var q := pager.Value();
      var page, again := pager.NextPage();
      more := again;
      if more {
        PagedMore(filter, relay, pagers, answers, untils);
        pagers, answers := pagers + [Asked(q)], answers + [relay(|untils| + 1, page)];
        untils := untils + [page];
      }
    }
    cut := pager.cut;
    UntilsFall(filter, pagers, answers, untils);
    forall store, k: nat, cap: nat |
      && !cut && filter.limit == 0 && filter.until == 0
      && WellFormed(store) && AtMostPerSecond(store, k) && k < cap && PAGE_MIN <= cap
      && HonestRelay(relay, store, cap, filter.since)
      ensures Delivered(store, filter.since, emitted)
    {
      AllHandedOn(filter, relay, pagers, answers, emitted, store, k, cap);
    }
  }

  /** The paging so far: the relay's answers, and the untils asked for. */
  ghost predicate Paged(filter: Filter, relay: Relay, pagers: seq<Pager>, answers: seq<seq<Event>>, untils: seq<nat>) {
    && Run([filter], pagers, answers) && |untils| == |answers| - 1
    && (forall i :: 0 <= i < |answers| ==> answers[i] == relay(i, pagers[i].until))
    && (forall i :: 0 <= i < |untils| ==> untils[i] == pagers[i + 1].until)
  }

  lemma RunMore(filters: seq<Filter>, pagers: seq<Pager>, answers: seq<seq<Event>>, p: Pager, answer: seq<Event>)
    requires Run(filters, pagers, answers)
    requires var q := SawAll(pagers[|pagers| - 1], answers[|pagers| - 1]); Asks(q) && p == Asked(q)
    ensures Run(filters, pagers + [p], answers + [answer])
  {
    var ps, es := pagers + [p], answers + [answer];
    forall i | 0 <= i < |ps| - 1 ensures Asks(SawAll(ps[i], es[i])) && ps[i + 1] == Asked(SawAll(ps[i], es[i])) {
      assert es[i] == answers[i] && ps[i] == pagers[i];
    }
  }

  lemma PagedMore(filter: Filter, relay: Relay, pagers: seq<Pager>, answers: seq<seq<Event>>, untils: seq<nat>)
    requires Paged(filter, relay, pagers, answers, untils) && Asks(SawAll(pagers[|untils|], answers[|untils|]))
    ensures var p := Asked(SawAll(pagers[|untils|], answers[|untils|]));
            Paged(filter, relay, pagers + [p], answers + [relay(|untils| + 1, p.until)], untils + [p.until])
    ensures |untils| < MAX_PAGES
  {
    var p := Asked(SawAll(pagers[|untils|], answers[|untils|]));
    var ps, es, us := pagers + [p], answers + [relay(|untils| + 1, p.until)], untils + [p.until];
    RunMore([filter], pagers, answers, p, relay(|untils| + 1, p.until));
    PagesAdvance([filter], ps, es, |untils| + 1);
    forall i | 0 <= i < |es| ensures es[i] == relay(i, ps[i].until) {
      if i < |answers| {
        assert es[i] == answers[i] && ps[i] == pagers[i];
      }
    }
    forall i | 0 <= i < |us| ensures us[i] == ps[i + 1].until {
      if i < |untils| {
        assert us[i] == untils[i] && ps[i + 1] == pagers[i + 1];
      }
    }
  }

  lemma UntilsFall(filter: Filter, pagers: seq<Pager>, answers: seq<seq<Event>>, untils: seq<nat>)
    requires Run([filter], pagers, answers) && |untils| == |answers| - 1
    requires forall i :: 0 <= i < |untils| ==> untils[i] == pagers[i + 1].until
    ensures |untils| <= MAX_PAGES
    ensures forall i :: 0 <= i < |untils| ==> untils[i] >= 1 && untils[i] >= filter.since
    ensures forall i :: 0 < i < |untils| ==> untils[i] < untils[i - 1]
  {
    forall i | 0 <= i < |untils| ensures untils[i] >= 1 && untils[i] >= filter.since && (i > 0 ==> untils[i] < untils[i - 1]) {
      PagesAdvance([filter], pagers, answers, i + 1);
    }
    PagesAdvance([filter], pagers, answers, |untils|);
  }

  /** What an honest relay's answers come to, when the paging ended uncut. */
  lemma AllHandedOn(filter: Filter, relay: Relay, pagers: seq<Pager>, answers: seq<seq<Event>>, emitted: seq<Event>,
                    store: set<Event>, k: nat, cap: nat)
    requires Run([filter], pagers, answers)
    requires forall i :: 0 <= i < |answers| ==> answers[i] == relay(i, pagers[i].until)
    requires var q := SawAll(pagers[|pagers| - 1], answers[|pagers| - 1]);
             !Asks(q) && !Asked(q).cut && HandedOn(Asked(q).ids, emitted)
    requires filter.limit == 0 && filter.until == 0 && WellFormed(store) && AtMostPerSecond(store, k) && k < cap && PAGE_MIN <= cap
    requires HonestRelay(relay, store, cap, filter.since)
    ensures Delivered(store, filter.since, emitted)
  {
    var n := |pagers| - 1;
    UncutIsFinished(SawAll(pagers[n], answers[n]));
    RelayServes(filter, relay, pagers, answers, store, cap);
    PagingComplete(store, k, cap, filter, pagers, answers);
    PagesAdvance([filter], pagers, answers, n);
    SawAllFrame(pagers[n], answers[n]);
  }

  lemma RelayServes(filter: Filter, relay: Relay, pagers: seq<Pager>, answers: seq<seq<Event>>, store: set<Event>, cap: nat)
    requires Run([filter], pagers, answers) && HonestRelay(relay, store, cap, filter.since)
    requires forall i :: 0 <= i < |answers| ==> answers[i] == relay(i, pagers[i].until)
    ensures Served(store, cap, pagers, answers)
  {
    forall i | 0 <= i < |answers| ensures pagers[i].since == filter.since && !pagers[i].cut {
      PagesAdvance([filter], pagers, answers, i);
      NeverCutBefore([filter], pagers, answers, i);
    }
  }

  lemma UncutIsFinished(q: Pager)
    requires !Asks(q) && !Asked(q).cut
    ensures !WantsMore(q) && Asked(q) == q
  {
  }

  lemma {:induction false} NeverCutBefore(filters: seq<Filter>, pagers: seq<Pager>, answers: seq<seq<Event>>, i: nat)
    requires Run(filters, pagers, answers) && i < |pagers|
    ensures !pagers[i].cut
  {
    if i > 0 {
      NeverCutBefore(filters, pagers, answers, i - 1);
      SawAllFrame(pagers[i - 1], answers[i - 1]);
    }
  }
}
