/** An encoding of log records that has every property the byte level of the
    history asks of one: a line in braces, with none inside. */
module HistoryCodec {
  import opened Common
  import opened HistoryLog
  import opened HistoryFile

  // Each function puts one value in front of `rest`, so that it can be told
  // apart from what follows.

  function Nat(n: nat, rest: string): string {
    seq(n, _ => 'a') + "b" + rest
  }

  function Int(k: int, rest: string): string {
    Nat(if k >= 0 then 2 * k else -2 * k - 1, rest)
  }

  function Bool(b: bool, rest: string): string {
    (if b then "a" else "b") + rest
  }

  function Str(s: string, rest: string): string {
    if s == "" then "c" + rest else "d" + Nat(s[0] as int, Str(s[1..], rest))
  }

  function Opt(o: Option<string>, rest: string): string {
    if o.None? then "a" + rest else "b" + Str(o.value, rest)
  }

  function Verdict(d: Decision, rest: string): string {
    match d
    case Ask => "a" + rest
    case Allow => "b" + rest
    case Deny => "c" + rest
  }

  function OfPending(p: Pending): string {
    Str(p.id, Str(p.clientKey, Str(p.methodName, Int(p.kind, Int(p.createdAt, Opt(p.event, ""))))))
  }

  function Flags(h: HistoryEntry): string {
    Verdict(h.verdict, Bool(h.remembered, Bool(h.autoApproved, Bool(h.expired, Opt(h.event, "")))))
  }

  function OfEntry(h: HistoryEntry): string {
    Str(h.id, Str(h.clientKey, Str(h.methodName, Int(h.kind, Int(h.createdAt, Int(h.resolvedAt, Flags(h)))))))
  }

  function Body(r: Record): string {
    match r
    case Added(p) => "a" + OfPending(p)
    case Resolved(h) => "b" + OfEntry(h)
    case Signed(id, ev) => "c" + Str(id, Str(ev, ""))
  }

  function Encode(r: Record): string {
    "{" + Body(r) + "}"
  }

  // ------------------------------------------------------ values come apart

  lemma HeadCancel(a: string, b: string, x: string, y: string)
    requires |a| == 1 && |b| == 1 && a + x == b + y
    ensures a == b && x == y
  {
    assert (a + x)[0] == a[0] && (b + y)[0] == b[0];
    assert (a + x)[1..] == x && (b + y)[1..] == y;
  }

  lemma NatCancel(m: nat, n: nat, x: string, y: string)
    requires Nat(m, x) == Nat(n, y)
    ensures m == n && x == y
  {
    var s, t := Nat(m, x), Nat(n, y);
    assert s[m] == 'b' && forall i :: 0 <= i < m ==> s[i] == 'a';
    assert t[n] == 'b' && forall i :: 0 <= i < n ==> t[i] == 'a';
    assert s[m + 1..] == x && t[n + 1..] == y;
  }

  lemma {:induction false} StrCancel(a: string, b: string, x: string, y: string)
    requires Str(a, x) == Str(b, y)
    ensures a == b && x == y
  {
    var s, t := Str(a, x), Str(b, y);
    assert a == "" <==> s[0] == 'c';
    assert b == "" <==> t[0] == 'c';
    assert s[1..] == if a == "" then x else Nat(a[0] as int, Str(a[1..], x));
    assert t[1..] == if b == "" then y else Nat(b[0] as int, Str(b[1..], y));
    if a != "" {
      NatCancel(a[0] as int, b[0] as int, Str(a[1..], x), Str(b[1..], y));
      StrCancel(a[1..], b[1..], x, y);
    }
  }

  lemma OptCancel(a: Option<string>, b: Option<string>, x: string, y: string)
    requires Opt(a, x) == Opt(b, y)
    ensures a == b && x == y
  {
    var s, t := Opt(a, x), Opt(b, y);
    assert s[0] == if a.None? then 'a' else 'b';
    assert t[0] == if b.None? then 'a' else 'b';
    assert s[1..] == if a.None? then x else Str(a.value, x);
    assert t[1..] == if b.None? then y else Str(b.value, y);
    if a.Some? {
      StrCancel(a.value, b.value, x, y);
    }
  }

  lemma PendingCancel(p: Pending, q: Pending)
    requires OfPending(p) == OfPending(q)
    ensures p == q
  {
    StrCancel(p.id, q.id, Str(p.clientKey, Str(p.methodName, Int(p.kind, Int(p.createdAt, Opt(p.event, ""))))),
              Str(q.clientKey, Str(q.methodName, Int(q.kind, Int(q.createdAt, Opt(q.event, ""))))));
    StrCancel(p.clientKey, q.clientKey, Str(p.methodName, Int(p.kind, Int(p.createdAt, Opt(p.event, "")))),
              Str(q.methodName, Int(q.kind, Int(q.createdAt, Opt(q.event, "")))));
    StrCancel(p.methodName, q.methodName, Int(p.kind, Int(p.createdAt, Opt(p.event, ""))),
              Int(q.kind, Int(q.createdAt, Opt(q.event, ""))));
    IntCancel(p.kind, q.kind, Int(p.createdAt, Opt(p.event, "")), Int(q.createdAt, Opt(q.event, "")));
    IntCancel(p.createdAt, q.createdAt, Opt(p.event, ""), Opt(q.event, ""));
    OptCancel(p.event, q.event, "", "");
  }

  lemma IntCancel(j: int, k: int, x: string, y: string)
    requires Int(j, x) == Int(k, y)
    ensures j == k && x == y
  {
    NatCancel(if j >= 0 then 2 * j else -2 * j - 1, if k >= 0 then 2 * k else -2 * k - 1, x, y);
  }

  lemma BoolCancel(a: bool, b: bool, x: string, y: string)
    requires Bool(a, x) == Bool(b, y)
    ensures a == b && x == y
  {
    HeadCancel(if a then "a" else "b", if b then "a" else "b", x, y);
    assert "a"[0] != "b"[0];
  }

  lemma VerdictCancel(d: Decision, e: Decision, x: string, y: string)
    requires Verdict(d, x) == Verdict(e, y)
    ensures d == e && x == y
  {
    var s, t := Verdict(d, x), Verdict(e, y);
    assert s[0] == match d { case Ask => 'a' case Allow => 'b' case Deny => 'c' };
    assert t[0] == match e { case Ask => 'a' case Allow => 'b' case Deny => 'c' };
    assert s[1..] == x && t[1..] == y;
  }

  lemma FlagsCancel(h: HistoryEntry, g: HistoryEntry)
    requires Flags(h) == Flags(g)
    ensures h.verdict == g.verdict && h.remembered == g.remembered && h.autoApproved == g.autoApproved
    ensures h.expired == g.expired && h.event == g.event
  {
    VerdictCancel(h.verdict, g.verdict, Bool(h.remembered, Bool(h.autoApproved, Bool(h.expired, Opt(h.event, "")))),
                  Bool(g.remembered, Bool(g.autoApproved, Bool(g.expired, Opt(g.event, "")))));
    BoolCancel(h.remembered, g.remembered, Bool(h.autoApproved, Bool(h.expired, Opt(h.event, ""))),
               Bool(g.autoApproved, Bool(g.expired, Opt(g.event, ""))));
    BoolCancel(h.autoApproved, g.autoApproved, Bool(h.expired, Opt(h.event, "")), Bool(g.expired, Opt(g.event, "")));
    BoolCancel(h.expired, g.expired, Opt(h.event, ""), Opt(g.event, ""));
    OptCancel(h.event, g.event, "", "");
  }

  lemma EntryCancel(h: HistoryEntry, g: HistoryEntry)
    requires OfEntry(h) == OfEntry(g)
    ensures h == g
  {
    StrCancel(h.id, g.id, Str(h.clientKey, Str(h.methodName, Int(h.kind, Int(h.createdAt, Int(h.resolvedAt, Flags(h)))))),
              Str(g.clientKey, Str(g.methodName, Int(g.kind, Int(g.createdAt, Int(g.resolvedAt, Flags(g)))))));
    StrCancel(h.clientKey, g.clientKey, Str(h.methodName, Int(h.kind, Int(h.createdAt, Int(h.resolvedAt, Flags(h))))),
              Str(g.methodName, Int(g.kind, Int(g.createdAt, Int(g.resolvedAt, Flags(g))))));
    StrCancel(h.methodName, g.methodName, Int(h.kind, Int(h.createdAt, Int(h.resolvedAt, Flags(h)))),
              Int(g.kind, Int(g.createdAt, Int(g.resolvedAt, Flags(g)))));
    IntCancel(h.kind, g.kind, Int(h.createdAt, Int(h.resolvedAt, Flags(h))), Int(g.createdAt, Int(g.resolvedAt, Flags(g))));
    IntCancel(h.createdAt, g.createdAt, Int(h.resolvedAt, Flags(h)), Int(g.resolvedAt, Flags(g)));
    IntCancel(h.resolvedAt, g.resolvedAt, Flags(h), Flags(g));
    FlagsCancel(h, g);
  }

  lemma BodyCancel(r: Record, q: Record)
    requires Body(r) == Body(q)
    ensures r == q
  {
    assert Body(r)[0] == if r.Added? then 'a' else if r.Resolved? then 'b' else 'c';
    assert Body(q)[0] == if q.Added? then 'a' else if q.Resolved? then 'b' else 'c';
    match r
    case Added(p) =>
      assert Body(r)[1..] == OfPending(p) && Body(q)[1..] == OfPending(q.pending);
      PendingCancel(p, q.pending);
    case Resolved(h) =>
      assert Body(r)[1..] == OfEntry(h) && Body(q)[1..] == OfEntry(q.entry);
      EntryCancel(h, q.entry);
    case Signed(id, ev) =>
      assert Body(r)[1..] == Str(id, Str(ev, "")) && Body(q)[1..] == Str(q.id, Str(q.event, ""));
      StrCancel(id, q.id, Str(ev, ""), Str(q.event, ""));
      StrCancel(ev, q.event, "", "");
  }

  lemma EncodeCancel(r: Record, q: Record)
    requires Encode(r) == Encode(q)
    ensures r == q
  {
    var s, t := Encode(r), Encode(q);
    assert s[1..|s| - 1] == Body(r) && t[1..|t| - 1] == Body(q);
    BodyCancel(r, q);
  }

  // ------------------------------------------------------ no brace, no break

  predicate Clean(s: string) {
    forall i :: 0 <= i < |s| ==> 'a' <= s[i] <= 'd'
  }

  lemma {:induction false} StrClean(s: string, rest: string)
    requires Clean(rest)
    ensures Clean(Str(s, rest))
  {
    if s != "" {
      StrClean(s[1..], rest);
    }
  }

  lemma OptClean(o: Option<string>)
    ensures Clean(Opt(o, ""))
  {
    if o.Some? {
      StrClean(o.value, "");
    }
  }

  lemma IntClean(k: int, rest: string)
    requires Clean(rest)
    ensures Clean(Int(k, rest))
  {
  }

  lemma BoolClean(b: bool, rest: string)
    requires Clean(rest)
    ensures Clean(Bool(b, rest))
  {
  }

  lemma FlagsClean(h: HistoryEntry)
    ensures Clean(Flags(h))
  {
    OptClean(h.event);
    BoolClean(h.expired, Opt(h.event, ""));
    BoolClean(h.autoApproved, Bool(h.expired, Opt(h.event, "")));
    BoolClean(h.remembered, Bool(h.autoApproved, Bool(h.expired, Opt(h.event, ""))));
  }

  /** The three texts that begin a request, before anything clean. */
  lemma NamesClean(id: string, client: string, verb: string, rest: string)
    requires Clean(rest)
    ensures Clean(Str(id, Str(client, Str(verb, rest))))
  {
    StrClean(verb, rest);
    StrClean(client, Str(verb, rest));
    StrClean(id, Str(client, Str(verb, rest)));
  }

  lemma PendingClean(p: Pending)
    ensures Clean(OfPending(p))
  {
    OptClean(p.event);
    IntClean(p.createdAt, Opt(p.event, ""));
    IntClean(p.kind, Int(p.createdAt, Opt(p.event, "")));
    NamesClean(p.id, p.clientKey, p.methodName, Int(p.kind, Int(p.createdAt, Opt(p.event, ""))));
  }

  lemma EntryClean(h: HistoryEntry)
    ensures Clean(OfEntry(h))
  {
    FlagsClean(h);
    IntClean(h.resolvedAt, Flags(h));
    IntClean(h.createdAt, Int(h.resolvedAt, Flags(h)));
    IntClean(h.kind, Int(h.createdAt, Int(h.resolvedAt, Flags(h))));
    NamesClean(h.id, h.clientKey, h.methodName, Int(h.kind, Int(h.createdAt, Int(h.resolvedAt, Flags(h)))));
  }

  lemma BodyClean(r: Record)
    ensures Clean(Body(r))
  {
    match r
    case Added(p) => PendingClean(p);
    case Resolved(h) => EntryClean(h);
    case Signed(id, ev) =>
      StrClean(ev, "");
      StrClean(id, Str(ev, ""));
  }

  /** Braces at both ends and none inside, and no line break. */
  lemma EncodeShape(r: Record)
    ensures |Encode(r)| >= 2 && Encode(r)[0] == '{' && Encode(r)[|Encode(r)| - 1] == '}'
    ensures forall i :: 0 < i < |Encode(r)| - 1 ==> 'a' <= Encode(r)[i] <= 'd'
    ensures '\n' !in Encode(r)
  {
    BodyClean(r);
  }

  // ------------------------------------------------------------ the witness

  ghost function Parse(s: string): (o: Option<Record>)
    ensures o.Some? ==> Encode(o.value) == s
    ensures o.None? ==> forall r :: Encode(r) != s
  {
    if r :| Encode(r) == s then Some(r) else None
  }

  lemma ParseEncoded(r: Record)
    ensures Parse(Encode(r)) == Some(r)
  {
    var o := Parse(Encode(r));
    EncodeCancel(o.value, r);
  }

  lemma NotEncoded(s: string, i: nat)
    requires (s != "" && s[|s| - 1] != '}') || (0 < i < |s| && s[i] == '{')
    ensures Parse(s) == None
  {
    forall r ensures Encode(r) != s {
      EncodeShape(r);
    }
  }

  /** Such an encoding exists. */
  lemma CodecExists()
    ensures exists c: Codec :: c.OneLine() && c.PrefixFails() && c.GlueFails()
  {
    var c := Codec(Encode, Parse);
    forall r ensures c.encode(r) != "" && '\n' !in c.encode(r) && c.parse(c.encode(r)) == Some(r) {
      EncodeShape(r);
      ParseEncoded(r);
    }
    forall r, j | 0 < j < |c.encode(r)| ensures c.parse(c.encode(r)[..j]) == None {
      EncodeShape(r);
      NotEncoded(Encode(r)[..j], 0);
    }
    forall r, j, x | 0 < j <= |c.encode(r)| ensures c.parse(c.encode(r)[..j] + c.encode(x)) == None {
      EncodeShape(x);
      NotEncoded(Encode(r)[..j] + Encode(x), j);
    }
    assert c.OneLine() && c.PrefixFails() && c.GlueFails();
  }
}
