/** Grants asked for before an app is trusted (cli/bunker/grantspec.go): the
    operator's grants file, and the permission list a client sends. */
module GrantSpecs {
  import opened Common
  import opened GrantStore
  import opened Text

  const GRANTABLE: set<string> := {
    "sign_event", "ping", "get_public_key", "get_relays", "nip04_encrypt",
    "nip04_decrypt", "nip44_encrypt", "nip44_decrypt", "nip44_message_keys"}

  // ---------------------------------------------------------------- numerals

  function Digit(d: nat): char
    requires d < 10
  {
    '0' + d as char
  }

  function Digits(n: nat): string {
    if n < 10 then [Digit(n)] else Digits(n / 10) + [Digit(n % 10)]
  }

  function Decimal(k: int): string {
    if k < 0 then "-" + Digits(-k) else Digits(k)
  }

  function ReadDigits(s: string): Option<nat> {
    if s == "" then None
    else
      var last := s[|s| - 1];
      if !('0' <= last <= '9') then None
      else if |s| == 1 then Some((last - '0') as nat)
      else match ReadDigits(s[..|s| - 1])
        case None => None
        case Some(v) => Some(10 * v + (last - '0') as nat)
  }

  predicate FitsInt(k: int) {
    -0x8000_0000_0000_0000 <= k < 0x8000_0000_0000_0000
  }

  /** strconv.Atoi: a sign, digits, and a value that fits 64 bits. */
  function Atoi(s: string): Option<int> {
    var (negative, rest) := if s != "" && (s[0] == '-' || s[0] == '+') then (s[0] == '-', s[1..]) else (false, s);
    match ReadDigits(rest)
    case None => None
    case Some(v) =>
      var n: int := v;
      var k := if negative then -n else n;
      if FitsInt(k) then Some(k) else None
  }

  lemma {:induction false} ReadWritten(n: nat)
    ensures ReadDigits(Digits(n)) == Some(n) && |Digits(n)| > 0
    ensures forall k :: 0 <= k < |Digits(n)| ==> '0' <= Digits(n)[k] <= '9'
  {
    if n >= 10 {
      ReadWritten(n / 10);
      assert Digits(n)[..|Digits(n)| - 1] == Digits(n / 10);
    }
  }

  lemma AtoiDecimal(k: int)
    requires FitsInt(k)
    ensures Atoi(Decimal(k)) == Some(k)
  {
    ReadWritten(if k < 0 then -k else k);
  }

  lemma DecimalInjective(j: int, k: int)
    requires Decimal(j) == Decimal(k)
    ensures j == k
  {
    ReadWritten(if j < 0 then -j else j);
    ReadWritten(if k < 0 then -k else k);
    assert j < 0 <==> k < 0 by {
      assert Decimal(j)[0] == Decimal(k)[0];
    }
    if j < 0 {
      assert Decimal(j)[1..] == Digits(-j) && Decimal(k)[1..] == Digits(-k);
    }
  }

  // -------------------------------------------------------------- scope keys

  datatype Kinds = NoKinds | AnyKind | Named(kinds: seq<int>)

  datatype EntrySpec = EntrySpec(verb: string, kinds: Kinds, verdict: Decision, lasts: int, uses: int)

  /** The text a scope is known by in the duplicate check. */
  function ScopeKey(sc: Scope): string {
    if sc.verb != SIGN_EVENT then sc.verb
    else match sc.kind
      case None => sc.verb + ":any"
      case Some(k) => sc.verb + ":kind:" + Decimal(k)
  }

  function KindScopes(verb: string, kinds: seq<int>): seq<Scope> {
    seq(|kinds|, i requires 0 <= i < |kinds| => Scope(verb, Some(kinds[i])))
  }

  /** The scopes an entry covers. */
  function ScopesOf(e: EntrySpec): seq<Scope> {
    if e.verb != SIGN_EVENT then [Scope(e.verb, None)]
    else match e.kinds
      case AnyKind => [Scope(e.verb, None)]
      case Named(kinds) => KindScopes(e.verb, kinds)
      case NoKinds => []
  }

  /** A scope a grant may have: a kind only for sign_event. */
  predicate Grantable(sc: Scope) {
    sc.verb in GRANTABLE && (sc.kind.Some? ==> sc.verb == SIGN_EVENT)
  }

  /** Letters, digits and underscores. */
  predicate Plain(c: char) {
    'a' <= c <= 'z' || '0' <= c <= '9' || c == '_'
  }

  predicate PlainWord(s: string) {
    s != "" && forall k :: 0 <= k < |s| ==> Plain(s[k])
  }

  lemma NoColon(verb: string)
    requires verb in GRANTABLE
    ensures PlainWord(verb) && ':' !in verb && ',' !in verb
    ensures forall k :: 0 <= k < |verb| ==> !Space(verb[k])
  {
    assert PlainWord(verb);
  }

  lemma KeyShape(sc: Scope)
    requires Grantable(sc)
    ensures ':' in ScopeKey(sc) <==> sc.verb == SIGN_EVENT
    ensures sc.verb == SIGN_EVENT ==> |ScopeKey(sc)| > 11 && (ScopeKey(sc)[11] == 'a' <==> sc.kind.None?)
  {
    NoColon(sc.verb);
    if sc.verb == SIGN_EVENT {
      assert ScopeKey(sc)[10] == ':';
      assert ScopeKey(sc)[11] == if sc.kind.None? then 'a' else 'k';
    }
  }

  /** Keys differ exactly when scopes do, so the text stands for the scope. */
  lemma KeysAreScopes(a: Scope, b: Scope)
    requires Grantable(a) && Grantable(b)
    ensures ScopeKey(a) == ScopeKey(b) <==> a == b
  {
    KeyShape(a);
    KeyShape(b);
    if ScopeKey(a) == ScopeKey(b) && a.kind.Some? && b.kind.Some? {
      CancelPrefix(SIGN_EVENT + ":kind:", Decimal(a.kind.value), Decimal(b.kind.value));
      DecimalInjective(a.kind.value, b.kind.value);
    }
  }

  // -------------------------------------------------------------- validation

  /** A kinds field as decoded: absent, a text, a list, or something else. */
  datatype RawKinds = Unset | Text(s: string) | List(kinds: seq<int>) | Other

  datatype RawEntry = RawEntry(verb: string, kinds: RawKinds, verdict: string, expires: string, uses: int)

  datatype SpecError =
    | BadKinds | NoVerb | ConnectVerb | UnknownVerb | MissingKinds | StrayKinds | BadVerdict
    | BothLimits | BadExpiry | BadUses | NoGrants | DuplicateScope

  datatype Parsed<+T> = Ok(value: T) | Bad(error: SpecError)

  /** Reads a duration such as "24h", in nanoseconds. */
  type Durations = string -> Option<int>

  function Lower(s: string): string {
    seq(|s|, i requires 0 <= i < |s| => if 'A' <= s[i] <= 'Z' then s[i] - 'A' + 'a' else s[i])
  }

  function ParseKinds(raw: RawKinds): Parsed<Kinds> {
    match raw
    case Unset => Ok(NoKinds)
    case Text(s) => if Lower(s) == "any" then Ok(AnyKind) else Bad(BadKinds)
    case List(kinds) => if kinds == [] then Bad(BadKinds) else Ok(Named(kinds))
    case Other => Bad(BadKinds)
  }

  predicate EntryOk(e: EntrySpec) {
    && e.verb in GRANTABLE
    && (e.verb == SIGN_EVENT <==> e.kinds != NoKinds)
    && e.kinds != Named([])
    && (e.verdict == Allow || e.verdict == Deny)
    && e.lasts >= 0 && e.uses >= 0 && (e.lasts == 0 || e.uses == 0)
  }

  function ParseEntry(raw: RawEntry, durations: Durations): (r: Parsed<EntrySpec>)
    ensures r.Ok? ==> EntryOk(r.value) && r.value.verb == raw.verb && r.value.uses == raw.uses
  {
    var kinds := ParseKinds(raw.kinds);
    if kinds.Bad? then Bad(BadKinds)
    else if raw.verb == "" then Bad(NoVerb)
    else if raw.verb == "connect" then Bad(ConnectVerb)
    else if raw.verb !in GRANTABLE then Bad(UnknownVerb)
    else if raw.verb == SIGN_EVENT && kinds.value == NoKinds then Bad(MissingKinds)
    else if raw.verb != SIGN_EVENT && kinds.value != NoKinds then Bad(StrayKinds)
    else if Lower(raw.verdict) !in {"", "allow", "deny"} then Bad(BadVerdict)
    else if raw.expires != "" && raw.uses != 0 then Bad(BothLimits)
    else
      var lasts := if raw.expires == "" then Some(0) else durations(raw.expires);
      if lasts.None? || (raw.expires != "" && lasts.value <= 0) then Bad(BadExpiry)
      else if raw.uses < 0 then Bad(BadUses)
      else Ok(EntrySpec(raw.verb, kinds.value, if Lower(raw.verdict) == "deny" then Deny else Allow, lasts.value, raw.uses))
  }

  // --------------------------------------------- sent on to another process

  function WriteKinds(k: Kinds): RawKinds {
    match k
    case NoKinds => Unset
    case AnyKind => Text("any")
    case Named(kinds) => List(kinds)
  }

  /** An entry as it is marshalled again after it was read. */
  function Resent(raw: RawEntry, e: EntrySpec): RawEntry {
    RawEntry(e.verb, WriteKinds(e.kinds), if e.verdict == Deny then "deny" else "allow", raw.expires, e.uses)
  }

  /** What was read once is read the same again. */
  lemma ResentReadsSame(raw: RawEntry, durations: Durations)
    requires ParseEntry(raw, durations).Ok?
    ensures ParseEntry(Resent(raw, ParseEntry(raw, durations).value), durations) == ParseEntry(raw, durations)
  {
    assert Lower("any") == "any" && Lower("deny") == "deny" && Lower("allow") == "allow";
    assert "allow" != "deny" by {
      assert "allow"[0] != "deny"[0];
    }
  }

  function AllScopes(entries: seq<EntrySpec>): seq<Scope> {
    if entries == [] then [] else AllScopes(entries[..|entries| - 1]) + ScopesOf(entries[|entries| - 1])
  }

  lemma {:induction false} ScopesGrantable(entries: seq<EntrySpec>)
    requires forall e :: e in entries ==> EntryOk(e)
    ensures forall sc :: sc in AllScopes(entries) ==> Grantable(sc)
  {
    if entries != [] {
      var front, last := entries[..|entries| - 1], entries[|entries| - 1];
      assert last in entries && forall e :: e in front ==> e in entries;
      ScopesGrantable(front);
      assert forall sc :: sc in ScopesOf(last) ==> Grantable(sc);
    }
  }

  lemma {:induction false} ScopesSplit(entries: seq<EntrySpec>, i: nat)
    requires i < |entries|
    ensures AllScopes(entries[..i + 1]) == AllScopes(entries[..i]) + ScopesOf(entries[i])
    ensures AllScopes(entries[..i + 1]) <= AllScopes(entries)
    decreases |entries|
  {
    assert entries[..i + 1][..i] == entries[..i];
    if i + 1 == |entries| {
      assert entries[..i + 1] == entries;
    } else {
      var front := entries[..|entries| - 1];
      ScopesSplit(front, i);
      assert front[..i + 1] == entries[..i + 1] && front[..i] == entries[..i];
    }
  }

  /** The keys already seen stand for the scopes already seen. */
  ghost predicate SeenKeys(seen: set<string>, scopes: seq<Scope>) {
    && (forall sc :: sc in scopes ==> ScopeKey(sc) in seen)
    && (forall key :: key in seen ==> exists sc :: sc in scopes && ScopeKey(sc) == key)
  }

  /** A key is new exactly when its scope is. */
  lemma KeySeenIff(seen: set<string>, scopes: seq<Scope>, sc: Scope)
    requires SeenKeys(seen, scopes) && Grantable(sc) && forall x :: x in scopes ==> Grantable(x)
    ensures ScopeKey(sc) in seen <==> sc in scopes
    ensures SeenKeys(seen + {ScopeKey(sc)}, scopes + [sc])
  {
    if ScopeKey(sc) in seen {
      var x :| x in scopes && ScopeKey(x) == ScopeKey(sc);
      KeysAreScopes(x, sc);
    }
    forall key | key in seen + {ScopeKey(sc)} ensures exists x :: x in scopes + [sc] && ScopeKey(x) == key {
      if key in seen {
        var x :| x in scopes && ScopeKey(x) == key;
        assert x in scopes + [sc];
      } else {
        assert sc in scopes + [sc];
      }
    }
  }

  lemma PrefixRepeats(scopes: seq<Scope>, sc: Scope, all: seq<Scope>)
    requires scopes + [sc] <= all && sc in scopes
    ensures !NoDup(all)
  {
    var i :| 0 <= i < |scopes| && scopes[i] == sc;
    assert (scopes + [sc])[i] == all[i] && (scopes + [sc])[|scopes|] == all[|scopes|];
  }

  /** Rejects a file exactly when two of its scopes are the same. */
  method CheckScopes(entries: seq<EntrySpec>) returns (ok: bool)
    requires forall e :: e in entries ==> EntryOk(e)
    ensures ok <==> NoDup(AllScopes(entries))
  {
    var seen: set<string> := {};
    ScopesGrantable(entries);
    ghost var all := AllScopes(entries);
    for i := 0 to |entries|
      invariant NoDup(AllScopes(entries[..i])) && SeenKeys(seen, AllScopes(entries[..i]))
    {
      var scopes := ScopesOf(entries[i]);
      ghost var front := AllScopes(entries[..i]);
      ScopesSplit(entries, i);
      assert front + scopes[..0] == front;
      for j := 0 to |scopes|
        invariant NoDup(front + scopes[..j]) && SeenKeys(seen, front + scopes[..j])
      {
        ScopeStep(seen, front, scopes, j, all);
        if ScopeKey(scopes[j]) in seen {
          return false;
        }
        seen := seen + {ScopeKey(scopes[j])};
      }
      assert front + scopes[..|scopes|] == front + scopes;
    }
    assert entries[..|entries|] == entries;
    return true;
  }

  lemma ScopeStep(seen: set<string>, front: seq<Scope>, scopes: seq<Scope>, j: nat, all: seq<Scope>)
    requires j < |scopes| && front + scopes <= all && (forall sc :: sc in all ==> Grantable(sc))
    requires NoDup(front + scopes[..j]) && SeenKeys(seen, front + scopes[..j])
    ensures if ScopeKey(scopes[j]) in seen then !NoDup(all)
            else NoDup(front + scopes[..j + 1]) && SeenKeys(seen + {ScopeKey(scopes[j])}, front + scopes[..j + 1])
  {
    var done := front + scopes[..j];
    PrefixStep(front, scopes, j, all);
    KeySeenIff(seen, done, scopes[j]);
    if ScopeKey(scopes[j]) in seen {
      PrefixRepeats(done, scopes[j], all);
    } else {
      assert NoDup(done + [scopes[j]]);
    }
  }

  lemma PrefixStep(front: seq<Scope>, scopes: seq<Scope>, j: nat, all: seq<Scope>)
    requires j < |scopes| && front + scopes <= all
    ensures front + scopes[..j + 1] == front + scopes[..j] + [scopes[j]] <= all && scopes[j] in all
    ensures forall sc :: sc in front + scopes[..j] ==> sc in all
  {
    var p := front + scopes[..j] + [scopes[j]];
    assert forall k :: 0 <= k < |p| ==> p[k] == (front + scopes)[k] == all[k];
    assert all[|p| - 1] == scopes[j];
    forall sc | sc in front + scopes[..j] ensures sc in all {
      var q := front + scopes[..j];
      var k :| 0 <= k < |q| && q[k] == sc;
      assert p[k] == q[k] && all[k] == sc;
    }
  }

  function ParseAll(raws: seq<RawEntry>, durations: Durations): seq<EntrySpec>
    requires forall i :: 0 <= i < |raws| ==> ParseEntry(raws[i], durations).Ok?
  {
    seq(|raws|, i requires 0 <= i < |raws| => ParseEntry(raws[i], durations).value)
  }

  /** Loads a grants file: every entry must be well formed, there must be one, and
      no two may share a scope. */
  method LoadSpec(raws: seq<RawEntry>, durations: Durations) returns (r: Parsed<seq<EntrySpec>>)
    ensures r.Ok? <==> raws != []
                       && (forall i :: 0 <= i < |raws| ==> ParseEntry(raws[i], durations).Ok?)
                       && NoDup(AllScopes(ParseAll(raws, durations)))
    ensures r.Ok? ==> r.value == ParseAll(raws, durations) && SpecOk(r.value)
  {
    var entries: seq<EntrySpec> := [];
    for i := 0 to |raws|
      invariant |entries| == i
      invariant forall k :: 0 <= k < i ==> ParseEntry(raws[k], durations) == Ok(entries[k])
    {
      var e := ParseEntry(raws[i], durations);
      if e.Bad? {
        return Bad(e.error);
      }
      entries := entries + [e.value];
    }
    if raws == [] {
      return Bad(NoGrants);
    }
    assert entries == ParseAll(raws, durations);
    var ok := CheckScopes(entries);
    r := if ok then Ok(entries) else Bad(DuplicateScope);
  }

  ghost predicate SpecOk(entries: seq<EntrySpec>) {
    (forall e :: e in entries ==> EntryOk(e)) && NoDup(AllScopes(entries))
  }

  // -------------------------------------------------------------- resolution

  function GrantFor(e: EntrySpec, sc: Scope, now: int): Grant {
    Grant(sc.verb, e.verdict, sc.kind,
          if e.lasts > 0 then Some(now + e.lasts) else None,
          if e.lasts <= 0 && e.uses > 0 then Some(e.uses) else None, now)
  }

  function ResolveEntry(e: EntrySpec, now: int): seq<Grant> {
    seq(|ScopesOf(e)|, i requires 0 <= i < |ScopesOf(e)| => GrantFor(e, ScopesOf(e)[i], now))
  }

  function ResolveAll(entries: seq<EntrySpec>, now: int): seq<Grant> {
    if entries == [] then [] else ResolveAll(entries[..|entries| - 1], now) + ResolveEntry(entries[|entries| - 1], now)
  }

  lemma {:induction false} ResolvedScopes(entries: seq<EntrySpec>, now: int)
    ensures |ResolveAll(entries, now)| == |AllScopes(entries)|
    ensures forall i :: 0 <= i < |AllScopes(entries)| ==> ScopeOf(ResolveAll(entries, now)[i]) == AllScopes(entries)[i]
  {
    if entries != [] {
      ResolvedScopes(entries[..|entries| - 1], now);
    }
  }

  /** Well-formed entries pass the duplicate check exactly when the grants they
      resolve to have pairwise distinct scopes, at whatever time. */
  lemma AcceptedIffDistinct(entries: seq<EntrySpec>, now: int)
    ensures NoDup(AllScopes(entries)) <==> DistinctScopes(ResolveAll(entries, now))
  {
    ResolvedScopes(entries, now);
    var a, b := AllScopes(entries), ResolveAll(entries, now);
    if NoDup(a) {
      assert forall i, j :: 0 <= i < j < |b| ==> ScopeOf(b[i]) == a[i] && ScopeOf(b[j]) == a[j];
    }
    if DistinctScopes(b) {
      assert forall i, j :: 0 <= i < j < |a| ==> ScopeOf(b[i]) == a[i] && ScopeOf(b[j]) == a[j];
    }
  }

  method Resolve(entries: seq<EntrySpec>, now: int) returns (grants: seq<Grant>)
    ensures grants == ResolveAll(entries, now)
  {
    grants := [];
    for i := 0 to |entries|
      invariant grants == ResolveAll(entries[..i], now)
    {
      assert entries[..i + 1][..i] == entries[..i];
      var e := entries[i];
      var scopes := ScopesOf(e);
      for j := 0 to |scopes|
        invariant grants == ResolveAll(entries[..i], now) + ResolveEntry(e, now)[..j]
      {
        assert ResolveEntry(e, now)[..j + 1] == ResolveEntry(e, now)[..j] + [ResolveEntry(e, now)[j]];
        grants := grants + [GrantFor(e, scopes[j], now)];
      }
      assert ResolveEntry(e, now)[..|scopes|] == ResolveEntry(e, now);
    }
    assert entries[..|entries|] == entries;
  }

  /** What a grant of entry `e` is: `kind` None for any. */
  ghost predicate GrantOf(g: Grant, e: EntrySpec, now: int) {
    && g.verb == e.verb
    && (if e.verb == "sign_event" && e.kinds != AnyKind then e.kinds.Named? && g.kind.Some? && g.kind.value in e.kinds.kinds
        else g.kind == None)
    && g.verdict == e.verdict
    && (if e.lasts > 0 then g.expires == Some(now + e.lasts) else g.expires == None)
    && (if e.lasts <= 0 && e.uses > 0 then g.uses == Some(e.uses) else g.uses == None)
    && g.created == now
  }

  lemma EntryResolvedIff(e: EntrySpec, now: int, g: Grant)
    ensures g in ResolveEntry(e, now) <==> GrantOf(g, e, now)
  {
    var scopes, gs := ScopesOf(e), ResolveEntry(e, now);
    assert |gs| == |scopes|;
    if GrantOf(g, e, now) {
      var i := if g.kind.None? then 0 else IndexIn(e.kinds.kinds, g.kind.value);
      assert gs[i] == g;
    }
  }

  ghost function IndexIn(kinds: seq<int>, k: int): (i: nat)
    requires k in kinds
    ensures i < |kinds| && kinds[i] == k
  {
    var i: nat :| i < |kinds| && kinds[i] == k;
    i
  }

  /** The grants of a file are those of its entries, each with its entry's verdict,
      lapse and uses, dated now. */
  lemma {:induction false} ResolvedIff(entries: seq<EntrySpec>, now: int, g: Grant)
    ensures g in ResolveAll(entries, now) <==> exists i :: 0 <= i < |entries| && GrantOf(g, entries[i], now)
  {
    if entries != [] {
      var front, last := entries[..|entries| - 1], entries[|entries| - 1];
      ResolvedIff(front, now, g);
      EntryResolvedIff(last, now, g);
      assert forall i :: 0 <= i < |front| ==> front[i] == entries[i];
    }
  }

  // ------------------------------------------------------------- remembering

  function RememberAll(gs: seq<Grant>, added: seq<Grant>): seq<Grant>
    decreases |added|
  {
    if added == [] then gs else RememberAll(RememberIn(gs, added[0]), added[1..])
  }

  /** Grants with distinct scopes, remembered onto any session: each is stored as
      it is, and every other scope keeps what it had. */
  lemma {:induction false} RememberAllMerges(gs: seq<Grant>, added: seq<Grant>)
    requires DistinctScopes(gs) && DistinctScopes(added)
    ensures DistinctScopes(RememberAll(gs, added))
    ensures View(RememberAll(gs, added)) == View(gs) + View(added)
    decreases |added|
  {
    if added == [] {
      ViewEmpty();
      assert View(gs) + map[] == View(gs);
    } else {
      RememberRefines(gs, added[0]);
      RememberAllMerges(RememberIn(gs, added[0]), added[1..]);
      ViewCons(added);
      MergeUpdate(View(gs), View(added[1..]), ScopeOf(added[0]), added[0]);
    }
  }

  lemma MergeUpdate(m: map<Scope, Grant>, n: map<Scope, Grant>, sc: Scope, g: Grant)
    requires sc !in n
    ensures m[sc := g] + n == m + n[sc := g]
  {
  }

  lemma ViewCons(gs: seq<Grant>)
    requires DistinctScopes(gs) && gs != []
    ensures View(gs) == View(gs[1..])[ScopeOf(gs[0]) := gs[0]] && ScopeOf(gs[0]) !in View(gs[1..])
  {
    assert DistinctScopes(gs[1..]);
    ViewShows(gs[1..]);
    forall g | g in gs[1..] ensures ScopeOf(g) != ScopeOf(gs[0]) {
      var i :| 0 <= i < |gs| - 1 && gs[1..][i] == g;
      assert g == gs[i + 1];
    }
    ShownIsView(gs, View(gs[1..])[ScopeOf(gs[0]) := gs[0]]);
  }

  /** In any order. */
  lemma RememberAnyOrder(gs: seq<Grant>, added: seq<Grant>, shuffled: seq<Grant>)
    requires DistinctScopes(gs) && DistinctScopes(added) && multiset(added) == multiset(shuffled)
    ensures View(RememberAll(gs, shuffled)) == View(RememberAll(gs, added)) == View(gs) + View(added)
  {
    ShuffledDistinct(added, shuffled);
    ViewShows(added);
    assert forall g :: g in shuffled <==> g in multiset(shuffled);
    assert forall g :: g in added <==> g in multiset(added);
    ShownIsView(shuffled, View(added));
    RememberAllMerges(gs, added);
    RememberAllMerges(gs, shuffled);
  }

  lemma ShuffledDistinct(added: seq<Grant>, shuffled: seq<Grant>)
    requires DistinctScopes(added) && multiset(added) == multiset(shuffled)
    ensures DistinctScopes(shuffled)
  {
    forall i, j | 0 <= i < j < |shuffled| ensures ScopeOf(shuffled[i]) != ScopeOf(shuffled[j]) {
      var x, y := shuffled[i], shuffled[j];
      if x == y {
        TwiceIn(shuffled, i, j);
        OnceIn(added, x);
      } else {
        assert x in multiset(shuffled) && y in multiset(shuffled);
        assert x in added && y in added;
        var a :| 0 <= a < |added| && added[a] == x;
        var b :| 0 <= b < |added| && added[b] == y;
        assert a < b || b < a;
      }
    }
  }

  lemma TwiceIn(s: seq<Grant>, i: nat, j: nat)
    requires i < j < |s| && s[i] == s[j]
    ensures multiset(s)[s[i]] >= 2
  {
    assert s == s[..j] + [s[j]] + s[j + 1..];
    assert s[i] in s[..j];
  }

  lemma {:induction false} OnceIn(s: seq<Grant>, g: Grant)
    requires DistinctScopes(s)
    ensures multiset(s)[g] <= 1
  {
    if s != [] {
      assert s == [s[0]] + s[1..];
      OnceIn(s[1..], g);
      if s[0] == g {
        assert g !in s[1..];
      }
    }
  }

  /** So a grants file that loads is applied whole: right after, a request for the
      kind of an exact-kind grant of the file gets that grant's verdict, unless it
      would allow a sensitive kind. */
  lemma SpecGrantAnswers(gs: seq<Grant>, entries: seq<EntrySpec>, now: int, g: Grant)
    requires DistinctScopes(gs) && SpecOk(entries) && g in ResolveAll(entries, now) && g.kind.Some?
    requires !(g.verdict == Allow && Sensitive(g.verb, g.kind.value))
    ensures DecideIn(RememberAll(gs, ResolveAll(entries, now)), g.verb, g.kind.value, now).0 == g.verdict
  {
    var added := ResolveAll(entries, now);
    AcceptedIffDistinct(entries, now);
    RememberAllMerges(gs, added);
    ViewShows(added);
    ResolvedAfter(entries, now);
    DecideRefines(RememberAll(gs, added), g.verb, g.kind.value, now);
  }

  lemma {:induction false} ResolvedAfter(entries: seq<EntrySpec>, now: int)
    ensures forall g :: g in ResolveAll(entries, now) ==> !Lapsed(g, now)
  {
    if entries != [] {
      ResolvedAfter(entries[..|entries| - 1], now);
    }
  }

  // ---------------------------------------------- from the text to the answers

  /** `LoadSpec` accepts the file. */
  ghost predicate Loads(raws: seq<RawEntry>, durations: Durations) {
    && (forall i :: 0 <= i < |raws| ==> ParseEntry(raws[i], durations).Ok?)
    && NoDup(AllScopes(ParseAll(raws, durations)))
  }

  /** The entry, as written, names `kind` (None: any kind) of its method. */
  ghost predicate Names(raw: RawEntry, kind: Option<int>) {
    if raw.kinds.List? then kind.Some? && kind.value in raw.kinds.kinds else kind == None
  }

  /** What is written: "deny" in any case, or anything else that is accepted. */
  function WrittenVerdict(raw: RawEntry): Decision {
    if Lower(raw.verdict) == "deny" then Deny else Allow
  }

  function WrittenLapse(raw: RawEntry, durations: Durations, now: int): Option<int> {
    if raw.expires == "" then None
    else match durations(raw.expires)
      case None => None
      case Some(d) => Some(now + d)
  }

  /** The grant an entry is written for. */
  function WrittenGrant(raw: RawEntry, durations: Durations, kind: Option<int>, now: int): Grant {
    Grant(raw.verb, WrittenVerdict(raw), kind, WrittenLapse(raw, durations, now), if raw.uses > 0 then Some(raw.uses) else None, now)
  }

  /** What a session holds once the file is applied to it. */
  function Applied(gs: seq<Grant>, raws: seq<RawEntry>, durations: Durations, now: int): seq<Grant>
    requires forall i :: 0 <= i < |raws| ==> ParseEntry(raws[i], durations).Ok?
  {
    RememberAll(gs, ResolveAll(ParseAll(raws, durations), now))
  }

  lemma WrittenIsResolved(raws: seq<RawEntry>, durations: Durations, now: int, i: nat, kind: Option<int>)
    requires Loads(raws, durations) && i < |raws| && Names(raws[i], kind)
    ensures WrittenGrant(raws[i], durations, kind, now) in ResolveAll(ParseAll(raws, durations), now)
  {
    var entries, g := ParseAll(raws, durations), WrittenGrant(raws[i], durations, kind, now);
    assert entries[i] == ParseEntry(raws[i], durations).value;
    assert GrantOf(g, entries[i], now);
    ResolvedIff(entries, now, g);
  }

  /** The table of a session a file was applied to. */
  lemma AppliedTable(gs: seq<Grant>, raws: seq<RawEntry>, durations: Durations, now: int)
    requires DistinctScopes(gs) && Loads(raws, durations)
    ensures DistinctScopes(Applied(gs, raws, durations, now))
    ensures DistinctScopes(ResolveAll(ParseAll(raws, durations), now))
    ensures View(Applied(gs, raws, durations, now)) == View(gs) + View(ResolveAll(ParseAll(raws, durations), now))
  {
    AcceptedIffDistinct(ParseAll(raws, durations), now);
    RememberAllMerges(gs, ResolveAll(ParseAll(raws, durations), now));
  }

  /** It holds what is written, whatever it held for that scope. */
  lemma AppliedHolds(gs: seq<Grant>, raws: seq<RawEntry>, durations: Durations, now: int, i: nat, kind: Option<int>)
    requires DistinctScopes(gs) && Loads(raws, durations) && i < |raws| && Names(raws[i], kind)
    ensures DistinctScopes(Applied(gs, raws, durations, now))
    ensures var g, m := WrittenGrant(raws[i], durations, kind, now), View(Applied(gs, raws, durations, now));
            ScopeOf(g) in m && m[ScopeOf(g)] == g
  {
    AppliedTable(gs, raws, durations, now);
    WrittenIsResolved(raws, durations, now, i, kind);
    ViewShows(ResolveAll(ParseAll(raws, durations), now));
  }

  /** No entry of the file names `kind` of `verb`, and the session held no such grant. */
  ghost predicate Unmentioned(gs: seq<Grant>, raws: seq<RawEntry>, verb: string, kind: Option<int>) {
    && (forall j :: 0 <= j < |raws| ==> !(raws[j].verb == verb && Names(raws[j], kind)))
    && (forall g :: g in gs ==> !(g.verb == verb && g.kind == kind))
  }

  lemma GrantIsNamed(raw: RawEntry, durations: Durations, now: int, g: Grant)
    requires ParseEntry(raw, durations).Ok? && GrantOf(g, ParseEntry(raw, durations).value, now)
    ensures raw.verb == g.verb && Names(raw, g.kind)
  {
  }

  lemma ResolvedIsNamed(raws: seq<RawEntry>, durations: Durations, now: int, g: Grant)
    requires Loads(raws, durations) && g in ResolveAll(ParseAll(raws, durations), now)
    ensures exists j :: 0 <= j < |raws| && raws[j].verb == g.verb && Names(raws[j], g.kind)
  {
    var entries := ParseAll(raws, durations);
    ResolvedIff(entries, now, g);
    var j :| 0 <= j < |entries| && GrantOf(g, entries[j], now);
    GrantIsNamed(raws[j], durations, now, g);
  }

  lemma UnmentionedIsAbsent(gs: seq<Grant>, raws: seq<RawEntry>, durations: Durations, now: int, verb: string, kind: Option<int>)
    requires DistinctScopes(gs) && Loads(raws, durations) && Unmentioned(gs, raws, verb, kind)
    ensures Scope(verb, kind) !in View(Applied(gs, raws, durations, now))
  {
    var added := ResolveAll(ParseAll(raws, durations), now);
    AppliedTable(gs, raws, durations, now);
    AbsentFromTable(gs, verb, kind);
    forall g | g in added ensures !(g.verb == verb && g.kind == kind) {
      ResolvedIsNamed(raws, durations, now, g);
    }
    AbsentFromTable(added, verb, kind);
  }

  lemma AbsentFromTable(gs: seq<Grant>, verb: string, kind: Option<int>)
    requires DistinctScopes(gs)
    ensures Scope(verb, kind) !in View(gs) <==> forall g :: g in gs ==> !(g.verb == verb && g.kind == kind)
  {
    ViewShows(gs);
  }

  /** Kinds 0, 3 and 5 are signed on no entry, and rejected only by one that names
      them. */
  predicate AnswersFor(raw: RawEntry, kind: Option<int>, asked: int) {
    var guarded := raw.verb == "sign_event" && (asked == 0 || asked == 3 || asked == 5);
    if kind == None then !guarded else kind.value == asked && (guarded ==> Lower(raw.verdict) == "deny")
  }

  /** Once a file is applied, a request an entry names is answered as written, until
      the written duration is over, if there is one. */
  lemma FileAnswers(gs: seq<Grant>, raws: seq<RawEntry>, durations: Durations, now: int, i: nat, kind: Option<int>, asked: int, at: int)
    requires DistinctScopes(gs) && Loads(raws, durations)
    requires i < |raws| && Names(raws[i], kind) && AnswersFor(raws[i], kind, asked)
    requires kind == None ==> Unmentioned(gs, raws, raws[i].verb, Some(asked))
    requires raws[i].expires == "" || (durations(raws[i].expires).Some? && at < now + durations(raws[i].expires).value)
    ensures DecideIn(Applied(gs, raws, durations, now), raws[i].verb, asked, at).0
            == if Lower(raws[i].verdict) == "deny" then Deny else Allow
  {
    var g, after := WrittenGrant(raws[i], durations, kind, now), Applied(gs, raws, durations, now);
    AppliedHolds(gs, raws, durations, now, i, kind);
    if kind == None {
      UnmentionedIsAbsent(gs, raws, durations, now, raws[i].verb, Some(asked));
    }
    AbsentFromTable(after, raws[i].verb, Some(asked));
    ViewShows(after);
    ServesUntilLapse(after, g, asked, at);
  }

  lemma WrittenIsSole(gs: seq<Grant>, raws: seq<RawEntry>, durations: Durations, now: int, i: nat, kind: Option<int>, asked: int)
    requires DistinctScopes(gs) && Loads(raws, durations)
    requires i < |raws| && Names(raws[i], kind) && AnswersFor(raws[i], kind, asked)
    requires Unmentioned(gs, raws, raws[i].verb, if kind == None then Some(asked) else None)
    ensures DistinctScopes(Applied(gs, raws, durations, now))
    ensures Sole(View(Applied(gs, raws, durations, now)), WrittenGrant(raws[i], durations, kind, now), asked)
  {
    AppliedHolds(gs, raws, durations, now, i, kind);
    UnmentionedIsAbsent(gs, raws, durations, now, raws[i].verb, if kind == None then Some(asked) else None);
  }

  /** When the duration is over a human is asked, if nothing else answers. */
  lemma FileLapses(gs: seq<Grant>, raws: seq<RawEntry>, durations: Durations, now: int, i: nat, kind: Option<int>, asked: int, at: int)
    requires DistinctScopes(gs) && Loads(raws, durations)
    requires i < |raws| && Names(raws[i], kind) && AnswersFor(raws[i], kind, asked)
    requires Unmentioned(gs, raws, raws[i].verb, if kind == None then Some(asked) else None)
    requires raws[i].expires != "" && durations(raws[i].expires).Some? && now + durations(raws[i].expires).value <= at
    ensures DecideIn(Applied(gs, raws, durations, now), raws[i].verb, asked, at).0 == Ask
  {
    WrittenIsSole(gs, raws, durations, now, i, kind, asked);
    AskedFromLapse(Applied(gs, raws, durations, now), WrittenGrant(raws[i], durations, kind, now), asked, at);
  }

  lemma UsesExcludeLapse(raw: RawEntry, durations: Durations, kind: Option<int>, now: int)
    requires ParseEntry(raw, durations).Ok? && raw.uses > 0
    ensures WrittenGrant(raw, durations, kind, now).expires == None && WrittenGrant(raw, durations, kind, now).uses == Some(raw.uses)
  {
  }

  /** An entry with `uses` N answers the next N requests it names, whenever they
      come, and then a human is asked. */
  lemma FileUses(gs: seq<Grant>, raws: seq<RawEntry>, durations: Durations, now: int, i: nat, kind: Option<int>, asked: int, times: seq<int>)
    requires DistinctScopes(gs) && Loads(raws, durations)
    requires i < |raws| && Names(raws[i], kind) && AnswersFor(raws[i], kind, asked) && raws[i].uses > 0
    requires Unmentioned(gs, raws, raws[i].verb, if kind == None then Some(asked) else None)
    ensures forall j :: 0 <= j < |times| ==>
              DecideTimes(Applied(gs, raws, durations, now), raws[i].verb, asked, times)[j]
              == if j >= raws[i].uses then Ask else if Lower(raws[i].verdict) == "deny" then Deny else Allow
  {
    WrittenIsSole(gs, raws, durations, now, i, kind, asked);
    UsesExcludeLapse(raws[i], durations, kind, now);
    UsesAnswerExactly(Applied(gs, raws, durations, now), WrittenGrant(raws[i], durations, kind, now), asked, times);
  }

  // ------------------------------------------------------- a permission list

  /** The scope one item of the list asks for: None if it is not granted. */
  function ReadPerm(item: string): (r: Option<Scope>)
    ensures r.Some? ==> Grantable(r.value)
  {
    var item := Trim(item);
    var i := IndexOf(item, ':');
    var verb := Trim(item[..i]);
    if item == "" || verb !in GRANTABLE then None
    else if i < |item| && verb == SIGN_EVENT then
      var k := Atoi(Trim(item[i + 1..]));
      if k.None? then None else Some(Scope(verb, k))
    else Some(Scope(verb, None))
  }

  function Forever(sc: Scope, now: int): Grant {
    Grant(sc.verb, Allow, sc.kind, None, None, now)
  }

  /** The scopes a list asks for, each once, in the order first asked. */
  function AskedScopes(items: seq<string>): seq<Scope> {
    if items == [] then []
    else
      var front, last := AskedScopes(items[..|items| - 1]), ReadPerm(items[|items| - 1]);
      if last.Some? && last.value !in front then front + [last.value] else front
  }

  function PermGrants(perms: string, now: int): seq<Grant> {
    GrantsOf(AskedScopes(SplitOn(perms, ',')), now)
  }

  function GrantsOf(scopes: seq<Scope>, now: int): seq<Grant> {
    seq(|scopes|, i requires 0 <= i < |scopes| => Forever(scopes[i], now))
  }

  lemma {:induction false} TrimBack(s: string, c: char)
    requires Space(c)
    ensures Trim(s + [c]) == Trim(s)
    decreases |s|
  {
    if s == "" {
      assert Trim([c]) == Trim([c][1..]);
    } else if Space(s[0]) {
      TrimBack(s[1..], c);
      assert (s + [c])[1..] == s[1..] + [c];
    } else {
      assert (s + [c])[..|s|] == s;
    }
  }

  lemma {:induction false} TrimPadding(left: string, s: string, right: string)
    requires forall c :: c in left || c in right ==> Space(c)
    ensures Trim(left + s + right) == Trim(s)
    decreases |left| + |right|
  {
    if left != "" {
      assert left[0] in left && forall c :: c in left[1..] ==> c in left;
      TrimPadding(left[1..], s, right);
      assert (left + s + right)[1..] == left[1..] + s + right;
    } else if right != "" {
      var n := |right| - 1;
      assert right[n] in right && forall c :: c in right[..n] ==> c in right;
      TrimPadding(left, s, right[..n]);
      TrimBack(left + s + right[..n], right[n]);
      assert left + s + right == left + s + right[..n] + [right[n]];
    } else {
      assert left + s + right == s;
    }
  }

  /** White space around an item changes nothing. */
  lemma PaddingIgnored(left: string, item: string, right: string)
    requires forall c :: c in left || c in right ==> Space(c)
    ensures ReadPerm(left + item + right) == ReadPerm(item)
  {
    TrimPadding(left, item, right);
  }

  /** Exactly the scopes some item reads as, without repetition. */
  lemma {:induction false} AskedExactly(items: seq<string>)
    ensures NoDup(AskedScopes(items))
    ensures forall sc :: sc in AskedScopes(items) <==> exists x :: x in items && ReadPerm(x) == Some(sc)
    ensures forall sc :: sc in AskedScopes(items) ==> Grantable(sc)
  {
    if items != [] {
      var front, last := items[..|items| - 1], items[|items| - 1];
      AskedExactly(front);
      assert items == front + [last];
      forall sc ensures (exists x :: x in items && ReadPerm(x) == Some(sc)) <==> (exists x :: x in front && ReadPerm(x) == Some(sc)) || ReadPerm(last) == Some(sc) {
        assert last in items;
      }
    }
  }

  lemma PermGrantsDistinct(perms: string, now: int)
    ensures DistinctScopes(PermGrants(perms, now))
    ensures forall g :: g in PermGrants(perms, now) ==>
              g.verdict == Allow && g.expires == None && g.uses == None && g.created == now && Grantable(ScopeOf(g))
  {
    AskedExactly(SplitOn(perms, ','));
    var scopes, gs := AskedScopes(SplitOn(perms, ',')), PermGrants(perms, now);
    assert forall i :: 0 <= i < |gs| ==> ScopeOf(gs[i]) == scopes[i];
  }

  /** The key of the list's own repetition check. */
  function PermKey(sc: Scope): string {
    if sc.kind.Some? then sc.verb + ":" + Decimal(sc.kind.value) else sc.verb
  }

  lemma PermKeysAreScopes(a: Scope, b: Scope)
    requires Grantable(a) && Grantable(b)
    ensures PermKey(a) == PermKey(b) <==> a == b
  {
    NoColon(a.verb);
    NoColon(b.verb);
    PermKeyShape(a);
    PermKeyShape(b);
    if PermKey(a) == PermKey(b) && a.kind.Some? && b.kind.Some? {
      CancelPrefix(SIGN_EVENT + ":", Decimal(a.kind.value), Decimal(b.kind.value));
      DecimalInjective(a.kind.value, b.kind.value);
    }
  }

  lemma PermKeyShape(sc: Scope)
    requires Grantable(sc)
    ensures ':' in PermKey(sc) <==> sc.kind.Some?
  {
    NoColon(sc.verb);
    if sc.kind.Some? {
      assert PermKey(sc)[10] == ':';
    }
  }

  ghost predicate SeenPerms(seen: set<string>, scopes: seq<Scope>) {
    && (forall sc :: sc in scopes ==> PermKey(sc) in seen)
    && (forall key :: key in seen ==> exists sc :: sc in scopes && PermKey(sc) == key)
  }

  lemma PermSeenIff(seen: set<string>, scopes: seq<Scope>, sc: Scope)
    requires SeenPerms(seen, scopes) && Grantable(sc) && forall x :: x in scopes ==> Grantable(x)
    ensures PermKey(sc) in seen <==> sc in scopes
    ensures SeenPerms(seen + {PermKey(sc)}, scopes + [sc])
  {
    if PermKey(sc) in seen {
      var x :| x in scopes && PermKey(x) == PermKey(sc);
      PermKeysAreScopes(x, sc);
    }
    forall key | key in seen + {PermKey(sc)} ensures exists x :: x in scopes + [sc] && PermKey(x) == key {
      if key in seen {
        var x :| x in scopes && PermKey(x) == key;
        assert x in scopes + [sc];
      } else {
        assert sc in scopes + [sc];
      }
    }
  }

  /** One more item: taken exactly when its key is new. */
  lemma PermStep(seen: set<string>, items: seq<string>, i: nat, now: int)
    requires i < |items| && SeenPerms(seen, AskedScopes(items[..i]))
    ensures var sc, asked, asked' := ReadPerm(items[i]), AskedScopes(items[..i]), AskedScopes(items[..i + 1]);
            if sc.Some? && PermKey(sc.value) !in seen
            then SeenPerms(seen + {PermKey(sc.value)}, asked') && GrantsOf(asked', now) == GrantsOf(asked, now) + [Forever(sc.value, now)]
            else asked' == asked
  {
    var sc, asked := ReadPerm(items[i]), AskedScopes(items[..i]);
    assert items[..i + 1][..i] == items[..i];
    assert AskedScopes(items[..i + 1]) == if sc.Some? && sc.value !in asked then asked + [sc.value] else asked;
    AskedExactly(items[..i]);
    if sc.Some? {
      PermSeenIff(seen, asked, sc.value);
      GrantsSnoc(asked, sc.value, now);
    }
  }

  lemma GrantsSnoc(scopes: seq<Scope>, sc: Scope, now: int)
    ensures GrantsOf(scopes + [sc], now) == GrantsOf(scopes, now) + [Forever(sc, now)]
  {
  }

  /** Reads a permission list, skipping what is not granted and what repeats. */
  method ParsePerms(perms: string, now: int) returns (grants: seq<Grant>)
    ensures grants == PermGrants(perms, now)
    ensures DistinctScopes(grants)
  {
    PermGrantsDistinct(perms, now);
    grants := [];
    var seen: set<string> := {};
    var items := SplitOn(perms, ',');
    for i := 0 to |items|
      invariant grants == GrantsOf(AskedScopes(items[..i]), now)
      invariant SeenPerms(seen, AskedScopes(items[..i]))
    {
      var sc := ReadPerm(items[i]);
      PermStep(seen, items, i, now);
      if sc.Some? && PermKey(sc.value) !in seen {
        seen := seen + {PermKey(sc.value)};
        grants := grants + [Forever(sc.value, now)];
      }
    }
    assert items[..|items|] == items;
  }

  // ------------------------------------------------------------- round trip

  function Join(items: seq<string>): string {
    if items == [] then "" else if |items| == 1 then items[0] else items[0] + "," + Join(items[1..])
  }

  function Written(scopes: seq<Scope>): seq<string> {
    seq(|scopes|, i requires 0 <= i < |scopes| => PermKey(scopes[i]))
  }

  function WritePerms(scopes: seq<Scope>): string {
    Join(Written(scopes))
  }

  lemma DecimalPlain(k: int)
    ensures |Decimal(k)| > 0 && forall c :: c in Decimal(k) ==> c == '-' || '0' <= c <= '9'
  {
    ReadWritten(if k < 0 then -k else k);
  }

  lemma PermPlain(sc: Scope)
    requires Grantable(sc)
    ensures |PermKey(sc)| > 0 && ',' !in PermKey(sc) && forall k :: 0 <= k < |PermKey(sc)| ==> !Space(PermKey(sc)[k])
  {
    NoColon(sc.verb);
    if sc.kind.Some? {
      DecimalPlain(sc.kind.value);
      var d := Decimal(sc.kind.value);
      assert forall k :: 0 <= k < |d| ==> d[k] in d;
    }
  }

  lemma TrimPlain(s: string)
    requires forall k :: 0 <= k < |s| ==> !Space(s[k])
    ensures Trim(s) == s
  {
  }

  lemma ReadVerb(verb: string)
    requires verb in GRANTABLE
    ensures ReadPerm(verb) == Some(Scope(verb, None))
  {
    NoColon(verb);
    TrimPlain(verb);
    IndexOfAbsent(verb, ':');
    assert verb[..|verb|] == verb;
  }

  /** The two parts of an item, around its colon. */
  lemma CutItem(verb: string, param: string)
    requires ':' !in verb
    ensures var item := verb + ":" + param;
            IndexOf(item, ':') == |verb| < |item| && item[..|verb|] == verb && item[|verb| + 1..] == param
  {
    IndexOfAfter(verb, ':', param);
    assert verb + ":" + param == verb + [':'] + param;
  }

  lemma ReadKind(k: int)
    requires FitsInt(k)
    ensures ReadPerm(PermKey(Scope(SIGN_EVENT, Some(k)))) == Some(Scope(SIGN_EVENT, Some(k)))
  {
    var item, d := PermKey(Scope(SIGN_EVENT, Some(k))), Decimal(k);
    PermPlain(Scope(SIGN_EVENT, Some(k)));
    NoColon(SIGN_EVENT);
    CutItem(SIGN_EVENT, d);
    DecimalTrims(k);
    AtoiDecimal(k);
  }

  lemma DecimalTrims(k: int)
    ensures Trim(Decimal(k)) == Decimal(k)
  {
    var d := Decimal(k);
    DecimalPlain(k);
    assert forall i :: 0 <= i < |d| ==> d[i] in d;
  }

  lemma ReadWritePerm(sc: Scope)
    requires Writable(sc)
    ensures ReadPerm(PermKey(sc)) == Some(sc)
  {
    match sc.kind
    case None => ReadVerb(sc.verb);
    case Some(k) => ReadKind(k);
  }

  lemma {:induction false} SplitJoin(items: seq<string>)
    requires items != [] && forall k :: 0 <= k < |items| ==> ',' !in items[k]
    ensures SplitOn(Join(items), ',') == items
    decreases |items|
  {
    if |items| == 1 {
      IndexOfAbsent(items[0], ',');
    } else {
      SplitJoin(items[1..]);
      SplitCons(items[0], ',', Join(items[1..]));
      assert Join(items) == items[0] + [','] + Join(items[1..]);
    }
  }

  lemma SplitWritten(scopes: seq<Scope>)
    requires scopes != [] && forall sc :: sc in scopes ==> Grantable(sc)
    ensures SplitOn(WritePerms(scopes), ',') == Written(scopes)
  {
    forall k | 0 <= k < |scopes| ensures ',' !in Written(scopes)[k] {
      assert scopes[k] in scopes;
      PermPlain(scopes[k]);
    }
    SplitJoin(Written(scopes));
  }

  /** A scope a list can name. */
  predicate Writable(sc: Scope) {
    Grantable(sc) && (sc.kind.Some? ==> FitsInt(sc.kind.value))
  }

  lemma LastIsNew(scopes: seq<Scope>)
    requires scopes != [] && NoDup(scopes)
    ensures NoDup(scopes[..|scopes| - 1]) && scopes[|scopes| - 1] !in scopes[..|scopes| - 1]
    ensures Written(scopes) == Written(scopes[..|scopes| - 1]) + [PermKey(scopes[|scopes| - 1])]
  {
  }

  lemma {:induction false} AskedWritten(scopes: seq<Scope>)
    requires NoDup(scopes) && forall sc :: sc in scopes ==> Writable(sc)
    ensures AskedScopes(Written(scopes)) == scopes
  {
    if scopes != [] {
      var front, last := scopes[..|scopes| - 1], scopes[|scopes| - 1];
      assert last in scopes && forall sc :: sc in front ==> sc in scopes;
      LastIsNew(scopes);
      AskedWritten(front);
      ReadWritePerm(last);
      AskedSnoc(Written(front), PermKey(last), last);
      assert front + [last] == scopes;
    }
  }

  lemma AskedSnoc(items: seq<string>, item: string, sc: Scope)
    requires ReadPerm(item) == Some(sc) && sc !in AskedScopes(items)
    ensures AskedScopes(items + [item]) == AskedScopes(items) + [sc]
  {
    assert (items + [item])[..|items|] == items;
  }

  /** A list written for distinct scopes is granted in full, in order. */
  lemma PermsRoundTrip(scopes: seq<Scope>, now: int)
    requires NoDup(scopes) && forall sc :: sc in scopes ==> Writable(sc)
    ensures PermGrants(WritePerms(scopes), now) == GrantsOf(scopes, now)
  {
    if scopes == [] {
      assert SplitOn("", ',') == [""];
      assert AskedScopes([""]) == [];
    } else {
      SplitWritten(scopes);
      AskedWritten(scopes);
    }
  }
}
