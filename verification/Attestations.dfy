/** Attestations a signing request must carry: when one satisfies a requirement
    (signer/attest.go), and the backtracking choice of a distinct one for each
    requirement (signer/evaluate.go, assignAttestations). Times are nanoseconds,
    event times whole seconds; public keys are compared as lower-case hex. */
module Attestations {
  import opened Common
  import opened Text

  type Id = string
  type Pubkey = string

  /** Seconds to nanoseconds. */
  function Nanos(seconds: int): int { seconds * 1_000_000_000 }

  /** MaxAttestationAge: 24 hours. */
  const MAX_ATTESTATION_AGE: int := Nanos(86_400)

  datatype Event = Event(
    id: Id, pubkey: Pubkey, kind: int, createdAt: int, tags: seq<seq<string>>, content: string, verifies: bool)

  datatype Bind = TagFromId(tag: string) | TagFromTag(tag: string, source: string) | Template(text: string, exact: bool)

  datatype Spec = Spec(name: string, kinds: seq<int>, authors: set<Pubkey>, maxAge: int, binds: seq<Bind>)

  /** The bind names the target's id, which fixes the target and so its date. */
  predicate NamesId(b: Bind) {
    match b
    case TagFromId(_) => true
    case TagFromTag(_, _) => false
    case Template(text, _) => Contains(text, "{id}")
  }

  predicate BindsId(spec: Spec) {
    exists i :: 0 <= i < |spec.binds| && NamesId(spec.binds[i])
  }

  // -------------------------------------------------- what a policy may state

  /** The names in braces, from the left, with no brace inside. */
  function Placeholders(s: string): seq<string>
    decreases |s|
  {
    if s == "" then []
    else if s[0] == '{' then
      var k := NextBrace(s[1..]);
      if k < |s| - 1 && s[1..][k] == '}' then [s[1..][..k]] + Placeholders(s[1..][k + 1..]) else Placeholders(s[1..])
    else Placeholders(s[1..])
  }

  predicate IsTagName(name: string) {
    "tag:" <= name && name != "tag:"
  }

  /** validateTemplate: not blank, no placeholder but {id} and one {tag:U}. */
  predicate TemplateOk(text: string) {
    && Trim(text) != ""
    && (forall p :: p in Placeholders(text) ==> p == "id" || IsTagName(p))
    && (forall p, q :: p in Placeholders(text) && q in Placeholders(text) && p != "id" && q != "id" ==> p == q)
  }

  predicate BindOk(b: Bind) {
    match b
    case TagFromId(tag) => tag != ""
    case TagFromTag(tag, source) => tag != "" && source != ""
    case Template(text, _) => TemplateOk(text)
  }

  /** What validateAttestation lets through, for a signer with this key: the cap on
      max_age is what the used set relies on. */
  predicate Validated(spec: Spec, signerPub: Pubkey) {
    && spec.name != "" && spec.kinds != [] && 0 < spec.maxAge <= MAX_ATTESTATION_AGE
    && spec.authors != {} && signerPub !in spec.authors
    && spec.binds != [] && (forall b :: b in spec.binds ==> BindOk(b))
  }

  /** The requirements of one rule: no name twice. */
  ghost predicate AllValidated(specs: seq<Spec>, signerPub: Pubkey) {
    && (forall s :: s in specs ==> Validated(s, signerPub))
    && (forall i, j :: 0 <= i < j < |specs| ==> specs[i].name != specs[j].name)
  }

  /** The request-wide inputs of a check. */
  datatype Context = Context(
    target: Event, now: int, startTime: Option<int>, skew: int, signerPub: Pubkey, used: set<Id>)

  datatype Reason =
    | BadSignature | OwnSignature | WrongKind(kind: int) | AuthorNotAllowed | FutureDated | Stale(maxAge: int)
    | BeforeStart | AlreadyUsed | BindFails(number: nat) | PredatesTarget

  /** The first value of every tag with that name. */
  function TagValues(tags: seq<seq<string>>, name: string): seq<string> {
    if tags == [] then []
    else (if |tags[0]| >= 2 && tags[0][0] == name then [tags[0][1]] else []) + TagValues(tags[1..], name)
  }

  /** The text inside the first pair of braces with no brace between. */
  function Placeholder(s: string): Option<string> {
    if s == "" then None
    else if s[0] == '{' then
      var k := NextBrace(s[1..]);
      if k < |s| - 1 && s[1..][k] == '}' then Some(s[1..][..k]) else Placeholder(s[1..])
    else Placeholder(s[1..])
  }

  function NextBrace(s: string): (k: nat)
    ensures k <= |s|
  {
    if s == "" || s[0] == '{' || s[0] == '}' then 0 else 1 + NextBrace(s[1..])
  }

  /** The texts a template stands for: {id} is the target's id, and {tag:U} gives
      one text for each value of the target's U tag, or none if it has no such tag. */
  function Expand(template: string, target: Event): Option<seq<string>> {
    var base := ReplaceAll(template, "{id}", target.id);
    match Placeholder(base)
    case None => Some([base])
    case Some(name) =>
      var u := TrimPrefix(name, "tag:");
      var values := TagValues(target.tags, u);
      if values == [] then None
      else Some(seq(|values|, i requires 0 <= i < |values| => ReplaceAll(base, "{tag:" + u + "}", values[i])))
  }

  predicate BindHolds(b: Bind, att: Event, c: Context) {
    match b
    case TagFromId(tag) => c.target.id in TagValues(att.tags, tag)
    case TagFromTag(tag, source) =>
      var want := TagValues(c.target.tags, source);
      want != [] && forall w :: w in want ==> w in TagValues(att.tags, tag)
    case Template(text, exact) =>
      var want := Expand(text, c.target);
      want.Some? && forall w :: w in want.value ==>
        if exact then Trim(att.content) == Trim(w) else Contains(att.content, w)
  }

  /** No braces. */
  predicate Bare(s: string) {
    '{' !in s && '}' !in s
  }

  lemma {:induction false} NextBraceAt(s: string, c: char, rest: string)
    requires Bare(s) && (c == '{' || c == '}')
    ensures NextBrace(s + [c] + rest) == |s|
  {
    if s != "" {
      assert s[0] in s;
      NextBraceAt(s[1..], c, rest);
      assert (s + [c] + rest)[1..] == s[1..] + [c] + rest;
    }
  }

  lemma {:induction false} PlaceholderAt(pre: string, name: string, post: string)
    requires Bare(pre) && Bare(name)
    ensures Placeholder(pre + ("{" + name + "}" + post)) == Some(name)
  {
    var rest := "{" + name + "}" + post;
    if pre == "" {
      NextBraceAt(name, '}', post);
      assert pre + rest == rest && rest[1..] == name + ['}'] + post;
      assert rest[1..][..|name|] == name;
    } else {
      assert pre[0] in pre;
      PlaceholderAt(pre[1..], name, post);
      assert (pre + rest)[1..] == pre[1..] + rest;
    }
  }

  lemma {:induction false} NoPlaceholder(s: string)
    requires Bare(s)
    ensures Placeholder(s) == None
  {
    if s != "" {
      assert s[0] in s;
      NoPlaceholder(s[1..]);
    }
  }

  /** The expansion looks at the first of the placeholders that validation saw. */
  lemma {:induction false} FirstPlaceholder(s: string)
    ensures Placeholder(s) == if Placeholders(s) == [] then None else Some(Placeholders(s)[0])
    decreases |s|
  {
    if s != "" {
      FirstPlaceholder(s[1..]);
    }
  }

  /** A template around {id} stands for the text with the id in it. */
  lemma IdTemplate(pre: string, post: string, target: Event)
    requires Bare(pre) && Bare(post) && Bare(target.id)
    ensures Expand(pre + "{id}" + post, target) == Some([pre + target.id + post])
  {
    ReplaceOne(pre, "{id}", post, target.id);
    NoPlaceholder(pre + target.id + post);
  }

  /** A template around {tag:U} stands for one text for each value of that tag. */
  lemma TagTemplate(pre: string, u: string, post: string, target: Event)
    requires Bare(pre) && Bare(u) && Bare(post)
    ensures var values, r := TagValues(target.tags, u), Expand(pre + ("{tag:" + u + "}" + post), target);
            if values == [] then r == None
            else r.Some? && |r.value| == |values| && forall i :: 0 <= i < |values| ==> r.value[i] == pre + values[i] + post
  {
    TemplateKept(pre, u, post, target.id);
    TagPlaceholder(pre, u, post);
    var values := TagValues(target.tags, u);
    forall i | 0 <= i < |values|
      ensures ReplaceAll(pre + ("{tag:" + u + "}" + post), "{tag:" + u + "}", values[i]) == pre + values[i] + post
    {
      TagReplaced(pre, u, post, values[i]);
    }
  }

  lemma TagPlaceholder(pre: string, u: string, post: string)
    requires Bare(pre) && Bare(u)
    ensures Placeholder(pre + ("{tag:" + u + "}" + post)) == Some("tag:" + u)
    ensures TrimPrefix("tag:" + u, "tag:") == u
  {
    PlaceholderAt(pre, "tag:" + u, post);
    assert "{" + ("tag:" + u) + "}" + post == "{tag:" + u + "}" + post;
  }

  lemma TagReplaced(pre: string, u: string, post: string, v: string)
    requires Bare(pre) && Bare(post)
    ensures ReplaceAll(pre + ("{tag:" + u + "}" + post), "{tag:" + u + "}", v) == pre + v + post
  {
    var mark := "{tag:" + u + "}";
    ReplaceOne(pre, mark, post, v);
    assert pre + mark + post == pre + (mark + post);
  }

  /** It holds no {id} to replace. */
  lemma TemplateKept(pre: string, u: string, post: string, id: Id)
    requires Bare(pre) && Bare(u) && Bare(post)
    ensures ReplaceAll(pre + ("{tag:" + u + "}" + post), "{id}", id) == pre + ("{tag:" + u + "}" + post)
  {
    var rest := "{tag:" + u + "}" + post;
    ReplaceAfter(pre, rest, "{id}", id);
    assert rest[1] == 't' && "{id}"[1] == 'i';
    NoOpenAfter(u, post);
    ReplaceSkip(rest, "{id}", id);
  }

  lemma NoOpenAfter(u: string, post: string)
    requires Bare(u) && Bare(post)
    ensures '{' !in ("{tag:" + u + "}" + post)[1..]
  {
    assert ("{tag:" + u + "}" + post)[1..] == "tag:" + u + "}" + post;
  }

  // -------------------------------------------------- what each bind demands

  /** The tag at `i` has that name, and a value. */
  predicate NamedAt(tags: seq<seq<string>>, i: nat, name: string) {
    i < |tags| && |tags[i]| >= 2 && tags[i][0] == name
  }

  lemma {:induction false} TagValuesIff(tags: seq<seq<string>>, name: string, v: string)
    ensures v in TagValues(tags, name) <==> exists i :: 0 <= i < |tags| && NamedAt(tags, i, name) && tags[i][1] == v
  {
    if tags != [] {
      TagValuesIff(tags[1..], name, v);
      if i :| 0 <= i < |tags| && NamedAt(tags, i, name) && tags[i][1] == v {
        assert i == 0 || (NamedAt(tags[1..], i - 1, name) && tags[1..][i - 1][1] == v);
      }
      if i :| 0 <= i < |tags| - 1 && NamedAt(tags[1..], i, name) && tags[1..][i][1] == v {
        assert NamedAt(tags, i + 1, name) && tags[i + 1][1] == v;
      }
      if NamedAt(tags, 0, name) && tags[0][1] == v {
        assert 0 < |tags|;
      }
    }
  }

  /** A bind of a tag to the id: some tag of that name has the target's id. */
  lemma IdBindIff(tag: string, att: Event, c: Context)
    ensures BindHolds(TagFromId(tag), att, c) <==>
            exists j :: 0 <= j < |att.tags| && NamedAt(att.tags, j, tag) && att.tags[j][1] == c.target.id
  {
    TagValuesIff(att.tags, tag, c.target.id);
  }

  /** A bind of a tag to a tag: the target has that tag, and each of its values is
      the value of some tag of the given name. */
  lemma TagBindIff(tag: string, source: string, att: Event, c: Context)
    ensures BindHolds(TagFromTag(tag, source), att, c) <==>
            && (exists i :: 0 <= i < |c.target.tags| && NamedAt(c.target.tags, i, source))
            && (forall i :: 0 <= i < |c.target.tags| && NamedAt(c.target.tags, i, source) ==>
                  exists j :: 0 <= j < |att.tags| && NamedAt(att.tags, j, tag) && att.tags[j][1] == c.target.tags[i][1])
  {
    var tags, want := c.target.tags, TagValues(c.target.tags, source);
    forall v ensures v in want <==> exists i :: 0 <= i < |tags| && NamedAt(tags, i, source) && tags[i][1] == v {
      TagValuesIff(tags, source, v);
    }
    forall v ensures v in TagValues(att.tags, tag) <==> exists j :: 0 <= j < |att.tags| && NamedAt(att.tags, j, tag) && att.tags[j][1] == v {
      TagValuesIff(att.tags, tag, v);
    }
    SomeValue(tags, source);
    if BindHolds(TagFromTag(tag, source), att, c) {
      forall i | 0 <= i < |tags| && NamedAt(tags, i, source)
        ensures exists j :: 0 <= j < |att.tags| && NamedAt(att.tags, j, tag) && att.tags[j][1] == tags[i][1]
      {
        assert tags[i][1] in want;
      }
    }
  }

  lemma SomeValue(tags: seq<seq<string>>, name: string)
    ensures TagValues(tags, name) != [] <==> exists i :: 0 <= i < |tags| && NamedAt(tags, i, name)
  {
    var values := TagValues(tags, name);
    if values != [] {
      TagValuesIff(tags, name, values[0]);
      assert values[0] in values;
    }
    if i :| 0 <= i < |tags| && NamedAt(tags, i, name) {
      TagValuesIff(tags, name, tags[i][1]);
      assert tags[i][1] in values;
    }
  }

  /** A template that stands for one text. */
  lemma OneTextBind(text: string, w: string, exact: bool, att: Event, c: Context)
    requires Expand(text, c.target) == Some([w])
    ensures BindHolds(Template(text, exact), att, c) <==> if exact then Trim(att.content) == Trim(w) else Contains(att.content, w)
  {
    var want := [w];
    assert w in want && forall x :: x in want ==> x == w;
  }

  /** Content around {id}: the whole content, but for white space at its ends; */
  lemma ExactIdBindIff(pre: string, post: string, att: Event, c: Context)
    requires Bare(pre) && Bare(post) && Bare(c.target.id)
    ensures BindHolds(Template(pre + "{id}" + post, true), att, c) <==> Trim(att.content) == Trim(pre + c.target.id + post)
  {
    IdTemplate(pre, post, c.target);
    OneTextBind(pre + "{id}" + post, pre + c.target.id + post, true, att, c);
  }

  /** or a part of it. */
  lemma ContainsIdBindIff(pre: string, post: string, att: Event, c: Context)
    requires Bare(pre) && Bare(post) && Bare(c.target.id)
    ensures BindHolds(Template(pre + "{id}" + post, false), att, c) <==>
            exists k :: 0 <= k <= |att.content| && OccursAt(att.content, pre + c.target.id + post, k)
  {
    IdTemplate(pre, post, c.target);
    OneTextBind(pre + "{id}" + post, pre + c.target.id + post, false, att, c);
    ContainsIff(att.content, pre + c.target.id + post);
  }

  /** Content around {tag:U}: the target has that tag, and the text with each of its
      values is the content, or a part of it. */
  lemma TagTemplateBindIff(pre: string, u: string, post: string, exact: bool, att: Event, c: Context)
    requires Bare(pre) && Bare(u) && Bare(post)
    ensures BindHolds(Template(pre + ("{tag:" + u + "}" + post), exact), att, c) <==>
            && (exists i :: 0 <= i < |c.target.tags| && NamedAt(c.target.tags, i, u))
            && (forall i :: 0 <= i < |c.target.tags| && NamedAt(c.target.tags, i, u) ==>
                  ContentIs(att.content, pre + c.target.tags[i][1] + post, exact))
  {
    var values := TagValues(c.target.tags, u);
    ValuesBindIff(pre, u, post, exact, att, c);
    forall v ensures v in values <==> exists i :: 0 <= i < |c.target.tags| && NamedAt(c.target.tags, i, u) && c.target.tags[i][1] == v {
      TagValuesIff(c.target.tags, u, v);
    }
    if values != [] {
      assert values[0] in values;
    }
    if i :| 0 <= i < |c.target.tags| && NamedAt(c.target.tags, i, u) {
      assert c.target.tags[i][1] in values;
    }
  }

  lemma ValuesBindIff(pre: string, u: string, post: string, exact: bool, att: Event, c: Context)
    requires Bare(pre) && Bare(u) && Bare(post)
    ensures BindHolds(Template(pre + ("{tag:" + u + "}" + post), exact), att, c) <==>
            var values := TagValues(c.target.tags, u);
            values != [] && forall v :: v in values ==> ContentIs(att.content, pre + v + post, exact)
  {
    var values, want := TagValues(c.target.tags, u), Expand(pre + ("{tag:" + u + "}" + post), c.target);
    TagTemplate(pre, u, post, c.target);
    if values != [] {
      TextsAre(values, want.value, pre, post);
    }
    forall w ensures ContentIs(att.content, w, exact) <==> if exact then Trim(att.content) == Trim(w) else Contains(att.content, w) {
      ContainsIff(att.content, w);
    }
  }

  lemma TextsAre(values: seq<string>, texts: seq<string>, pre: string, post: string)
    requires |texts| == |values| && forall i :: 0 <= i < |values| ==> texts[i] == pre + values[i] + post
    ensures forall w :: w in texts <==> exists v :: v in values && w == pre + v + post
  {
    forall w | w in texts ensures exists v :: v in values && w == pre + v + post {
      var i :| 0 <= i < |texts| && texts[i] == w;
      assert values[i] in values;
    }
    forall w, v | v in values && w == pre + v + post ensures w in texts {
      var i :| 0 <= i < |values| && values[i] == v;
      assert texts[i] == w;
    }
  }

  /** The content is the text, but for white space at the ends; or holds it. */
  predicate ContentIs(content: string, w: string, exact: bool) {
    if exact then Trim(content) == Trim(w) else exists k :: 0 <= k <= |content| && OccursAt(content, w, k)
  }

  /** A requirement binds the id exactly when one of its binds is by id, or has {id}
      somewhere in its text. */
  lemma BindsIdIff(spec: Spec)
    ensures BindsId(spec) <==>
            exists i :: 0 <= i < |spec.binds| &&
              (spec.binds[i].TagFromId?
               || (spec.binds[i].Template? && exists k :: 0 <= k <= |spec.binds[i].text| && OccursAt(spec.binds[i].text, "{id}", k)))
  {
    forall i | 0 <= i < |spec.binds|
      ensures NamesId(spec.binds[i]) <==>
              (spec.binds[i].TagFromId?
               || (spec.binds[i].Template? && exists k :: 0 <= k <= |spec.binds[i].text| && OccursAt(spec.binds[i].text, "{id}", k)))
    {
      if spec.binds[i].Template? {
        ContainsIff(spec.binds[i].text, "{id}");
      }
    }
  }

  function FirstFailingBind(binds: seq<Bind>, att: Event, c: Context, at: nat): Option<nat> {
    if binds == [] then None
    else if !BindHolds(binds[0], att, c) then Some(at)
    else FirstFailingBind(binds[1..], att, c, at + 1)
  }

  /** checkAttestation: why `att` does not satisfy `spec`, tests in a fixed
      order, or None if it does. */
  function Check(att: Event, spec: Spec, c: Context): Option<Reason> {
    var created := Nanos(att.createdAt);
    if !att.verifies then Some(BadSignature)
    else if att.pubkey == c.signerPub then Some(OwnSignature)
    else if att.kind !in spec.kinds then Some(WrongKind(att.kind))
    else if att.pubkey !in spec.authors then Some(AuthorNotAllowed)
    else if created > c.now + c.skew then Some(FutureDated)
    else if c.now - created > spec.maxAge then Some(Stale(spec.maxAge))
    else if c.startTime.Some? && created < c.startTime.value - c.skew then Some(BeforeStart)
    else if att.id in c.used then Some(AlreadyUsed)
    else match FirstFailingBind(spec.binds, att, c, 1)
      case Some(k) => Some(BindFails(k))
      case None =>
        if BindsId(spec) && created + c.skew < Nanos(c.target.createdAt) then Some(PredatesTarget) else None
  }

  /** An attestation passes exactly when all of this holds, whatever the order of
      the tests; a bind that is reported is the first that fails. */
  lemma PassesIff(att: Event, spec: Spec, c: Context)
    ensures Check(att, spec, c) == None <==>
            && att.verifies && att.pubkey != c.signerPub && att.kind in spec.kinds && att.pubkey in spec.authors
            && c.now - spec.maxAge <= Nanos(att.createdAt) <= c.now + c.skew
            && (c.startTime.Some? ==> c.startTime.value - c.skew <= Nanos(att.createdAt))
            && att.id !in c.used
            && (forall b :: b in spec.binds ==> BindHolds(b, att, c))
            && (BindsId(spec) ==> Nanos(c.target.createdAt) - c.skew <= Nanos(att.createdAt))
    ensures forall k: nat :: Check(att, spec, c) == Some(BindFails(k)) ==>
              1 <= k <= |spec.binds| && !BindHolds(spec.binds[k - 1], att, c)
              && forall i :: 0 <= i < k - 1 ==> BindHolds(spec.binds[i], att, c)
  {
    FailingBind(spec.binds, att, c, 1);
    if forall i :: 0 <= i < |spec.binds| ==> BindHolds(spec.binds[i], att, c) {
      assert forall b :: b in spec.binds ==> BindHolds(b, att, c);
    }
  }

  lemma {:induction false} FailingBind(binds: seq<Bind>, att: Event, c: Context, at: nat)
    ensures var r := FirstFailingBind(binds, att, c, at);
            if r.None? then forall i :: 0 <= i < |binds| ==> BindHolds(binds[i], att, c)
            else at <= r.value < at + |binds| && !BindHolds(binds[r.value - at], att, c)
                 && forall i :: 0 <= i < r.value - at ==> BindHolds(binds[i], att, c)
    decreases |binds|
  {
    if binds != [] && BindHolds(binds[0], att, c) {
      FailingBind(binds[1..], att, c, at + 1);
      assert forall i :: 0 < i < |binds| ==> binds[i] == binds[1..][i - 1];
    }
  }

  // -------------------------------------------------------------- the choice

  predicate Passes(specs: seq<Spec>, atts: seq<Event>, c: Context, s: nat, a: nat)
    requires s < |specs| && a < |atts|
  {
    Check(atts[a], specs[s], c) == None
  }

  predicate Passable(specs: seq<Spec>, atts: seq<Event>, c: Context, s: nat)
    requires s < |specs|
  {
    exists a :: 0 <= a < |atts| && Passes(specs, atts, c, s, a)
  }

  /** One passing attestation for each of the first |f| requirements, no
      attestation twice. */
  ghost predicate IsChoice(specs: seq<Spec>, atts: seq<Event>, c: Context, f: seq<nat>) {
    && |f| <= |specs|
    && (forall s :: 0 <= s < |f| ==> f[s] < |atts| && Passes(specs, atts, c, s, f[s]))
    && NoDup(f)
  }

  ghost predicate IsFullChoice(specs: seq<Spec>, atts: seq<Event>, c: Context, f: seq<nat>) {
    |f| == |specs| && IsChoice(specs, atts, c, f)
  }

  datatype Assignment =
    | Assigned(picked: seq<nat>)
    | Required(spec: nat)
    | Fails(spec: nat, reason: Reason)
    | Conflict

  /** `table` holds the outcome of every check. */
  ghost predicate IsTable(table: seq<seq<Option<Reason>>>, specs: seq<Spec>, atts: seq<Event>, c: Context) {
    && |table| == |specs|
    && forall s :: 0 <= s < |specs| ==>
         |table[s]| == |atts| && forall a :: 0 <= a < |atts| ==> table[s][a] == Check(atts[a], specs[s], c)
  }

  method BuildTable(specs: seq<Spec>, atts: seq<Event>, c: Context) returns (table: seq<seq<Option<Reason>>>)
    ensures IsTable(table, specs, atts, c)
  {
    table := [];
    for s := 0 to |specs|
      invariant IsTable(table, specs[..s], atts, c)
    {
      var row: seq<Option<Reason>> := [];
      for a := 0 to |atts|
        invariant |row| == a && forall k :: 0 <= k < a ==> row[k] == Check(atts[k], specs[s], c)
      {
        row := row + [Check(atts[a], specs[s], c)];
      }
      table := table + [row];
    }
    assert specs[..|specs|] == specs;
  }

  /** `taken` marks the attestations of a partial choice. */
  ghost predicate Marks(taken: seq<bool>, f: seq<nat>) {
    forall a :: 0 <= a < |taken| ==> (taken[a] <==> a in f)
  }

  /** No full choice starts with `f`. */
  ghost predicate DeadEnd(specs: seq<Spec>, atts: seq<Event>, c: Context, f: seq<nat>) {
    forall g :: |g| == |specs| && |f| <= |g| && g[..|f|] == f ==> !IsFullChoice(specs, atts, c, g)
  }

  lemma TakenIsDead(specs: seq<Spec>, atts: seq<Event>, c: Context, f: seq<nat>, a: nat)
    requires |f| < |specs| && a < |atts|
    requires a in f || !Passes(specs, atts, c, |f|, a)
    ensures DeadEnd(specs, atts, c, f + [a])
  {
    forall g | |g| == |specs| && g[..|f| + 1] == f + [a] ensures !IsFullChoice(specs, atts, c, g) {
      assert g[|f|] == (f + [a])[|f|] == a;
      if a in f {
        var i :| 0 <= i < |f| && f[i] == a;
        assert g[i] == (f + [a])[i] == a;
      }
    }
  }

  /** If every next pick is a dead end, so is the partial choice. */
  lemma AllDead(specs: seq<Spec>, atts: seq<Event>, c: Context, f: seq<nat>)
    requires |f| < |specs|
    requires DeadBefore(specs, atts, c, f, |atts|)
    ensures DeadEnd(specs, atts, c, f)
  {
    forall g | |g| == |specs| && g[..|f|] == f ensures !IsFullChoice(specs, atts, c, g) {
      if g[|f|] < |atts| {
        assert g[..|f| + 1] == f + [g[|f|]];
        assert DeadEnd(specs, atts, c, f + [g[|f|]]);
      }
    }
  }

  /** No full choice starts with `f` and then one of the first `n`. */
  ghost predicate DeadBefore(specs: seq<Spec>, atts: seq<Event>, c: Context, f: seq<nat>, n: nat) {
    forall a :: 0 <= a < n ==> DeadEnd(specs, atts, c, f + [a])
  }

  lemma DeadOneMore(specs: seq<Spec>, atts: seq<Event>, c: Context, f: seq<nat>, n: nat)
    ensures DeadBefore(specs, atts, c, f, n) && DeadEnd(specs, atts, c, f + [n]) ==> DeadBefore(specs, atts, c, f, n + 1)
  {
  }

  lemma ExtendChoice(specs: seq<Spec>, atts: seq<Event>, c: Context, f: seq<nat>, a: nat)
    requires IsChoice(specs, atts, c, f) && |f| < |specs| && a < |atts|
    requires a !in f && Passes(specs, atts, c, |f|, a)
    ensures IsChoice(specs, atts, c, f + [a])
  {
  }

  /** The recursive search: requirements from `s` on, given picks before it. */
  method Solve(ghost specs: seq<Spec>, ghost atts: seq<Event>, ghost c: Context,
               table: seq<seq<Option<Reason>>>, picked: array<nat>, taken: array<bool>, s: nat)
    returns (found: bool)
    requires IsTable(table, specs, atts, c)
    requires picked.Length == |specs| && taken.Length == |atts| && s <= |specs|
    requires IsChoice(specs, atts, c, picked[..s]) && Marks(taken[..], picked[..s])
    modifies picked, taken
    ensures picked[..s] == old(picked[..s])
    ensures found ==> IsFullChoice(specs, atts, c, picked[..])
    ensures !found ==> taken[..] == old(taken[..]) && DeadEnd(specs, atts, c, old(picked[..s]))
    decreases |specs| - s, 1
  {
    if s == picked.Length {
      assert picked[..s] == picked[..];
      return true;
    }
    ghost var f := picked[..s];
    ghost var marks := taken[..];
    for a := 0 to taken.Length
      invariant picked[..s] == f && taken[..] == marks
      invariant DeadBefore(specs, atts, c, f, a)
    {
      assert taken[..][a] == taken[a];
      DeadOneMore(specs, atts, c, f, a);
      if taken[a] || table[s][a] != None {
        TakenIsDead(specs, atts, c, f, a);
      } else {
        found := TryPick(specs, atts, c, table, picked, taken, s, a);
        if found {
          return;
        }
      }
    }
    AllDead(specs, atts, c, f);
    found := false;
  }

  /** Picks `a` for requirement `s`, searches on, and takes the pick back if that fails. */
  method TryPick(ghost specs: seq<Spec>, ghost atts: seq<Event>, ghost c: Context,
                 table: seq<seq<Option<Reason>>>, picked: array<nat>, taken: array<bool>, s: nat, a: nat)
    returns (found: bool)
    requires IsTable(table, specs, atts, c)
    requires picked.Length == |specs| && taken.Length == |atts| && s < |specs| && a < |atts|
    requires IsChoice(specs, atts, c, picked[..s]) && Marks(taken[..], picked[..s])
    requires !taken[a] && table[s][a] == None
    modifies picked, taken
    ensures picked[..s] == old(picked[..s])
    ensures found ==> IsFullChoice(specs, atts, c, picked[..])
    ensures !found ==> taken[..] == old(taken[..]) && DeadEnd(specs, atts, c, old(picked[..s]) + [a])
    decreases |specs| - s, 0
  {
    ghost var f, marks := picked[..s], taken[..];
    assert marks[a] == taken[a];
    ExtendChoice(specs, atts, c, f, a);
    taken[a], picked[s] := true, a;
    assert picked[..s + 1] == f + [a];
    assert taken[..] == marks[a := true];
    found := Solve(specs, atts, c, table, picked, taken, s + 1);
    assert picked[..s] == picked[..s + 1][..s];
    if !found {
      taken[a] := false;
      assert taken[..] == marks;
    }
  }

  /** The attestation whose failure is reported: the last of a right kind, else
      the first. */
  function Reported(atts: seq<Event>, kinds: seq<int>): (k: nat)
    requires atts != []
    ensures k < |atts|
    ensures atts[k].kind in kinds || (k == 0 && forall i :: 0 <= i < |atts| ==> atts[i].kind !in kinds)
  {
    var n := |atts| - 1;
    if n == 0 || atts[n].kind in kinds then n else Reported(atts[..n], kinds)
  }

  lemma ReportedSnoc(atts: seq<Event>, kinds: seq<int>, a: nat)
    requires 0 < a < |atts|
    ensures Reported(atts[..a + 1], kinds) == if atts[a].kind in kinds then a else Reported(atts[..a], kinds)
  {
    assert atts[..a + 1][..a] == atts[..a];
  }

  /** Scans one requirement for a passing attestation, or the failure to report. */
  method Diagnose(ghost specs: seq<Spec>, spec: Spec, atts: seq<Event>, ghost c: Context, s: nat,
                  row: seq<Option<Reason>>)
    returns (satisfiable: bool, reason: Option<Reason>)
    requires s < |specs| && specs[s] == spec && |row| == |atts|
    requires forall a :: 0 <= a < |atts| ==> row[a] == Check(atts[a], spec, c)
    ensures satisfiable <==> Passable(specs, atts, c, s)
    ensures !satisfiable ==> reason == if atts == [] then None else Check(atts[Reported(atts, spec.kinds)], spec, c)
  {
    reason := None;
    for a := 0 to |atts|
      invariant forall k :: 0 <= k < a ==> !Passes(specs, atts, c, s, k)
      invariant a == 0 ==> reason == None
      invariant a > 0 ==> reason == Check(atts[Reported(atts[..a], spec.kinds)], spec, c)
    {
      if row[a] == None {
        assert Passes(specs, atts, c, s, a);
        return true, reason;
      }
      if a > 0 {
        ReportedSnoc(atts, spec.kinds, a);
        assert !Passes(specs, atts, c, s, Reported(atts[..a], spec.kinds));
      }
      if reason == None || atts[a].kind in spec.kinds {
        reason := row[a];
      }
    }
    assert atts[..|atts|] == atts;
    satisfiable := false;
  }

  /** The whole search, from no picks. */
  method Search(specs: seq<Spec>, atts: seq<Event>, ghost c: Context, table: seq<seq<Option<Reason>>>)
    returns (found: bool, choice: seq<nat>)
    requires IsTable(table, specs, atts, c)
    ensures found ==> IsFullChoice(specs, atts, c, choice)
    ensures found <==> exists f :: IsFullChoice(specs, atts, c, f)
  {
    var picked := new nat[|specs|](_ => 0);
    var taken := new bool[|atts|](_ => false);
    found := Solve(specs, atts, c, table, picked, taken, 0);
    choice := picked[..];
    forall f | !found ensures !IsFullChoice(specs, atts, c, f) {
      assert |f| == |specs| ==> f[..0] == [];
    }
  }

  /** assignAttestations. */
  method AssignAttestations(specs: seq<Spec>, atts: seq<Event>, c: Context) returns (r: Assignment)
    ensures r.Assigned? <==> exists f :: IsFullChoice(specs, atts, c, f)
    ensures r.Assigned? ==> IsFullChoice(specs, atts, c, r.picked)
    ensures r.Conflict? <==> && (forall s :: 0 <= s < |specs| ==> Passable(specs, atts, c, s))
                             && !exists f :: IsFullChoice(specs, atts, c, f)
    ensures (r.Required? || r.Fails?) ==> && r.spec < |specs| && !Passable(specs, atts, c, r.spec)
                                          && forall s :: 0 <= s < r.spec ==> Passable(specs, atts, c, s)
    ensures r.Required? ==> atts == []
    ensures r.Fails? ==> atts != [] && Check(atts[Reported(atts, specs[r.spec].kinds)], specs[r.spec], c) == Some(r.reason)
  {
    var table := BuildTable(specs, atts, c);
    var found, choice := Search(specs, atts, c, table);
    if found {
      return Assigned(choice);
    }
    for s := 0 to |specs|
      invariant forall k :: 0 <= k < s ==> Passable(specs, atts, c, k)
    {
      var satisfiable, reason := Diagnose(specs, specs[s], atts, c, s, table[s]);
      if !satisfiable {
        UnpassableHasNoChoice(specs, atts, c, s);
        return if reason == None then Required(s) else Fails(s, reason.value);
      }
    }
    r := Conflict;
  }

  lemma UnpassableHasNoChoice(specs: seq<Spec>, atts: seq<Event>, c: Context, s: nat)
    requires s < |specs| && !Passable(specs, atts, c, s)
    ensures !exists f :: IsFullChoice(specs, atts, c, f)
    ensures atts != [] ==> !Passes(specs, atts, c, s, Reported(atts, specs[s].kinds))
  {
    forall f ensures !IsFullChoice(specs, atts, c, f) {
      assert |f| == |specs| && f[s] < |atts| ==> !Passes(specs, atts, c, s, f[s]);
    }
  }

  // ------------------------------------------------- what a choice consumes

  /** The ids a choice uses up. */
  function Consumed(atts: seq<Event>, picked: seq<nat>): seq<Id>
    requires forall i :: 0 <= i < |picked| ==> picked[i] < |atts|
  {
    seq(|picked|, i requires 0 <= i < |picked| => atts[picked[i]].id)
  }

  /** A full choice that uses no id twice. */
  ghost predicate IsChoiceById(specs: seq<Spec>, atts: seq<Event>, c: Context, f: seq<nat>) {
    IsFullChoice(specs, atts, c, f) && NoDup(Consumed(atts, f))
  }

  /** A check reads everything of a requirement but its name. */
  lemma NameIsNotRead(e: Event, spec: Spec, name: string, c: Context)
    ensures Check(e, spec.(name := name), c) == Check(e, spec, c)
  {
    assert BindsId(spec.(name := name)) == BindsId(spec);
  }

  /** One event listed twice satisfies two requirements that differ only in name,
      and is consumed twice; listed once it does not. */
  lemma OneEventTwice(e: Event, spec: Spec, other: string, c: Context)
    requires Validated(spec, c.signerPub) && Check(e, spec, c) == None && other != "" && other != spec.name
    ensures var specs := [spec, spec.(name := other)];
            && AllValidated(specs, c.signerPub)
            && IsFullChoice(specs, [e, e], c, [0, 1]) && Consumed([e, e], [0, 1]) == [e.id, e.id]
            && (!exists f :: IsChoiceById(specs, [e, e], c, f))
            && (!exists f :: IsFullChoice(specs, [e], c, f))
  {
    var specs := [spec, spec.(name := other)];
    NameIsNotRead(e, spec, other, c);
    assert Passes(specs, [e, e], c, 0, 0) && Passes(specs, [e, e], c, 1, 1);
    forall f | IsFullChoice(specs, [e, e], c, f) ensures !NoDup(Consumed([e, e], f)) {
      assert Consumed([e, e], f)[0] == Consumed([e, e], f)[1];
    }
    assert forall f :: IsChoice(specs, [e], c, f) && |f| == 2 ==> f[0] == f[1];
  }

  /** For every policy, positions can be chosen exactly when ids can. */
  ghost predicate PositionsStandForIds(atts: seq<Event>, c: Context) {
    forall specs :: AllValidated(specs, c.signerPub) ==>
      ((exists f :: IsFullChoice(specs, atts, c, f)) <==> (exists f :: IsChoiceById(specs, atts, c, f)))
  }

  /** Some requirement a policy may state takes this attestation. */
  ghost predicate Usable(atts: seq<Event>, c: Context, a: nat)
    requires a < |atts|
  {
    exists s :: Validated(s, c.signerPub) && Check(atts[a], s, c) == None
  }

  ghost predicate RepeatedUsable(atts: seq<Event>, c: Context, a: nat, b: nat) {
    a < b < |atts| && atts[a].id == atts[b].id && Usable(atts, c, a) && Usable(atts, c, b)
  }

  /** The choice is by position. It agrees with a choice by id for every policy
      exactly when no two usable attestations of the request share an id. */
  lemma PositionsStandForIdsIff(atts: seq<Event>, c: Context)
    ensures PositionsStandForIds(atts, c) <==> !exists a: nat, b: nat :: RepeatedUsable(atts, c, a, b)
  {
    if a: nat, b: nat :| RepeatedUsable(atts, c, a, b) {
      RepeatSeparates(atts, c, a, b);
    } else {
      forall specs | AllValidated(specs, c.signerPub)
        ensures (exists f :: IsFullChoice(specs, atts, c, f)) <==> (exists f :: IsChoiceById(specs, atts, c, f))
      {
        if f :| IsFullChoice(specs, atts, c, f) {
          DistinctUsable(specs, atts, c, f);
          assert IsChoiceById(specs, atts, c, f);
        }
      }
    }
  }

  lemma DistinctUsable(specs: seq<Spec>, atts: seq<Event>, c: Context, f: seq<nat>)
    requires AllValidated(specs, c.signerPub) && IsFullChoice(specs, atts, c, f)
    requires !exists a: nat, b: nat :: RepeatedUsable(atts, c, a, b)
    ensures NoDup(Consumed(atts, f))
  {
    forall i, j | 0 <= i < j < |f| ensures atts[f[i]].id != atts[f[j]].id {
      assert specs[i] in specs && specs[j] in specs;
      assert Passes(specs, atts, c, i, f[i]) && Passes(specs, atts, c, j, f[j]);
      assert Usable(atts, c, f[i]) && Usable(atts, c, f[j]);
      assert !RepeatedUsable(atts, c, f[i], f[j]) && !RepeatedUsable(atts, c, f[j], f[i]);
    }
  }

  function Indices(n: nat): (r: seq<nat>)
    ensures |r| == n && forall i :: 0 <= i < n ==> r[i] == i
  {
    seq(n, i => i)
  }

  lemma IndicesAll(n: nat)
    ensures NoDup(Indices(n)) && forall a: nat :: a in Indices(n) <==> a < n
  {
    forall a: nat | a < n ensures a in Indices(n) {
      assert Indices(n)[a] == a;
    }
  }

  /** The n-th of a row of names, each a letter longer. */
  function Numbered(n: nat): (r: string)
    ensures |r| == n + 1
  {
    seq(n + 1, _ => 'a')
  }

  function Satisfies(atts: seq<Event>, c: Context, s: Spec): nat -> bool {
    (a: nat) => a < |atts| && Check(atts[a], s, c) == None
  }

  function SatisfiesOnly(atts: seq<Event>, c: Context, s: Spec, t: Spec): nat -> bool {
    (a: nat) => a < |atts| && Check(atts[a], s, c) != None && Check(atts[a], t, c) == None
  }

  /** The positions that satisfy the first of two requirements, and those that
      satisfy only the second. */
  function First(atts: seq<Event>, c: Context, s: Spec): seq<nat> {
    Filter(Indices(|atts|), Satisfies(atts, c, s))
  }

  function Second(atts: seq<Event>, c: Context, s: Spec, t: Spec): seq<nat> {
    Filter(Indices(|atts|), SatisfiesOnly(atts, c, s, t))
  }

  function Takers(atts: seq<Event>, c: Context, s: Spec, t: Spec): seq<nat> {
    First(atts, c, s) + Second(atts, c, s, t)
  }

  /** Both requirements, asked for as often as there are takers, under a name each. */
  function Demand(atts: seq<Event>, c: Context, s: Spec, t: Spec): (r: seq<Spec>)
    ensures |r| == |Takers(atts, c, s, t)|
    ensures forall i :: 0 <= i < |r| ==> r[i] == (if i < |First(atts, c, s)| then s else t).(name := Numbered(i))
  {
    seq(|Takers(atts, c, s, t)|, i requires 0 <= i < |Takers(atts, c, s, t)| =>
      (if i < |First(atts, c, s)| then s else t).(name := Numbered(i)))
  }

  lemma DemandIsValid(atts: seq<Event>, c: Context, s: Spec, t: Spec)
    requires Validated(s, c.signerPub) && Validated(t, c.signerPub)
    ensures AllValidated(Demand(atts, c, s, t), c.signerPub)
  {
    var specs := Demand(atts, c, s, t);
    forall x | x in specs ensures Validated(x, c.signerPub) {
      var i :| 0 <= i < |specs| && specs[i] == x;
    }
    forall i, j | 0 <= i < j < |specs| ensures specs[i].name != specs[j].name {
      assert |specs[i].name| != |specs[j].name|;
    }
  }

  lemma TakersAre(atts: seq<Event>, c: Context, s: Spec, t: Spec)
    ensures NoDup(Takers(atts, c, s, t))
    ensures forall a: nat :: a in Takers(atts, c, s, t) <==>
              a < |atts| && (Check(atts[a], s, c) == None || Check(atts[a], t, c) == None)
  {
    FilterKeepsNoDup(Indices(|atts|), Satisfies(atts, c, s));
    FilterKeepsNoDup(Indices(|atts|), SatisfiesOnly(atts, c, s, t));
    var x, y := First(atts, c, s), Second(atts, c, s, t);
    IndicesAll(|atts|);
    forall i, j | 0 <= i < |x| && 0 <= j < |y| ensures x[i] != y[j] {
      assert x[i] in x && y[j] in y;
    }
  }

  lemma TakersChoice(atts: seq<Event>, c: Context, s: Spec, t: Spec)
    ensures IsFullChoice(Demand(atts, c, s, t), atts, c, Takers(atts, c, s, t))
  {
    TakersAre(atts, c, s, t);
    var x, y, specs := First(atts, c, s), Second(atts, c, s, t), Demand(atts, c, s, t);
    forall k | 0 <= k < |x + y| ensures (x + y)[k] < |atts| && Passes(specs, atts, c, k, (x + y)[k]) {
      if k < |x| {
        assert x[k] in x;
        NameIsNotRead(atts[x[k]], s, Numbered(k), c);
      } else {
        assert y[k - |x|] in y;
        NameIsNotRead(atts[y[k - |x|]], t, Numbered(k), c);
      }
    }
  }

  /** A choice as long as there are takers uses every one of them. */
  lemma ChoiceUsesAll(atts: seq<Event>, c: Context, s: Spec, t: Spec, g: seq<nat>, a: nat)
    requires IsFullChoice(Demand(atts, c, s, t), atts, c, g) && a in Takers(atts, c, s, t)
    ensures a in g
  {
    var f, specs := Takers(atts, c, s, t), Demand(atts, c, s, t);
    TakersAre(atts, c, s, t);
    forall i | 0 <= i < |g| ensures g[i] in f {
      assert Passes(specs, atts, c, i, g[i]);
      NameIsNotRead(atts[g[i]], s, Numbered(i), c);
      NameIsNotRead(atts[g[i]], t, Numbered(i), c);
    }
    var got, all := (set x | x in g), (set x | x in f);
    NoDupSize(g);
    NoDupSize(f);
    assert got <= all;
    if a !in got {
      SubsetSize(got, all - {a});
    }
  }

  /** Two usable attestations under one id: some policy can be met by position
      and not by id. */
  lemma RepeatSeparates(atts: seq<Event>, c: Context, a: nat, b: nat)
    requires RepeatedUsable(atts, c, a, b)
    ensures !PositionsStandForIds(atts, c)
  {
    var s :| Validated(s, c.signerPub) && Check(atts[a], s, c) == None;
    var t :| Validated(t, c.signerPub) && Check(atts[b], t, c) == None;
    var specs := Demand(atts, c, s, t);
    TakersAre(atts, c, s, t);
    TakersChoice(atts, c, s, t);
    DemandIsValid(atts, c, s, t);
    forall g ensures !IsChoiceById(specs, atts, c, g) {
      if IsFullChoice(specs, atts, c, g) {
        ChoiceUsesAll(atts, c, s, t, g, a);
        ChoiceUsesAll(atts, c, s, t, g, b);
        ConsumedTwice(atts, g, a, b);
      }
    }
  }

  lemma ConsumedTwice(atts: seq<Event>, g: seq<nat>, a: nat, b: nat)
    requires forall i :: 0 <= i < |g| ==> g[i] < |atts|
    requires a in g && b in g && a < b < |atts| && atts[a].id == atts[b].id
    ensures !NoDup(Consumed(atts, g))
  {
    var i :| 0 <= i < |g| && g[i] == a;
    var j :| 0 <= j < |g| && g[j] == b;
    var ids := Consumed(atts, g);
    assert ids[i] == ids[j] && (i < j || j < i);
  }
}
