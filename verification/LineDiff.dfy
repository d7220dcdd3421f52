/** `ncli event diff` (cli/event/diff.go): the line diff and the tag diff. */
module LineDiff {
  import opened Text

  type Line = string

  const MAX_DIFF_CELLS := 4_000_000

  // ------------------------------------------------------------ the meaning

  /** `s` is what is left of `t` after dropping some of its elements. */
  ghost predicate IsSubsequence<T>(s: seq<T>, t: seq<T>) {
    s == [] || (t != [] && (if s[0] == t[0] then IsSubsequence(s[1..], t[1..]) || IsSubsequence(s, t[1..])
                            else IsSubsequence(s, t[1..])))
  }

  predicate IsKept(l: Line) { |l| >= 2 && l[..2] == "  " }
  predicate IsRemoved(l: Line) { |l| >= 2 && l[..2] == "- " }
  predicate IsAdded(l: Line) { |l| >= 2 && l[..2] == "+ " }

  /** The output lines with one of two marks, the marks dropped. */
  function OldSide(out: seq<Line>): seq<Line> {
    if out == [] then []
    else (if IsKept(out[0]) || IsRemoved(out[0]) then [out[0][2..]] else []) + OldSide(out[1..])
  }

  function NewSide(out: seq<Line>): seq<Line> {
    if out == [] then []
    else (if IsKept(out[0]) || IsAdded(out[0]) then [out[0][2..]] else []) + NewSide(out[1..])
  }

  function KeptLines(out: seq<Line>): seq<Line> {
    if out == [] then []
    else (if IsKept(out[0]) then [out[0][2..]] else []) + KeptLines(out[1..])
  }

  lemma {:induction false} OldConcat(x: seq<Line>, y: seq<Line>)
    ensures OldSide(x + y) == OldSide(x) + OldSide(y)
  {
    if x == [] {
      assert x + y == y;
    } else {
      OldConcat(x[1..], y);
      assert (x + y)[0] == x[0] && (x + y)[1..] == x[1..] + y;
    }
  }

  lemma {:induction false} NewConcat(x: seq<Line>, y: seq<Line>)
    ensures NewSide(x + y) == NewSide(x) + NewSide(y)
  {
    if x == [] {
      assert x + y == y;
    } else {
      NewConcat(x[1..], y);
      assert (x + y)[0] == x[0] && (x + y)[1..] == x[1..] + y;
    }
  }

  lemma {:induction false} KeptConcat(x: seq<Line>, y: seq<Line>)
    ensures KeptLines(x + y) == KeptLines(x) + KeptLines(y)
  {
    if x == [] {
      assert x + y == y;
    } else {
      var head := if IsKept(x[0]) then [x[0][2..]] else [];
      KeptConcat(x[1..], y);
      assert (x + y)[0] == x[0] && (x + y)[1..] == x[1..] + y;
      assert head + (KeptLines(x[1..]) + KeptLines(y)) == head + KeptLines(x[1..]) + KeptLines(y);
    }
  }

  lemma SidesConcat(x: seq<Line>, y: seq<Line>)
    ensures OldSide(x + y) == OldSide(x) + OldSide(y)
    ensures NewSide(x + y) == NewSide(x) + NewSide(y)
    ensures KeptLines(x + y) == KeptLines(x) + KeptLines(y)
  {
    OldConcat(x, y);
    NewConcat(x, y);
    KeptConcat(x, y);
  }

  /** Appending one marked line. */
  lemma SidesSnoc(out: seq<Line>, l: Line)
    ensures OldSide(out + ["  " + l]) == OldSide(out) + [l]
    ensures NewSide(out + ["  " + l]) == NewSide(out) + [l]
    ensures KeptLines(out + ["  " + l]) == KeptLines(out) + [l]
    ensures OldSide(out + ["- " + l]) == OldSide(out) + [l]
    ensures NewSide(out + ["- " + l]) == NewSide(out)
    ensures KeptLines(out + ["- " + l]) == KeptLines(out)
    ensures OldSide(out + ["+ " + l]) == OldSide(out)
    ensures NewSide(out + ["+ " + l]) == NewSide(out) + [l]
    ensures KeptLines(out + ["+ " + l]) == KeptLines(out)
  {
    SidesConcat(out, ["  " + l]);
    SidesConcat(out, ["- " + l]);
    SidesConcat(out, ["+ " + l]);
  }

  // --------------------------------------------------------- the recurrence

  function Max(x: int, y: int): int { if x >= y then x else y }

  /** The recurrence the table holds. */
  function Lcs(a: seq<Line>, b: seq<Line>): (n: nat)
    decreases |a| + |b|
  {
    if a == [] || b == [] then 0
    else if a[0] == b[0] then Lcs(a[1..], b[1..]) + 1
    else Max(Lcs(a[1..], b), Lcs(a, b[1..]))
  }

  lemma {:induction false} SubsequenceTail<T>(s: seq<T>, t: seq<T>)
    requires s != [] && IsSubsequence(s, t)
    ensures IsSubsequence(s[1..], t)
    ensures t != [] && s[0] == t[0] ==> IsSubsequence(s[1..], t[1..])
    ensures t != [] && s[0] != t[0] ==> IsSubsequence(s, t[1..])
    decreases |t|
  {
    if s[0] == t[0] && IsSubsequence(s[1..], t[1..]) {
      assert [t[0]] + t[1..] == t;
    } else {
      SubsequenceTail(s, t[1..]);
      assert [t[0]] + t[1..] == t;
    }
  }

  /** No common subsequence is longer than what the recurrence says. */
  lemma {:induction false} LcsBounds(a: seq<Line>, b: seq<Line>, s: seq<Line>)
    requires IsSubsequence(s, a) && IsSubsequence(s, b)
    ensures |s| <= Lcs(a, b)
    decreases |a| + |b|
  {
    if s != [] {
      SubsequenceTail(s, a);
      SubsequenceTail(s, b);
      if a[0] == b[0] {
        if s[0] == a[0] {
          LcsBounds(a[1..], b[1..], s[1..]);
        } else {
          LcsBounds(a[1..], b[1..], s);
        }
      } else if s[0] != a[0] {
        LcsBounds(a[1..], b, s);
      } else {
        LcsBounds(a, b[1..], s);
      }
    }
  }

  /** The lines an output keeps are common to both its sides. */
  lemma {:induction false} KeptIsCommon(out: seq<Line>)
    ensures IsSubsequence(KeptLines(out), OldSide(out))
    ensures IsSubsequence(KeptLines(out), NewSide(out))
  {
    if out != [] {
      KeptIsCommon(out[1..]);
      var k, o, n := KeptLines(out[1..]), OldSide(out[1..]), NewSide(out[1..]);
      var l := if |out[0]| >= 2 then out[0][2..] else "";
      if IsKept(out[0]) {
        assert ([l] + k)[1..] == k && ([l] + o)[1..] == o && ([l] + n)[1..] == n;
      } else {
        assert [] + k == k && [] + o == o && [] + n == n;
      }
    }
  }

  // -------------------------------------------------------------- the table

  function Cell(a: seq<Line>, b: seq<Line>, i: nat, j: nat): nat
    requires i <= |a| && j <= |b|
  {
    Lcs(a[i..], b[j..])
  }

  /** Fills the table from the ends of both texts back to their starts. */
  method FillTable(a: seq<Line>, b: seq<Line>) returns (t: array2<nat>)
    ensures fresh(t) && t.Length0 == |a| + 1 && t.Length1 == |b| + 1
    ensures forall i, j :: 0 <= i <= |a| && 0 <= j <= |b| ==> t[i, j] == Cell(a, b, i, j)
  {
    t := new nat[|a| + 1, |b| + 1]((i, j) => 0);
    var i := |a|;
    while i > 0
      invariant 0 <= i <= |a|
      invariant forall k, j :: i <= k <= |a| && 0 <= j <= |b| ==> t[k, j] == Cell(a, b, k, j)
      invariant forall k :: 0 <= k <= |a| ==> t[k, |b|] == Cell(a, b, k, |b|)
    {
      i := i - 1;
      var j := |b|;
      while j > 0
        invariant 0 <= j <= |b|
        invariant forall k, j' :: i < k <= |a| && 0 <= j' <= |b| ==> t[k, j'] == Cell(a, b, k, j')
        invariant forall j' :: j <= j' <= |b| ==> t[i, j'] == Cell(a, b, i, j')
        invariant forall k :: 0 <= k <= |a| ==> t[k, |b|] == Cell(a, b, k, |b|)
      {
        j := j - 1;
        t[i, j] := if a[i] == b[j] then t[i + 1, j + 1] + 1 else Max(t[i + 1, j], t[i, j + 1]);
      }
    }
  }

  // --------------------------------------------------------------- the diff

  /** What a diff of `a` against `b` has to be: its two sides are exactly the
      two texts. */
  ghost predicate IsDiff(a: seq<Line>, b: seq<Line>, out: seq<Line>) {
    OldSide(out) == a && NewSide(out) == b
  }

  /** No diff of the two texts keeps more lines. */
  ghost predicate KeepsMost(a: seq<Line>, b: seq<Line>, out: seq<Line>) {
    && IsSubsequence(KeptLines(out), a) && IsSubsequence(KeptLines(out), b)
    && forall s :: IsSubsequence(s, a) && IsSubsequence(s, b) ==> |s| <= |KeptLines(out)|
  }

  lemma LcsLengthKeepsMost(a: seq<Line>, b: seq<Line>, out: seq<Line>)
    requires IsDiff(a, b, out) && |KeptLines(out)| == Lcs(a, b)
    ensures KeepsMost(a, b, out)
  {
    KeptIsCommon(out);
    forall s | IsSubsequence(s, a) && IsSubsequence(s, b) ensures |s| <= |KeptLines(out)| {
      LcsBounds(a, b, s);
    }
  }

  lemma PrefixStep(a: seq<Line>, i: nat)
    requires i < |a|
    ensures a[..i + 1] == a[..i] + [a[i]]
  {
  }

  /** lineDiff: an LCS line diff, or, past the size limit, everything removed
      and everything added. */
  method Diff(a: seq<Line>, b: seq<Line>) returns (out: seq<Line>)
    ensures IsDiff(a, b, out)
    ensures |a| * |b| <= MAX_DIFF_CELLS ==> KeepsMost(a, b, out)
    ensures |a| * |b| > MAX_DIFF_CELLS ==> KeptLines(out) == []
  {
    out := [];
    if |a| * |b| > MAX_DIFF_CELLS {
      out := AppendRemoved(out, a, 0);
      out := AppendAdded(out, b, 0);
      return;
    }
    var t := FillTable(a, b);
    var i, j := 0, 0;
    while i < |a| && j < |b|
      invariant 0 <= i <= |a| && 0 <= j <= |b|
      invariant OldSide(out) == a[..i] && NewSide(out) == b[..j]
      invariant |KeptLines(out)| + Cell(a, b, i, j) == Lcs(a, b)
      invariant forall k, l :: 0 <= k <= |a| && 0 <= l <= |b| ==> t[k, l] == Cell(a, b, k, l)
      decreases |a| - i + |b| - j
    {
      PrefixStep(a, i);
      PrefixStep(b, j);
      if a[i] == b[j] {
        SidesSnoc(out, a[i]);
        out := out + ["  " + a[i]];
        i, j := i + 1, j + 1;
      } else if t[i + 1, j] >= t[i, j + 1] {
        SidesSnoc(out, a[i]);
        out := out + ["- " + a[i]];
        i := i + 1;
      } else {
        SidesSnoc(out, b[j]);
        out := out + ["+ " + b[j]];
        j := j + 1;
      }
    }
    out := AppendRemoved(out, a, i);
    out := AppendAdded(out, b, j);
    LcsLengthKeepsMost(a, b, out);
  }

  method AppendRemoved(before: seq<Line>, a: seq<Line>, from: nat) returns (out: seq<Line>)
    requires from <= |a| && OldSide(before) == a[..from]
    ensures OldSide(out) == a && NewSide(out) == NewSide(before) && KeptLines(out) == KeptLines(before)
  {
    out := before;
    for i := from to |a|
      invariant OldSide(out) == a[..i] && NewSide(out) == NewSide(before) && KeptLines(out) == KeptLines(before)
    {
      SidesSnoc(out, a[i]);
      PrefixStep(a, i);
      out := out + ["- " + a[i]];
    }
    assert a[..|a|] == a;
  }

  method AppendAdded(before: seq<Line>, b: seq<Line>, from: nat) returns (out: seq<Line>)
    requires from <= |b| && NewSide(before) == b[..from]
    ensures NewSide(out) == b && OldSide(out) == OldSide(before) && KeptLines(out) == KeptLines(before)
  {
    out := before;
    for i := from to |b|
      invariant NewSide(out) == b[..i] && OldSide(out) == OldSide(before) && KeptLines(out) == KeptLines(before)
    {
      SidesSnoc(out, b[i]);
      PrefixStep(b, i);
      out := out + ["+ " + b[i]];
    }
    assert b[..|b|] == b;
  }

  // ------------------------------------------------------------- event diff

  datatype Event = Event(id: string, pubkey: string, kind: int, createdAt: nat, sig: string, tags: seq<seq<string>>, content: string)

  datatype Field = FId | FPubkey | FKind | FCreatedAt | FSig | FTags | FContent

  datatype DiffView = DiffView(
    same: bool, fields: seq<Field>, tagsRemoved: seq<seq<string>>, tagsAdded: seq<seq<string>>, contentDiff: seq<Line>)

  /** How often each tag occurs. */
  method CountTags(tags: seq<seq<string>>) returns (m: map<seq<string>, nat>)
    ensures forall t :: t in multiset(tags) <==> t in m
    ensures forall t :: t in m ==> m[t] == multiset(tags)[t]
  {
    m := map[];
    for i := 0 to |tags|
      invariant forall t :: t in multiset(tags[..i]) <==> t in m
      invariant forall t :: t in m ==> m[t] == multiset(tags[..i])[t]
    {
      assert tags[..i + 1] == tags[..i] + [tags[i]];
      m := m[tags[i] := (if tags[i] in m then m[tags[i]] else 0) + 1];
    }
    assert tags[..|tags|] == tags;
  }

  /** The tags of `a` beyond those `b` also has, occurrence by occurrence. */
  method TagsBeyond(a: seq<seq<string>>, b: seq<seq<string>>) returns (extra: seq<seq<string>>)
    ensures multiset(extra) == multiset(a) - multiset(b)
  {
    var left := CountTags(b);
    extra := [];
    assert multiset(a[..0]) == multiset{};
    for i := 0 to |a|
      invariant Leaves(left, multiset(b) - multiset(a[..i]))
      invariant multiset(extra) == multiset(a[..i]) - multiset(b)
    {
      assert a[..i + 1] == a[..i] + [a[i]];
      DifferenceStep(multiset(a[..i]), multiset(b), a[i]);
      if a[i] in left && left[a[i]] > 0 {
        left := left[a[i] := left[a[i]] - 1];
      } else {
        extra := extra + [a[i]];
      }
    }
    assert a[..|a|] == a;
  }

  /** The counts left over are those of `m`. */
  ghost predicate Leaves(left: map<seq<string>, nat>, m: multiset<seq<string>>) {
    forall t :: (if t in left then left[t] else 0) == m[t]
  }

  /** One more occurrence of `x` on the left either cancels one on the right or
      stays over. */
  lemma DifferenceStep<T>(a: multiset<T>, b: multiset<T>, x: T)
    ensures (b - a)[x] > 0 ==> a + multiset{x} - b == a - b && b - (a + multiset{x}) == (b - a)[x := (b - a)[x] - 1]
    ensures (b - a)[x] == 0 ==> a + multiset{x} - b == a - b + multiset{x} && b - (a + multiset{x}) == b - a
  {
  }

  /** Whether two events differ in a field, tags compared as a multiset. */
  predicate Differs(a: Event, b: Event, f: Field) {
    match f
    case FId => a.id != b.id
    case FPubkey => a.pubkey != b.pubkey
    case FKind => a.kind != b.kind
    case FCreatedAt => a.createdAt != b.createdAt
    case FSig => a.sig != b.sig
    case FTags => multiset(a.tags) != multiset(b.tags)
    case FContent => a.content != b.content
  }

  /** diffEvents: two events are called the same exactly when they agree on
      every field, tags compared as a multiset; the tag lists are the multiset
      differences, and the content lines rebuild both contents. */
  method DiffEvents(a: Event, b: Event) returns (v: DiffView)
    ensures v.same <==> && a.id == b.id && a.pubkey == b.pubkey && a.kind == b.kind && a.createdAt == b.createdAt
                        && a.sig == b.sig && multiset(a.tags) == multiset(b.tags) && a.content == b.content
    ensures forall f :: f in v.fields <==> Differs(a, b, f)
    ensures multiset(v.tagsRemoved) == multiset(a.tags) - multiset(b.tags)
    ensures multiset(v.tagsAdded) == multiset(b.tags) - multiset(a.tags)
    ensures a.content != b.content ==> IsDiff(SplitOn(a.content, '\n'), SplitOn(b.content, '\n'), v.contentDiff)
  {
    var fields := PlainFields(a, b);
    var removed := TagsBeyond(a.tags, b.tags);
    var added := TagsBeyond(b.tags, a.tags);
    TagsDiffer(a.tags, b.tags, removed, added);
    if |removed| > 0 || |added| > 0 { fields := fields + [FTags]; }
    var content: seq<Line> := [];
    if a.content != b.content {
      fields := fields + [FContent];
      content := Diff(SplitOn(a.content, '\n'), SplitOn(b.content, '\n'));
    }
    v := DiffView(|fields| == 0, fields, removed, added, content);
    SameIff(a, b, fields);
  }

  /** The fields that differ, tags and content aside. */
  method PlainFields(a: Event, b: Event) returns (fields: seq<Field>)
    ensures forall f :: f in fields <==> Differs(a, b, f) && !f.FTags? && !f.FContent?
  {
    fields := [];
    if a.id != b.id { fields := fields + [FId]; }
    if a.pubkey != b.pubkey { fields := fields + [FPubkey]; }
    if a.kind != b.kind { fields := fields + [FKind]; }
    if a.createdAt != b.createdAt { fields := fields + [FCreatedAt]; }
    if a.sig != b.sig { fields := fields + [FSig]; }
  }

  lemma TagsDiffer<T>(a: seq<T>, b: seq<T>, removed: seq<T>, added: seq<T>)
    requires multiset(removed) == multiset(a) - multiset(b) && multiset(added) == multiset(b) - multiset(a)
    ensures multiset(a) != multiset(b) <==> |removed| > 0 || |added| > 0
  {
    assert |removed| == |multiset(removed)| && |added| == |multiset(added)|;
  }

  /** No field is listed exactly when the events agree on all. */
  lemma SameIff(a: Event, b: Event, fields: seq<Field>)
    requires forall f :: f in fields <==> Differs(a, b, f)
    ensures |fields| == 0 <==> && a.id == b.id && a.pubkey == b.pubkey && a.kind == b.kind && a.createdAt == b.createdAt
                               && a.sig == b.sig && multiset(a.tags) == multiset(b.tags) && a.content == b.content
  {
    if fields != [] {
      assert fields[0] in fields;
    }
    assert fields == [] ==> FId !in fields && FPubkey !in fields && FKind !in fields && FCreatedAt !in fields
                            && FSig !in fields && FTags !in fields && FContent !in fields;
  }

}
