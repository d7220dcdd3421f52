/** Splitting, trimming and replacing text, as Go's strings package does it. */
module Text {

  /** Where `c` first occurs, or |s|. */
  function IndexOf(s: string, c: char): (i: nat)
    ensures i <= |s| && (i < |s| ==> s[i] == c) && c !in s[..i]
  {
    if s == "" then 0 else if s[0] == c then 0 else 1 + IndexOf(s[1..], c)
  }

  function SplitOn(s: string, c: char): (r: seq<string>)
    ensures r != []
    decreases |s|
  {
    var i := IndexOf(s, c);
    if i == |s| then [s] else [s[..i]] + SplitOn(s[i + 1..], c)
  }

  lemma IndexOfAfter(a: string, c: char, b: string)
    requires c !in a
    ensures IndexOf(a + [c] + b, c) == |a|
  {
    var s := a + [c] + b;
    var i := IndexOf(s, c);
    assert s[|a|] == c && forall k :: 0 <= k < |a| ==> s[k] == a[k];
    assert forall k :: 0 <= k < i ==> s[..i][k] == s[k];
  }

  lemma IndexOfAbsent(s: string, c: char)
    requires c !in s
    ensures IndexOf(s, c) == |s|
  {
  }

  lemma SplitCons(first: string, c: char, rest: string)
    requires c !in first
    ensures SplitOn(first + [c] + rest, c) == [first] + SplitOn(rest, c)
  {
    var s := first + [c] + rest;
    IndexOfAfter(first, c, rest);
    assert s[..|first|] == first && s[|first| + 1..] == rest;
  }

  /** White space, as trimming sees it. */
  predicate Space(c: char) {
    || c == ' ' || '\t' <= c <= '\r' || c == '\U{85}' || c == '\U{A0}' || c == '\U{1680}'
    || '\U{2000}' <= c <= '\U{200A}' || c == '\U{2028}' || c == '\U{2029}' || c == '\U{202F}' || c == '\U{205F}' || c == '\U{3000}'
  }

  function Trim(s: string): string
    decreases |s|
  {
    if s == "" then s
    else if Space(s[0]) then Trim(s[1..])
    else if Space(s[|s| - 1]) then Trim(s[..|s| - 1])
    else s
  }

  lemma CancelPrefix(p: string, a: string, b: string)
    requires p + a == p + b
    ensures a == b
  {
    assert a == (p + a)[|p|..] && b == (p + b)[|p|..];
  }

  predicate Contains(s: string, w: string) {
    w <= s || (s != "" && Contains(s[1..], w))
  }

  predicate OccursAt(s: string, w: string, k: nat) {
    k + |w| <= |s| && s[k..k + |w|] == w
  }

  lemma OccursLater(s: string, w: string, k: nat)
    requires s != ""
    ensures OccursAt(s[1..], w, k) <==> OccursAt(s, w, k + 1)
  {
    if k + 1 + |w| <= |s| {
      assert s[1..][k..k + |w|] == s[k + 1..k + 1 + |w|];
    }
  }

  /** A text is contained exactly when it occurs at some position. */
  lemma {:induction false} ContainsIff(s: string, w: string)
    ensures Contains(s, w) <==> exists k :: 0 <= k <= |s| && OccursAt(s, w, k)
  {
    if w <= s {
      assert OccursAt(s, w, 0);
    } else if s != "" {
      ContainsIff(s[1..], w);
      if k :| 0 <= k <= |s| && OccursAt(s, w, k) {
        assert k > 0;
        OccursLater(s, w, k - 1);
      }
      if k :| 0 <= k <= |s| - 1 && OccursAt(s[1..], w, k) {
        OccursLater(s, w, k);
      }
    }
  }

  /** Trimming takes white space off both ends, and leaves none there. */
  lemma {:induction false} TrimIs(s: string) returns (a: nat, b: nat)
    ensures a <= b <= |s| && Trim(s) == s[a..b]
    ensures forall i :: 0 <= i < a || b <= i < |s| ==> Space(s[i])
    ensures a < b ==> !Space(s[a]) && !Space(s[b - 1])
    decreases |s|
  {
    a, b := 0, |s|;
    if s != "" && Space(s[0]) {
      var x, y := TrimIs(s[1..]);
      a, b := x + 1, y + 1;
      assert s[1..][x..y] == s[a..b];
      assert forall i :: 1 <= i < |s| ==> s[i] == s[1..][i - 1];
    } else if s != "" && Space(s[|s| - 1]) {
      a, b := TrimIs(s[..|s| - 1]);
      assert s[..|s| - 1][a..b] == s[a..b];
    }
  }

  function TrimPrefix(s: string, p: string): string {
    if p <= s then s[|p|..] else s
  }

  /** Every occurrence of `mark`, from the left and not overlapping, replaced. */
  function ReplaceAll(s: string, mark: string, sub: string): string
    requires mark != ""
    decreases |s|
  {
    if s == "" then ""
    else if mark <= s then sub + ReplaceAll(s[|mark|..], mark, sub)
    else [s[0]] + ReplaceAll(s[1..], mark, sub)
  }

  lemma {:induction false} ReplaceAfter(pre: string, rest: string, mark: string, sub: string)
    requires mark != "" && mark[0] !in pre
    ensures ReplaceAll(pre + rest, mark, sub) == pre + ReplaceAll(rest, mark, sub)
    decreases |pre|
  {
    if pre == "" {
      assert pre + rest == rest;
    } else {
      assert (pre + rest)[0] == pre[0] && (pre + rest)[1..] == pre[1..] + rest;
      ReplaceAfter(pre[1..], rest, mark, sub);
    }
  }

  lemma ReplaceNone(s: string, mark: string, sub: string)
    requires mark != "" && mark[0] !in s
    ensures ReplaceAll(s, mark, sub) == s
  {
    ReplaceAfter(s, "", mark, sub);
    assert s + "" == s;
  }

  lemma ReplaceSkip(s: string, mark: string, sub: string)
    requires mark != "" && s != "" && !(mark <= s) && mark[0] !in s[1..]
    ensures ReplaceAll(s, mark, sub) == s
  {
    ReplaceNone(s[1..], mark, sub);
  }

  /** One occurrence, between texts that hold no start of another. */
  lemma ReplaceOne(pre: string, mark: string, post: string, sub: string)
    requires mark != "" && mark[0] !in pre && mark[0] !in post
    ensures ReplaceAll(pre + mark + post, mark, sub) == pre + sub + post
  {
    assert pre + mark + post == pre + (mark + post);
    ReplaceAfter(pre, mark + post, mark, sub);
    assert mark <= mark + post && (mark + post)[|mark|..] == post;
    ReplaceNone(post, mark, sub);
  }
}
