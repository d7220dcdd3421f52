/** The event log as bytes: how readWALEntries (cli/bunker/eventlog.go) reads a
    file that a crash may have cut anywhere. JSON is a parameter: an encoder and
    a parser that agree, encodings without line breaks, and no parse of a cut or
    glued line. */
module HistoryFile {
  import opened Common
  import opened HistoryLog
  import HistoryDaemon
  import opened Text

  datatype Codec = Codec(encode: Record -> string, parse: string -> Option<Record>) {

    /** Every record is one nonempty line that parses back. */
    ghost predicate OneLine() {
      forall r :: encode(r) != "" && '\n' !in encode(r) && parse(encode(r)) == Some(r)
    }

    /** A proper prefix of an encoded record does not parse. */
    ghost predicate PrefixFails() {
      forall r, j {:trigger parse(encode(r)[..j])} :: 0 < j < |encode(r)| ==> parse(encode(r)[..j]) == None
    }

    /** Nor does a record glued onto what is left of another. */
    ghost predicate GlueFails() {
      forall r, j, x {:trigger parse(encode(r)[..j] + encode(x))} ::
        0 < j <= |encode(r)| ==> parse(encode(r)[..j] + encode(x)) == None
    }
  }

  datatype ReadResult = Ok(records: seq<Record>) | Corrupt(line: nat)

  // ------------------------------------------------------- reading the file

  function TrimNewlines(s: string): string {
    if s != "" && s[|s| - 1] == '\n' then TrimNewlines(s[..|s| - 1]) else s
  }

  function ParseLines(c: Codec, lines: seq<string>, at: nat): ReadResult {
    if lines == [] then Ok([])
    else match c.parse(lines[0])
      case None => if |lines| == 1 then Ok([]) else Corrupt(at + 1)
      case Some(r) =>
        match ParseLines(c, lines[1..], at + 1)
        case Ok(rest) => Ok([r] + rest)
        case Corrupt(line) => Corrupt(line)
  }

  function ReadEntries(c: Codec, data: string): ReadResult {
    var trimmed := TrimNewlines(data);
    if trimmed == "" then Ok([]) else ParseLines(c, SplitOn(trimmed, '\n'), 0)
  }

  /** readWALEntries. */
  method ReadWalEntries(c: Codec, data: string) returns (r: ReadResult)
    ensures r == ReadEntries(c, data)
  {
    var trimmed := TrimNewlines(data);
    if trimmed == "" {
      return Ok([]);
    }
    var lines := SplitOn(trimmed, '\n');
    var entries: seq<Record> := [];
    for i := 0 to |lines|
      invariant |entries| == i
      invariant ParseLines(c, lines, 0) == Prepend(entries, ParseLines(c, lines[i..], i))
    {
      match c.parse(lines[i]) {
        case None =>
          if i == |lines| - 1 {
            return Ok(entries);
          }
          return Corrupt(i + 1);
        case Some(e) =>
          assert lines[i..][1..] == lines[i + 1..];
          PrependSnoc(entries, e, ParseLines(c, lines[i + 1..], i + 1));
          entries := entries + [e];
      }
    }
    r := Ok(entries);
  }

  lemma PrependSnoc(front: seq<Record>, e: Record, r: ReadResult)
    ensures Prepend(front + [e], r) == Prepend(front, Prepend([e], r))
  {
    assert r.Ok? ==> front + [e] + r.records == front + ([e] + r.records);
  }

  function Prepend(front: seq<Record>, r: ReadResult): ReadResult {
    if r.Ok? then Ok(front + r.records) else r
  }

  // ------------------------------------------------------ what a file holds

  /** The bytes of a log: each record on its own line. */
  function Render(c: Codec, log: seq<Record>): string {
    if log == [] then "" else c.encode(log[0]) + "\n" + Render(c, log[1..])
  }

  function Encodings(c: Codec, log: seq<Record>): seq<string> {
    if log == [] then [] else [c.encode(log[0])] + Encodings(c, log[1..])
  }

  lemma {:induction false} RenderConcat(c: Codec, a: seq<Record>, b: seq<Record>)
    ensures Render(c, a + b) == Render(c, a) + Render(c, b)
  {
    if a == [] {
      assert a + b == b;
    } else {
      RenderConcat(c, a[1..], b);
      assert (a + b)[1..] == a[1..] + b;
      assert Render(c, a + b) == c.encode(a[0]) + "\n" + (Render(c, a[1..]) + Render(c, b));
    }
  }

  lemma RenderCons(c: Codec, log: seq<Record>, rest: string)
    requires log != []
    ensures Render(c, log) + rest == c.encode(log[0]) + "\n" + (Render(c, log[1..]) + rest)
  {
  }

  /** Whole lines, then anything, split into those lines and the rest's. */
  lemma {:induction false} SplitAfter(c: Codec, log: seq<Record>, rest: string)
    requires c.OneLine()
    ensures SplitOn(Render(c, log) + rest, '\n') == Encodings(c, log) + SplitOn(rest, '\n')
  {
    if log == [] {
      assert Render(c, log) + rest == rest;
    } else {
      SplitAfter(c, log[1..], rest);
      RenderCons(c, log, rest);
      SplitCons(c.encode(log[0]), '\n', Render(c, log[1..]) + rest);
    }
  }

  lemma SplitRendered(c: Codec, log: seq<Record>, piece: string)
    requires c.OneLine() && '\n' !in piece
    ensures SplitOn(Render(c, log) + piece, '\n') == Encodings(c, log) + [piece]
  {
    SplitAfter(c, log, piece);
  }

  lemma {:induction false} ParseRendered(c: Codec, log: seq<Record>, tail: seq<string>, at: nat)
    requires c.OneLine()
    ensures ParseLines(c, Encodings(c, log) + tail, at) == Prepend(log, ParseLines(c, tail, at + |log|))
  {
    if log == [] {
      assert Encodings(c, log) + tail == tail;
    } else {
      ParseRendered(c, log[1..], tail, at + 1);
      var lines := Encodings(c, log) + tail;
      assert lines[0] == c.encode(log[0]) && lines[1..] == Encodings(c, log[1..]) + tail;
      assert log == [log[0]] + log[1..];
      var r := ParseLines(c, tail, at + |log|);
      assert r.Ok? ==> [log[0]] + (log[1..] + r.records) == log + r.records;
    }
  }

  lemma TrimAfter(before: string, piece: string)
    requires piece != "" && '\n' !in piece
    ensures TrimNewlines(before + piece) == before + piece
    ensures TrimNewlines(before + piece + "\n") == before + piece
  {
    var s := before + piece;
    assert piece[|piece| - 1] in piece;
    assert s[|s| - 1] == piece[|piece| - 1];
    assert (s + "\n")[..|s|] == s;
  }

  /** Whole lines, then a nonempty piece without a line break. */
  lemma ReadPiece(c: Codec, log: seq<Record>, piece: string)
    requires c.OneLine() && piece != "" && '\n' !in piece
    ensures ReadEntries(c, Render(c, log) + piece) == Prepend(log, ParseLines(c, [piece], |log|))
  {
    TrimAfter(Render(c, log), piece);
    SplitRendered(c, log, piece);
    ParseRendered(c, log, [piece], 0);
  }

  lemma OneLineParses(c: Codec, r: Record, at: nat)
    requires c.OneLine()
    ensures ParseLines(c, [c.encode(r)], at) == Ok([r])
  {
    assert ParseLines(c, [c.encode(r)][1..], at + 1) == Ok([]);
  }

  lemma ReadOneMore(c: Codec, front: seq<Record>, last: Record)
    requires c.OneLine()
    ensures ReadEntries(c, Render(c, front) + c.encode(last) + "\n") == Ok(front + [last])
  {
    TrimAfter(Render(c, front), c.encode(last));
    ReadPiece(c, front, c.encode(last));
    OneLineParses(c, last, |front|);
  }

  /** A file of whole lines reads back as the log it was written from. */
  lemma ReadRendered(c: Codec, log: seq<Record>)
    requires c.OneLine()
    ensures ReadEntries(c, Render(c, log)) == Ok(log)
  {
    if log != [] {
      var front, last := log[..|log| - 1], log[|log| - 1];
      ReadOneMore(c, front, last);
      RenderSnoc(c, log);
      assert log == front + [last];
    }
  }

  // -------------------------------------------------------- a cut at byte n

  /** How many records survive a cut after `n` bytes: those whose encoding is
      whole, its line break or not. */
  function Surviving(c: Codec, log: seq<Record>, n: nat): (k: nat)
    ensures k <= |log|
  {
    if log == [] || n < |c.encode(log[0])| then 0
    else if n == |c.encode(log[0])| then 1
    else 1 + Surviving(c, log[1..], n - |c.encode(log[0])| - 1)
  }

  /** The cut fell between two lines. */
  predicate AtLineEnd(c: Codec, log: seq<Record>, n: nat) {
    n == 0 || (log != [] && n > |c.encode(log[0])| && AtLineEnd(c, log[1..], n - |c.encode(log[0])| - 1))
  }

  lemma RenderCut(c: Codec, log: seq<Record>, n: nat)
    requires log != [] && n <= |Render(c, log)|
    ensures var line := c.encode(log[0]);
            if n <= |line| then Render(c, log)[..n] == line[..n]
            else (n - |line| - 1 <= |Render(c, log[1..])|
                  && Render(c, log)[..n] == line + "\n" + Render(c, log[1..])[..n - |line| - 1])
  {
  }

  /** How many records survive with their line break. */
  function Ended(c: Codec, log: seq<Record>, n: nat): (k: nat)
    ensures k <= |log|
  {
    if log == [] || n <= |c.encode(log[0])| then 0 else 1 + Ended(c, log[1..], n - |c.encode(log[0])| - 1)
  }

  /** What is left of a cut file: `m` whole lines, then `j` bytes of the next. */
  lemma {:induction false} CutShape(c: Codec, log: seq<Record>, n: nat) returns (m: nat, j: nat)
    requires c.OneLine() && n <= |Render(c, log)|
    ensures m <= |log| && (m == |log| ==> j == 0)
    ensures m < |log| ==> j <= |c.encode(log[m])|
    ensures Render(c, log)[..n] == Render(c, log[..m]) + (if m < |log| then c.encode(log[m])[..j] else "")
    ensures AtLineEnd(c, log, n) <==> j == 0
    ensures m == Ended(c, log, n)
    ensures Surviving(c, log, n) == if m < |log| && j == |c.encode(log[m])| then m + 1 else m
  {
    if log == [] {
      m, j := 0, 0;
    } else {
      var line := c.encode(log[0]);
      if n <= |line| {
        m, j := 0, n;
        RenderCut(c, log, n);
        assert log[..0] == [];
      } else {
        RenderCut(c, log, n);
        var m', j' := CutShape(c, log[1..], n - |line| - 1);
        m, j := m' + 1, j';
        CutCons(c, log, n, m', j');
      }
    }
  }

  /** The text of a cut, one line longer. */
  lemma CutCons(c: Codec, log: seq<Record>, n: nat, m: nat, j: nat)
    requires log != [] && |c.encode(log[0])| < n <= |Render(c, log)| && m <= |log| - 1 && (m < |log| - 1 ==> j <= |c.encode(log[m + 1])|)
    requires n - |c.encode(log[0])| - 1 <= |Render(c, log[1..])|
    requires Render(c, log[1..])[..n - |c.encode(log[0])| - 1] ==
             Render(c, log[1..][..m]) + (if m < |log| - 1 then c.encode(log[m + 1])[..j] else "")
    ensures Render(c, log)[..n] == Render(c, log[..m + 1]) + (if m < |log| - 1 then c.encode(log[m + 1])[..j] else "")
  {
    RenderCut(c, log, n);
    assert log[..m + 1][0] == log[0] && log[..m + 1][1..] == log[1..][..m];
    RenderCons(c, log[..m + 1], if m < |log| - 1 then c.encode(log[m + 1])[..j] else "");
  }

  /** A log cut at any byte reads as the records whose encoding is whole. */
  lemma ReadCut(c: Codec, log: seq<Record>, n: nat)
    requires c.OneLine() && c.PrefixFails() && n <= |Render(c, log)|
    ensures ReadEntries(c, Render(c, log)[..n]) == Ok(log[..Surviving(c, log, n)])
  {
    var m, j := CutShape(c, log, n);
    if j == 0 {
      ReadRendered(c, log[..m]);
      assert Render(c, log)[..n] == Render(c, log[..m]);
    } else {
      var piece := c.encode(log[m])[..j];
      assert '\n' !in piece;
      ReadPiece(c, log[..m], piece);
      if j == |c.encode(log[m])| {
        assert piece == c.encode(log[m]);
        assert log[..m] + [log[m]] == log[..m + 1];
      }
    }
  }

  // --------------------------------------------- appending after a recovery

  /** The file is opened for append as the crash left it. What is appended
      afterwards reads back exactly when the cut fell between two lines;
      otherwise the first appended record is glued onto the fragment: alone it
      is lost, and followed by another it makes the file unreadable. */
  lemma AppendAfterCut(c: Codec, log: seq<Record>, n: nat, more: seq<Record>)
    requires c.OneLine() && c.GlueFails() && n <= |Render(c, log)| && more != []
    ensures var r := ReadEntries(c, Render(c, log)[..n] + Render(c, more));
            && (r == Ok(log[..Surviving(c, log, n)] + more) <==> AtLineEnd(c, log, n))
            && (!AtLineEnd(c, log, n) && |more| > 1 ==> r.Corrupt?)
            && (!AtLineEnd(c, log, n) && |more| == 1 ==> r == Ok(log[..Ended(c, log, n)]))
  {
    var m, j := CutShape(c, log, n);
    var data := Render(c, log)[..n] + Render(c, more);
    if j == 0 {
      RenderConcat(c, log[..m], more);
      ReadRendered(c, log[..m] + more);
      assert data == Render(c, log[..m] + more);
    } else {
      GluedLine(c, log[..m], log[m], j, more);
      assert data == Render(c, log[..m]) + c.encode(log[m])[..j] + Render(c, more);
      assert |log[..m]| < |log[..Surviving(c, log, n)] + more|;
    }
  }

  // -------------------------------------------------------------- recovery

  /** The records a start finds in a cut file. */
  function Kept(c: Codec, log: seq<Record>, n: nat): seq<Record> {
    log[..Surviving(c, log, n)]
  }

  /** What the start then holds: the history it returns, and the log it meant to leave. */
  function Recovered(c: Codec, log: seq<Record>, n: nat, ids: seq<Id>, now: int): HistoryDaemon.State
    requires forall id :: id in ids ==> id in ReplayLog(Kept(c, log, n)).pending
  {
    HistoryDaemon.State(Kept(c, log, n), 0, []).Restart(ids, now)
  }

  function Expired(c: Codec, log: seq<Record>, n: nat, ids: seq<Id>, now: int): seq<HistoryEntry>
    requires forall id :: id in ids ==> id in ReplayLog(Kept(c, log, n)).pending
  {
    HistoryDaemon.ExpireAll(ReplayLog(Kept(c, log, n)).pending, ids, now)
  }

  /** The start rewrites the file: more entries than the tail holds. */
  predicate Rewrites(c: Codec, log: seq<Record>, n: nat, ids: seq<Id>) {
    |Rebuilt(Kept(c, log, n))| + |ids| > MAX_TAIL
  }

  /** The file LoadEventLog leaves: the cut file with one line appended for each
      leftover, or a new file if that is more than the tail holds. */
  function LeftFile(c: Codec, log: seq<Record>, n: nat, ids: seq<Id>, now: int): string
    requires n <= |Render(c, log)| && forall id :: id in ids ==> id in ReplayLog(Kept(c, log, n)).pending
  {
    if Rewrites(c, log, n, ids) then Render(c, Recovered(c, log, n, ids, now).log)
    else Render(c, log)[..n] + Render(c, Compacted(Expired(c, log, n, ids, now)))
  }

  ghost predicate Cut(c: Codec, log: seq<Record>, n: nat, ids: seq<Id>) {
    && c.OneLine() && c.PrefixFails() && c.GlueFails() && n <= |Render(c, log)|
    && HistoryDaemon.LeftoverOrder(ReplayLog(Kept(c, log, n)).pending, ids)
  }

  /** The history a start returns after a cut at any byte: the replay of the whole
      lines, with every request they leave undecided folded in once as expired. */
  lemma RecoverCut(c: Codec, log: seq<Record>, n: nat, ids: seq<Id>, now: int)
    requires Cut(c, log, n, ids)
    ensures ReadEntries(c, Render(c, log)[..n]) == Ok(Kept(c, log, n))
    ensures Recovered(c, log, n, ids, now).tail == LastN(Rebuilt(Kept(c, log, n)) + Expired(c, log, n, ids, now), MAX_TAIL)
  {
    ReadCut(c, log, n);
    HistoryDaemon.RestartFolds(HistoryDaemon.State(Kept(c, log, n), 0, []), ids, now);
  }

  /** The cut does no harm to what the start writes. */
  predicate Harmless(c: Codec, log: seq<Record>, n: nat, ids: seq<Id>) {
    AtLineEnd(c, log, n) || ids == [] || Rewrites(c, log, n, ids)
  }

  lemma RestartLog(c: Codec, log: seq<Record>, n: nat, ids: seq<Id>, now: int)
    requires Cut(c, log, n, ids) && !Rewrites(c, log, n, ids)
    ensures Recovered(c, log, n, ids, now).log == Kept(c, log, n) + Compacted(Expired(c, log, n, ids, now))
    ensures |Compacted(Expired(c, log, n, ids, now))| == |ids|
  {
  }

  /** The file a start leaves reads back as the log it meant to leave exactly when
      the cut fell between two lines, there was nothing to append, or the file was
      rewritten. */
  lemma LeftFileReadsIff(c: Codec, log: seq<Record>, n: nat, ids: seq<Id>, now: int)
    requires Cut(c, log, n, ids)
    ensures ReadEntries(c, LeftFile(c, log, n, ids, now)) == Ok(Recovered(c, log, n, ids, now).log) <==> Harmless(c, log, n, ids)
  {
    if Rewrites(c, log, n, ids) {
      ReadRendered(c, Recovered(c, log, n, ids, now).log);
    } else {
      var more := Compacted(Expired(c, log, n, ids, now));
      RestartLog(c, log, n, ids, now);
      if ids == [] {
        ReadCut(c, log, n);
        assert more == [] && Render(c, log)[..n] + "" == Render(c, log)[..n];
        assert Kept(c, log, n) + [] == Kept(c, log, n);
      } else {
        AppendAfterCut(c, log, n, more);
      }
    }
  }

  /** And then nothing is pending in it, and a second start finds no leftovers and
      returns the same history. */
  lemma SecondLoadSame(c: Codec, log: seq<Record>, n: nat, ids: seq<Id>, now: int, ids': seq<Id>, now': int)
    requires Cut(c, log, n, ids) && Harmless(c, log, n, ids)
    requires HistoryDaemon.LeftoverOrder(ReplayLog(Recovered(c, log, n, ids, now).log).pending, ids')
    ensures ReadEntries(c, LeftFile(c, log, n, ids, now)) == Ok(Recovered(c, log, n, ids, now).log)
    ensures ReplayLog(Recovered(c, log, n, ids, now).log).pending == map[] && ids' == []
    ensures var s := HistoryDaemon.State(Recovered(c, log, n, ids, now).log, 0, []).Restart(ids', now');
            s.tail == Recovered(c, log, n, ids, now).tail && s.log == Recovered(c, log, n, ids, now).log
  {
    var s := HistoryDaemon.State(Kept(c, log, n), 0, []);
    LeftFileReadsIff(c, log, n, ids, now);
    HistoryDaemon.RestartFolds(s, ids, now);
    HistoryDaemon.SecondRestartSame(s, ids, now, ids', now');
  }

  /** With one leftover after a harmful cut, its expiry is lost: the file reads as
      the lines that had their line break, and the next start finds the request
      undecided again if the cut line was not whole. */
  lemma OneLeftoverLost(c: Codec, log: seq<Record>, n: nat, ids: seq<Id>, now: int)
    requires Cut(c, log, n, ids) && !Harmless(c, log, n, ids) && |ids| == 1
    ensures ReadEntries(c, LeftFile(c, log, n, ids, now)) == Ok(log[..Ended(c, log, n)])
    ensures Ended(c, log, n) == Surviving(c, log, n) ==>
              ReadEntries(c, LeftFile(c, log, n, ids, now)) == Ok(Kept(c, log, n)) && ids[0] in ReplayLog(Kept(c, log, n)).pending
  {
    RestartLog(c, log, n, ids, now);
    AppendAfterCut(c, log, n, Compacted(Expired(c, log, n, ids, now)));
    assert ids[0] in ids;
  }

  /** With two or more, the next start refuses the file. */
  lemma TwoLeftoversUnreadable(c: Codec, log: seq<Record>, n: nat, ids: seq<Id>, now: int)
    requires Cut(c, log, n, ids) && !Harmless(c, log, n, ids) && |ids| >= 2
    ensures ReadEntries(c, LeftFile(c, log, n, ids, now)).Corrupt?
  {
    RestartLog(c, log, n, ids, now);
    AppendAfterCut(c, log, n, Compacted(Expired(c, log, n, ids, now)));
  }

  lemma GluedLine(c: Codec, log: seq<Record>, r: Record, j: nat, more: seq<Record>)
    requires c.OneLine() && c.GlueFails() && 0 < j <= |c.encode(r)| && more != []
    ensures ReadEntries(c, Render(c, log) + c.encode(r)[..j] + Render(c, more)) ==
            if |more| == 1 then Ok(log) else Corrupt(|log| + 1)
  {
    if |more| == 1 {
      RenderOne(c, more);
      GluedAlone(c, log, c.encode(r)[..j], more[0], Render(c, more));
    } else {
      GluedFollowed(c, log, c.encode(r)[..j], more);
    }
  }

  lemma RenderOne(c: Codec, more: seq<Record>)
    requires |more| == 1
    ensures Render(c, more) == c.encode(more[0]) + "\n"
  {
  }

  lemma GluedAlone(c: Codec, log: seq<Record>, fragment: string, x: Record, text: string)
    requires c.OneLine() && '\n' !in fragment && c.parse(fragment + c.encode(x)) == None && text == c.encode(x) + "\n"
    ensures ReadEntries(c, Render(c, log) + fragment + text) == Ok(log)
  {
    var glued := fragment + c.encode(x);
    Regroup(Render(c, log), fragment, c.encode(x));
    TrimAfter(Render(c, log), glued);
    ReadPiece(c, log, glued);
    LastLineForgiven(c, log, glued, |log|);
  }

  lemma Regroup(a: string, b: string, x: string)
    ensures a + b + (x + "\n") == a + (b + x) + "\n"
  {
  }

  lemma LastLineForgiven(c: Codec, log: seq<Record>, line: string, at: nat)
    requires c.parse(line) == None
    ensures Prepend(log, ParseLines(c, [line], at)) == Ok(log)
  {
    assert log + [] == log;
  }

  lemma GluedFollowed(c: Codec, log: seq<Record>, fragment: string, more: seq<Record>)
    requires c.OneLine() && |more| > 1 && '\n' !in fragment && c.parse(fragment + c.encode(more[0])) == None
    ensures ReadEntries(c, Render(c, log) + fragment + Render(c, more)) == Corrupt(|log| + 1)
  {
    var tail := GluedSplit(c, log, fragment, more);
    var lines := [fragment + c.encode(more[0])] + tail;
    BadLineFirst(c, lines, |log|);
    ParseRendered(c, log, lines, 0);
  }

  lemma BadLineFirst(c: Codec, lines: seq<string>, at: nat)
    requires |lines| > 1 && c.parse(lines[0]) == None
    ensures ParseLines(c, lines, at) == Corrupt(at + 1)
  {
  }

  /** At least two appended records leave the glued line and more after it. */
  lemma GluedSplit(c: Codec, log: seq<Record>, fragment: string, more: seq<Record>) returns (tail: seq<string>)
    requires c.OneLine() && |more| > 1 && '\n' !in fragment
    ensures TrimNewlines(Render(c, log) + fragment + Render(c, more)) != ""
    ensures SplitOn(TrimNewlines(Render(c, log) + fragment + Render(c, more)), '\n') ==
            Encodings(c, log) + ([fragment + c.encode(more[0])] + tail)
    ensures tail != []
  {
    var glued, rest := fragment + c.encode(more[0]), Unended(c, more[1..]);
    GluedBody(c, log, fragment, more);
    tail := SplitOn(rest, '\n');
    SplitCons(glued, '\n', rest);
    SplitAfter(c, log, glued + "\n" + rest);
  }

  /** The lines of a log, the last without its line break. */
  function Unended(c: Codec, log: seq<Record>): string
    requires log != []
  {
    Render(c, log[..|log| - 1]) + c.encode(log[|log| - 1])
  }

  lemma RenderSnoc(c: Codec, log: seq<Record>)
    requires log != []
    ensures Render(c, log) == Unended(c, log) + "\n"
  {
    var front, last := log[..|log| - 1], log[|log| - 1];
    RenderConcat(c, front, [last]);
    RenderOne(c, [last]);
    assert log == front + [last];
  }

  lemma UnendedCons(c: Codec, log: seq<Record>)
    requires |log| > 1
    ensures Unended(c, log) == c.encode(log[0]) + "\n" + Unended(c, log[1..])
  {
    RenderCons(c, log[..|log| - 1], c.encode(log[|log| - 1]));
    assert log[..|log| - 1][1..] == log[1..][..|log| - 2];
  }

  lemma GluedBody(c: Codec, log: seq<Record>, fragment: string, more: seq<Record>)
    requires c.OneLine() && |more| > 1
    ensures TrimNewlines(Render(c, log) + fragment + Render(c, more)) ==
            Render(c, log) + (fragment + c.encode(more[0]) + "\n" + Unended(c, more[1..]))
  {
    var front, last := more[..|more| - 1], more[|more| - 1];
    RenderSnoc(c, more);
    TrimAfter(Render(c, log) + fragment + Render(c, front), c.encode(last));
    UnendedCons(c, more);
  }

}
