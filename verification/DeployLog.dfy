/**
 Following the captured deploy log by byte offset: any number of bounded polls of
 a growing file read what one read of it would.
 */
module DeployLog {
  import opened Values

  type Bytes = seq<bv8>

  const NEWLINE: bv8 := 10
  const LOG_TAIL_MAX := 1000
  const LOG_TAIL_DEFAULT := 200

  /** clamp_tail; None is a value that is missing or no number. */
  function ClampTail(tail: Option<int>): (n: nat)
    ensures 1 <= n <= 1000
    ensures tail.None? ==> n == 200
    ensures tail.Some? && 1 <= tail.value <= 1000 ==> n == tail.value
    ensures tail.Some? && tail.value < 1 ==> n == 1
    ensures tail.Some? && tail.value > 1000 ==> n == 1000
  {
    if tail.None? then LOG_TAIL_DEFAULT
    else if tail.value < 1 then 1 else if tail.value > LOG_TAIL_MAX then LOG_TAIL_MAX else tail.value
  }

  predicate Unbroken(l: Bytes) {
    forall i :: 0 <= i < |l| ==> l[i] != 10
  }

  predicate AllUnbroken(lines: seq<Bytes>) {
    forall i :: 0 <= i < |lines| ==> Unbroken(lines[i])
  }

  /** Where the first newline is, or the length. */
  function Find(data: Bytes): (n: nat)
    ensures n <= |data| && (n < |data| ==> data[n] == NEWLINE) && forall i :: 0 <= i < n ==> data[i] != NEWLINE
  {
    if data == [] || data[0] == NEWLINE then 0
    else
      var n := Find(data[1..]);
      assert forall i :: 0 < i < n + 1 ==> data[i] == data[1..][i - 1];
      n + 1
  }

  /** data.split(b"\n")[:-1]: the complete lines. */
  function Lines(data: Bytes): seq<Bytes>
    decreases |data|
  {
    var n := Find(data);
    if n == |data| then [] else [data[..n]] + Lines(data[n + 1..])
  }

  /** split's last piece: the line that has no newline yet. */
  function Partial(data: Bytes): Bytes
    decreases |data|
  {
    var n := Find(data);
    if n == |data| then data else Partial(data[n + 1..])
  }

  function Ended(l: Bytes): (e: Bytes)
    ensures |e| == |l| + 1
  {
    l + [NEWLINE]
  }

  /** The bytes that lines take up in the file. */
  function Unlines(lines: seq<Bytes>): Bytes {
    if lines == [] then [] else Ended(lines[0]) + Unlines(lines[1..])
  }

  /** Just after a newline, or at the start. */
  predicate AtLineStart(file: Bytes, off: nat) {
    off <= |file| && (off == 0 || file[off - 1] == NEWLINE)
  }

  // ---- Lines and their bytes -----------------------------------------------------------------

  lemma Regroup(a: Bytes, b: Bytes, c: Bytes)
    ensures a + b + c == a + (b + c)
  {
  }

  lemma Cut(file: Bytes, i: nat)
    requires i <= |file|
    ensures file == file[..i] + file[i..]
  {
  }

  lemma FirstLine(l: Bytes, rest: Bytes)
    requires Unbroken(l)
    ensures Lines(Ended(l) + rest) == [l] + Lines(rest) && Partial(Ended(l) + rest) == Partial(rest)
  {
    hide Lines, Partial;
    var data := Ended(l) + rest;
    FindIs(l, rest);
    assert data[..|l|] == l && data[|l| + 1..] == rest;
    LinesUnfold(data);
  }

  lemma LinesUnfold(data: Bytes)
    ensures var n := Find(data);
      if n == |data| then Lines(data) == [] && Partial(data) == data
      else Lines(data) == [data[..n]] + Lines(data[n + 1..]) && Partial(data) == Partial(data[n + 1..])
  {
    hide Find, Lines, Partial;
    LinesStep(data);
    PartialStep(data);
  }

  lemma LinesStep(data: Bytes)
    ensures var n := Find(data); Lines(data) == if n == |data| then [] else [data[..n]] + Lines(data[n + 1..])
  {
    hide Find, Partial;
  }

  lemma PartialStep(data: Bytes)
    ensures var n := Find(data); Partial(data) == if n == |data| then data else Partial(data[n + 1..])
  {
    hide Find, Lines;
  }

  lemma FindIs(l: Bytes, rest: Bytes)
    requires Unbroken(l)
    ensures Find(Ended(l) + rest) == |l|
  {
    var data := Ended(l) + rest;
    assert data[|l|] == NEWLINE;
    assert forall i :: 0 <= i < |l| ==> data[i] == l[i];
  }

  /** A text is its lines and then the partial one. */
  lemma {:induction false} Decompose(data: Bytes)
    ensures data == Unlines(Lines(data)) + Partial(data) && AllUnbroken(Lines(data)) && Unbroken(Partial(data))
    decreases |data|
  {
    hide Lines, Partial, Unlines, AllUnbroken;
    LinesUnfold(data);
    var n := Find(data);
    if n == |data| {
      NoLinesAtAll(data);
    } else {
      var rest := data[n + 1..];
      Decompose(rest);
      assert data == Ended(data[..n]) + rest;
      OneMoreLine(data[..n], Lines(rest));
      Regroup(Ended(data[..n]), Unlines(Lines(rest)), Partial(rest));
    }
  }

  lemma NoLinesAtAll(data: Bytes)
    ensures Unlines([]) + data == data && AllUnbroken([])
  {
  }

  lemma OneMoreLine(l: Bytes, lines: seq<Bytes>)
    ensures Unlines([l] + lines) == Ended(l) + Unlines(lines)
    ensures Unbroken(l) && AllUnbroken(lines) ==> AllUnbroken([l] + lines)
  {
    assert ([l] + lines)[1..] == lines;
  }

  /** Lines are read back from their bytes, whatever follows them. */
  lemma {:induction false} LinesOfUnlines(lines: seq<Bytes>, rest: Bytes)
    requires AllUnbroken(lines)
    ensures Lines(Unlines(lines) + rest) == lines + Lines(rest) && Partial(Unlines(lines) + rest) == Partial(rest)
    decreases |lines|
  {
    hide Lines, Partial;
    if lines == [] {
      assert Unlines(lines) + rest == rest && lines + Lines(rest) == Lines(rest);
    } else {
      var more := lines[1..];
      LinesOfUnlines(more, rest);
      Regroup(Ended(lines[0]), Unlines(more), rest);
      FirstLine(lines[0], Unlines(more) + rest);
      assert [lines[0]] + (more + Lines(rest)) == lines + Lines(rest);
    }
  }

  lemma {:induction false} UnlinesOf(a: seq<Bytes>, b: seq<Bytes>)
    ensures Unlines(a + b) == Unlines(a) + Unlines(b)
  {
    if a == [] {
      assert a + b == b;
    } else {
      UnlinesOf(a[1..], b);
      assert (a + b)[1..] == a[1..] + b;
      Regroup(Ended(a[0]), Unlines(a[1..]), Unlines(b));
    }
  }

  lemma {:induction false} UnlinesEnds(lines: seq<Bytes>)
    ensures lines != [] ==> Unlines(lines) != [] && Unlines(lines)[|Unlines(lines)| - 1] == NEWLINE
  {
    if |lines| > 1 {
      UnlinesEnds(lines[1..]);
    }
  }

  // ---- One poll ------------------------------------------------------------------------------

  /** The first `tail` complete lines from the offset on. */
  function Waiting(file: Bytes, off: nat, tail: nat): (out: seq<Bytes>)
    requires off <= |file|
  {
    var lines := Lines(file[off..]);
    if |lines| > tail then lines[..tail] else lines
  }

  /** What a poll gives out is the file from the offset to the next offset, line by line. */
  lemma WaitingIs(file: Bytes, off: nat, tail: nat)
    requires off <= |file|
    ensures var out := Waiting(file, off, tail); var next := off + |Unlines(out)|;
      && next <= |file| && file[off..next] == Unlines(out) && AllUnbroken(out)
      && Lines(file[off..]) == out + Lines(file[next..])
  {
    hide Lines, Partial, Unlines;
    var data := file[off..];
    var lines := Lines(data);
    var out := Waiting(file, off, tail);
    var more := lines[|out|..];
    Decompose(data);
    assert lines == out + more;
    UnlinesOf(out, more);
    Regroup(Unlines(out), Unlines(more), Partial(data));
    var next := off + |Unlines(out)|;
    assert data[..|Unlines(out)|] == Unlines(out) && data[|Unlines(out)|..] == Unlines(more) + Partial(data);
    assert file[next..] == data[|Unlines(out)|..] && file[off..next] == data[..|Unlines(out)|];
    LinesOfUnlines(more, Partial(data));
    PartialHasNone(Partial(data));
    assert more + [] == more;
  }

  lemma PartialHasNone(part: Bytes)
    requires Unbroken(part)
    ensures Lines(part) == []
  {
  }

  /** It ends at the start of a line, further on if a line was waiting. */
  lemma WaitingEnds(file: Bytes, off: nat, tail: nat)
    requires off <= |file|
    ensures var next := off + |Unlines(Waiting(file, off, tail))|;
      && (AtLineStart(file, off) ==> AtLineStart(file, next))
      && (tail > 0 && Lines(file[off..]) != [] ==> next > off)
  {
    hide Lines, Unlines;
    var out := Waiting(file, off, tail);
    var next := off + |Unlines(out)|;
    WaitingIs(file, off, tail);
    UnlinesEnds(out);
    if out != [] {
      assert file[next - 1] == file[off..next][|Unlines(out)| - 1];
    } else {
      assert |Unlines([])| == 0 by { NoLinesAtAll([]); }
    }
  }

  /** _read_deploy of a file that can be read. An offset past its end means the file was replaced by a shorter
      one, and reading starts over. */
  method ReadDeploy(file: Bytes, since: nat, tail: nat)
    returns (lines: seq<Bytes>, nextOff: nat, rotated: bool, truncated: bool)
    ensures rotated <==> since > |file|
    ensures var off := if rotated then 0 else since;
      && lines == Waiting(file, off, tail) && nextOff == off + |Unlines(lines)| <= |file|
      && (truncated <==> Lines(file[off..]) != lines)
  {
    var off := since;
    rotated := false;
    if off > |file| {
      off := 0;
      rotated := true;
    }
    var data := file[off..];
    lines := Lines(data);
    truncated := false;
    if |lines| > tail {
      lines := lines[..tail];
      truncated := true;
    }
    WaitingIs(file, off, tail);
    var consumed := 0;
    for i := 0 to |lines|
      invariant consumed + |Unlines(lines[i..])| == |Unlines(lines)|
    {
      assert lines[i..][1..] == lines[i + 1..];
      consumed := consumed + |lines[i]| + 1;
    }
    assert lines[|lines|..] == [];
    nextOff := off + consumed;
  }

  // ---- Following -----------------------------------------------------------------------------

  datatype Poll = Poll(file: Bytes, tail: nat)

  /** The log is only ever appended to. */
  predicate Grows(polls: seq<Poll>) {
    forall i, j :: 0 <= i <= j < |polls| ==> polls[i].file <= polls[j].file
  }

  lemma GrowsOn(polls: seq<Poll>, off: nat)
    requires polls != [] && Grows(polls) && off <= |polls[0].file|
    ensures var next := off + |Unlines(Waiting(polls[0].file, off, polls[0].tail))|;
      Grows(polls[1..]) && (polls[1..] != [] ==> next <= |polls[1..][0].file|) && next <= |polls[0].file|
  {
    hide Lines, Unlines;
    WaitingIs(polls[0].file, off, polls[0].tail);
    assert forall i :: 0 <= i < |polls| - 1 ==> polls[1..][i] == polls[i + 1];
  }

  /** Polls one after the other, each from the offset of the last: everything given out, and the offset. */
  function Follow(polls: seq<Poll>, off: nat): (seq<Bytes>, nat)
    requires Grows(polls) && (polls != [] ==> off <= |polls[0].file|)
    decreases |polls|
  {
    if polls == [] then ([], off)
    else
      var out := Waiting(polls[0].file, off, polls[0].tail);
      GrowsOn(polls, off);
      var rest := Follow(polls[1..], off + |Unlines(out)|);
      (out + rest.0, rest.1)
  }

  lemma Slices(file: Bytes, file': Bytes, a: nat, b: nat, c: nat)
    requires file <= file' && a <= b <= |file| && b <= c <= |file'|
    ensures file'[a..b] == file[a..b] && file'[a..c] == file'[a..b] + file'[b..c]
    ensures AtLineStart(file, b) ==> AtLineStart(file', b)
  {
  }

  lemma FollowStep(polls: seq<Poll>, off: nat)
    requires polls != [] && Grows(polls) && off <= |polls[0].file|
    ensures var out := Waiting(polls[0].file, off, polls[0].tail); var mid := off + |Unlines(out)|;
      && Grows(polls[1..]) && (polls[1..] != [] ==> mid <= |polls[1..][0].file|)
      && Follow(polls, off) == (out + Follow(polls[1..], mid).0, Follow(polls[1..], mid).1)
      && (|polls| == 1 ==> Follow(polls, off) == (out, mid))
      && polls[0].file <= polls[|polls| - 1].file
      && (|polls| > 1 ==> polls[1..][|polls[1..]| - 1] == polls[|polls| - 1] && polls[0].file <= polls[1..][0].file)
  {
    hide Lines, Unlines, Waiting, Partial;
    GrowsOn(polls, off);
    var out := Waiting(polls[0].file, off, polls[0].tail);
    if |polls| == 1 {
      assert polls[1..] == [] && out + [] == out;
    }
  }

  lemma Join(first: Bytes, last: Bytes, off: nat, mid: nat, next: nat, out: seq<Bytes>, more: seq<Bytes>)
    requires first <= last && off <= mid <= |first| && mid <= next <= |last|
    requires first[off..mid] == Unlines(out) && last[mid..next] == Unlines(more)
    requires AllUnbroken(out) && AllUnbroken(more)
    ensures last[off..next] == Unlines(out + more) && AllUnbroken(out + more)
  {
    hide Unlines, Unbroken;
    Slices(first, last, off, mid, next);
    UnlinesOf(out, more);
  }

  /** After any polls, with whatever tails, of the file as it grew: what was given out is exactly what the last
      file holds between the first offset and the last one, no line twice, none skipped and none split; and the
      offset is at the start of a line again. */
  lemma {:induction false} FollowIsOneRead(polls: seq<Poll>, off: nat)
    requires polls != [] && Grows(polls) && AtLineStart(polls[0].file, off)
    ensures var (out, next) := Follow(polls, off); var file := polls[|polls| - 1].file;
      off <= next <= |file| && AtLineStart(file, next) && file[off..next] == Unlines(out) && AllUnbroken(out)
    decreases |polls|
  {
    hide Lines, Unlines, Waiting, AtLineStart, Partial, AllUnbroken, Follow, Grows;
    var first, last := polls[0].file, polls[|polls| - 1].file;
    AtLineStartFits(first, off);
    var out := Waiting(first, off, polls[0].tail);
    var mid := off + |Unlines(out)|;
    WaitingIs(first, off, polls[0].tail);
    WaitingEnds(first, off, polls[0].tail);
    FollowStep(polls, off);
    if |polls| > 1 {
      var rest := polls[1..];
      Slices(first, rest[0].file, off, mid, mid);
      FollowIsOneRead(rest, mid);
      var (more, next) := Follow(rest, mid);
      Join(first, last, off, mid, next, out, more);
    }
  }

  lemma AtLineStartFits(file: Bytes, off: nat)
    requires AtLineStart(file, off)
    ensures off <= |file|
  {
  }

  /** From the start of the log: the polls gave out its complete lines, so far as the offset has come. */
  lemma FollowFromStart(polls: seq<Poll>)
    requires polls != [] && Grows(polls)
    ensures var (out, next) := Follow(polls, 0); var file := polls[|polls| - 1].file;
      AtLineStart(file, next) && out == Lines(file[..next]) && Partial(file[..next]) == []
  {
    hide Lines, Unlines, Follow, Partial;
    FollowIsOneRead(polls, 0);
    var (out, next) := Follow(polls, 0);
    var file := polls[|polls| - 1].file;
    assert file[0..next] == file[..next] == Unlines(out) + [];
    LinesOfUnlines(out, []);
    EmptyText();
    assert out + [] == out;
  }

  lemma EmptyText()
    ensures Lines([]) == [] && Partial([]) == []
  {
  }

  /** A poll moves on whenever a complete line is waiting; polling a file that stands still gives out all of it
      within as many polls as it has lines. */
  lemma {:induction false} FollowDrains(file: Bytes, off: nat, polls: seq<Poll>)
    requires off <= |file| && forall i :: 0 <= i < |polls| ==> polls[i].file == file && polls[i].tail > 0
    requires |polls| >= |Lines(file[off..])|
    ensures Grows(polls)
    ensures var (out, next) := Follow(polls, off);
      next <= |file| && out == Lines(file[off..]) && Lines(file[next..]) == []
    decreases |polls|
  {
    hide Lines, Unlines, Partial;
    if polls != [] {
      var out := Waiting(file, off, polls[0].tail);
      var mid := off + |Unlines(out)|;
      WaitingIs(file, off, polls[0].tail);
      assert forall i :: 0 <= i < |polls| - 1 ==> polls[1..][i] == polls[i + 1];
      FollowDrains(file, mid, polls[1..]);
    }
  }

  /** A replaced log is noticed exactly while it is shorter than the offset: once it has grown to it, the poll
      goes on in the middle of the new file, and the lines before that are never given out. */
  lemma ReplacedLogIsMissed(file: Bytes, since: nat)
    requires since <= |file| && Lines(file[..since]) != []
    ensures |Lines(file[since..])| < |Lines(file)|
  {
    hide Lines, Unlines, Partial;
    var head, rest := file[..since], file[since..];
    Cut(file, since);
    Decompose(head);
    var lines, part := Lines(head), Partial(head);
    Regroup(Unlines(lines), part, rest);
    LinesOfUnlines(lines, part + rest);
    PartialHead(part, rest);
  }

  /** Bytes without a newline in front of a text join its first line. */
  lemma PartialHead(part: Bytes, rest: Bytes)
    requires Unbroken(part)
    ensures |Lines(part + rest)| == |Lines(rest)|
  {
    hide Lines, Partial;
    var n := Find(rest);
    LinesUnfold(rest);
    if n == |rest| {
      PartialHasNone(part + rest);
    } else {
      assert part + rest == Ended(part + rest[..n]) + rest[n + 1..];
      FirstLine(part + rest[..n], rest[n + 1..]);
    }
  }
}
