/**
  Token events in a server-sent event stream, found while the bytes arrive. However the stream
  is cut into chunks, the same lines are handled.
*/
module StreamTimer {
  import opened Options
  import opened Sealing

  type Byte = nat

  type Line = seq<Byte>

  const CR: Byte := 13
  const LF: Byte := 10

  predicate IsBreak(b: Byte) { b == CR || b == LF }

  /** A blank line ends an event: CR LF CR LF, or LF LF. */
  datatype Separator = Long | Short

  function Size(sep: Separator): nat { if sep.Long? then 4 else 2 }

  predicate At(s: Line, sep: Separator, i: nat) {
    if sep.Long? then i + 4 <= |s| && s[i] == CR && s[i + 1] == LF && s[i + 2] == CR && s[i + 3] == LF
    else i + 2 <= |s| && s[i] == LF && s[i + 1] == LF
  }

  ghost predicate Free(s: Line, sep: Separator) { forall i: nat :: !At(s, sep, i) }

  // ---- lines -----------------------------------------------------------------------------------

  /** How many bytes come before the first line break. */
  function Run(s: Line): (n: nat)
    ensures n <= |s| && (n < |s| ==> IsBreak(s[n])) && forall k :: 0 <= k < n ==> !IsBreak(s[k])
  {
    if s == [] || IsBreak(s[0]) then 0 else 1 + Run(s[1..])
  }

  /** `bytes.splitlines`: lines end at LF, CR or CR LF; the last one may have no end. */
  function SplitLines(s: Line): seq<Line>
    decreases |s|
  {
    if s == [] then [] else
      var n := Run(s);
      if n == |s| then [s]
      else if s[n] == CR && n + 1 < |s| && s[n + 1] == LF then [s[..n]] + SplitLines(s[n + 2..])
      else [s[..n]] + SplitLines(s[n + 1..])
  }

  function NonEmpty(lines: seq<Line>): seq<Line> {
    if lines == [] then [] else (if lines[0] == [] then [] else [lines[0]]) + NonEmpty(lines[1..])
  }

  /** The stretches between line breaks that are not empty. */
  function Tokens(s: Line): seq<Line>
    decreases |s|
  {
    if s == [] then []
    else if IsBreak(s[0]) then Tokens(s[1..])
    else [s[..Run(s)]] + Tokens(s[Run(s)..])
  }

  lemma NonEmptyCons(line: Line, lines: seq<Line>)
    ensures NonEmpty([line] + lines) == (if line == [] then [] else [line]) + NonEmpty(lines)
  {
    assert ([line] + lines)[1..] == lines;
  }

  lemma TokensRun(s: Line)
    ensures Tokens(s) == (if Run(s) == 0 then [] else [s[..Run(s)]]) + Tokens(s[Run(s)..])
  {
    if Run(s) == 0 { assert s[0..] == s; }
  }

  lemma TokensSkip(s: Line)
    requires s != [] && IsBreak(s[0])
    ensures Tokens(s) == Tokens(s[1..])
  {}

  /** Splitting into lines finds exactly those stretches. */
  lemma {:induction false} SplitLinesTokens(s: Line)
    ensures NonEmpty(SplitLines(s)) == Tokens(s)
    decreases |s|
  {
    if s != [] {
      var n := Run(s);
      TokensRun(s);
      if n == |s| {
        assert s[..n] == s && s[n..] == [];
        assert NonEmpty([s]) == [s] + NonEmpty([s][1..]);
      } else {
        var rest := s[n..];
        assert rest[0] == s[n];
        TokensSkip(rest);
        assert rest[1..] == s[n + 1..];
        if s[n] == CR && n + 1 < |s| && s[n + 1] == LF {
          TokensSkip(s[n + 1..]);
          assert s[n + 1..][1..] == s[n + 2..];
          SplitLinesTokens(s[n + 2..]);
          NonEmptyCons(s[..n], SplitLines(s[n + 2..]));
        } else {
          SplitLinesTokens(s[n + 1..]);
          NonEmptyCons(s[..n], SplitLines(s[n + 1..]));
        }
      }
    }
  }

  lemma {:induction false} RunPrefix(x: Line, b: Byte, y: Line)
    requires IsBreak(b)
    ensures Run(x + [b] + y) == Run(x)
  {
    if x != [] && !IsBreak(x[0]) {
      assert (x + [b] + y)[1..] == x[1..] + [b] + y;
      RunPrefix(x[1..], b, y);
    }
  }

  /** A line break separates the stretches before it from those after it. */
  lemma {:induction false} TokensBreak(x: Line, b: Byte, y: Line)
    requires IsBreak(b)
    ensures Tokens(x + [b] + y) == Tokens(x) + Tokens(y)
    decreases |x|
  {
    var s := x + [b] + y;
    if x == [] {
      assert s[1..] == y;
      TokensSkip(s);
    } else if IsBreak(x[0]) {
      assert s[1..] == x[1..] + [b] + y;
      TokensBreak(x[1..], b, y);
      TokensSkip(s);
    } else {
      var n := Run(x);
      RunPrefix(x, b, y);
      assert s[..n] == x[..n] && s[n..] == x[n..] + [b] + y;
      TokensBreak(x[n..], b, y);
      TokensRun(s);
      TokensRun(x);
    }
  }

  lemma TokensOneMore(x: Line, b: Byte)
    requires IsBreak(b)
    ensures Tokens(x + [b]) == Tokens(x)
  {
    TokensBreak(x, b, []);
    assert x + [b] + [] == x + [b];
  }

  lemma TokensAfterBreak(x: Line, y: Line)
    requires x == [] || IsBreak(x[|x| - 1])
    ensures Tokens(x + y) == Tokens(x) + Tokens(y)
  {
    if x == [] {
      assert x + y == y;
    } else {
      var p, b := x[..|x| - 1], x[|x| - 1];
      assert x == p + [b];
      TokensBreak(p, b, y);
      TokensOneMore(p, b);
    }
  }

  /** Two line breaks at the end add no stretch. */
  lemma TokensTwoMore(e: Line, b: Byte, c: Byte)
    requires IsBreak(b) && IsBreak(c)
    ensures Tokens(e + [b] + [c]) == Tokens(e)
  {
    TokensOneMore(e, b);
    TokensOneMore(e + [b], c);
  }

  lemma TokensSeparated(e: Line, s: Line, sep: Separator)
    requires |s| == |e| + Size(sep) && s[..|e|] == e && At(s, sep, |e|)
    ensures Tokens(s) == Tokens(e)
  {
    if sep.Long? {
      TokensTwoMore(e, CR, LF);
      TokensTwoMore(e + [CR] + [LF], CR, LF);
      assert s == e + [CR] + [LF] + [CR] + [LF];
    } else {
      TokensTwoMore(e, LF, LF);
      assert s == e + [LF] + [LF];
    }
  }

  // ---- the stream, byte by byte ------------------------------------------------------------------

  /** With `c` bytes gone, the last byte completes a separator. */
  predicate EndsEvent(s: Line, c: nat) {
    || (c + 4 <= |s| && At(s, Long, |s| - 4))
    || (c + 2 <= |s| && At(s, Short, |s| - 2))
  }

  /** How many bytes are gone once all complete events have left, the stream read byte by byte. */
  function Cut(s: Line): (c: nat)
    ensures c <= |s|
  {
    if s == [] then 0 else if EndsEvent(s, Cut(s[..|s| - 1])) then |s| else Cut(s[..|s| - 1])
  }

  function Consumed(s: Line): Line { s[..Cut(s)] }

  /** The unfinished event at the end of a stream. */
  function Leftover(s: Line): Line { s[Cut(s)..] }

  lemma {:induction false} CutWhere(s: Line)
    ensures Cut(s) > 0 ==>
      (Cut(s) >= 4 && At(s, Long, Cut(s) - 4)) || (Cut(s) >= 2 && At(s, Short, Cut(s) - 2))
    ensures Cut(s[..Cut(s)]) == Cut(s)
  {
    if s != [] {
      var k := |s| - 1;
      CutWhere(s[..k]);
      if Cut(s) == |s| {
        assert s[..Cut(s)] == s;
      } else {
        assert s[..k][..Cut(s)] == s[..Cut(s)];
      }
    }
  }

  /** After a complete event the scan starts anew. */
  lemma {:induction false} CutAfter(done: Line, t: Line)
    requires Cut(done) == |done|
    ensures Cut(done + t) == |done| + Cut(t)
  {
    if t == [] {
      assert done + t == done;
    } else {
      var k := |t| - 1;
      assert (done + t)[..|done + t| - 1] == done + t[..k];
      CutAfter(done, t[..k]);
    }
  }

  /** Without a separator nothing leaves. */
  lemma {:induction false} CutClean(s: Line)
    requires Free(s, Long) && Free(s, Short)
    ensures Cut(s) == 0
  {
    if s != [] {
      var k := |s| - 1;
      forall i: nat ensures !At(s[..k], Long, i) { assert !At(s, Long, i); }
      forall i: nat ensures !At(s[..k], Short, i) { assert !At(s, Short, i); }
      CutClean(s[..k]);
    }
  }

  /** The first CR LF CR LF ends an event, whatever LF LF came before it. */
  lemma FirstLong(s: Line, i: nat)
    requires |s| == i + 4 && At(s, Long, i) && forall j: nat :: j < i ==> !At(s, Long, j)
    ensures Cut(s) == |s|
  {
    var c := Cut(s[..i + 3]);
    CutWhere(s[..i + 3]);
    assert i >= 2 ==> !At(s, Long, i - 2);
    assert c <= i;
  }

  /** Without CR LF CR LF the first LF LF ends an event. */
  lemma FirstShort(s: Line, i: nat)
    requires |s| == i + 2 && At(s, Short, i) && Free(s, Long) && forall j: nat :: j < i ==> !At(s, Short, j)
    ensures Cut(s) == |s|
  {
    var t := s[..i + 1];
    forall j: nat ensures !At(t, Long, j) { assert !At(s, Long, j); }
    forall j: nat ensures !At(t, Short, j) { assert j < i ==> !At(s, Short, j); }
    CutClean(t);
  }

  // ---- events ------------------------------------------------------------------------------------

  /** What the JSON body of a data line says, as the decoder finds it. */
  datatype Body = NotJson | Failure(message: string) | Token | Other

  type Decoder = Line -> Body

  predicate IsSpace(b: Byte) { b == 32 || 9 <= b <= 13 }

  function StripLeft(s: Line): Line { if s != [] && IsSpace(s[0]) then StripLeft(s[1..]) else s }

  function StripRight(s: Line): Line {
    if s != [] && IsSpace(s[|s| - 1]) then StripRight(s[..|s| - 1]) else s
  }

  /** "data:" and "[DONE]". */
  const DATA: Line := [100, 97, 116, 97, 58]
  const DONE: Line := [91, 68, 79, 78, 69, 93]

  /** What one line contributes; nothing but data lines, and not the end marker. */
  function Meaning(line: Line, decode: Decoder): Body {
    if |line| < 5 || line[..5] != DATA then Other else
      var payload := StripRight(StripLeft(line[5..]));
      if payload == DONE then Other else decode(payload)
  }

  /** How many lines are tokens. */
  function TokenCount(lines: seq<Line>, decode: Decoder): nat {
    if lines == [] then 0 else
      var k := |lines| - 1;
      TokenCount(lines[..k], decode) + if Meaning(lines[k], decode).Token? then 1 else 0
  }

  /** The message of the last failure, if there was one. */
  function LastError(lines: seq<Line>, decode: Decoder): Option<string> {
    if lines == [] then None else
      var k := |lines| - 1;
      var m := Meaning(lines[k], decode);
      if m.Failure? then Some(Clip(m.message)) else LastError(lines[..k], decode)
  }

  function Clip(message: string): string { if |message| < 200 then message else message[..200] }

  lemma OneMoreLine(lines: seq<Line>, line: Line, decode: Decoder)
    ensures TokenCount(lines + [line], decode) ==
      TokenCount(lines, decode) + if Meaning(line, decode).Token? then 1 else 0
    ensures LastError(lines + [line], decode) ==
      if Meaning(line, decode).Failure? then Some(Clip(Meaning(line, decode).message)) else LastError(lines, decode)
  {
    assert (lines + [line])[..|lines|] == lines;
  }

  lemma {:induction false} NonEmptyMore(lines: seq<Line>, line: Line)
    ensures NonEmpty(lines + [line]) == NonEmpty(lines) + if line == [] then [] else [line]
  {
    if lines == [] {
      assert lines + [line] == [line] && [line][1..] == [];
    } else {
      assert (lines + [line])[1..] == lines[1..] + [line];
      NonEmptyMore(lines[1..], line);
    }
  }

  /** Where a separator comes first; -1 when it does not. */
  method Find(s: Line, sep: Separator) returns (index: int)
    ensures -1 <= index
    ensures index == -1 ==> Free(s, sep)
    ensures index >= 0 ==> At(s, sep, index) && forall i: nat :: i < index ==> !At(s, sep, i)
  {
    index := 0;
    while index + Size(sep) <= |s|
      invariant index >= 0 && forall i: nat :: i < index ==> !At(s, sep, i)
      decreases |s| - index
    {
      if At(s, sep, index) { return; }
      index := index + 1;
    }
    index := -1;
  }

  class StreamTimer {
    const decode: Decoder
    var buffer: Line
    var tokenTimes: seq<real>
    var error: Option<string>
    ghost var fed: Line  // history: every byte so far

    /** The tokens counted and the error kept are those of these lines. */
    ghost predicate Tells(lines: seq<Line>)
      reads this
    {
      |tokenTimes| == TokenCount(lines, decode) && error == LastError(lines, decode)
    }

    /** Everything depends on the bytes alone, not on the chunks they came in. */
    ghost predicate Valid()
      reads this
    {
      forall n {:trigger Asked(n)} :: Asked(n) ==> buffer == Leftover(fed) && Tells(Tokens(Consumed(fed)))
    }

    lemma Look()
      requires Valid()
      ensures buffer == Leftover(fed) && Tells(Tokens(Consumed(fed)))
    {
      assert Asked(0);
    }

    constructor (decode: Decoder)
      ensures Valid() && fed == [] && buffer == [] && tokenTimes == [] && error.None? && this.decode == decode
    {
      this.decode, buffer, tokenTimes, error, fed := decode, [], [], None, [];
    }

    method HandleLine(line: Line, ghost before: seq<Line>) returns (more: nat)
      requires Tells(before)
      modifies this`tokenTimes, this`error
      ensures Tells(before + NonEmpty([line])) && |tokenTimes| == |old(tokenTimes)| + more
    {
      more := 0;
      OneMoreLine(before, line, decode);
      assert NonEmpty([line]) == (if line == [] then [] else [line]) + NonEmpty([line][1..]);
      assert before + [] == before;
      var m := Meaning(line, decode);
      if m.Failure? {
        error := Some(Clip(m.message));
      } else if m.Token? {
        var now: real := *;
        tokenTimes := tokenTimes + [now];
        more := 1;
      }
    }

    /** The lines of one event, in order. */
    method Handle(event: Line, ghost before: seq<Line>) returns (more: nat)
      requires Tells(before)
      modifies this`tokenTimes, this`error
      ensures Tells(before + Tokens(event)) && |tokenTimes| == |old(tokenTimes)| + more
    {
      var lines := SplitLines(event);
      more := 0;
      assert before + [] == before;
      for k := 0 to |lines|
        invariant Tells(before + NonEmpty(lines[..k])) && |tokenTimes| == |old(tokenTimes)| + more
      {
        ghost var done := before + NonEmpty(lines[..k]);
        OneMoreNonEmpty(before, lines, k);
        var one := HandleLine(lines[k], done);
        more := more + one;
      }
      assert lines[..|lines|] == lines;
      SplitLinesTokens(event);
    }

    /** The next separator to cut at: CR LF CR LF anywhere comes before LF LF. */
    method NextCut() returns (index: int, sep: Separator)
      ensures index < 0 ==> Free(buffer, Long) && Free(buffer, Short)
      ensures index >= 0 ==> FirstAt(buffer, sep, index)
    {
      sep := Long;
      index := Find(buffer, sep);
      if index < 0 {
        sep := Short;
        index := Find(buffer, sep);
      }
    }

    /** The event before the separator leaves the buffer, and its lines are handled. */
    method TakeEvent(ghost done: Line, index: nat, sep: Separator) returns (more: nat, ghost gone: Line)
      requires Cut(done) == |done| && Tells(Tokens(done)) && FirstAt(buffer, sep, index)
      modifies this`buffer, this`tokenTimes, this`error
      ensures gone + buffer == done + old(buffer) && Cut(gone) == |gone| && |buffer| < |old(buffer)|
      ensures Tells(Tokens(gone)) && |tokenTimes| == |old(tokenTimes)| + more
    {
      CutHere(done, buffer, index, sep);
      gone := done + buffer[..index + Size(sep)];
      Regroup(done, buffer, index + Size(sep));
      var event := buffer[..index];
      buffer := buffer[index + Size(sep)..];
      more := Handle(event, Tokens(done));
    }

    method Feed(chunk: Line) returns (more: nat)
      requires Valid()
      modifies this
      ensures Valid() && fed == old(fed) + chunk && |tokenTimes| == |old(tokenTimes)| + more
    {
      Look();
      CutWhere(fed);
      ghost var done := Consumed(fed);
      fed := fed + chunk;
      buffer := buffer + chunk;
      more := 0;
      assert fed == done + buffer;
      while true
        invariant fed == old(fed) + chunk && fed == done + buffer && Cut(done) == |done|
        invariant Tells(Tokens(done)) && |tokenTimes| == |old(tokenTimes)| + more
        decreases |buffer|
      {
        var index, sep := NextCut();
        if index < 0 {
          Stop(done, buffer);
          return;
        }
        var some;
        some, done := TakeEvent(done, index, sep);
        more := more + some;
      }
    }
  }

  lemma Regroup(a: Line, b: Line, k: nat)
    requires k <= |b|
    ensures (a + b[..k]) + b[k..] == a + b
  {}

  /** The separator is in the buffer, at `index` first; the short one only counts without the long one. */
  ghost predicate FirstAt(s: Line, sep: Separator, index: nat) {
    && At(s, sep, index) && (forall i: nat :: i < index ==> !At(s, sep, i))
    && (sep.Short? ==> Free(s, Long))
  }

  lemma OneMoreNonEmpty(before: seq<Line>, lines: seq<Line>, k: nat)
    requires k < |lines|
    ensures before + NonEmpty(lines[..k + 1]) == before + NonEmpty(lines[..k]) + NonEmpty([lines[k]])
  {
    assert lines[..k + 1] == lines[..k] + [lines[k]];
    NonEmptyMore(lines[..k], lines[k]);
    NonEmptyMore([], lines[k]);
    assert [] + [lines[k]] == [lines[k]];
  }

  lemma EndsInBreak(s: Line)
    requires Cut(s) == |s| && s != []
    ensures IsBreak(s[|s| - 1])
  {
    CutWhere(s);
  }

  /** What is cut off next is a whole event of the stream, and its lines are the next ones. */
  lemma CutHere(done: Line, buffer: Line, index: nat, sep: Separator)
    requires Cut(done) == |done| && FirstAt(buffer, sep, index)
    ensures var cut := done + buffer[..index + Size(sep)];
      Cut(cut) == |cut| && Tokens(cut) == Tokens(done) + Tokens(buffer[..index])
  {
    var s := buffer[..index + Size(sep)];
    forall i: nat | i < index ensures !At(s, sep, i) { assert !At(buffer, sep, i); }
    if sep.Long? {
      FirstLong(s, index);
    } else {
      forall i: nat ensures !At(s, Long, i) { assert !At(buffer, Long, i); }
      FirstShort(s, index);
    }
    CutAfter(done, s);
    if done != [] { EndsInBreak(done); }
    TokensAfterBreak(done, s);
    TokensSeparated(buffer[..index], s, sep);
  }

  /** Nothing more to cut: what is left is the leftover of the whole stream. */
  lemma Stop(done: Line, buffer: Line)
    requires Cut(done) == |done| && Free(buffer, Long) && Free(buffer, Short)
    ensures Leftover(done + buffer) == buffer && Consumed(done + buffer) == done
  {
    CutAfter(done, buffer);
    CutClean(buffer);
  }

  function Joined(chunks: seq<Line>): Line {
    if chunks == [] then [] else Joined(chunks[..|chunks| - 1]) + chunks[|chunks| - 1]
  }

  /** A stream in whatever chunks: the outcome is a function of its bytes. */
  method Stream(decode: Decoder, chunks: seq<Line>) returns (tokens: nat, error: Option<string>, rest: Line)
    ensures var all := Joined(chunks);
      && rest == Leftover(all)
      && tokens == TokenCount(Tokens(Consumed(all)), decode)
      && error == LastError(Tokens(Consumed(all)), decode)
  {
    var timer := new StreamTimer(decode);
    tokens := 0;
    assert chunks[..0] == [];
    for k := 0 to |chunks|
      invariant fresh(timer) && timer.Valid() && timer.fed == Joined(chunks[..k]) && timer.decode == decode
      invariant tokens == |timer.tokenTimes|
    {
      assert chunks[..k + 1][..k] == chunks[..k];
      var more := timer.Feed(chunks[k]);
      tokens := tokens + more;
    }
    assert chunks[..|chunks|] == chunks;
    timer.Look();
    error, rest := timer.error, timer.buffer;
  }
}
