/** `spawn_log_reader`: cutting a process's output into lines with byte offsets. The output is a byte string in UTF-8;
    offsets are unsigned 64-bit. */
module LogReader {

  type Byte = b: int | 0 <= b < 256

  const LF: Byte := 10
  const CR: Byte := 13
  const U64: nat := 0x1_0000_0000_0000_0000

  /** What an unsigned 64-bit counter holds. */
  function Wrap(n: nat): nat { n % U64 }

  lemma WrapSmall(n: nat)
    requires n < U64
    ensures Wrap(n) == n
  {
  }

  lemma WrapAdd(a: nat, b: nat)
    ensures Wrap(Wrap(a) + b) == Wrap(a + b)
  {
  }

  datatype Emitted = Emitted(text: seq<Byte>, offset: nat)

  /** Where a line starts, and where its newline is (or the stream ends). */
  datatype Span = Span(start: nat, end: nat)

  function NewlineFrom(s: seq<Byte>, i: nat): (r: nat)
    requires i <= |s|
    ensures i <= r <= |s| && (r < |s| ==> s[r] == LF)
    ensures forall k :: i <= k < r ==> s[k] != LF
    decreases |s| - i
  {
    if i == |s| || s[i] == LF then i else NewlineFrom(s, i + 1)
  }

  function Spans(s: seq<Byte>, from: nat): (spans: seq<Span>)
    requires from <= |s| + 1
    ensures forall k :: 0 <= k < |spans| ==> from <= spans[k].start <= spans[k].end <= |s| && spans[k].start < |s|
    decreases |s| + 1 - from
  {
    if from >= |s| then []
    else [Span(from, NewlineFrom(s, from))] + Spans(s, NewlineFrom(s, from) + 1)
  }

  lemma NextSpan(s: seq<Byte>, from: nat)
    requires from < |s|
    ensures Spans(s, from) != [] && Spans(s, from)[0] == Span(from, NewlineFrom(s, from))
    ensures Spans(s, from)[1..] == Spans(s, NewlineFrom(s, from) + 1)
  {
  }

  lemma NewlineHere(s: seq<Byte>, i: nat)
    requires i <= |s|
    ensures i == |s| || s[i] == LF ==> NewlineFrom(s, i) == i
    ensures i < |s| && s[i] != LF ==> NewlineFrom(s, i) == NewlineFrom(s, i + 1)
  {
  }

  /** A carriage return directly before the newline is taken off with it. */
  predicate EndsInCr(s: seq<Byte>, span: Span) {
    span.start < span.end < |s| && s[span.end - 1] == CR
  }

  function LineText(s: seq<Byte>, span: Span): seq<Byte>
    requires span.start <= span.end <= |s|
  {
    s[span.start..if EndsInCr(s, span) then span.end - 1 else span.end]
  }

  /** What the reader has added up before line `k`, were the counter unbounded. */
  function Sum(s: seq<Byte>, k: nat): nat
    requires k <= |Spans(s, 0)|
  {
    if k == 0 then 0 else Sum(s, k - 1) + |LineText(s, Spans(s, 0)[k - 1])| + 1
  }

  /** `next_line`: up to the newline or the end of the stream. */
  method NextLine(s: seq<Byte>, position: nat) returns (line: seq<Byte>, end: nat)
    requires position < |s|
    ensures end == NewlineFrom(s, position) && line == LineText(s, Span(position, end))
  {
    end := position;
    while end < |s| && s[end] != LF
      invariant position <= end <= |s|
      invariant NewlineFrom(s, position) == NewlineFrom(s, end)
    {
      NewlineHere(s, end);
      end := end + 1;
    }
    NewlineHere(s, end);
    line := s[position..end];
    if end < |s| && line != [] && line[|line| - 1] == CR {
      line := line[..|line| - 1];
    }
  }

  /** Line `k` with its offset as the reader reports it. */
  function Line(s: seq<Byte>, k: nat): Emitted
    requires k < |Spans(s, 0)|
  {
    Emitted(LineText(s, Spans(s, 0)[k]), Wrap(Sum(s, k)))
  }

  lemma ReadStep(s: seq<Byte>, position: nat, k: nat)
    requires position < |s| && k <= |Spans(s, 0)| && Spans(s, 0)[k..] == Spans(s, position)
    ensures k < |Spans(s, 0)|
    ensures var end := NewlineFrom(s, position);
      var text := LineText(s, Span(position, end));
      && Spans(s, 0)[k + 1..] == Spans(s, end + 1)
      && Line(s, k) == Emitted(text, Wrap(Sum(s, k)))
      && Wrap(Sum(s, k + 1)) == Wrap(Wrap(Sum(s, k)) + (|text| + 1))
  {
    hide Wrap, LineText;
    NextSpan(s, position);
    assert Spans(s, 0)[k..][0] == Spans(s, 0)[k];
    assert Spans(s, 0)[k..][1..] == Spans(s, 0)[k + 1..];
    WrapAdd(Sum(s, k), |LineText(s, Spans(s, 0)[k])| + 1);
  }

  lemma SumZero(s: seq<Byte>)
    ensures Wrap(Sum(s, 0)) == 0
  {
  }

  method ReadLog(s: seq<Byte>) returns (lines: seq<Emitted>)
    ensures |lines| == |Spans(s, 0)|
    ensures forall k :: 0 <= k < |lines| ==> lines[k] == Line(s, k)
  {
    hide Wrap, Spans, NewlineFrom, LineText, Line, Sum;
    SumZero(s);
    lines := [];
    var position, offset := 0, 0;
    while position < |s|
      invariant position <= |s| + 1
      invariant |lines| <= |Spans(s, 0)| && Spans(s, 0)[|lines|..] == Spans(s, position)
      invariant offset == Wrap(Sum(s, |lines|))
      invariant forall k :: 0 <= k < |lines| ==> lines[k] == Line(s, k)
    {
      ReadStep(s, position, |lines|);
      var line, end := NextLine(s, position);
      lines := lines + [Emitted(line, offset)];
      offset := Wrap(offset + (|line| + 1));
      position := end + 1;
    }
    NoSpan(s, position);
  }

  lemma NoSpan(s: seq<Byte>, from: nat)
    requires |s| <= from <= |s| + 1
    ensures Spans(s, from) == []
  {
  }

  // ---- What the offsets mean ----

  /** How many lines before line `k` lost a carriage return. */
  function Lost(s: seq<Byte>, k: nat): nat
    requires k <= |Spans(s, 0)|
  {
    if k == 0 then 0 else Lost(s, k - 1) + if EndsInCr(s, Spans(s, 0)[k - 1]) then 1 else 0
  }

  /** One line starts right after the newline of the one before. */
  lemma {:induction false} SpansAbut(s: seq<Byte>, from: nat, k: nat)
    requires from <= |s| + 1 && k < |Spans(s, from)|
    ensures k == 0 ==> Spans(s, from)[k].start == from
    ensures k > 0 ==> Spans(s, from)[k].start == Spans(s, from)[k - 1].end + 1
    decreases k
  {
    if k > 0 {
      SpansAbut(s, NewlineFrom(s, from) + 1, k - 1);
    }
  }

  lemma {:induction false} SumIsStart(s: seq<Byte>, k: nat)
    requires k < |Spans(s, 0)|
    ensures Sum(s, k) + Lost(s, k) == Spans(s, 0)[k].start
  {
    SpansAbut(s, 0, k);
    if k > 0 {
      SumIsStart(s, k - 1);
    }
  }

  /** The offset of a line is its byte position in the stream, exactly when no line before it ended in CR LF; then the
      line is what the stream holds there. */
  lemma OffsetIsPositionIff(s: seq<Byte>, k: nat)
    requires |s| < U64 && k < |Spans(s, 0)|
    ensures var span := Spans(s, 0)[k];
      && (Wrap(Sum(s, k)) == span.start <==> forall j :: 0 <= j < k ==> !EndsInCr(s, Spans(s, 0)[j]))
      && (Wrap(Sum(s, k)) == span.start ==>
            var offset, text := Wrap(Sum(s, k)), LineText(s, span);
            offset + |text| <= |s| && s[offset..offset + |text|] == text)
  {
    hide Wrap, Sum, Lost, Spans;
    SumIsStart(s, k);
    WrapSmall(Sum(s, k));
    LostNone(s, k);
  }

  lemma {:induction false} LostNone(s: seq<Byte>, k: nat)
    requires k <= |Spans(s, 0)|
    ensures Lost(s, k) == 0 <==> forall j :: 0 <= j < k ==> !EndsInCr(s, Spans(s, 0)[j])
  {
    if k > 0 {
      LostNone(s, k - 1);
    }
  }

  /** Offsets strictly increase: the counter never wraps on a stream shorter than 2^64 bytes. */
  lemma OffsetsIncrease(s: seq<Byte>, j: nat, k: nat)
    requires |s| < U64 && j < k < |Spans(s, 0)|
    ensures Wrap(Sum(s, j)) < Wrap(Sum(s, k))
  {
    hide Wrap, Spans;
    SumIsStart(s, j);
    SumIsStart(s, k);
    SumIncreases(s, j, k);
    WrapSmall(Sum(s, j));
    WrapSmall(Sum(s, k));
  }

  lemma {:induction false} SumIncreases(s: seq<Byte>, j: nat, k: nat)
    requires j < k <= |Spans(s, 0)|
    ensures Sum(s, j) < Sum(s, k)
  {
    hide Spans;
    if j < k - 1 {
      SumIncreases(s, j, k - 1);
    }
  }

  // ---- Rebuilding the stream ----

  /** The lines from line `k` on, each with a newline after it. */
  function Unlines(s: seq<Byte>, spans: seq<Span>): seq<Byte>
    requires forall k :: 0 <= k < |spans| ==> spans[k].start <= spans[k].end <= |s|
  {
    if spans == [] then [] else LineText(s, spans[0]) + [LF] + Unlines(s, spans[1..])
  }

  function Terminated(s: seq<Byte>): seq<Byte> {
    if s == [] || s[|s| - 1] == LF then s else s + [LF]
  }

  lemma {:induction false} UnlinesFrom(s: seq<Byte>, from: nat)
    requires from <= |s|
    ensures |Unlines(s, Spans(s, from))| <= |Terminated(s[from..])|
    ensures Unlines(s, Spans(s, from)) == Terminated(s[from..])
            <==> forall k :: 0 <= k < |Spans(s, from)| ==> !EndsInCr(s, Spans(s, from)[k])
    decreases |s| - from
  {
    hide Spans, LineText, EndsInCr, Terminated, NewlineFrom;
    if from < |s| {
      var spans := Spans(s, from);
      var end := NewlineFrom(s, from);
      NextSpan(s, from);
      SplitAll(s, spans);
      if end < |s| {
        UnlinesFrom(s, end + 1);
        HeadLine(s, from, end, LineText(s, spans[0]), Unlines(s, spans[1..]));
      } else {
        NoSpan(s, end + 1);
        LastLine(s, from, LineText(s, spans[0]));
      }
    } else {
      NoSpan(s, from);
      assert s[from..] == [];
      assert Terminated([]) == [] by { NothingToEnd(); }
    }
  }

  lemma NothingToEnd()
    ensures Terminated([]) == []
  {
  }

  lemma LastLine(s: seq<Byte>, from: nat, text: seq<Byte>)
    requires from < |s| && NewlineFrom(s, from) == |s| && text == LineText(s, Span(from, |s|))
    ensures text + [LF] + [] == Terminated(s[from..]) && !EndsInCr(s, Span(from, |s|))
  {
    assert s[from..|s|] == s[from..];
    assert text + [LF] + [] == text + [LF];
  }

  lemma TerminatedLine(s: seq<Byte>, from: nat, end: nat)
    requires from <= end < |s| && s[end] == LF
    ensures Terminated(s[from..]) == s[from..end] + [LF] + Terminated(s[end + 1..])
  {
    assert s[from..] == s[from..end] + [LF] + s[end + 1..];
  }

  lemma HeadLine(s: seq<Byte>, from: nat, end: nat, text: seq<Byte>, more: seq<Byte>)
    requires from <= end < |s| && s[end] == LF
    requires text == LineText(s, Span(from, end))
    requires |more| <= |Terminated(s[end + 1..])|
    ensures |text + [LF] + more| <= |Terminated(s[from..])|
    ensures text + [LF] + more == Terminated(s[from..])
            <==> !EndsInCr(s, Span(from, end)) && more == Terminated(s[end + 1..])
  {
    var rest := s[end + 1..];
    TerminatedLine(s, from, end);
    assert text == s[from..end] || (EndsInCr(s, Span(from, end)) && |text| < end - from);
    hide Terminated, LineText, EndsInCr;
    if text == s[from..end] {
      SameHead(text + [LF], more, Terminated(rest));
    }
  }

  lemma SameHead(head: seq<Byte>, a: seq<Byte>, b: seq<Byte>)
    ensures head + a == head + b <==> a == b
  {
    if head + a == head + b {
      assert a == (head + a)[|head|..] == (head + b)[|head|..] == b;
    }
  }

  lemma SplitAll(s: seq<Byte>, spans: seq<Span>)
    requires spans != []
    ensures (forall k :: 0 <= k < |spans| ==> !EndsInCr(s, spans[k]))
            <==> !EndsInCr(s, spans[0]) && forall k :: 0 <= k < |spans[1..]| ==> !EndsInCr(s, spans[1..][k])
  {
    assert forall k :: 1 <= k < |spans| ==> spans[k] == spans[1..][k - 1];
  }

  /** Putting a newline after every line rebuilds the stream, up to a final newline, exactly when no line ended in
      CR LF. */
  lemma LinesRebuildIff(s: seq<Byte>)
    ensures Unlines(s, Spans(s, 0)) == Terminated(s)
            <==> forall k :: 0 <= k < |Spans(s, 0)| ==> !EndsInCr(s, Spans(s, 0)[k])
  {
    assert s[0..] == s;
    UnlinesFrom(s, 0);
  }
}
