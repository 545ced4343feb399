/**
 * The diff printer as the program runs it: `DiffState`, whose fields are
 * updated record by record, and the entry point `PrintDiff`.  Standard
 * error is the field `out`, a log every write appends to.  Each method is
 * proved to write exactly what the matching function of `DiffSpec` says
 * and to leave the state that function gives.
 */
module Diff {
  import opened Wrappers
  import opened Alignment
  import opened Output
  import opened Whitespace
  import opened DiffSpec

  /** The scan of `row` that sets `seen_l` and `seen_r`: which sides change visible characters. */
  method ScanChars(d: seq<Record<char>>) returns (seenL: bool, seenR: bool)
    ensures seenL <==> HasVisibleLeft(d)
    ensures seenR <==> HasVisibleRight(d)
  {
    seenL, seenR := false, false;
    for i := 0 to |d|
      invariant seenL <==> exists j :: 0 <= j < i && d[j].Left? && !IsWhitespace(d[j].l)
      invariant seenR <==> exists j :: 0 <= j < i && d[j].Right? && !IsWhitespace(d[j].r)
    {
      match d[i]
      case Left(c) =>
        if !IsWhitespace(c) {
          seenL := true;
        }
      case Right(c) =>
        if !IsWhitespace(c) {
          seenR := true;
        }
      case Both(_, _) =>
    }
  }

  /** The `-` line of a mixed pair, one character at a time: it shows the old line, with nothing added. */
  method RenderMinus(d: seq<Record<char>>) returns (spans: seq<Span>)
    ensures spans == MinusSpans(d)
    ensures OldText(spans) == Lefts(d) && NoAdded(spans)
  {
    spans := [];
    for i := 0 to |d|
      invariant spans == MinusSpans(d[..i])
    {
      assert d[..i + 1][..i] == d[..i];
      match d[i]
      case Left(c) => spans := spans + [Removed(c)];
      case Right(_) =>
      case Both(c, _) => spans := spans + [Plain(c)];
    }
    assert d[..|d|] == d;
    MinusSpansText(d);
  }

  /** The `+` line of a mixed pair: under matching `Both` records it shows the new line, with nothing removed. */
  method RenderPlus(d: seq<Record<char>>) returns (spans: seq<Span>)
    ensures spans == PlusSpans(d)
    ensures MatchesAgree(d) ==> NewText(spans) == Rights(d) && NoRemoved(spans)
  {
    spans := [];
    for i := 0 to |d|
      invariant spans == PlusSpans(d[..i])
    {
      assert d[..i + 1][..i] == d[..i];
      match d[i]
      case Left(_) =>
      case Right(c) => spans := spans + [Added(c)];
      case Both(c, _) => spans := spans + [Plain(c)];
    }
    assert d[..|d|] == d;
    if MatchesAgree(d) {
      PlusSpansText(d);
    }
  }

  /** The single `~` line of a pure pair: under matching `Both` records it carries both lines. */
  method RenderTilde(d: seq<Record<char>>) returns (spans: seq<Span>)
    ensures spans == TildeSpans(d)
    ensures MatchesAgree(d) ==> OldText(spans) == Lefts(d) && NewText(spans) == Rights(d)
  {
    spans := [];
    for i := 0 to |d|
      invariant spans == TildeSpans(d[..i])
    {
      assert d[..i + 1][..i] == d[..i];
      match d[i]
      case Left(c) => spans := spans + [Removed(c)];
      case Both(c, _) => spans := spans + [Plain(c)];
      case Right(c) => spans := spans + [Added(c)];
    }
    assert d[..|d|] == d;
    if MatchesAgree(d) {
      TildeSpansText(d);
    }
  }

  class DiffState {
    /** Whether a change has been shown, so that runs get leading context too. */
    var printStartContext: bool
    /** The unchanged lines seen since the last change. */
    var skippedLines: seq<string>
    /** A removed line held back to be compared with a following added line. */
    var prevLeft: Option<string>
    /** Everything written to standard error so far. */
    var out: seq<OutLine>

    function State(): PrinterState
      reads this
    {
      PrinterState(printStartContext, skippedLines, prevLeft)
    }

    /** `DiffState::default()`. */
    constructor ()
      ensures State() == Initial && out == []
    {
      printStartContext := false;
      skippedLines := [];
      prevLeft := None;
      out := [];
    }

    /** `print_end_skip`: the skip message, then the last `CONTEXT` buffered lines. */
    method PrintEndSkip(skipped: nat)
      requires skipped == 1 ==> |skippedLines| > CONTEXT
      modifies this`out
      ensures out == old(out) + EndSkip(skippedLines, skipped)
    {
      PrintSkippedMsg(skipped);
      ghost var before := out;
      var buffered := skippedLines;
      var n := |buffered|;
      var first := n - Min(CONTEXT, n);
      var i := first;
      while i < n
        invariant first <= i <= n
        invariant out == before + Ctxs(buffered[first..i])
      {
        assert buffered[first..i + 1] == buffered[first..i] + [buffered[i]];
        CtxsSnoc(buffered[first..i], buffered[i]);
        out := out + [Ctx(buffered[i])];
        i := i + 1;
      }
      assert buffered[first..n] == Tail(buffered);
    }

    /** `print_skipped_msg`: nothing, the one skipped line itself, or a count. */
    method PrintSkippedMsg(skipped: nat)
      requires skipped == 1 ==> |skippedLines| > CONTEXT
      modifies this`out
      ensures out == old(out) + SkippedMsg(skippedLines, skipped)
    {
      if skipped == 0 {
      } else if skipped == 1 {
        out := out + [Ctx(skippedLines[CONTEXT])];
      } else {
        out := out + [SkipMsg(skipped)];
      }
    }

    /** `print_start_skip`: the first `CONTEXT` buffered lines. */
    method PrintStartSkip()
      modifies this`out
      ensures out == old(out) + StartSkip(skippedLines)
    {
      var buffered := skippedLines;
      var k := Min(CONTEXT, |buffered|);
      for i := 0 to k
        invariant out == old(out) + Ctxs(buffered[..i])
      {
        assert buffered[..i + 1] == buffered[..i] + [buffered[i]];
        CtxsSnoc(buffered[..i], buffered[i]);
        out := out + [Ctx(buffered[i])];
      }
    }

    /** `print_skip`: show the buffered run as the display policy says, then forget it. */
    method PrintSkip()
      modifies this
      ensures out == old(out) + SkipRegion(old(printStartContext), old(skippedLines))
      ensures printStartContext && skippedLines == [] && prevLeft == old(prevLeft)
    {
      ghost var started, buffered := printStartContext, skippedLines;
      var half := |skippedLines| / 2;
      if !printStartContext {
        printStartContext := true;
        PrintEndSkip(SaturatingSub(|skippedLines|, CONTEXT));
        assert out == old(out) + SkipRegion(started, buffered);
      } else if half < CONTEXT {
        // `drain(..)`: the buffer is emptied and each line shown
        var drained := skippedLines;
        skippedLines := [];
        for i := 0 to |drained|
          modifies this`out
          invariant out == old(out) + Ctxs(drained[..i])
        {
          assert drained[..i + 1] == drained[..i] + [drained[i]];
          CtxsSnoc(drained[..i], drained[i]);
          out := out + [Ctx(drained[i])];
        }
        assert drained[..|drained|] == drained;
        assert out == old(out) + SkipRegion(started, buffered);
      } else {
        PrintStartSkip();
        PrintEndSkip(|skippedLines| - CONTEXT * 2);
        assert out == old(out) + SkipRegion(started, buffered);
      }
      skippedLines := [];
    }

    /** `skip`: buffer an unchanged line. */
    method Skip(line: string)
      modifies this`skippedLines
      ensures skippedLines == old(skippedLines) + [line]
    {
      skippedLines := skippedLines + [line];
    }

    /** `print_prev`: show a held-back removed line, if any, and stop holding it. */
    method PrintPrev()
      modifies this`out, this`prevLeft
      ensures out == old(out) + Removal(old(prevLeft))
      ensures prevLeft == None
    {
      if prevLeft.Some? {
        var l := prevLeft.value;
        prevLeft := None;
        PrintLeft(l);
      }
    }

    /** `print_left`: a removed line, all red. */
    method PrintLeft(l: string)
      modifies this`out
      ensures out == old(out) + [Minus(l)]
    {
      out := out + [Minus(l)];
    }

    /** `print_right`: an added line, all green. */
    method PrintRight(r: string)
      modifies this`out
      ensures out == old(out) + [Plus(r)]
    {
      out := out + [Plus(r)];
    }

    /** `row`: consume one line record; `chars` is the character aligner `diff::chars`. */
    method Row(row: Record<string>, chars: CharAligner)
      modifies this
      ensures State() == Step(old(State()), row, chars).0
      ensures out == old(out) + Step(old(State()), row, chars).1
    {
      match row
      case Left(l) =>
        PrintSkip();
        PrintPrev();
        prevLeft := Some(l);
      case Both(l, _) =>
        PrintPrev();
        Skip(l);
      case Right(r) =>
        if prevLeft.Some? {
          var l := prevLeft.value;
          prevLeft := None;
          var d := chars(l, r);
          var seenL, seenR := ScanChars(d);
          if seenL && seenR {
            var minus := RenderMinus(d);
            out := out + [MinusHl(minus)];
            var plus := RenderPlus(d);
            out := out + [PlusHl(plus)];
          } else {
            var tilde := RenderTilde(d);
            out := out + [Tilde(tilde)];
          }
        } else {
          PrintSkip();
          PrintRight(r);
        }
    }

    /** `finish`: show the last run and end with an empty line; a held-back removal is not shown. */
    method Finish()
      modifies this`out
      ensures out == old(out) + FinishOutput(skippedLines)
    {
      PrintStartSkip();
      PrintSkippedMsg(SaturatingSub(|skippedLines|, CONTEXT));
      out := out + [Blank];
    }
  }

  /**
   * `print_diff`.  `expected` and `actual` are the texts after lossy
   * decoding, and `expectedLossy` / `actualLossy` say whether decoding had
   * to replace invalid bytes; `lines` and `chars` are the aligners.  The
   * result is everything written to standard error.
   */
  method PrintDiff(expected: string, actual: string, expectedLossy: bool, actualLossy: bool,
                   lines: LineAligner, chars: CharAligner)
    returns (out: seq<OutLine>)
    ensures out == DiffOutput(expectedLossy || actualLossy, lines(Normalize(expected), Normalize(actual)), chars)
    ensures out[0] == Warn <==> expectedLossy || actualLossy
    ensures out[|out| - 1] == Blank
    ensures Conveyed(out) == CountBoth(lines(Normalize(expected), Normalize(actual)))
  {
    var warning: seq<OutLine> := if expectedLossy || actualLossy then [Warn] else [];
    var expectedStr := Normalize(expected);
    var actualStr := Normalize(actual);
    var rows := lines(expectedStr, actualStr);
    var state := new DiffState();
    for i := 0 to |rows|
      invariant state.State() == Run(rows[..i], chars).0
      invariant state.out == Run(rows[..i], chars).1
    {
      RunSnoc(rows, i, chars);
      state.Row(rows[i], chars);
    }
    assert state.State() == Run(rows, chars).0 && state.out == Run(rows, chars).1 by {
      assert rows[..|rows|] == rows;
    }
    state.Finish();
    out := warning + state.out;
    assert out == DiffOutput(expectedLossy || actualLossy, rows, chars);
    DiffOutputFacts(expectedLossy || actualLossy, rows, chars);
  }
}
