/**
 * The diagnostic lines the printer writes to standard error, as entries of
 * an output log.  Colours become tags: a `Span` says whether a character is
 * shown plain, in red (removed) or in green (added).
 */
module Output {

  /** One character of a highlighted line. */
  datatype Span = Plain(c: char) | Removed(c: char) | Added(c: char)

  datatype OutLine =
    | Ctx(line: string)            // " {line}": an unchanged line shown as context
    | SkipMsg(count: nat)          // "... {count} lines skipped ..."
    | Minus(line: string)          // "-{line}", all red
    | Plus(line: string)           // "+{line}", all green
    | MinusHl(spans: seq<Span>)    // "-" then the old line, removed characters red
    | PlusHl(spans: seq<Span>)     // "+" then the new line, added characters green
    | Tilde(spans: seq<Span>)      // "~" then one line with both removed and added characters
    | Blank                        // the empty line that ends a diff
    | Warn                         // "Non-UTF8 characters in output, diff may be imprecise."

  /** The old text a highlighted line shows: plain and removed characters. */
  function OldText(s: seq<Span>): string
  {
    if s == [] then []
    else OldText(s[..|s| - 1]) + (if s[|s| - 1].Added? then [] else [s[|s| - 1].c])
  }

  /** The new text a highlighted line shows: plain and added characters. */
  function NewText(s: seq<Span>): string
  {
    if s == [] then []
    else NewText(s[..|s| - 1]) + (if s[|s| - 1].Removed? then [] else [s[|s| - 1].c])
  }

  lemma {:induction false} OldTextAppend(a: seq<Span>, b: seq<Span>)
    ensures OldText(a + b) == OldText(a) + OldText(b)
    decreases |b|
  {
    if b == [] {
      assert a + b == a;
    } else {
      assert (a + b)[..|a + b| - 1] == a + b[..|b| - 1];
      OldTextAppend(a, b[..|b| - 1]);
    }
  }

  lemma {:induction false} NewTextAppend(a: seq<Span>, b: seq<Span>)
    ensures NewText(a + b) == NewText(a) + NewText(b)
    decreases |b|
  {
    if b == [] {
      assert a + b == a;
    } else {
      assert (a + b)[..|a + b| - 1] == a + b[..|b| - 1];
      NewTextAppend(a, b[..|b| - 1]);
    }
  }

  lemma TextsOfOne(x: Span)
    ensures OldText([x]) == (if x.Added? then [] else [x.c])
    ensures NewText([x]) == (if x.Removed? then [] else [x.c])
  {
    assert [x][..0] == [];
  }

  /** Context lines, one per unchanged line. */
  function Ctxs(lines: seq<string>): (r: seq<OutLine>)
    ensures |r| == |lines|
  {
    seq(|lines|, i requires 0 <= i < |lines| => Ctx(lines[i]))
  }

  lemma CtxsSnoc(lines: seq<string>, x: string)
    ensures Ctxs(lines + [x]) == Ctxs(lines) + [Ctx(x)]
  {
  }

  /** Entries that stand for unchanged lines: a `Ctx` line, or a skip message. */
  predicate IsContext(o: OutLine)
  {
    o.Ctx? || o.SkipMsg?
  }

  /** Entries that show a change. */
  predicate IsChange(o: OutLine)
  {
    o.Minus? || o.Plus? || o.MinusHl? || o.PlusHl? || o.Tilde?
  }

  /** How many unchanged lines an entry accounts for. */
  function Weight(o: OutLine): nat
  {
    match o
    case Ctx(_) => 1
    case SkipMsg(n) => n
    case _ => 0
  }

  /** How many unchanged lines a stretch of output accounts for. */
  function Conveyed(o: seq<OutLine>): nat
  {
    if o == [] then 0 else Conveyed(o[..|o| - 1]) + Weight(o[|o| - 1])
  }

  lemma {:induction false} ConveyedAppend(a: seq<OutLine>, b: seq<OutLine>)
    ensures Conveyed(a + b) == Conveyed(a) + Conveyed(b)
    decreases |b|
  {
    if b == [] {
      assert a + b == a;
    } else {
      assert (a + b)[..|a + b| - 1] == a + b[..|b| - 1];
      ConveyedAppend(a, b[..|b| - 1]);
    }
  }

  /** Entries that show a removed line: in full, highlighted, or as the old half of a `~` line. */
  predicate ShowsRemoval(o: OutLine)
  {
    o.Minus? || o.MinusHl? || o.Tilde?
  }

  /** Entries that show an added line: in full, highlighted, or as the new half of a `~` line. */
  predicate ShowsAddition(o: OutLine)
  {
    o.Plus? || o.PlusHl? || o.Tilde?
  }

  /** How many removed lines a stretch of output shows. */
  function Removals(o: seq<OutLine>): nat
  {
    if o == [] then 0 else Removals(o[..|o| - 1]) + (if ShowsRemoval(o[|o| - 1]) then 1 else 0)
  }

  /** How many added lines a stretch of output shows. */
  function Additions(o: seq<OutLine>): nat
  {
    if o == [] then 0 else Additions(o[..|o| - 1]) + (if ShowsAddition(o[|o| - 1]) then 1 else 0)
  }

  lemma {:induction false} ChangesAppend(a: seq<OutLine>, b: seq<OutLine>)
    ensures Removals(a + b) == Removals(a) + Removals(b)
    ensures Additions(a + b) == Additions(a) + Additions(b)
    decreases |b|
  {
    if b == [] {
      assert a + b == a;
    } else {
      assert (a + b)[..|a + b| - 1] == a + b[..|b| - 1];
      ChangesAppend(a, b[..|b| - 1]);
    }
  }

  lemma ChangesOfOne(x: OutLine)
    ensures Removals([x]) == (if ShowsRemoval(x) then 1 else 0)
    ensures Additions([x]) == (if ShowsAddition(x) then 1 else 0)
  {
    assert [x][..0] == [];
  }

  /** Context lines and skip messages show no change. */
  lemma {:induction false} ContextShowsNoChange(o: seq<OutLine>)
    requires forall i :: 0 <= i < |o| ==> IsContext(o[i])
    ensures Removals(o) == 0 && Additions(o) == 0
  {
    if o != [] {
      ContextShowsNoChange(o[..|o| - 1]);
    }
  }

  /**
   * `o` describes `lines` exactly, in order: each `Ctx(x)` is the next line
   * and equals `x`, each `SkipMsg(n)` stands for the next `n` lines, and
   * nothing is left over.
   */
  predicate Covers(o: seq<OutLine>, lines: seq<string>)
    decreases |o|
  {
    if o == [] then lines == []
    else match o[0]
      case Ctx(x) => |lines| > 0 && lines[0] == x && Covers(o[1..], lines[1..])
      case SkipMsg(n) => n <= |lines| && Covers(o[1..], lines[n..])
      case _ => false
  }

  lemma {:induction false} CoversAppend(a: seq<OutLine>, x: seq<string>, b: seq<OutLine>, y: seq<string>)
    requires Covers(a, x) && Covers(b, y)
    ensures Covers(a + b, x + y)
    decreases |a|
  {
    if a == [] {
      assert a + b == b;
      assert x + y == y;
    } else {
      assert (a + b)[0] == a[0];
      assert (a + b)[1..] == a[1..] + b;
      match a[0]
      case Ctx(_) =>
        assert (x + y)[1..] == x[1..] + y;
        CoversAppend(a[1..], x[1..], b, y);
      case SkipMsg(n) =>
        assert (x + y)[n..] == x[n..] + y;
        CoversAppend(a[1..], x[n..], b, y);
    }
  }

  /** Context lines for `lines` describe exactly `lines`. */
  lemma {:induction false} CtxsCover(lines: seq<string>)
    ensures Covers(Ctxs(lines), lines)
    decreases |lines|
  {
    if lines != [] {
      assert Ctxs(lines)[1..] == Ctxs(lines[1..]);
      CtxsCover(lines[1..]);
    }
  }

  /** Context lines describe a run exactly when they are that run. */
  lemma {:induction false} CtxsCoverExactly(xs: seq<string>, lines: seq<string>)
    ensures Covers(Ctxs(xs), lines) <==> xs == lines
    decreases |xs|
  {
    if xs != [] {
      assert Ctxs(xs)[1..] == Ctxs(xs[1..]);
      CtxsCoverExactly(xs[1..], if lines == [] then [] else lines[1..]);
      if lines != [] && xs[0] == lines[0] && xs[1..] == lines[1..] {
        assert xs == [xs[0]] + xs[1..] && lines == [lines[0]] + lines[1..];
      }
    }
  }

  /** Output that describes `lines` accounts for exactly `|lines|` of them. */
  lemma {:induction false} CoversConveyed(o: seq<OutLine>, lines: seq<string>)
    requires Covers(o, lines)
    ensures Conveyed(o) == |lines|
    decreases |o|
  {
    if o != [] {
      assert o == [o[0]] + o[1..];
      ConveyedAppend([o[0]], o[1..]);
      assert Conveyed([o[0]]) == Weight(o[0]) by {
        assert [o[0]][..0] == [];
      }
      match o[0]
      case Ctx(_) => CoversConveyed(o[1..], lines[1..]);
      case SkipMsg(n) => CoversConveyed(o[1..], lines[n..]);
    }
  }
}
