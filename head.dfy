/** Where the paper stands when the typist strikes a character. Freshly
    printed text sits under the head and cannot be read, so the typist lifts
    the paper after two idle seconds and lowers it again before printing.
    This module reads the typist's output as ESC/P commands and proves that
    its scrolledUp flag tracks the lift the feeds produce, and that every
    byte that marks the paper is struck with the paper lowered. */
module Head {
  import opened EscP
  import opened Typist

  /** One scroll moves the paper 216/216 + 133/216 inch. */
  const ScrollDistance: int := 216 + 133

  /** How far, in 1/216 inch, the paper stands above the printing line when
      the typist is in state s. */
  function Lift(s: State): int {
    if s.scrolledUp then ScrollDistance else 0
  }

  /** How a command moves the paper relative to the line being typed. Feeds
      of LineFeedValue are line moves the user asked for (Enter, cursor up
      and down) and take the line with them; every other feed lifts or
      lowers the paper. */
  function Shift(cmd: Command): int {
    match cmd
    case Feed(n) => if n == LineFeedValue then 0 else n as int
    case ReverseFeed(n) => if n == LineFeedValue then 0 else -(n as int)
    case Char(_) => 0
  }

  function NetShift(cs: seq<Command>): int {
    if cs == [] then 0 else Shift(cs[0]) + NetShift(cs[1..])
  }

  /** Bytes that mark the paper: all but the backspace, carriage return and
      space that the key handling writes for the cursor keys and Enter. */
  predicate Marks(c: bv8) {
    c != 8 && c != 13 && c != 32
  }

  /** Starting from a given lift, every marking character of cs is struck
      with the paper at the printing line. */
  ghost predicate StruckAtBaseline(cs: seq<Command>, lift: int) {
    forall i | 0 <= i < |cs| && cs[i].Char? && Marks(cs[i].c) :: lift + NetShift(cs[..i]) == 0
  }

  /** The bytes `out`, written when the paper stands at lift `before`, are
      well-formed feed commands and characters (no stray ESC), strike every
      marking character at the printing line, and leave the paper at lift
      `after`. */
  ghost predicate Reconciled(before: int, out: seq<bv8>, after: int) {
    Parse(out).Some?
    && before + NetShift(Parse(out).value) == after
    && StruckAtBaseline(Parse(out).value, before)
  }

  lemma {:induction false} NetShiftAppend(a: seq<Command>, b: seq<Command>)
    ensures NetShift(a + b) == NetShift(a) + NetShift(b)
  {
    if a == [] {
      assert a + b == b;
    } else {
      assert (a + b)[0] == a[0];
      assert (a + b)[1..] == a[1..] + b;
      NetShiftAppend(a[1..], b);
    }
  }

  /** Two writes that are each reconciled, the second starting where the
      first leaves the paper, are reconciled together. */
  lemma ReconciledAppend(l0: int, a: seq<bv8>, l1: int, b: seq<bv8>, l2: int)
    requires Reconciled(l0, a, l1) && Reconciled(l1, b, l2)
    ensures Reconciled(l0, a + b, l2)
  {
    ParseAppend(a, b);
    var x, y := Parse(a).value, Parse(b).value;
    var xy := x + y;
    assert Parse(a + b).value == xy;
    NetShiftAppend(x, y);
    forall i | 0 <= i < |xy| && xy[i].Char? && Marks(xy[i].c)
      ensures l0 + NetShift(xy[..i]) == 0
    {
      if i < |x| {
        assert xy[..i] == x[..i];
        assert x[i] == xy[i];
      } else {
        var j := i - |x|;
        assert xy[..i] == x + y[..j];
        assert y[j] == xy[i];
        NetShiftAppend(x, y[..j]);
      }
    }
  }

  /** Scrolling down and then printing a character: the character is struck
      once the paper is back at the printing line. */
  lemma LowerThenStrike(c: bv8)
    requires c != ESC
    ensures Reconciled(ScrollDistance, ScrollBytes(false) + [c], 0)
  {
    var cs := [ReverseFeed(216), ReverseFeed(133), Char(c)];
    assert cs[1..] == [ReverseFeed(133), Char(c)] && cs[1..][1..] == [Char(c)];
    assert EncodeAll([Char(c)]) == [c];
    assert EncodeAll(cs[1..]) == [27, 106, 133, c];
    ParseEncodeAll(cs);
    assert ScrollBytes(false) + [c] == EncodeAll(cs);
    assert cs[..1] == [ReverseFeed(216)];
    assert cs[..2] == [ReverseFeed(216), ReverseFeed(133)];
    assert NetShift([ReverseFeed(133)]) == -133;
    assert NetShift(cs[..2]) == -ScrollDistance by {
      assert cs[..2][1..] == [ReverseFeed(133)];
    }
    assert NetShift(cs[1..]) == -133 by {
      assert NetShift([Char(c)]) == 0;
    }
  }

  /** The scroll up after a timeout lifts the paper by one scroll. */
  lemma LiftOnTimeout()
    ensures Reconciled(0, ScrollBytes(true), ScrollDistance)
  {
  }

  /** Every key keeps the flag and the paper in step. */
  lemma KeyReconciled(s: State, c: bv8)
    ensures Reconciled(Lift(s), StepKey(s, c).output, Lift(StepKey(s, c).next))
  {
    var o := StepKey(s, c);
    if c == CtrlC || c == Esc {
    } else if c == Enter {
      var cs := [Feed(LineFeedValue), Char(13)];
      assert cs[1..] == [Char(13)] && cs[1..][1..] == [];
      assert EncodeAll(cs[1..]) == [13];
      ParseEncodeAll(cs);
      assert o.output == EncodeAll(cs);
      assert cs[..1] == [Feed(LineFeedValue)];
      assert NetShift(cs[1..]) == 0;
    } else if s.escapes.first == Esc && s.escapes.second == 0 {
    } else if s.escapes.first == Esc {
      if c == 65 {
        ParseEncodeAll([ReverseFeed(LineFeedValue)]);
      } else if c == 66 {
        ParseEncodeAll([Feed(LineFeedValue)]);
      } else if c == 68 || c == 67 {
        ParseEncodeAll([Char(o.output[0])]);
      }
    } else if s.scrolledUp {
      LowerThenStrike(c);
    } else {
      ParseEncodeAll([Char(c)]);
    }
  }

  /** Every single event keeps the flag and the paper in step. */
  lemma StepReconciled(s: State, e: Event)
    ensures Reconciled(Lift(s), Step(s, e).output, Lift(Step(s, e).next))
  {
    match e
    case Timeout =>
      if !s.scrolledUp {
        LiftOnTimeout();
      }
    case Key(c) =>
      KeyReconciled(s, c);
  }

  /** Over any sequence of events the flag and the paper stay in step: the
      whole output reads as ESC/P commands, every marking character is
      struck at the printing line, and the paper ends at the lift the final
      flag says. */
  lemma {:induction false} RunReconciled(s: State, events: seq<Event>)
    ensures Reconciled(Lift(s), Run(s, events).output, Lift(Run(s, events).final))
    decreases |events|
  {
    if events == [] {
      assert Parse([]) == Some([]);
    } else {
      var o := Step(s, events[0]);
      StepReconciled(s, events[0]);
      if !o.stop {
        var t := Run(o.next, events[1..]);
        RunReconciled(o.next, events[1..]);
        ReconciledAppend(Lift(s), o.output, Lift(o.next), t.output, Lift(t.final));
      }
    }
  }

  /** From the start of the program: whatever is typed and however long the
      pauses, the printer never receives a stray ESC, no mark is struck
      while the paper is lifted, and the escape buffer keeps its shape. The program believes the paper starts
      lifted, so the first mark comes one scroll below where the paper was. */
  lemma {:induction false} FromStart(events: seq<Event>)
    ensures var t := Run(Initial, events);
      Parse(t.output).Some?
      && StruckAtBaseline(Parse(t.output).value, ScrollDistance)
      && ScrollDistance + NetShift(Parse(t.output).value) == (if t.final.scrolledUp then ScrollDistance else 0)
      && WellShaped(t.final.escapes)
  {
    RunReconciled(Initial, events);
  }
}
