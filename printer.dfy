/** The printer object of typist.go: the head-position flag it updates in
    place, the escape buffer of its input loop, and the bytes written to the
    printer device so far. Each method does what the Go code does, statement
    by statement. Write and Scroll are proved against the bytes they append
    (ScrollBytes for Scroll); HandleKey, HandleTimeout and HandleInput are
    proved equal to StepKey, StepTimeout and Run of Typist. */
module Typewriter {
  import opened Typist
  import opened EscP
  import Head

  class Printer {
    /** Whether the paper has been scrolled up so the last line can be read. */
    var scrolledUp: bool
    /** The input loop's escape buffer. */
    var escapes: Escapes
    /** Everything written to the printer device, in order. */
    var written: seq<bv8>

    /** The loop state the fields hold. */
    function Current(): State
      reads this
    {
      State(escapes, scrolledUp)
    }

    /** A printer on a device nothing has been written to yet, believed
        scrolled up so that the first character scrolls down before printing. */
    constructor ()
      ensures Current() == Initial && written == []
    {
      scrolledUp := true;
      escapes := NoEscape;
      written := [];
    }

    /** One write to the device; writes do not fail in this model. */
    method Write(bytes: seq<bv8>)
      modifies this`written
      ensures written == old(written) + bytes
    {
      written := written + bytes;
    }

    /** Set the head-position flag to `up` and feed the paper one scroll in
        that direction. */
    method Scroll(up: bool)
      modifies this`scrolledUp, this`written
      ensures scrolledUp == up
      ensures written == old(written) + ScrollBytes(up)
    {
      if !up {
        scrolledUp := false;
        Write([27, 106, 216]);
        Write([27, 106, 133]);
      } else {
        scrolledUp := true;
        Write([27, 74, 216]);
        Write([27, 74, 133]);
      }
    }

    /** The loop body for a key byte c; `stop` is the break out of the loop. */
    method HandleKey(c: bv8) returns (stop: bool)
      modifies this
      ensures var o := StepKey(old(Current()), c);
        Current() == o.next && written == old(written) + o.output && stop == o.stop
    {
      stop := false;
      if c == CtrlC {
        stop := true;
        return;
      }
      if c == Enter {
        Write([27, 74, LineFeedValue]);
        Write([13]);
        return;
      }
      if c == Esc {
        escapes := Escapes(c, 0);
        return;
      } else if escapes.first == Esc && escapes.second == 0 {
        escapes := Escapes(Esc, c);
        return;
      } else if escapes.first == Esc && escapes.second != 0 {
        if c == 65 {
          Write([27, 106, LineFeedValue]);
        } else if c == 66 {
          Write([27, 74, LineFeedValue]);
        } else if c == 68 {
          Write([8]);
        } else if c == 67 {
          Write([32]);
        }
        escapes := NoEscape;
        return;
      }
      if scrolledUp {
        Scroll(false);
      }
      Write([c]);
    }

    /** The loop body when two seconds pass without a key. */
    method HandleTimeout()
      modifies this
      ensures var o := StepTimeout(old(Current()));
        Current() == o.next && written == old(written) + o.output
    {
      if scrolledUp {
        return;
      }
      Scroll(true);
    }

    /** The input loop over the events that reach it: it starts with an empty
        escape buffer and handles events in order until Ctrl-C or until the
        events run out. Returns how many events it consumed and whether
        Ctrl-C ended it. */
    method HandleInput(events: seq<Event>) returns (consumed: nat, stopped: bool)
      modifies this
      ensures var t := Run(State(NoEscape, old(scrolledUp)), events);
        Current() == t.final && written == old(written) + t.output
        && consumed == t.consumed && stopped == t.stopped
    {
      escapes := NoEscape;
      ghost var start := Current();
      ghost var before := written;
      ghost var out: seq<bv8> := [];
      assert written == before + out;
      var i := 0;
      stopped := false;
      while i < |events| && !stopped
        invariant 0 <= i <= |events|
        invariant written == before + out
        invariant !stopped ==> var t := Run(Current(), events[i..]);
          Run(start, events) == Trace(t.final, out + t.output, i + t.consumed, t.stopped)
        invariant stopped ==> Run(start, events) == Trace(Current(), out, i, true)
        decreases |events| - i
      {
        ghost var s := Current();
        ghost var o := Step(s, events[i]);
        assert events[i..][0] == events[i] && events[i..][1..] == events[i + 1..];
        RunFirst(s, events[i..]);
        ghost var w := written;
        match events[i] {
          case Key(c) =>
            assert o == StepKey(s, c);
            stopped := HandleKey(c);
          case Timeout =>
            assert o == StepTimeout(s);
            HandleTimeout();
        }
        assert Current() == o.next && stopped == o.stop && written == w + o.output;
        if !stopped {
          ghost var t := Run(o.next, events[i + 1..]);
          AppendAssoc(out, o.output, t.output);
        }
        AppendAssoc(before, out, o.output);
        out := out + o.output;
        i := i + 1;
      }
      assert !stopped ==> events[i..] == [];
      consumed := i;
    }
  }

  /** Sequence associativity, stated apart from HandleInput: asserted
      inside that loop, among the facts about Run, it exhausts the solver. */
  lemma AppendAssoc(a: seq<bv8>, b: seq<bv8>, c: seq<bv8>)
    ensures (a + b) + c == a + (b + c)
  {
  }

  /** A run of the whole program: a fresh printer reads the events; what it
      writes reads as ESC/P commands with no stray ESC, and each character
      that marks the paper is struck with the paper lowered. */
  method TypeOut(events: seq<Event>) returns (output: seq<bv8>)
    ensures output == Run(Initial, events).output
    ensures Parse(output).Some? && Head.StruckAtBaseline(Parse(output).value, Head.ScrollDistance)
  {
    var p := new Printer();
    var _, _ := p.HandleInput(events);
    output := p.written;
    Head.FromStart(events);
  }
}
