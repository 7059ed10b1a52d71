/** The input loop of the typist: each key byte read from the terminal, and
    each two-second stretch without one, moves a small state machine and
    appends ESC/P bytes to the printer stream. This module is the pure
    specification of one step and of a whole run; the class in Typewriter
    implements it in place. */
module Typist {
  import opened EscP

  const CtrlC: bv8 := 3
  const Enter: bv8 := 13
  const Esc: bv8 := 27
  /** Micro feed used for Enter and for cursor up/down, in 1/216 inch. */
  const LineFeedValue: bv8 := 36

  /** The two-byte escape buffer: {0,0} idle, {27,0} after ESC, {27,x} after
      ESC and one more byte x (0 is the buffer's empty marker). */
  datatype Escapes = Escapes(first: bv8, second: bv8)

  const NoEscape := Escapes(0, 0)

  /** The only shapes the buffer takes. */
  predicate WellShaped(e: Escapes) {
    (e.first == 0 || e.first == Esc) && (e.first == 0 ==> e.second == 0)
  }

  /** Everything the loop carries from one event to the next. */
  datatype State = State(escapes: Escapes, scrolledUp: bool)

  /** The program starts idle and believes the paper is scrolled up, so the
      first character printed is preceded by a scroll back down. */
  const Initial := State(NoEscape, true)

  /** A key byte from the terminal, or two seconds without one. */
  datatype Event = Key(c: bv8) | Timeout

  /** What one event does: the next state, the bytes written to the printer,
      and whether the loop ends. */
  datatype Outcome = Outcome(next: State, output: seq<bv8>, stop: bool)

  /** The bytes written by scroll(up): two forward feeds of 216/216 and
      133/216 inch to scroll up, two reverse feeds of the same amounts to
      scroll down. */
  function ScrollBytes(up: bool): (r: seq<bv8>)
    ensures Parse(r) == Some(if up then [Feed(216), Feed(133)] else [ReverseFeed(216), ReverseFeed(133)])
  {
    var r: seq<bv8> := if !up then [27, 106, 216] + [27, 106, 133] else [27, 74, 216] + [27, 74, 133];
    var cs := if up then [Feed(216), Feed(133)] else [ReverseFeed(216), ReverseFeed(133)];
    assert cs[1..][1..] == [] && EncodeAll(cs[1..]) == r[3..];
    ParseEncodeAll(cs);
    r
  }

  /** The bytes written for the third byte of an escape sequence: the
      terminal's cursor keys ESC x A/B/D/C. */
  function CursorBytes(c: bv8): (r: seq<bv8>)
    ensures Parse(r).Some? && |Parse(r).value| <= 1
    ensures r == [] <==> c !in {65, 66, 67, 68}
  {
    if c == 65 then [27, 106, LineFeedValue]      // up: reverse micro feed
    else if c == 66 then [27, 74, LineFeedValue]  // down: micro feed
    else if c == 68 then [8]                      // left: backspace
    else if c == 67 then [32]                     // right: space
    else []                                       // unknown sequence
  }

  /** One key byte. Ctrl-C and Enter are looked at before the escape buffer,
      then ESC, then the buffer, and only then is the byte printed. */
  function StepKey(s: State, c: bv8): (o: Outcome)
    ensures WellShaped(s.escapes) ==> WellShaped(o.next.escapes)
    ensures o.stop <==> c == CtrlC
    ensures !s.scrolledUp ==> !o.next.scrolledUp
  {
    if c == CtrlC then Outcome(s, [], true)
    else if c == Enter then Outcome(s, [27, 74, LineFeedValue] + [13], false)
    else if c == Esc then Outcome(s.(escapes := Escapes(Esc, 0)), [], false)
    else if s.escapes.first == Esc && s.escapes.second == 0 then
      Outcome(s.(escapes := Escapes(Esc, c)), [], false)
    else if s.escapes.first == Esc && s.escapes.second != 0 then
      Outcome(s.(escapes := NoEscape), CursorBytes(c), false)
    else
      Outcome(s.(scrolledUp := false), (if s.scrolledUp then ScrollBytes(false) else []) + [c], false)
  }

  /** Two seconds without a key: scroll up unless already scrolled up. */
  function StepTimeout(s: State): (o: Outcome)
    ensures o.next.escapes == s.escapes && o.next.scrolledUp && !o.stop
  {
    if s.scrolledUp then Outcome(s, [], false)
    else Outcome(s.(scrolledUp := true), ScrollBytes(true), false)
  }

  /** One pass of the loop: the `select` hands the event to the key branch
      or to the timeout branch. */
  function Step(s: State, e: Event): (o: Outcome)
    ensures o.stop <==> e == Key(CtrlC)
    ensures WellShaped(s.escapes) ==> WellShaped(o.next.escapes)
    ensures e.Timeout? ==> o.next.escapes == s.escapes
  {
    match e
    case Key(c) => StepKey(s, c)
    case Timeout => StepTimeout(s)
  }

  /** A run of the loop over a finite sequence of events: the state it ends
      in, everything written, how many events were consumed, and whether
      Ctrl-C ended it. */
  datatype Trace = Trace(final: State, output: seq<bv8>, consumed: nat, stopped: bool)

  function Run(s: State, events: seq<Event>): (t: Trace)
    ensures 0 < t.consumed <= |events| || (t.consumed == 0 && events == [])
    ensures !t.stopped ==> t.consumed == |events|
    ensures WellShaped(s.escapes) ==> WellShaped(t.final.escapes)
    decreases |events|
  {
    if events == [] then Trace(s, [], 0, false)
    else
      var o := Step(s, events[0]);
      if o.stop then Trace(o.next, o.output, 1, true)
      else
        var t := Run(o.next, events[1..]);
        Trace(t.final, o.output + t.output, t.consumed + 1, t.stopped)
  }

  /** A run stops exactly when Ctrl-C is among the events, and then at the
      first Ctrl-C: the events after it are never read. */
  lemma {:induction false} RunStopsAtFirstCtrlC(s: State, events: seq<Event>)
    ensures Run(s, events).stopped <==> Key(CtrlC) in events
    ensures var t := Run(s, events);
      t.stopped ==> events[t.consumed - 1] == Key(CtrlC) && Key(CtrlC) !in events[..t.consumed - 1]
    decreases |events|
  {
    if events != [] {
      var o := Step(s, events[0]);
      assert events == [events[0]] + events[1..];
      if !o.stop {
        RunStopsAtFirstCtrlC(o.next, events[1..]);
        var t := Run(o.next, events[1..]);
        if t.stopped {
          assert events[..t.consumed + 1] == [events[0]] + events[1..][..t.consumed];
        }
      }
    }
  }

  /** Unfolds Run once, as a helper for the loop proof of
      Typewriter.Printer.HandleInput: the first event is handled, then the
      rest run from the state it leaves, unless it stopped the loop. */
  lemma RunFirst(s: State, events: seq<Event>)
    requires events != []
    ensures var o := Step(s, events[0]);
      Run(s, events) == if o.stop then Trace(o.next, o.output, 1, true)
                        else var t := Run(o.next, events[1..]);
                             Trace(t.final, o.output + t.output, t.consumed + 1, t.stopped)
  {
  }

  // Properties of single events.

  /** Ctrl-C ends the loop from every state, writes nothing, and leaves the
      state as it was: a partial escape sequence is abandoned, never completed. */
  lemma CtrlCStops(s: State, rest: seq<Event>)
    ensures StepKey(s, CtrlC) == Outcome(s, [], true)
    ensures Run(s, [Key(CtrlC)] + rest) == Trace(s, [], 1, true)
  {
  }

  /** Enter writes a 36/216 inch feed and a carriage return whatever the
      escape buffer and the head position are, and changes neither. */
  lemma EnterFeeds(s: State)
    ensures StepKey(s, Enter) == Outcome(s, [27, 74, 36, 13], false)
  {
  }

  /** ESC (re)starts an escape sequence from every state and writes nothing. */
  lemma EscRestarts(s: State)
    ensures StepKey(s, Esc) == Outcome(State(Escapes(Esc, 0), s.scrolledUp), [], false)
  {
  }

  /** After ESC, another byte fills the second slot without writing; a zero
      byte leaves the buffer as it was. */
  lemma SecondEscapeByte(s: State, c: bv8)
    requires s.escapes == Escapes(Esc, 0)
    requires c != CtrlC && c != Enter && c != Esc
    ensures StepKey(s, c) == Outcome(State(Escapes(Esc, c), s.scrolledUp), [], false)
    ensures c == 0 ==> StepKey(s, c).next == s
  {
  }

  /** After ESC and a non-zero byte, the third byte ends the sequence, empties
      the buffer and decides what is written. */
  lemma ThirdEscapeByte(s: State, c: bv8)
    requires s.escapes.first == Esc && s.escapes.second != 0
    requires c != CtrlC && c != Enter && c != Esc
    ensures StepKey(s, c).next == State(NoEscape, s.scrolledUp) && !StepKey(s, c).stop
    ensures c == 65 ==> StepKey(s, c).output == [27, 106, 36]
    ensures c == 66 ==> StepKey(s, c).output == [27, 74, 36]
    ensures c == 68 ==> StepKey(s, c).output == [8]
    ensures c == 67 ==> StepKey(s, c).output == [32]
    ensures c !in {65, 66, 67, 68} ==> StepKey(s, c).output == []
  {
  }

  /** A byte that is neither special nor part of an escape sequence is
      written as it is, after scrolling down if the paper was scrolled up;
      the head is then down. */
  lemma PlainKey(s: State, c: bv8)
    requires s.escapes == NoEscape
    requires c != CtrlC && c != Enter && c != Esc
    ensures StepKey(s, c).next == State(NoEscape, false) && !StepKey(s, c).stop
    ensures s.scrolledUp ==> StepKey(s, c).output == [27, 106, 216, 27, 106, 133, c]
    ensures !s.scrolledUp ==> StepKey(s, c).output == [c]
  {
  }

  /** The timeout never touches the escape buffer; it scrolls up once, and a
      second timeout in a row writes nothing. */
  lemma TimeoutScrollsUpOnce(s: State)
    ensures StepTimeout(s).next == State(s.escapes, true)
    ensures s.scrolledUp ==> StepTimeout(s).output == []
    ensures !s.scrolledUp ==> StepTimeout(s).output == [27, 74, 216, 27, 74, 133]
    ensures StepTimeout(StepTimeout(s).next).output == []
  {
  }

  /** A zero byte after ESC does not count as the second byte of a sequence,
      so ESC 0 A leaves the buffer holding ESC A and moves nothing. */
  lemma EscZeroUp()
    ensures Run(Initial, [Key(Esc), Key(0), Key(65)]) == Trace(State(Escapes(Esc, 65), true), [], 3, false)
  {
    var s1 := State(Escapes(Esc, 0), true);
    var s2 := State(Escapes(Esc, 65), true);
    assert Run(s2, []) == Trace(s2, [], 0, false);
    assert Run(s1, [Key(65)]) == Trace(s2, [], 1, false) by {
      assert [Key(65)][1..] == [];
    }
    assert Run(s1, [Key(0), Key(65)]) == Trace(s2, [], 2, false) by {
      assert [Key(0), Key(65)][1..] == [Key(65)];
    }
    assert [Key(Esc), Key(0), Key(65)][1..] == [Key(0), Key(65)];
  }
}
