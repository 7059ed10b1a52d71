/** The part of the Epson ESC/P control-code language that the typist writes,
    read from the printer's side: `ESC J n` feeds the paper forward by n/216
    inch, `ESC j n` feeds it back by n/216 inch, and every byte that does not
    start an escape is taken as it is (printed, or obeyed as a control code
    such as backspace or carriage return). */
module EscP {

  datatype Option<T> = None | Some(value: T)

  const ESC: bv8 := 27
  /** `J`: perform an n/216 inch line feed. */
  const FeedCode: bv8 := 74
  /** `j`: perform an n/216 inch reverse line feed. */
  const ReverseFeedCode: bv8 := 106

  datatype Command = Feed(n: bv8) | ReverseFeed(n: bv8) | Char(c: bv8)

  /** A command that can be written to the printer: a character written as
      itself must not be ESC, or the printer would read the bytes after it as
      the rest of a command. */
  predicate Writable(cmd: Command) {
    cmd.Char? ==> cmd.c != ESC
  }

  function Encode(cmd: Command): seq<bv8> {
    match cmd
    case Feed(n) => [ESC, FeedCode, n]
    case ReverseFeed(n) => [ESC, ReverseFeedCode, n]
    case Char(c) => [c]
  }

  function EncodeAll(cs: seq<Command>): seq<bv8> {
    if cs == [] then [] else Encode(cs[0]) + EncodeAll(cs[1..])
  }

  /** Whether a non-empty stream begins with a complete command. */
  predicate StartsCommand(bytes: seq<bv8>)
    requires bytes != []
  {
    bytes[0] != ESC || (|bytes| >= 3 && (bytes[1] == FeedCode || bytes[1] == ReverseFeedCode))
  }

  /** The number of bytes the first command of a stream occupies. */
  function Width(bytes: seq<bv8>): nat
    requires bytes != []
  {
    if bytes[0] != ESC then 1 else 3
  }

  function First(bytes: seq<bv8>): Command
    requires bytes != [] && StartsCommand(bytes)
  {
    if bytes[0] != ESC then Char(bytes[0])
    else if bytes[1] == FeedCode then Feed(bytes[2])
    else ReverseFeed(bytes[2])
  }

  /** How the printer splits a byte stream into commands; None when the
      stream holds an ESC that does not start a complete feed command. */
  function Parse(bytes: seq<bv8>): Option<seq<Command>>
    decreases |bytes|
  {
    if bytes == [] then Some([])
    else if !StartsCommand(bytes) then None
    else Prepend(First(bytes), Parse(bytes[Width(bytes)..]))
  }

  function Prepend(cmd: Command, rest: Option<seq<Command>>): Option<seq<Command>> {
    match rest
    case None => None
    case Some(cs) => Some([cmd] + cs)
  }

  /** Commands of two streams, when both parse. */
  function Join(a: Option<seq<Command>>, b: Option<seq<Command>>): Option<seq<Command>> {
    match (a, b)
    case (Some(x), Some(y)) => Some(x + y)
    case _ => None
  }

  /** Bytes written after a complete command do not change how it is read. */
  lemma FirstOfAppend(a: seq<bv8>, b: seq<bv8>)
    requires a != [] && StartsCommand(a)
    ensures a + b != [] && StartsCommand(a + b)
    ensures First(a + b) == First(a) && Width(a + b) == Width(a)
    ensures (a + b)[Width(a)..] == a[Width(a)..] + b
  {
  }

  /** Writing a stream that parses and then another one: the printer reads
      the commands of the first and then those of the second. */
  lemma {:induction false} ParseAppend(a: seq<bv8>, b: seq<bv8>)
    requires Parse(a).Some?
    ensures Parse(a + b) == Join(Parse(a), Parse(b))
    decreases |a|
  {
    if a == [] {
      assert a + b == b;
      if Parse(b).Some? {
        assert [] + Parse(b).value == Parse(b).value;
      }
    } else {
      FirstOfAppend(a, b);
      var k := Width(a);
      ParseAppend(a[k..], b);
      if Parse(b).Some? {
        var cmd, x, y := First(a), Parse(a[k..]).value, Parse(b).value;
        assert [cmd] + (x + y) == ([cmd] + x) + y;
      }
    }
  }

  /** Every sequence of writable commands is read back exactly. */
  lemma {:induction false} ParseEncodeAll(cs: seq<Command>)
    requires forall i | 0 <= i < |cs| :: Writable(cs[i])
    ensures Parse(EncodeAll(cs)) == Some(cs)
  {
    if cs != [] {
      ParseEncodeAll(cs[1..]);
      var e := EncodeAll(cs);
      assert e == Encode(cs[0]) + EncodeAll(cs[1..]);
      assert e[|Encode(cs[0])|..] == EncodeAll(cs[1..]);
      assert [cs[0]] + cs[1..] == cs;
    }
  }

  /** Every stream that parses is the encoding of the commands read from it,
      and those commands are writable. */
  lemma {:induction false} EncodeAllParse(bytes: seq<bv8>)
    requires Parse(bytes).Some?
    ensures EncodeAll(Parse(bytes).value) == bytes
    ensures forall i | 0 <= i < |Parse(bytes).value| :: Writable(Parse(bytes).value[i])
    decreases |bytes|
  {
    if bytes != [] {
      var k := Width(bytes);
      EncodeAllParse(bytes[k..]);
      var cs := Parse(bytes).value;
      assert cs[1..] == Parse(bytes[k..]).value;
      assert bytes == bytes[..k] + bytes[k..];
    }
  }
}
