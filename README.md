# typist — a Dafny model of the keystroke-to-printer state machine

typist turns a raw terminal keystroke stream into Epson ESC/P control codes,
so that a dot-matrix printer can serve as a typewriter or teletype. `ESC J n`
feeds the paper forward by n/216 inch, and `ESC j n` feeds it back. Freshly
printed text sits under the head and cannot be read. So after two idle
seconds the program scrolls the paper up, and before the next printed
character it scrolls it back down.

The model covers the input loop `handleInput` and the `scroll` helper of
`typist.go`:

- `escp.dfy` (module `EscP`) reads the part of the Epson ESC/P language
  that the typist writes, from the printer's side. `ESC J n` and `ESC j n`
  are feeds, and every byte that does not start an escape is taken as it
  is. Any other ESC makes the stream unreadable in this model. Encoding and
  parsing are proved to be inverses.
- `typist.dfy` (module `Typist`) is the pure specification. The loop state
  is the two-byte escape buffer plus the `scrolledUp` flag. An event is a
  key byte or a two-second timeout. `StepKey`, `StepTimeout` and `Run` give
  the next state, the bytes written and whether the loop ends. One lemma per
  event kind states the byte-exact behaviour.
- `head.dfy` (module `Head`) ties the flag to the paper. It reads the output
  as ESC/P commands and tracks the net scroll feed. Over any sequence of
  events it proves three things. The output never holds a stray ESC. Every
  character that marks the paper is struck with the paper lowered. The
  paper ends at the lift the final flag claims.
- `printer.dfy` (module `Typewriter`) is the imperative implementation. The
  class `Printer` has the fields `scrolledUp`, `escapes` and `written`. Its
  methods follow the Go code statement by statement. `Write` and `Scroll`
  are proved to append exactly their bytes (`ScrollBytes` for `Scroll`).
  `HandleKey`, `HandleTimeout` and `HandleInput` are proved equal to
  `StepKey`, `StepTimeout` and `Run`.

Four points where the code's behaviour is easy to misread:

- Ctrl-C (3) and Enter (13) are tested before any escape handling. Ctrl-C
  therefore ends the loop in the middle of an escape sequence. Enter in the
  middle of one writes its feed and leaves the buffer as it was.
- The second slot of the escape buffer uses 0 as its empty marker. So
  `ESC 0 A` does not move the cursor up: the `A` becomes the second byte
  (`Typist.EscZeroUp`).
- `scroll` writes feeds of 216 and then 133 (1/216 inch), not two equal
  feeds.
- Enter writes its feed and carriage return without looking at
  `scrolledUp`.

## Model

| member | source | states |
|---|---|---|
| `EscP.ParseAppend` | typist.go:144-152 | the printer reads two streams written one after the other as the commands of the first followed by those of the second |
| `EscP.ParseEncodeAll` | typist.go:144-152 | a sequence of feed commands, and of characters other than ESC, is read back exactly from its bytes |
| `EscP.EncodeAllParse` | typist.go:144-152 | every stream the printer can read is exactly the encoding of the commands read from it |
| `Typist.ScrollBytes` | typist.go:140-154 | the bytes `scroll(up)` writes read as exactly two feeds, 216/216 then 133/216 inch, forward when up and reverse when down |
| `Typist.CursorBytes` | typist.go:96-111 | the bytes written for the third byte of an escape sequence read as at most one command; they are empty exactly when the byte is not A, B, C or D |
| `Typist.Step` | typist.go:61-136 | one pass of the `select` stops the loop exactly on Ctrl-C, keeps the escape buffer well shaped, and a timeout leaves the buffer as it was |
| `Typist.StepKey` | typist.go:62-127 | one key keeps the escape buffer well shaped (first byte 0 or ESC, second byte 0 when idle); it ends the loop exactly when it is Ctrl-C; it never scrolls a lowered head up |
| `Typist.StepTimeout` | typist.go:129-136 | a timeout never touches the escape buffer, never ends the loop, and always leaves the head scrolled up |
| `Typist.Run` | typist.go:52-138 | a run over any events consumes at least one event unless there are none, reads them all unless stopped, and keeps the escape buffer well shaped |
| `Typist.RunStopsAtFirstCtrlC` | typist.go:59-69 | a run stops exactly when Ctrl-C is among the events, and then right after the first Ctrl-C |
| `Typist.CtrlCStops` | typist.go:66-69 | Ctrl-C stops the loop in every state and writes nothing; the events after it, including the rest of a partial escape sequence, are never handled |
| `Typist.EnterFeeds` | typist.go:71-81 | Enter writes exactly `27 74 36 13` in every state and changes neither the head flag nor the escape buffer |
| `Typist.EscRestarts` | typist.go:83-87 | ESC sets the buffer to `{27,0}` from every state and writes nothing |
| `Typist.SecondEscapeByte` | typist.go:88-92 | after ESC, any byte other than 3, 13 and 27 becomes the second byte without a write; a zero byte leaves the state unchanged |
| `Typist.ThirdEscapeByte` | typist.go:93-113 | the byte after `ESC x` (x non-zero) empties the buffer; A writes `27 106 36`, B writes `27 74 36`, D writes 8, C writes 32, any other byte writes nothing |
| `Typist.PlainKey` | typist.go:116-127 | an ordinary byte with an idle buffer is written after `27 106 216 27 106 133` when scrolled up, alone otherwise, and the head is then down |
| `Typist.TimeoutScrollsUpOnce` | typist.go:129-136 | a timeout keeps the buffer; when scrolled up it writes nothing, otherwise it writes `27 74 216 27 74 133`; a second timeout in a row writes nothing |
| `Typist.EscZeroUp` | typist.go:88-92 | `ESC 0 A` from the start writes nothing and leaves the buffer holding `{27,65}` |
| `Head.LowerThenStrike` | typist.go:116-124 | scrolling down and then writing a character lowers the paper by one scroll before the character is struck |
| `Head.LiftOnTimeout` | typist.go:147-153 | scrolling up lifts the paper from the printing line by one scroll (216 + 133) |
| `Head.KeyReconciled` | typist.go:62-127 | every key's output is readable ESC/P; it strikes marking characters only with the paper lowered; it moves the paper exactly as the change of flag says |
| `Head.StepReconciled` | typist.go:61-136 | the same holds for every event, keys and timeouts alike |
| `Head.RunReconciled` | typist.go:52-138 | over any sequence of events the output is readable ESC/P with no stray ESC; no mark is struck while the paper is lifted; the paper ends where the final flag says |
| `Head.FromStart` | typist.go:178-188 | from the initial state (idle buffer, flag up), every output is readable ESC/P, its marks are struck one scroll below the assumed starting lift, and the escape buffer is well shaped in every state reached |
| `Typewriter.Printer.constructor` | typist.go:178-182 | a new printer starts scrolled up, with an idle escape buffer and nothing written |
| `Typewriter.Printer.Write` | typist.go:124 | a write appends its bytes to what the device has received |
| `Typewriter.Printer.Scroll` | typist.go:140-154 | `scroll(up)` leaves `scrolledUp == up` and appends the two feeds of that direction |
| `Typewriter.Printer.HandleKey` | typist.go:62-127 | the loop body for a key moves the fields and appends to the device exactly as `StepKey` says, and reports the break on Ctrl-C |
| `Typewriter.Printer.HandleTimeout` | typist.go:129-136 | the loop body for a timeout moves the fields and appends exactly as `StepTimeout` says |
| `Typewriter.Printer.HandleInput` | typist.go:52-138 | the loop starts with an idle buffer and ends in the state `Run` gives; it has written what `Run` wrote and consumed as many events as `Run` |
| `Typewriter.TypeOut` | typist.go:178-188 | a fresh printer fed any events writes `Run`'s output from the initial state; that output is readable ESC/P and every mark is struck with the paper lowered |

## Left out

- `readChars`, the unbuffered channel and the reader goroutine (typist.go:39-50, 187) are concurrency and blocking terminal input. The model takes the bytes they deliver as a sequence of `Key` events.
- The two-second `time.After` race (typist.go:129) is real time. It becomes the abstract `Timeout` event, which may fall between any two keys.
- `main`'s terminal raw mode, the opening of `/dev/usb/lp0` and the deferred close and restore (typist.go:156-176) are foreign calls and OS resources. `TypeOut` keeps only the construction of the printer and the call of the loop.
- The diagnostic `fmt.Printf` calls have no effect on what the printer receives.
- Write errors and the panic at typist.go:124-127 are not modelled: every write to the device succeeds and appends to `written`.
- Typewriter.Printer.HandleInput: the Go loop never returns except on Ctrl-C. The model handles a finite sequence of events and returns when they run out.
- Typist.CtrlCStops: after Ctrl-C the model keeps the state as it was. The Go escape buffer is a local variable that disappears with the loop; nothing reads it afterwards.
- Head.RunReconciled: the struck-at-baseline property covers every byte except backspace (8), carriage return (13) and space (32). The cursor keys and Enter write those bytes without scrolling down first, so the property does not hold for them.
- Head.RunReconciled: the lift is relative to the position the program assumes at start. The program believes the paper starts scrolled up, which the paper does not know.
