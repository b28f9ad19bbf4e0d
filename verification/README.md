# The remote console in Dafny

This project models two parts of the remote Amiga shell and proves what they promise.

**The session server.** DOS packets reach the virtual console (`amiga/rclid/vcon.c`), which turns each into a message of a
bounded pool. The session (`amiga/rclid/rclid.c`) attaches it to a message of the socket service (`amiga/rclid/sockio.c`),
which has a bounded pool of its own, performs partial reads and writes on a non-blocking socket, times waits with
`amiga/rclid/timer.c`, and replies. On the way back received data is split at a line end with the tail pushed back, signal
bytes 3 to 6 are filtered out in place (`amiga/rclid/conv.c`), and a read that is left with nothing is started again. The
socket, the timer, DOS and the signals are inputs of the steps: any chunk size, EAGAIN, end of file, error, refused timer
and expiry is possible in every wait. `amiga/rclid/line.c` reads lines through the same service.

**The console codec.** An incremental parser of control sequences in the shape of section 5.4 of ECMA-48, with its printer
(`python/amicon/stream.py`), the event layer above it (`python/amicon/event.py`), and a second parser with 16 bit
arithmetic together with a printer that expands command templates (`amiga/tools/termio.c`).

## How it is built

Code that changes state step by step is a class or a method over arrays, proved equal to a function on plain values; what
the source promises is proved about these functions, over whole runs.

| files | content |
|---|---|
| `Common`, `Decimal` | bytes, options, machines with output, decimal numerals |
| `ControlStream`, `SequenceGrammar` | parser, stream and printer; what a sequence means, without a parser |
| `StreamTheorems`, `StreamLedger`, `NormalForms` | round trips; lossless parsing; which elements come back from printing and parsing |
| `Events` | events, and text shifted late or at once |
| `Termio`, `TermioTheorems` | the C parser and template printer; agreement with the Python parser |
| `StreamBytes`, `EventBytes`, `TermioBytes` | the three codecs in numbers: what single bytes and short inputs give |
| `SockioSpec` | the socket service as an abstract machine, with histories that no step reads |
| `SockioStreams`, `SockioPool`, `SockioTimers`, `SockioReplies` | its invariants, for every environment |
| `SockioOutcomes`, `SockioUsers`, `SockioQueues` | when it fails or ends, and what the first receive and send get; whose requests are where; their order |
| `Timer`, `SockioService` | the timer and the socket service as they run: lists, counters, real buffers |
| `Signals` | the in-place filter |
| `VconSpec`, `Vcon`, `VconTheorems` | the virtual console, as a function and as it runs; what a series of packets does |
| `SessionSpec`, `SessionTheorems`, `SessionStream`, `SessionReads` | the session as a machine of events; exactly-once answers; the read stream |
| `SessionOneReader`, `SessionRestarts` | one reader at a time; reads that find only signals, counted over runs |
| `SessionSupply`, `SessionWrites`, `SessionWire`, `ModeReports` | enough messages; the write stream; what can go out after a report; mode reports through to their event |
| `SessionAnswers`, `SessionOrder` | what every packet is answered with, over whole runs; in which order messages are handled |
| `SessionFlags`, `SessionBreaks` | when the socket is given up, and the mode; which tasks get which breaks |
| `SessionLeads`, `SessionSignals`, `SessionSplits`, `SessionReports`, `SessionWaits` | runs from a new session that show where the code goes wrong |
| `SessionRuns`, `SessionMemory`, `Session` | disciplined runs; where data lies in memory; the session and its main loop as they run |
| `Line`, `LineRuns`, `LineTheorems` | reading a line and checking for a character; the same loops over runs of the socket service |

The end result for the running session is `Session.dfy`'s `Good`: it holds of a new session, every handler and every
pass of the main loop keeps it, and `SessionRuns.ReachedAccounts` says what it means: in every reachable state, for every
chunking by the network, received bytes are accounted for in order, the answers of reads carry exactly the bytes looked at
that are no signals, and every packet that arrived is answered once or waiting in exactly one place.

## Findings

Where the code does not meet what it is for, the code is kept as it is, and the exact condition under which it is right is
proved.

- A read that finds only signals is started again with the size field of its message, which the filter has just set to
  zero. Over every run a restarted read has room if and only if it had not been restarted before (`RereadHasRoomIff`); one
  without room can only end in an end of file or an error (`NoRoomNoData`), and without the other side closing the
  end of file comes only after some read has found nothing but signals twice (`EndOnlyAfterTwoRounds`).
  `TwoBreaksEndTheFile` is a run from a new session. `amiga/rclid/rclid.c:427-451`.
- All mode reports are made in one buffer, which is only read when the socket takes it. What has been sent and what is still
  to be read, as it reads then, are the payloads as submitted, at all times, if and only if no report ever changes bytes of
  an earlier one still to be read (`RunTransmitsIff`); and a report changes none if and only if the network accepts what was
  submitted whatever it does from then on (`ReportSafeIff`). In `SecondReportTwice`, a run from a new session, raw and then
  cooked mode are reported as cooked mode twice. `amiga/rclid/rclid.c:243-247`.
- The console raises its number of messages to eight, the socket service does not. With fewer messages there than in the
  console, a write can find none and is replied to as if it had been done (`SecondWriteLost`, a run from a new session with one and eight);
  with at least as many, one is always free (`MessageIsFree`). `amiga/rclid/vcon.c:47-49`, `amiga/rclid/rclid.c:273-277`.
- A read or a wait for a character that the socket service does not take, for want of a message or after an error, is replied
  to with its size field as it was: the read is answered as if its buffer had been filled, the wait as if there were a
  character. Over every run they are refused if and only if their message comes up at such a moment (`RefusedIff`), and
  every other answer is right (`AnswersAre`); `ReadNotTaken` and `WaitNotTaken` are runs from a new session.
  `amiga/rclid/rclid.c:290-301`, `amiga/rclid/rclid.c:325-337`.
- Splitting a line pushes its tail back over bytes still pushed back, and cuts the buffer even if the push-back is refused;
  and data of a second read that has been answered by then comes before the tail. The stream survives a split if and only
  if nothing is pushed back, the tail fits, and what was answered behind it reads the same before and after the tail
  (`SplitKeepsStreamIff`). `TwoReadsDisorder` and `ShorterReadLoses` are runs from a new session: two reads at a time, and
  a read shorter than what is pushed back. A single reader that never asks for less than what is pushed back nor for more
  than one byte beyond the push-back buffer always meets the condition (`EndToEnd`). `amiga/rclid/rclid.c:404-411`.
- A wait that finds the socket readable stops the job of the waiter it picked before, even if that job expired in this
  very wait and is gone: it was still running if and only if it did not (`StopsRunningJobIff`). Otherwise its message has
  been answered already and would be answered, and its job stopped, a second time (`StaleIsAnsweredAlready`);
  `AnsweredAlready` is a run from a new session that comes to this. `amiga/rclid/sockio.c:479-494`.
- An ESC that is not followed by `[` while text is pending overtakes that text, and one before a control byte is dropped.
  Parsing loses and moves nothing if and only if every escape is in order (`LosslessIff`). `python/amicon/stream.py:297-304`.
- Not every list of elements comes back from printing and parsing. It does if and only if it is in the normal form of
  `NormalForms`, which one pass over the list decides: no text behind other text or with a control byte in it, no bare
  introducer but before what an aborted sequence gives, or before text that cannot be taken for the rest of an escape
  (`NormalFormIff`). For an input whose escapes are in order that means no ESC `@` and no ESC `_`, control characters whose
  8 bit byte counts as text (`InOrderReprintsIff`, `MappedTextIsNoNormalForm`). Out of order, `[ ESC 7` comes back as an
  open sequence (`BracketIsNoNormalForm`), while `a ESC 7` comes back as it was (`OutOfOrderMayReprint`).
  `python/amicon/stream.py:286-304`.
- The C parser skips empty fields where the Python parser reads zeros; they agree if and only if there are none and at most
  eight values (`TerminatedAgree`). It refuses a sign or `>`, which the Python parser takes at the start of a field
  (`RefusedAgree`).
- A trailing parameter that was left out is lost in print and parse unless a special one follows (`PrintParse`).
- A new push-back that is accepted replaces the old one, and goes behind what the head buffer has: handing back the last
  bytes delivered, at least one, keeps the ledger if and only if both are empty (`PushBackIff`).
  `amiga/rclid/sockio.c:602-614`.
- Reading a line pushes what is left over back from one place too early: right if and only if that is nothing or all zeros
  (`PushedIsRestIff`; `LeftOverShifted` for instance). `amiga/rclid/line.c:190-196`.
- A character check at the end of the file takes the zero its buffer was cleared with for a character and pushes it back
  (`ZeroAtEndOfFile`). What is reported or pushed back is a byte that came in if and only if the receive that was answered
  carried data (`JudgesReceivedIff`). `amiga/rclid/line.c:72-95`.

## Model

| member | source | states |
|---|---|---|
| ControlStream.SeqParser.Feed | python/amicon/stream.py:141-197 | one byte in the sequence parser updates its fields as `ParserFeed`, and gives elements exactly when the sequence ends or aborts |
| ControlStream.SeqParser.FinishParam | python/amicon/stream.py:199-208 | the finished number goes to the parameters or to the special one, and the number state is reset |
| NormalForms.PrintAborted | python/amicon/stream.py:210-220 | printing the elements of an aborted sequence, in either form, gives back its own introducer and all bytes taken in since, unmodified |
| ControlStream.ConsoleStream.Feed | python/amicon/stream.py:260-327 | one byte in the stream, with escape state, text flush and sequence parser; no text is pending inside a sequence |
| StreamBytes.GroundControl | python/amicon/stream.py:269-284 | outside an escape a byte below 32 or from 0x81 to 0x9E gives the pending text and that control character, except 0x1B and 0x9B, which open something |
| StreamBytes.GroundText | python/amicon/stream.py:235-245 | and any other byte joins the text |
| StreamBytes.EscapeByte | python/amicon/stream.py:286-304 | behind an escape: `[` opens a sequence, 64 to 95 are control characters 128 to 159, a control byte replaces the escape, any other byte is text behind it |
| StreamBytes.PendingIsText | python/amicon/stream.py:235-245 | whatever comes in, no byte below 32 or from 0x81 to 0x9E is pending as text |
| StreamBytes.SequenceByte | python/amicon/stream.py:141-220 | inside a sequence: 64 to 127 end it, digits, spaces and semicolons go on, `+`, `-` and `>` only before a number, and the rest aborts it with all its bytes |
| StreamBytes.NumberRead | python/amicon/stream.py:161-208 | three digits are their number |
| StreamBytes.SignRead | python/amicon/stream.py:161-208 | a sign counts, a space does not |
| StreamBytes.TwoNumbersRead | python/amicon/stream.py:161-208 | a semicolon separates two numbers |
| StreamBytes.SpecialRead | python/amicon/stream.py:161-208 | an empty number that is closed is zero, and `>` makes the next one special |
| StreamBytes.NoLeadingZero | python/amicon/stream.py:95-95 | numerals have no leading zero |
| StreamBytes.NumbersPrinted | python/amicon/stream.py:82-105 | a sequence with a number left out, a negative and a special one, printed byte by byte |
| ControlStream.ConsoleStream.FeedBytes | python/amicon/stream.py:247-258 | feeding a chunk is feeding its bytes in order |
| ControlStream.ConsoleStream.PutByte | python/amicon/stream.py:235-245 | a control character flushes the text before it, any other byte joins the text |
| ControlStream.ConsoleStream.FlushPending | python/amicon/stream.py:229-233 | pending text becomes one element, once |
| ControlStream.ConsoleStream.Flush | python/amicon/stream.py:329-336 | outside a sequence a flush hands out the pending text and leaves a fresh stream; a pending escape is forgotten |
| ControlStream.ControlSeqToBytes | python/amicon/stream.py:82-105 | the printed form: introducer, parameters with semicolons, the special one marked, the key |
| Decimal.DecimalText | python/amicon/stream.py:95-95 | the decimal numeral of any integer |
| Decimal.DigitsRoundTrip | python/amicon/stream.py:186-187 | reading back the digits of a number gives the number |
| SequenceGrammar.ParserMeansFields | python/amicon/stream.py:141-208 | byte by byte the parser computes the meaning of the body read field by field: signed values, zeros for empty fields, the last special one |
| SequenceGrammar.ParserRefusesFields | python/amicon/stream.py:161-220 | a body is refused exactly at the first byte that makes a field ill-formed, and given back unmodified |
| StreamTheorems.FeedAllSplits | python/amicon/stream.py:247-258 | how the input is cut into calls does not matter |
| StreamTheorems.PrintParse | python/amicon/stream.py:82-220 | any printed sequence, in either form, parses back to itself behind the pending text; left-out parameters come back as zero, a trailing one without special is lost |
| StreamTheorems.PrintParseIdentity | python/amicon/stream.py:82-208 | print and parse is the identity if and only if no parameter was left out |
| StreamLedger.LosslessIff | python/amicon/stream.py:223-327 | every element stands for its source bytes, and sources and pending bytes are the input in order, if and only if every escape is in order |
| StreamLedger.StepBalance | python/amicon/stream.py:260-327 | one byte in, the same bytes out or pending, in each of the three states |
| StreamLedger.StepOutOfOrder | python/amicon/stream.py:297-304 | an escape out of order is forgotten, or overtakes the pending text |
| StreamLedger.EscapeOvertakes | python/amicon/stream.py:297-304 | for instance `a ESC 7`: the escape comes out before the text |
| StreamLedger.EscapeForgotten | python/amicon/stream.py:297-304 | for instance `ESC BEL`: the escape does not come out |
| StreamLedger.AlwaysOk | python/amicon/stream.py:210-327 | at all times: no control byte in the text, and inside a sequence no text and a parser that is where its raw bytes say |
| NormalForms.NormalFormIff | python/amicon/stream.py:82-327 | any list of elements, printed in either form and parsed again with a last flush, comes back the same if and only if it is in normal form |
| NormalForms.ReprintsInOrder | python/amicon/stream.py:260-327 | and then its printed form holds no escape that is dropped, mapped to text or overtakes text |
| NormalForms.InOrderParsesNormal | python/amicon/stream.py:260-327 | what comes out of an input with such escapes only is in normal form, at every moment, with the text pending |
| NormalForms.InOrderReprintsIff | python/amicon/stream.py:82-327 | the elements of a complete input with its escapes in order come back if and only if none is ESC `@` or ESC `_` |
| NormalForms.MappedTextIsNoNormalForm | python/amicon/stream.py:286-297 | ESC `@` breaks the normal form: it comes back as text |
| NormalForms.BracketIsNoNormalForm | python/amicon/stream.py:297-304 | `[ ESC 7` does too: its elements come back as a sequence that has not ended |
| NormalForms.OutOfOrderMayReprint | python/amicon/stream.py:297-304 | `a ESC 7` does not, although its escape overtakes the text |
| Events.ConsoleEventStream.FeedBytes | python/amicon/event.py:93-119 | a chunk becomes the events of its elements, under the shift mode at each element |
| Events.ConsoleEventStream.HandleElement | python/amicon/event.py:101-142 | one element's event and what it does to the shift mode |
| Events.ShiftText | python/amicon/event.py:121-128 | text bytes below 0x80 move to the upper half |
| Events.HandleControlSeq | python/amicon/event.py:144-156 | mode and attribute sequences become events, others none |
| Events.HandleCharAttr | python/amicon/event.py:158-169 | the last parameter of each range wins; it cannot fail because the parser leaves no parameter out |
| Events.FeedAllPresent | python/amicon/stream.py:199-208 | parsed sequences have all their parameters |
| Events.LazyShiftIsEager | python/amicon/event.py:93-136 | for any chunks, each text byte is translated with the shift mode in force when it was fed, though that happens at flush time |
| EventBytes.ShiftedText | python/amicon/event.py:92-134 | text between 14 and 15 comes out with 128 added to each byte, in one piece, whatever the mode was |
| EventBytes.PlainText | python/amicon/event.py:92-134 | text between 15 and 14 comes out as it is |
| EventBytes.FirstText | python/amicon/event.py:90-107 | and so does text in the beginning |
| EventBytes.ModeAfter | python/amicon/event.py:130-134 | after any input text is shifted if and only if the last of all characters 14 and 15 was 14, or it was before and there were none |
| EventBytes.ControlTable | python/amicon/event.py:130-142 | what each of the 256 control characters gives |
| EventBytes.TextTable | python/amicon/event.py:121-128 | text byte by byte, shifted and not |
| EventBytes.SequenceTable | python/amicon/event.py:144-156 | V gives a mode, m gives attributes, no other key gives anything |
| EventBytes.AttributesAre | python/amicon/event.py:158-169 | of the numbers below 30, from 30 and from 40 the last one of each counts |
| Termio.ParseCsi | amiga/tools/termio.c:177-252 | the result or error code of the C parser, from the fields of the body: 16 bit values, empty fields skipped, at most eight |
| Termio.ScanBody | amiga/tools/termio.c:205-251 | the scanning loop computes that, byte by byte |
| Termio.ExpandParam | amiga/tools/termio.c:285-342 | one argument written into the buffer: a digit with its lead byte, a checked number, or a copy as far as there is room |
| Termio.ExpandCmdCode | amiga/tools/termio.c:344-395 | the expanded template is in the buffer, zero-terminated, or the first error is returned |
| TermioTheorems.TerminatedAgree | amiga/tools/termio.c:205-251 | for a body of digits, spaces and semicolons both parsers return the same command and values modulo 65536, if and only if no field is empty and there are at most eight |
| TermioTheorems.EmptyFieldDisagrees | amiga/tools/termio.c:211-221 | for instance a lone semicolon: a zero in one parser, nothing in the other |
| TermioTheorems.RefusedAgree | amiga/tools/termio.c:240-244 | both refuse at the same invalid byte, if and only if it is no sign or mark at the start of a field |
| TermioTheorems.WordMeans | amiga/tools/termio.c:211-238 | a stored 16 bit value is congruent to the number, and equal to it below 32768 |
| TermioTheorems.ExpandParses | amiga/tools/termio.c:344-395 | a numeric template expanded with room parses back, in both parsers, to the values of its arguments |
| TermioTheorems.AttrDecodes | python/amicon/event.py:144-169 | the attribute template with n below 30, f, c, b decodes to that attribute event, b = 0 to none |
| TermioBytes.Unfinished | amiga/tools/termio.c:205-251 | digits, spaces and semicolons alone are too short a sequence, unless there are too many arguments already |
| TermioBytes.NumberParsed | amiga/tools/termio.c:205-244 | two digits and a command from 64 to 127 are parsed |
| TermioBytes.CommandAlone | amiga/tools/termio.c:205-244 | and so is a command alone, without an argument |
| TermioBytes.OtherRefused | amiga/tools/termio.c:240-244 | any other first byte is invalid |
| TermioBytes.ExpandTable | amiga/tools/termio.c:285-342 | what each parameter code makes of an argument, and when it is an error |
| TermioBytes.TemplateAlone | amiga/tools/termio.c:344-395 | a template is copied behind its introducer as far as there is room |
| TermioBytes.FirstErrorIs | amiga/tools/termio.c:364-384 | the first error is the result |
| SockioSpec.PickedStaysHead | amiga/rclid/sockio.c:540-590 | the message removed after a wait is the one picked before it, although the port was drained and jobs expired in between |
| SockioStreams.WaitKeepsLedger | amiga/rclid/sockio.c:359-599 | while the socket is fine: delivered data, the head buffer and the push-back buffer are the received bytes in order, for any minimum size |
| SockioStreams.PrepareKeepsLedger | amiga/rclid/sockio.c:315-413 | a receive with room that is left to be served finds nothing pushed back any more: the socket is only read for it then |
| SockioStreams.PushBackKeepsLedger | amiga/rclid/sockio.c:602-614 | pushing back a suffix of what was delivered keeps that ledger |
| SockioStreams.PushBackIff | amiga/rclid/sockio.c:602-614 | handing bytes back keeps it exactly when they are refused, or nothing else is pushed back, the head buffer is empty and they are the last bytes delivered |
| SockioStreams.ReplaceKeepsLedger | amiga/rclid/sockio.c:617-673 | a successful change of the buffer keeps it, moving bytes along or pushing them back |
| SockioStreams.WaitKeepsTransmit | amiga/rclid/sockio.c:555-590 | the bytes the socket accepted and those of pending sends it has not, as they read now, are together the payloads as submitted, in order; after an error the accepted ones are a prefix |
| SockioStreams.WriteKeepsTransmitIff | amiga/rclid/rclid.c:242-247 | a new report keeps that if and only if it changes no byte still to be read |
| SockioStreams.SubmitKeepsTransmit | amiga/rclid/sockio.c:697-714 | a submitted payload comes last, in what was submitted and in what is still to be read |
| SockioPool.WaitKeepsPartition | amiga/rclid/sockio.c:359-599 | every message stays in exactly one place: free, on the port, on a list, answered, or held by the user |
| SockioPool.InitialPartitioned | amiga/rclid/sockio.c:91-95 | and starts in exactly one |
| SockioPool.WaitKeepsPool | amiga/rclid/sockio.c:359-599 | any count of messages and what is attached to them is the same after a wait |
| SockioPool.ReplaceKeepsPool | amiga/rclid/sockio.c:617-673 | and after a change of buffer |
| SockioPool.SubmitMovesOne | amiga/rclid/sockio.c:238-253 | a submission moves one free message to the port |
| SockioPool.TakeMovesOne | amiga/rclid/rclid.c:548-549 | taking a reply moves its message to the user |
| SockioPool.FreeKeepsPool | amiga/rclid/sockio.c:255-261 | freeing moves it back |
| SockioPool.ReceivingIsExclusive | amiga/rclid/sockio.c:238-294 | a message being received is there once, not free and not answered |
| SockioTimers.WaitKeepsJobs | amiga/rclid/sockio.c:359-599 | every waiting message with a job, listed or on the port, owns exactly one running job that points back to it, and there are no others |
| SockioTimers.SubmitKeepsJobs | amiga/rclid/sockio.c:716-749 | a new wait gets a job of its own, or none when the timer cannot start |
| SockioTimers.ExpiredAreAnswered | amiga/rclid/sockio.c:296-313 | each expired job's message is found on the wait list and answered, because the port was drained first |
| SockioTimers.StopsRunningJobIff | amiga/rclid/sockio.c:479-494 | the job stopped for a readable socket is still running if and only if it did not expire in the same wait |
| SockioTimers.StaleIsAnsweredAlready | amiga/rclid/sockio.c:296-494 | if it did, the message picked has been answered with a timeout and its job is gone when the socket is served |
| SessionWaits.AnsweredAlready | amiga/rclid/sockio.c:296-494 | a run from a new session and one wait that comes to this |
| SockioReplies.WaitKeepsReadsCarryData | amiga/rclid/sockio.c:498-553 | while the socket is fine no wait answers a receive with nothing |
| SockioReplies.EofComes | amiga/rclid/sockio.c:498-553 | the end of file comes only from a ready socket that says so to the first receive |
| SockioReplies.NoRoomNoData | amiga/rclid/sockio.c:498-553 | a receive without room never gets a byte: it waits, or an end of file or an error comes |
| SockioReplies.WaitAnswers | amiga/rclid/sockio.c:359-599 | one wait answers at most the first receive with data, namely with what its buffer holds by then |
| SockioReplies.FailedDrains | amiga/rclid/sockio.c:369-378 | after an error, two more waits answer everything that was submitted |
| SockioReplies.EofDrains | amiga/rclid/sockio.c:371-374 | after the end of file, two more waits answer all receives and waits |
| SockioOutcomes.FailsIff | amiga/rclid/sockio.c:359-599 | after a wait there is an error if and only if there was one, or the wait failed, or a read or write that was asked for did on a ready socket; and the file has ended if and only if it had or such a read got nothing, without an error |
| SockioOutcomes.FirstReceive | amiga/rclid/sockio.c:359-553 | without an error or the end of the file, the first receive gets what is pushed back as far as it fits and all that is read, and is answered if and only if it has its minimum then |
| SockioOutcomes.FirstSend | amiga/rclid/sockio.c:555-590 | without an error the first send goes on behind what has gone out, and is answered if and only if the socket is ready and all its bytes are out |
| SockioOutcomes.BreakAnswers | amiga/rclid/sockio.c:592-596 | on an error all lists are empty, and the last reply is an error note, 0 for the wait and 1 for a transfer, if a message was free |
| SockioOutcomes.ListedIsAnswered | amiga/rclid/sockio.c:117-151 | every request that was listed has been answered |
| SockioUsers.WaitKeepsUsers | amiga/rclid/sockio.c:359-599 | what holds of the users of requests holds of those of their answers: reads are answered as reads, sends as sends, waits without a character unless they found one |
| SockioUsers.FoundIsAnswered | amiga/rclid/sockio.c:479-494 | a wait that finds the fine socket readable answers the first waiting message so |
| SockioQueues.ReceiveIsLast | amiga/rclid/sockio.c:677-694 | a receive is last in the queue, with its memory, size and minimum |
| SockioQueues.WaitIsLast | amiga/rclid/sockio.c:717-750 | so is a wait for a character, with a job if and only if the timer was started |
| SockioQueues.WaitServes | amiga/rclid/sockio.c:359-599 | a wait takes the first receive off it, all that were listed, or none |
| SockioQueues.ReplacedIs | amiga/rclid/sockio.c:617-673 | a receive goes on with the new buffer, size and minimum |
| SockioQueues.ReplacedCompletes | amiga/rclid/sockio.c:617-673 | or is answered with what fits, and the rest is pushed back |
| Timer.TimerHandle.Start | amiga/rclid/timer.c:109-151 | a job is appended unless memory or the device is missing; the device is open exactly while there are jobs |
| Timer.TimerHandle.Stop | amiga/rclid/timer.c:153-178 | a running job is removed; the last one closes the device; no job at all is fine |
| Timer.SplitTimeout | amiga/rclid/sockio.c:730-735 | seconds and microseconds add up to the timeout |
| SockioService.SockioHandle.constructor | amiga/rclid/sockio.c:43-105 | a new service is the initial machine |
| SockioService.SockioHandle.Recv | amiga/rclid/sockio.c:677-694 | a receive is queued, or refused in the error state or without a free message |
| SockioService.SockioHandle.Send | amiga/rclid/sockio.c:697-714 | so is a send |
| SockioService.SockioHandle.WaitChar | amiga/rclid/sockio.c:716-749 | so is a wait, with its job if the timer starts |
| SockioService.SockioHandle.FreeMsg | amiga/rclid/sockio.c:255-261 | the message is free again |
| SockioService.SockioHandle.PushBack | amiga/rclid/sockio.c:602-614 | the bytes are in the push-back buffer in place of earlier ones, or refused if too many |
| SockioService.SockioHandle.HandlePushBack | amiga/rclid/sockio.c:315-356 | pushed-back bytes are copied behind the head receive's, as many as fit, and it is answered once it has enough |
| SockioService.SockioHandle.FlushRecv | amiga/rclid/sockio.c:118-158 | all receives are answered with nothing, all waits without a character and their jobs stopped |
| SockioService.SockioHandle.FlushSend | amiga/rclid/sockio.c:160-177 | all sends are answered |
| SockioService.SockioHandle.ReplyError | amiga/rclid/sockio.c:263-275 | an error note is replied if a message is free |
| SockioService.SockioHandle.HandleMsg | amiga/rclid/sockio.c:277-294 | a message goes to the end of the list of its kind |
| SockioService.SockioHandle.DrainPort | amiga/rclid/sockio.c:455-461 | the whole port is sorted into the lists, in order |
| SockioService.SockioHandle.HandleTimer | amiga/rclid/sockio.c:296-313 | done jobs are stopped and their messages removed from the wait list and answered |
| SockioService.SockioHandle.HandleRx | amiga/rclid/sockio.c:498-553 | receive, answer, end of file, EAGAIN and error of the head receive, on its buffer |
| SockioService.SockioHandle.HandleTx | amiga/rclid/sockio.c:555-590 | the same for the head send |
| SockioService.SockioHandle.PrepareWait | amiga/rclid/sockio.c:369-430 | what is flushed, served and picked before the wait |
| SockioService.SockioHandle.WaitHandle | amiga/rclid/sockio.c:359-599 | one call is one wait step of the abstract machine, writes to no client memory but the head receive's buffer, and leaves there what that receive got |
| SockioService.SockioHandle.ReplaceRecvBuffer | amiga/rclid/sockio.c:617-673 | the head receive goes on in the new buffer with its bytes copied, the rest pushed back, unless that is refused |
| SignalBytes.ExtractSignals | amiga/rclid/conv.c:16-56 | the buffer is compacted in place to the bytes that are no signals, each signal counted, bytes behind the size untouched |
| SignalBytes.VisibleSplits | amiga/rclid/conv.c:32-47 | every byte is either visible or a signal, and none is lost |
| SignalBytes.VisibleConcat | amiga/rclid/conv.c:32-47 | filtering in pieces is filtering at once |
| VconService.VconHandle.HandleDosPkt | amiga/rclid/vcon.c:274-456 | each packet is answered at once with its codes or becomes one message, with what it does to mode, counters and signal ports |
| VconService.VconHandle.HandleVmsgReply | amiga/rclid/vcon.c:458-501 | the packet of a replied message is answered with the codes of its kind, and the message is free |
| VconService.VconHandle.PostMsg | amiga/rclid/vcon.c:248-262 | a message is posted exactly when one is free |
| VconService.VconHandle.CreateFh | amiga/rclid/vcon.c:167-191 | the session's own file handles are counted |
| VconService.VconHandle.HandleSigmask | amiga/rclid/vcon.c:503-524 | everything on the signalled ports is handled in order; an error state is reported |
| VconService.VconHandle.SendSignal | amiga/rclid/vcon.c:208-234 | the reader's and the writer's task get exactly the mask, no task twice |
| VconTheorems.PktsSet | amiga/rclid/vcon.c:314-411 | after any series of packets a break goes to the last reader and the last writer, and the mode is the last one asked for |
| VconTheorems.PktsCount | amiga/rclid/vcon.c:286-313 | and the 32 bit count of handles has followed every open and close |
| VconTheorems.StateAfter | amiga/rclid/vcon.c:286-441 | the last close closes the console, a request without a free message puts it in error |
| VconTheorems.TargetsAre | amiga/rclid/vcon.c:208-234 | a signal goes to the last reader's and the last writer's port |
| SessionTheorems.StepKeepsExactlyOnce | amiga/rclid/vcon.c:274-501 | every event keeps: a packet that arrived is answered once, or in exactly one place |
| SessionTheorems.StepKeepsConsolePool | amiga/rclid/vcon.c:248-272 | every event keeps each console message free or in use in exactly one place |
| SessionTheorems.StepKeepsSound | amiga/rclid/rclid.c:209-500 | every event keeps both, the socket pool's partition and the job correspondence |
| SessionTheorems.RunIsSound | amiga/rclid/rclid.c:515-598 | so they hold in every state of every run |
| SessionTheorems.StartIsSound | amiga/rclid/rclid.c:64-164 | and at the start |
| SessionTheorems.AnsweredAtMostOnce | amiga/rclid/vcon.c:458-501 | no packet is answered twice, an answered one waits nowhere, an unanswered one in one place |
| SessionAnswers.AnswersAre | amiga/rclid/vcon.c:274-501 | over every run: the codes and the data of every answer, in numbers, for all eleven kinds of packets |
| SessionAnswers.RunKeepsBook | amiga/rclid/rclid.c:262-500 | in every state of every run each packet, message and reply says what its packet asked for and what was decided about it |
| SessionAnswers.StartTells | amiga/rclid/rclid.c:64-164 | a new session begins such runs |
| SessionAnswers.ActionIs | amiga/rclid/vcon.c:274-285 | the book says of every packet what it asked for when it arrived |
| SessionAnswers.WaitAnsweredIff | amiga/rclid/rclid.c:467-477 | a wait that was taken is answered that there is a character if and only if some wait found the socket readable while it was the first one, and otherwise that there is none |
| SessionAnswers.RefusedIff | amiga/rclid/rclid.c:288-337 | a packet is entered as refused if and only if its message came up when the socket service was in error or had no message free |
| SessionReports.ReadNotTaken | amiga/rclid/rclid.c:290-301 | a run from a new session: a read without data is answered with its full size |
| SessionReports.WaitNotTaken | amiga/rclid/rclid.c:325-337 | a run from a new session: a wait is told of a character although nobody asked the socket |
| SessionOrder.HandledInOrder | amiga/rclid/rclid.c:564-590 | over every run: when a message is handled, no packet that arrived earlier still waits to become one or to be handled |
| SessionOrder.StartInOrder | amiga/rclid/rclid.c:64-164 | a new session begins such runs |
| SessionFlags.StepFlags | amiga/rclid/rclid.c:515-598 | with which events the socket is given up, the console ends and the mode changes; nothing else does that |
| SessionFlags.NewSessionServes | amiga/rclid/rclid.c:515-598 | over every run from a new session: it serves the socket until one of these events gives it up, the console until its end message, and is in the mode set last, cooked in the beginning |
| SessionFlags.ErrorEnds | amiga/rclid/rclid.c:545-554 | over every run: once an error note has been handled the socket is never used again |
| SessionFlags.LooksByLine | amiga/rclid/rclid.c:430-436 | data is looked at line by line in cooked mode only, and only if that is wanted |
| SessionFlags.SignalTable | amiga/rclid/conv.c:16-56 | bytes 3 to 6 are the signals, and each has its bit in this order |
| SessionStream.SplitAtLine | amiga/rclid/rclid.c:391-415 | prefix and tail are the data, the prefix is not empty and has at most one byte behind its first newline; it splits exactly when two or more bytes follow a newline |
| SessionStream.WaitKeepsDelivered | amiga/rclid/sockio.c:540-551 | what a wait delivers is what it answers |
| SessionReads.StepKeepsStream | amiga/rclid/rclid.c:364-500 | every event keeps the read stream in order, as long as a split meets the condition below |
| SessionReads.RunKeepsStream | amiga/rclid/rclid.c:364-500 | so it is kept over every run in which splits were safe |
| SessionReads.SplitKeepsStreamIff | amiga/rclid/rclid.c:404-411 | a split keeps the stream if and only if nothing is pushed back, the tail fits, and data answered behind it reads the same before and after the tail |
| SessionSplits.TwoReadsDisorder | amiga/rclid/rclid.c:404-411 | a run from a new session with two reads at a time: a byte is looked at before the two that came in before it |
| SessionSplits.ShorterReadLoses | amiga/rclid/rclid.c:404-411 | a run with a read shorter than what is pushed back: the last two bytes that came in are nowhere |
| SessionOneReader.EndToEnd | amiga/rclid/rclid.c:364-465 | with one reader, of any sizes no less than what is pushed back: over any run and chunking, answers carry the bytes looked at without signals, received bytes are accounted for in order, each signal byte is posted once |
| SessionOneReader.StartIsOneRead | amiga/rclid/rclid.c:64-164 | a new session meets that |
| SessionRestarts.RunAnswersReads | amiga/rclid/rclid.c:425-464 | in every state of every run, while the socket is fine and in use, every read on its way to its answer carries data |
| SessionRestarts.StartAnswersReads | amiga/rclid/rclid.c:64-164 | a new session begins such runs |
| SessionRestarts.RunTellsRooms | amiga/rclid/rclid.c:427-451 | in every state of every run a read's size is zero exactly when it has been restarted, and its receive has no room exactly when that happened twice |
| SessionRestarts.StartTellsRooms | amiga/rclid/rclid.c:64-164 | so it is in a new session |
| SessionRestarts.RereadHasRoomIff | amiga/rclid/rclid.c:427-451 | over every run: a restarted read has room if and only if it had not been restarted before |
| SessionRestarts.EndOnlyAfterTwoRounds | amiga/rclid/rclid.c:427-463 | over every run in which the other side does not close: the end of file only comes after some read was restarted twice |
| SessionSignals.SignalRound | amiga/rclid/rclid.c:443-463 | signals only: the same read is asked again, with the size its message says, and the message says zero from then on |
| SessionSignals.SignalsTwiceEndTheFile | amiga/rclid/rclid.c:427-463 | any two buffers of signals in a row end the file, without the other side closing |
| SessionSignals.TwoBreaksEndTheFile | amiga/rclid/rclid.c:427-463 | a run that shows it, from a new session and one read |
| SessionSupply.RunKeepsSupply | amiga/rclid/rclid.c:515-598 | in every state of every run the number of messages of both pools is what it was, and without an error those with nothing attached are free |
| SessionSupply.MessageIsFree | amiga/rclid/rclid.c:262-362 | with as many socket messages as console messages, one is free for every console message that comes, until an error |
| SessionWrites.StepSubmits | amiga/rclid/rclid.c:209-290 | an event submits what the console message it handles writes or reports if the socket service takes messages, and nothing else does |
| SessionWrites.SwallowsNothingIff | amiga/rclid/rclid.c:268-280 | no write is swallowed if and only if it takes them |
| SessionWrites.WireTable | amiga/rclid/rclid.c:209-280 | what a message writes: its bytes, or 0x9B, a digit and V for a mode that is taken and to be reported |
| SessionWrites.StepTransmitsIff | amiga/rclid/rclid.c:242-247 | an event keeps that order if and only if it makes no report that changes bytes still to be read |
| SessionWrites.RunTransmitsIff | amiga/rclid/rclid.c:515-598 | over any run it holds at every moment if and only if no report ever changed bytes still to be read |
| SessionWire.EverythingGoesOut | amiga/rclid/sockio.c:555-590 | from any state without an error the network may accept all that is pending, exactly as it reads then |
| SessionWire.ReportSafeIff | amiga/rclid/rclid.c:242-247 | a report changes no byte still to be read if and only if, whatever the network does from then on, it accepts what was submitted, in order |
| SessionWrites.WriteStream | amiga/rclid/rclid.c:515-598 | over any such run, with as many socket messages as console messages, the network accepted a prefix of everything the console wrote, in order; and all of it once no send is pending, without an error |
| SessionWrites.StartCanWrite | amiga/rclid/rclid.c:64-164 | a new session begins such runs |
| SessionReports.SecondReportTwice | amiga/rclid/rclid.c:242-247 | a run from a new session, with eight messages or more: raw and cooked mode are reported, cooked mode is sent twice |
| SessionReports.SecondWriteLost | amiga/rclid/rclid.c:268-280 | a run from a new session with one socket message and eight console messages: a write is answered with its full size and never sent |
| ModeReports.ReportDecodes | amiga/rclid/rclid.c:242-247 | the reported mode is the one the other side's event layer sees, behind any pending text |
| SessionRuns.ReachedAccounts | amiga/rclid/rclid.c:515-598 | what a disciplined run guarantees: bytes accounted for, answers exact, packets answered once |
| SessionRuns.ReachedMore | amiga/rclid/rclid.c:515-598 | one more event is one more step of the run |
| SessionRuns.StartIsReached | amiga/rclid/rclid.c:64-164 | a new session starts such a run |
| SessionMemory.WaitAccounts | amiga/rclid/sockio.c:359-599 | data in a reply after a wait was there before and no receive was pending, or is what the first receive got |
| SessionMemory.ReachedIsAlone | amiga/rclid/rclid.c:425-464 | data about to be looked at is for a read, no receive writes to its buffer, and there is no other data |
| SessionService.SessionHandle.constructor | amiga/rclid/rclid.c:64-164 | a new session is the machine's start |
| SessionService.SessionHandle.LineSplitBuffer | amiga/rclid/rclid.c:391-415 | the scan finds the line, and its tail is pushed back from the buffer |
| SessionService.SessionHandle.ProcessSignalsInBuffer | amiga/rclid/rclid.c:364-389 | the buffer is filtered in place, exactly those break bits are set whose byte occurred, and the console's tasks get them |
| SessionBreaks.StepPosts | amiga/rclid/rclid.c:364-389 | the console is signalled when signal bytes are looked at, with the ports of that moment, and at no other time |
| SessionBreaks.BreaksSentIff | amiga/rclid/vcon.c:208-234 | over every run a task has got a break if and only if data with just these signals was looked at while it was the last reader's or writer's |
| SessionService.SessionHandle.HandleReceived | amiga/rclid/rclid.c:425-465 | received data is split, filtered, and replied or read again |
| SessionService.SessionHandle.HandleSockioMsg | amiga/rclid/rclid.c:417-500 | one reply of the socket service is one event of the machine, on the real buffer |
| SessionService.SessionHandle.HandleBufferMode | amiga/rclid/rclid.c:209-260 | a mode is taken or rejected, and reported to the other side in the shared buffer unless it asked not to be told |
| SessionService.SessionHandle.HandleVconMsg | amiga/rclid/rclid.c:262-362 | one console message is one event of the machine |
| SessionService.SessionHandle.IsSockioIdle | amiga/rclid/rclid.c:502-513 | idle means all three lists are empty |
| SessionService.SessionHandle.SockioPass | amiga/rclid/rclid.c:545-554 | the loop over the socket service's replies empties the port and keeps the session good |
| SessionService.SessionHandle.VconPass | amiga/rclid/rclid.c:564-590 | so does the loop over the console's messages |
| SessionService.SessionHandle.Pass | amiga/rclid/rclid.c:526-596 | a whole pass of the main loop keeps the session good, whatever the environment does |
| SessionService.SessionHandle.PacketArrives | amiga/rclid/vcon.c:508-513 | a packet from a disciplined client keeps it good |
| SessionService.Open | amiga/rclid/rclid.c:664-682 | a new session is good |
| Line.ReadsFirstLine | amiga/rclid/line.c:136-222 | the result is the place of the first newline of the stream, the text what comes before it; without one no length is reported |
| Line.ChunksDoNotMatter | amiga/rclid/line.c:136-222 | two ways for the same bytes to come in give the same line |
| Line.HandleChunk | amiga/rclid/line.c:164-207 | the scan of a received chunk: newline found and terminated, or all bytes kept |
| Line.ReadLine | amiga/rclid/line.c:113-226 | the buffer holds exactly the bytes before the first newline, zero-terminated, that length is returned, and a zero and all but the last of the bytes behind it are pushed back; otherwise the code of the failure |
| Line.PushedIsRestIff | amiga/rclid/line.c:190-196 | what is pushed back is what was left over if and only if that is nothing or all zeros |
| Line.LeftOverShifted | amiga/rclid/line.c:190-196 | for instance a line and two bytes: the second is lost |
| Line.CheckChar | amiga/rclid/line.c:26-108 | the loop over replies: the one character read is reported if it is special and pushed back if not, never both; without one the code says whether the wait timed out |
| Line.ChecksCharacter | amiga/rclid/line.c:26-108 | so it is for any replies with one request outstanding at a time, and error notes behind the answer change nothing |
| Line.ZeroAtEndOfFile | amiga/rclid/line.c:72-95 | at the end of the file a zero is pushed back that never came in |
| Line.JudgesReceivedIff | amiga/rclid/line.c:72-95 | what is reported or pushed back came in if and only if the receive that was answered carried data |
| Line.NewlineIs | amiga/rclid/line.c:164-176 | the line ends at the first byte 10 |
| Line.FailureCode | amiga/rclid/line.c:113-226 | without a newline the result is -2 if a wait timed out and -1 if not |
| Line.CheckCodes | amiga/rclid/line.c:26-108 | so it is for a check without a character; with one the result is that or 0 |
| LineRuns.WaitNotes | amiga/rclid/sockio.c:359-599 | a wait adds answers to requests and behind them an error note at most, which finds nothing else left to answer |
| LineRuns.RunIsInOrder | amiga/rclid/line.c:43-107 | over every run of the socket service a loop with one request at a time gets nothing but error notes behind the reply that ends it |
| LineTheorems.ServiceReadsLine | amiga/rclid/line.c:113-226 | over every run of the socket service the line is what comes before the first newline, and until there is one the text is exactly what the service has delivered |
| LineTheorems.ServiceChecksCharacter | amiga/rclid/line.c:26-108 | and the check finds out what it should, for every run |

## Left out

- Exec, DOS and socket calls: ports are FIFO sequences; WaitSelect, recv, send, expiring jobs, OpenDevice and memory for a
  job are inputs. Memory at start-up is there.
- SockioSpec.PickedStaysHead: excludes that the head waiter's job expires in the very wait that finds the socket readable
  (`amiga/rclid/sockio.c:480`); `SockioTimers.StaleIsAnsweredAlready` says what happens then.
- SessionReads.RunKeepsStream: needs every split to be safe, because an unsafe one loses bytes (`SplitKeepsStreamIff`).
- SessionOneReader.EndToEnd: one reader at a time, whose reads ask for no less than what is pushed back, since a tail
  pushed back past a second outstanding read comes out of order and a shorter read can lose bytes (`TwoReadsDisorder`,
  `ShorterReadLoses`).
- SessionRestarts.RunTellsRooms: every read asks for at least a byte, as in `RereadHasRoomIff` and `EndOnlyAfterTwoRounds`;
  one that asks for none is a receive without room from the start.
- SessionWrites.WriteStream: no report that changes bytes still to be read, and no more console messages than socket
  messages, because it fails otherwise (`SecondReportTwice`, `SecondWriteLost`).
- SockioStreams.WaitKeepsLedger: a receive whose minimum is above its size, unless that is zero; nobody submits one.
- SockioService.SockioHandle.WaitHandle: messages are values in lists rather than structs linked into lists, and a write's
  payload is a value; the buffers of receives, the push-back buffer and the report buffer are arrays. The error state is entered at the end
  of the wait that fails rather than in its middle, where nothing reads it.
- SockioService.SockioHandle.ReplaceRecvBuffer: says nothing of the state after a refusal, where the code has already
  changed the message; and asks for a socket that is fine.
- SockioService.SockioHandle.FlushRecv: asks for no transfer in progress or the error state, since the counter is not reset
  by a flush.
- SessionService.SessionHandle.HandleSockioMsg: the memory of a read holds the data of its reply until the session looks at
  it, which `Good` guarantees for a client with one read at a time.
- VconService.VconHandle.SendSignal: a port and its task are one.
- VconService.VconHandle.HandleDosPkt: fields of file handles and the disk type that DISK_INFO fills in.
- Termio.ExpandCmdCode: the array has room for what the code may write beyond `buf_len`; a template whose parameter list is
  NULL is not passed.
- Line.ReadLine: the room left, which the code never reduces: the replies are those that leave room for the terminator. That
  they come in order is proved of the socket service (`LineTheorems.ServiceReadsLine`).
- Line.CheckChar: special characters are 7 bit.
- NormalForms.NormalFormIff: a control character prints as its one byte, where the code returns the integer.
- ControlStream.ConsoleStream.Flush: not with a sequence pending, since the code then calls a method that does not exist.
- `vcon_flush`, which answers packets without freeing their messages; `vcon_exit`, `sockio_exit`, `timer_exit`.
- Messages on the socket service's port when the main loop ends, which the idle test ignores.
- `serv.c`, `runserv.c`, `run.c`, `init.c`, option parsing, the small tools, the curses screen, the Python client, the
  special parameters of other marks than `>`, string conversions, logging.
