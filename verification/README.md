# A verified model of the print driver

This project models the parts of the printer SDK that decide whether a receipt was
printed, and proves what they promise. It covers the job engine, its journal, the
parsers of what printers answer, the ESC/POS and Star encoders and the translator
between them, the pull-mode print server, the raster and text kernels, and the ePOS
client. `dafny verify dfyconfig.toml` checks all of it.

## How the model is laid out

Code that changes things step by step is imperative Dafny: classes with the source's
fields, loops with invariants, each proved equal to a specification function. The
properties are lemmas about those functions, or invariants the methods keep.

| file | what it models |
|---|---|
| `Types.dfy` | the closed enumerations shared by all components |
| `DriverRuns.dfy` | the driver as a system: submissions, transitions, crashes, restarts, over the text of the journal |
| `JobTrace.dfy` | what one attempt journals and what the link takes of it, and the law every attempt obeys |
| `JobScript.dfy` | the adversary's script, the bytes of every command, and what becomes of a job as a function of both; whose acknowledgement a job acts on |
| `JobRunner.dfy` | the worker's procedure, proved to leave exactly those marks |
| `MarkerAllocator.dfy` | verification identifiers and their leases |
| `Backchannel.dfy`, `ResponseParser.dfy` | what an ESC/POS printer sends back |
| `StarFence.dfy` | the Star parser and its fences |
| `JournalText.dfy`, `JobStore.dfy` | the journal syntax and the store over it |
| `Subscriptions.dfy` | replay and live delivery of job events |
| `WorkerLane.dfy` | the queue of one printer and its worker, stop and drain |
| `EscPosEncoder.dfy`, `StarEncoder.dfy`, `Transcoder.dfy`, `TranscodeLaw.dfy` | the two dialects and the translation between them |
| `CloudPrnt.dfy` | the print server that printers poll |
| `Raster.dfy`, `CodePages.dfy`, `Cp852.dfy` | grayscale to dots, UTF-8 to code page, the table of code page 852 |
| `Epos.dfy`, `XmlText.dfy` | the ePOS verdict loop and XML text |

The link is an adversary. It may fail any write after any number of its bytes, deliver
any bytes in any reads at any wait, drop, or stay silent. It is trusted in one thing:
it reports the bytes it took. A crash may cut the append in progress after any number
of characters, and may come between any two steps.

A script fixes everything the adversary does to one job, so that what the job meets is a
function of it, and its trace too. Three layers fit together. `PrinterRuntime.RunJob`
touches the journal and the link only through `Outside`, and what it leaves there, in one
order, is exactly `TraceOf` the script. Every such trace is lawful and tells the truth
about paper (`VerdictTellsThePaper`), and acts only on acknowledgements of its own
(`ClaimIffOwnFrame`, `StarAckIffOwnAnswer`). Every lawful trace is a run of `DriverRuns`
(`TraceIsARun`, `JobIsARun`), over whose journal text at-most-once printing is proved.

## What the proofs found

Each of these is a lemma; the code was modelled as it is.

* **At most once has one exception.** A job that printed and then jammed the cutter ends
  FailedKnown, and FailedKnown may be resubmitted, so it prints again
  (`CutterFaultPrintsTwice`); from the empty journal this takes two submissions
  (`TwicePrintedFromTheStart`). Every other way to two printed attempts of a key, without
  a forced reprint, is impossible (`AtMostOnce`).
* **A free marker pair can be refused.** `acquire` tries 4418 consecutive slots and
  doubles the slot in 32 bits. Its window covers every pair if and only if it does not
  cross a multiple of 2^31 (`AcquireIsCompleteIff`); a run of leases leads to a refusal
  with a pair free (`AcquireCanRefuseAFreePair`).
* **A marker can come round early.** A pair is not reissued for 4418 slots, except across a
  multiple of 2^31, where it comes round after exactly 4298 (`NoReissueInWindowIff`,
  `ShortRoundReissues`).
* **A torn state line can overclaim.** Cut before its evidence, a completed line written
  with a grade below B reads back as B (`TornGradeOverclaimsIff`). Built-in fences never
  write such a line (`TornVerdictNeverOverclaims`); a registered method can.
* **Translation has two unfaithful calls.** A zero-line feed and a bare change of
  underline thickness leave three stray bytes each; everything else translates exactly,
  as long as text keeps out of DLE, ESC and GS (`TranslationLaw`, `ByteIsSafeIff`).
* **A tall image can become one row.** The scaled height is cut to 32 bits before it is
  checked (`HeightCheckIff`, `TallImageBecomesOneRow`).
* **A confirmation without a token is idempotent only on a short queue.** It retires
  whatever is at the head, so two in a row are one if and only if at most one job was
  waiting (`TokenlessConfirmationIsIdempotentIff`).
* **A repeated confirmation is remembered only so long.** The source answers a repeat like
  the first so that no printer retries for ever; it does so if and only if the job is among
  the last `max_history` confirmed, and a later repeat is not found (`RepeatIsAnsweredIff`).
* **Text cannot be transliterated in pieces cut anywhere.** Two pieces give what the whole
  gives, whatever the second is, if and only if the first does not end in the middle of a
  character (`DistributesIff`).
* **Star fences are numbered through zero.** A comment says numbering starts at 1 so that
  a zeroed buffer never looks like an answer; after 65535 the next number is 0. The
  model follows the code (`NextFenceIsNumbered`).

A registered history of zero is accepted. Its first confirmation erases the job and then
reads it to write the answer (`agent/src/cloudprnt.cpp:842-853`), so for that
configuration the contracts fix the queue and say nothing of that one answer.

## Model

| member | source | states |
|---|---|---|
| `DriverRuns.AtMostOnce` | core/src/driver.cpp:2057-2132 | In every reachable world, over any submissions, transitions, crashes inside or between appends, and restarts, two different attempts of a key never force-reprinted can both have put bytes on paper only if one of them is a known failure by cutter fault |
| `DriverRuns.EarlierAttemptFailed` | core/src/driver.cpp:2065-2085 | Of such a key every attempt but the newest is a known failure, and it put bytes on paper exactly when its reason is the cutter fault |
| `DriverRuns.AdmissionIff` | core/src/driver.cpp:2065-2082 | Without a reprint a known key gets a new attempt if and only if its newest attempt is a known failure, live or reloaded |
| `DriverRuns.PaperIsJournaled` | core/src/driver.cpp:1641-1646 | No payload byte is on paper while the journal says less than SendStarted, and a known failure with paper is the cutter fault |
| `DriverRuns.RestartSettlesEverything` | core/src/job_store.cpp:349-381 | After any restart every attempt has a verdict, and one that may have printed is not reported as a safe failure |
| `DriverRuns.StepKeepsInv` | core/src/driver.cpp:2681-2720 | Every event keeps the invariant: the journal text rebuilds a well-formed store, the key index is its index, every live attempt is where its journal says, and earlier attempts of a key are known failures |
| `DriverRuns.CrashInActKeepsInv` | core/src/job_store.cpp:431-443 | A crash after any number of characters of a record being appended leaves a world in which the transition happened or did not |
| `DriverRuns.CrashInSubmitKeepsInv` | core/src/job_store.cpp:445-475 | The same for the two-record batch that creates a job: no job, a job line alone, or the job |
| `DriverRuns.RunKeepsInv` | core/src/driver.cpp:2681-2720 | The invariant holds at the end of every run |
| `DriverRuns.TornVerdictNeverOverclaims` | core/src/job_store.cpp:222-245 | A record of a job run by a built-in fence, cut short anywhere, never reads back with a stronger grade than was written |
| `DriverRuns.CutterFaultPrintsTwice` | core/src/driver.cpp:1801-1812 | From every reachable world where the newest attempt of a key printed and jammed the cutter, a plain resubmission is possible and prints again, with no reprint forced |
| `DriverRuns.AJammedWorld` | core/src/driver.cpp:1795-1814 | Such a world is reached from the empty journal: one submission, a printed, confirmed and cut receipt, and a jammed cutter |
| `DriverRuns.TwicePrintedFromTheStart` | core/src/driver.cpp:2065-2082 | So it happens: from the empty journal two jobs submitted under one key are both on paper, with no reprint forced |
| `DriverRuns.TraceIsARun` | core/src/driver.cpp:1305-1314 | Any lawful trace of a live attempt is a run of the driver: the journal gains exactly its records, the paper exactly its payload bytes, and nothing else of the world moves |
| `JobTraces.AlwaysHonest` | core/src/driver.cpp:1597-1664 | At every prefix of a lawful trace, hence at every crash point: nothing before SendStarted touched paper, a known failure touched it exactly on a cutter fault, Unknown means some byte was accepted |
| `JobTraces.HistoryAscends` | core/src/driver.cpp:1305-1314 | Events of a lawful trace are strictly forward, monotone in confidence, bounded by the ceiling, with a terminal event only in last place |
| `JobTraces.LawfulPrefix` | core/src/driver.cpp:1305-1314 | What a crash leaves of a lawful trace is lawful |
| `JobTraces.SendStartedComesFirst` | core/src/driver.cpp:1641-1648 | Before any accepted payload byte the trace holds a journaled SendStarted |
| `JobTraces.VerdictsClaimHonestly` | core/src/driver.cpp:1511-1533 | A failure or an ambiguity never carries a grade above device status, and a success carries exactly what the fence is worth |
| `JobTraces.EveryRunIsAnHonestPath` | core/src/driver.cpp:1501-1821 | For any facts a job may meet: its published history is a path of the state diagram from Queued, edge by edge, confidence never falls nor passes the profile ceiling, it ends in its one terminal event, and that verdict is honest about the bytes on paper |
| `JobTraces.RunIsLawful` | core/src/driver.cpp:1501-2045 | Every ESC/POS, registered-method and Star run obeys the law -- which record may follow which, and which bytes may leave in which state -- and ends in a verdict unless the marker allocator threw |
| `JobTraces.LegalWhereItHappens` | core/src/driver.cpp:1641-1798 | Each write of a lawful trace happens in a state that allows it: payload only after SendStarted is journaled, a fence behind the whole payload, a fenced cut behind PrintConfirmed, the cutter query behind CutCommandProcessed |
| `JobTraces.HistoryIsAPath` | core/src/driver.cpp:1305-1314 | Consecutive events are single edges of the state diagram |
| `JobTraces.ConfirmedIffAcknowledged` | core/src/driver.cpp:1712-1738 | A job claims PrintConfirmed if and only if it got to send, its profile has a fence, payload and fence went out whole and the fence was answered |
| `JobTraces.PaperIsThePayload` | core/src/driver.cpp:1648-1664 | The bytes put on paper are those the link took of the payload, and none of any command |
| `JobTraces.AcceptedCountsPaper` | core/src/driver.cpp:1648-1664 | The bytes counted against a verdict are the bytes on paper |
| `JobScripts.VerdictTellsThePaper` | core/src/driver.cpp:1501-2045 | Whatever the link does to a job: the paper holds a prefix of its payload; a known failure means an untouched paper unless the cutter failed; Unknown means a touched one; Done and a cutter failure mean the whole payload |
| `JobScripts.ClaimIffOwnFrame` | core/src/driver.cpp:1636-1738 | A GS ( H job journals PrintConfirmed if and only if it connected and passed preflight, payload and fence went out whole, and the whole frame of its own print token was read since the job began |
| `JobScripts.AckIffOwnFrameOnWire` | core/src/driver.cpp:1118-1211 | A GS ( H wait is signalled if and only if the whole frame of the job's own token stands in one stretch of what was read since beginJobIo; nothing of an earlier job or another writer counts, and nothing is missed |
| `JobScripts.AckIffDelivered` | core/src/driver.cpp:1118-1211 | In the delivered bytes: no confirmation without the frame in them; without preflight the frame anywhere in them is enough |
| `JobScripts.ReceivedByPrintAck` | core/src/driver.cpp:1118-1138 | What the channel has received is exactly what the script delivered since the job took it, starting from nothing |
| `JobScripts.FrameInTheWaitConfirms` | core/src/driver.cpp:1193-1211 | A frame of the job's own token that arrives whole during the wait signals it, behind any garbage, half frame or pending expectation and however it is cut into reads |
| `JobScripts.LateEchoCompletesNoLaterJob` | core/src/driver.cpp:322-395 | Over any run of leases: a job granted its pair fewer than 4418 slots after another, but not 4298 slots across a multiple of 2^31, is confirmed by none of the other's frames, however late |
| `JobScripts.QueuedAckFollowsItsFence` | core/src/driver.cpp:1679-1684 | On GS r 1 no answer is owed before the print fence is armed, nor between its answer and the cut: one byte can never confirm twice, and no earlier byte at all |
| `JobScripts.BladeRestsOnOneAnswer` | core/src/driver.cpp:1793-1820 | The cutter verdict rests on at most one answer, to the one query sent after the cut was acknowledged: jammed exactly when its bit is raised, unread exactly when there is none |
| `JobScripts.PreflightAnswersInOrder` | core/src/driver.cpp:1570-1609 | Preflight reads at most four answers, each to the query asked in its place |
| `JobScripts.StarAckIffOwnAnswer` | core/src/driver.cpp:1261-1303 | A Star job takes its receipt for printed, and its cut for done, if and only if the bytes held when that fence was armed and those read from then to the end of its wait hold the answer to it |
| `JobScripts.StarFencesAreNext` | core/src/driver.cpp:1275-1279 | The two fences of an ESC GS ETX job carry the two numbers after the last one given, whatever was read meanwhile |
| `JobScripts.StarAckIsItsOwn` | core/src/driver.cpp:1261-1303 | What is held at arming is the end of what this job read, so an ESC GS ETX job acts only on an answer with its own number read since it began |
| `JobScripts.LateAnswerCompletesNoLaterJob` | core/src/driver.cpp:1261-1303 | Over any run of one printer's jobs, each leaving the fence number as RunJob does: answers to either fence of an ESC GS ETX job, however late, confirm neither the print nor the cut of a later one while fewer than 65536 fences lie between |
| `JobScripts.TakenIsAPrefix` | core/src/driver.cpp:1443-1472 | What the link takes of a transfer is a prefix of it, and all of it when no write fails |
| `JobScripts.CutIsEncoded` | core/src/driver.cpp:1404-1441 | The cut command is what the ESC/POS encoder makes of the feed, the cut and the profile's fence |
| `JobRunners.PrinterRuntime.RunJob` | core/src/driver.cpp:1501-1566 | What a job journals and what the link takes of it, in one order, is exactly the trace of the script: no byte leaves and no record is written but those, the journal gains exactly the records, every lease is returned, the pair is the allocator's first free one, and the Star fence number has moved by the fences armed |
| `JobRunners.PrinterRuntime.RunEscPos` | core/src/driver.cpp:1567-1821 | The ESC/POS path in full from a freshly cleared channel: probe, payload, fence, cut and cutter query with the bytes the link took of each, and the records between them |
| `JobRunners.PrinterRuntime.RunStar` | core/src/driver.cpp:1899-2045 | The Star path in full: the preamble that zeroes the counter, payload, print fence, cut with its own fence, and how many fence numbers that uses |
| `JobRunners.PrinterRuntime.Preflight` | core/src/driver.cpp:1569-1635 | The verdict is that of the answers the script delivers to the four queries, a lost probe or a lost link included |
| `JobRunners.PrinterRuntime.SendPaced` | core/src/driver.cpp:1443-1472 | Chunked writing leaves exactly the writes the script says the link took, reports their bytes, and succeeds exactly when no write fails |
| `JobRunners.PrinterRuntime.LeasedSend` | core/src/driver.cpp:1474-1499 | The pair is the first free one, is journaled before the payload, is the one in both fences, and is given back after the verdict |
| `JobRunners.PrinterRuntime.SendPhase` | core/src/driver.cpp:1641-1664 | SendStarted is journaled before the link sees a payload byte; a failed send is judged by the bytes taken |
| `JobRunners.PrinterRuntime.FencePhase` | core/src/driver.cpp:1667-1713 | The fence is armed before it is sent, and carries the print token |
| `JobRunners.PrinterRuntime.AckPhase` | core/src/driver.cpp:1722-1739 | The print acknowledgement decides between an ambiguous verdict and PrintConfirmed |
| `JobRunners.PrinterRuntime.AwaitAck` | core/src/driver.cpp:1722-1726 | Which wait a completion mechanism uses, its outcome, and the answer it takes |
| `JobRunners.PrinterRuntime.CutPhase` | core/src/driver.cpp:1741-1778 | The cut goes out behind the confirmation with the cut token in its fence; the fence decides the rest |
| `JobRunners.PrinterRuntime.ReadBlade` | core/src/driver.cpp:1793-1820 | Clears what was asked before, asks once, and judges the answers that came |
| `JobRunners.PrinterRuntime.StarPrepare` | core/src/driver.cpp:1919-1946 | Nothing of an earlier job is left on the channel, and an ETB job starts from a cleared counter or not at all |
| `JobRunners.PrinterRuntime.StarFencePhase` | core/src/driver.cpp:1985-1993 | The Star fence is armed before it is sent and carries the armed number |
| `JobRunners.PrinterRuntime.StarCutPhase` | core/src/driver.cpp:2015-2045 | The Star cut goes out with a fence of its own, and its claim stops at the cut |
| `JobRunners.PrinterRuntime.StarWriteOnly` | core/src/driver.cpp:1972-1983 | A fence-less Star cut rides with the payload and is not checked |
| `JobRunners.Outside.Append` | core/src/driver.cpp:1305-1314 | The journal gains the text of one record and nothing else |
| `JobRunners.JobIsARun` | core/src/driver.cpp:1501-1566 | A job taken up as a live attempt and run to its end is a run of the driver over whose journal at-most-once printing is proved |
| `Preflights.FourAnswers` | core/src/driver.cpp:1602-1622 | One answer per query: the exact refusal as a function of the four status bytes |
| `Preflights.RefusalHasEvidence` | core/src/driver.cpp:1602-1629 | A refusal always rests on an answer that reports trouble, and trouble in the last answer always refuses |
| `Markers.MarkerAllocator.Acquire` | core/src/driver.cpp:333-346 | Takes the first free pair among the next 4418 slots, throws exactly when none is free, and says how far the counter moved |
| `Markers.MarkerAllocator.Release` | core/src/driver.cpp:348-352 | Gives back exactly the two tokens |
| `Markers.PairIsWellFormed` | core/src/driver.cpp:78-84 | For every 32-bit slot, wrap included: an even code and its odd successor, both valid process identifiers carrying the nonce |
| `Markers.AcquireThrowsIffExhausted` | core/src/driver.cpp:333-346 | While the window does not cross a multiple of 2^31, acquire throws if and only if all 4418 pairs are outstanding |
| `Markers.AcquireIsCompleteIff` | core/src/driver.cpp:333-346 | Every pair is tried, whatever is held, if and only if the window does not cross a multiple of 2^31, where twice the slot wraps |
| `Markers.AcquireCanRefuseAFreePair` | core/src/driver.cpp:333-346 | By a run of grants and returns from an unused allocator: acquire throws 2000 slots before the wrap while exactly the pair at position 4417 is free |
| `Markers.EchoNamesOneJob` | core/src/driver.cpp:379-395 | In every run of grants and returns over any number of printers, no two outstanding jobs share a token |
| `Markers.LeasesStayDisjoint` | core/src/driver.cpp:333-346 | A grant takes a position nobody holds and disturbs no other holder |
| `Markers.NoReissueInWindowIff` | core/src/driver.cpp:333-346 | Two slots fewer than 4418 apart, the counter wrapped or not, name pairs without a common token if and only if they are not exactly 4298 apart across a multiple of 2^31; there they name the same pair |
| `Markers.GrantsInWindowAreDisjointIff` | core/src/driver.cpp:333-346 | The same for any two grants of a run of leases over any number of printers, counted from slot granted to slot granted, whatever held slots were skipped |
| `Markers.ShortRoundReissues` | core/src/driver.cpp:336-337 | Each of the 4298 slots before 2^31 names the same pair as the slot 4298 later |
| `Backchannels.RecordedIffOnWire` | core/src/driver.cpp:990-1007 | A token is recorded if and only if it is this driver's and its whole frame stands in what was read since the job began, cut only where the parser was reset |
| `Backchannels.HeardKeepsSound` | core/src/driver.cpp:990-1061 | Any reads keep that account |
| `Backchannels.ClearedKeepsSound` | core/src/driver.cpp:1140-1148 | So does dropping expectations with the bytes held for them |
| `Backchannels.FrameDuringAWaitIsRecorded` | core/src/driver.cpp:990-1007 | A whole frame of this driver's is recorded whatever was pending and however it was cut into reads |
| `Backchannels.HeardOwesTheSame` | core/src/driver.cpp:1008-1016 | Every queued answer uses up exactly one request for one |
| `Backchannels.HeardAnswersInOrder` | core/src/driver.cpp:1017-1021 | Realtime answers given and questions open are always the questions asked, in order |
| `Backchannels.HeardStep` | core/src/driver.cpp:990-1061 | Reads add up one by one |
| `Backchannels.Backchannel.AwaitToken` | core/src/driver.cpp:1193-1211 | The channel has heard exactly the reads of the wait; signalled exactly when the token is then recorded, else link down, aborted or timed out in that order |
| `Backchannels.Backchannel.AwaitQueued` | core/src/driver.cpp:1213-1236 | Signalled exactly when an answer is there at the end of the wait, which is then taken off the queue |
| `Backchannels.Backchannel.AwaitRealtime` | core/src/driver.cpp:1238-1257 | Every answer read since the last clearing, and whether they are enough |
| `Backchannels.Backchannel.Listen` | core/src/driver.cpp:990-1061 | Tokens, queued and realtime answers grow by exactly those parsed from the reads |
| `Backchannels.Backchannel.OnBytes` | core/src/driver.cpp:990-1061 | What one read adds; foreign acknowledgements are counted and add nothing |
| `Backchannels.Backchannel.ClassifyOne` | core/src/driver.cpp:990-1061 | What one parsed event adds |
| `Backchannels.Backchannel.BeginJobIo` | core/src/driver.cpp:1118-1138 | Nothing of an earlier job is left to be claimed |
| `Backchannels.Backchannel.ClearRealtime` | core/src/driver.cpp:1140-1148 | Drops unanswered expectations, and with them the held bytes |
| `Backchannels.Backchannel.ExpectRealtime` | core/src/driver.cpp:1570-1582 | One more realtime expectation, last in line |
| `Backchannels.Backchannel.ExpectQueued` | core/src/driver.cpp:1679-1684 | One more queued expectation |
| `EscPosParser.ResponseParser.TakeStep` | core/src/response_parser.cpp:145-247 | One classification step with its hold-back, precedence and expectations |
| `EscPosParser.ResponseParser.Drain` | core/src/response_parser.cpp:249-252 | Steps until nothing more can be classified |
| `EscPosParser.ResponseParser.Feed` | core/src/response_parser.cpp:254-259 | A read appended and drained |
| `EscPosParser.ResponseParser.Flush` | core/src/response_parser.cpp:265-269 | Everything held is classified |
| `EscPosParser.AckNeverSwallowed` | core/src/response_parser.cpp:145-247 | From any state, a well-formed frame with a printable token yields exactly what a flush would have, then its acknowledgement, and an empty buffer |
| `EscPosParser.SplitIndependent` | core/src/response_parser.cpp:254-259 | Two reads give the events and state of one read of both |
| `EscPosParser.AnySplitIsOneRead` | core/src/response_parser.cpp:254-259 | The same for any number of reads |
| `EscPosParser.RunLossless` | core/src/response_parser.cpp:249-252 | The bytes of the events and the residue are the input |
| `EscPosParser.RunResidue` | core/src/response_parser.cpp:145-247 | A feed holds at most six bytes and leaves nothing classifiable; a flush holds none |
| `EscPosParser.RunIsFifo` | core/src/response_parser.cpp:206-239 | Realtime answers consume expectations oldest first, queued answers one each |
| `EscPosParser.HoldBackIsExact` | core/src/response_parser.cpp:145-204 | Bytes are held exactly when some continuation makes them a frame |
| `EscPosParser.AckWasOnTheWire` | core/src/response_parser.cpp:151-175 | An acknowledgement reported stood on the wire as a whole frame |
| `EscPosParser.ResponseParser.AckDisqualified` | core/src/response_parser.cpp:155-168 | The byte checks of a GS ( H frame |
| `EscPosParser.ResponseParser.AsbDisqualified` | core/src/response_parser.cpp:182-196 | The byte checks of a status frame |
| `EscPosParser.FrameActsAsFlush` | core/src/response_parser.cpp:145-247 | Behind anything held back, a whole frame forces the classification a flush would |
| `EscPosParser.AckIffOnWire` | core/src/response_parser.cpp:145-252 | An acknowledgement is reported if and only if its whole frame stands somewhere in the bytes read: none invented, none swallowed |
| `EscPosParser.AcksGrow` | core/src/response_parser.cpp:145-252 | Read by read, whatever is expected in between, the acknowledgements are those of one fresh read of everything |
| `EscPosParser.FrameIsReportedInAnyReads` | core/src/response_parser.cpp:254-259 | A whole frame is reported however the bytes are cut into reads |
| `StarParser.ResponseParser.TakeStep` | core/src/star.cpp:55-140 | One step of the Star parser: eight-byte answers, status blocks, stray bytes |
| `StarParser.ResponseParser.Feed` | core/src/star.cpp:142-156 | A read appended and drained |
| `StarParser.SplitIndependent` | core/src/star.cpp:142-156 | Read splits do not change events or residue |
| `StarParser.AnswerWasOnTheWire` | core/src/star.cpp:55-140 | An answer reported was on the wire with its prefix and both numbers |
| `StarParser.EtbCounterDecodes` | core/src/star.cpp:28-34 | The packed counter bits decode to every counter value |
| `StarFences.SignalledIffAnswered` | core/src/driver.cpp:950-989 | An armed fence becomes signalled if and only if an event answers it: its own two numbers, or for ETB a block with exactly the expected counter |
| `StarFences.HeardSignalsIff` | core/src/driver.cpp:950-989 | From the moment it is armed a fence is signalled if and only if the bytes the parser held then and those read since, however cut, hold its answer |
| `StarFences.IdleNeverSignals` | core/src/driver.cpp:950-989 | With no fence outstanding nothing signals |
| `StarFences.LateAnswerCompletesNoLaterFence` | core/src/driver.cpp:1261-1303 | In any life of a channel, over any jobs, reads, waits and drops: answers to one fence, however late and often, complete a later one if and only if a multiple of 65536 fences were armed from the one to the other |
| `StarFences.SameNumberIff` | core/src/driver.cpp:1275-1279 | Two fences of one channel carry the same number if and only if a multiple of 65536 were armed from one to the other |
| `StarFences.NextFenceIsNumbered` | core/src/driver.cpp:1275 | Arming advances the fence number by one, modulo 65536 |
| `StarFences.SignalOrigin` | core/src/driver.cpp:950-989 | A signal comes only from an answering event |
| `StarFences.LaterFencesDiffer` | core/src/driver.cpp:1275-1279 | In such a run no fence of a later job carries the number of an earlier one, for 65535 fences |
| `StarFences.StarChannel.BeginJobIo` | core/src/driver.cpp:1118-1138 | No fence of an earlier job is left; number and counter outlive it |
| `StarFences.StarChannel.ArmFence` | core/src/driver.cpp:1261-1281 | Arms the next number, or for ETB the next counter value |
| `StarFences.StarChannel.ClearCounter` | core/src/driver.cpp:1944-1945 | The counter is known to be zero |
| `StarFences.StarChannel.OnParsed` | core/src/driver.cpp:950-989 | What one parsed event does, and whether it was somebody else's |
| `StarFences.StarChannel.OnEventList` | core/src/driver.cpp:949-989 | The same for a batch |
| `StarFences.StarChannel.OnBytes` | core/src/driver.cpp:947-989 | What a read does to the fence, the counter and the foreign count |
| `StarFences.StarChannel.Listen` | core/src/driver.cpp:947-989 | The same for any reads, then perhaps a drop |
| `StarFences.StarChannel.AwaitFence` | core/src/driver.cpp:1283-1301 | The outcome of a wait by the fence's state after its reads, disarmed either way |
| `StarFences.HeardKeepsSound` | core/src/driver.cpp:950-989 | A signalled ESC GS ETX fence always had its own number read from the wire during the job |
| `StarFences.ReadSplitChangesNothing` | core/src/star.cpp:142-156 | Whatever the reads, the fence fares as if everything had come in one |
| `JournalText.EscapeField` | core/src/job_store.cpp:44-57 | The loop computes the escaping |
| `JournalText.UnescapeField` | core/src/job_store.cpp:59-77 | The loop computes the unescaping, a trailing backslash included |
| `JournalText.SplitTabs` | core/src/job_store.cpp:79-92 | The loop computes the split at tabs |
| `JournalText.ParseUint` | core/src/job_store.cpp:112-129 | Digits only, value modulo 2^64 |
| `JournalText.UnescapeEscape` | core/src/job_store.cpp:44-77 | Unescaping an escaped field gives the field, for every string |
| `JournalText.SplitJoin` | core/src/job_store.cpp:79-92 | Splitting joined plain fields gives the fields |
| `JournalText.SplitTorn` | core/src/job_store.cpp:79-92 | Splitting a prefix of joined fields gives whole fields and one cut one |
| `JournalText.ParseDecimal` | core/src/job_store.cpp:112-129 | Every 64-bit number reads back as itself |
| `JobStoreModel.ParseLineOf` | core/src/job_store.cpp:131-249 | Every record printed reads back as itself, whatever the strings in it |
| `JobStoreModel.TornLine` | core/src/job_store.cpp:159-249 | Every prefix of a record parses to nothing or to the same job, state, confidence and reason; a torn job line keeps id, key and printer |
| `JobStoreModel.TornGradeOverclaimsIff` | core/src/job_store.cpp:189-249 | Some cut reads back with a stronger grade than written if and only if a completed state at PrintConfirmed or above was written with a grade below B |
| `JobStoreModel.AppendRecord` | core/src/job_store.cpp:431-443 | Appending a record to a complete journal rebuilds to the record folded in |
| `JobStoreModel.TornAppend` | core/src/job_store.cpp:431-443 | A crash inside one append rebuilds to the store before it, or after it up to fields that decide nothing |
| `JobStoreModel.TornCreate` | core/src/job_store.cpp:445-475 | The same for the two-record batch of a creation |
| `JobStoreModel.CompactRebuilds` | core/src/job_store.cpp:384-421 | The compacted text rebuilds exactly the maps, order and index it was made from |
| `JobStoreModel.RestartIsAFixpoint` | core/src/job_store.cpp:291-381 | Load, recover, compact, load again: the same store, with nothing further to recover, whatever text the first load met |
| `JobStoreModel.ReplayKeepsWellFormed` | core/src/job_store.cpp:317-347 | Replaying any entries keeps ids distinct, order and map in step, and the index the newest job of each key |
| `JobStoreModel.RecoverKeepsWellFormed` | core/src/job_store.cpp:349-381 | Recovery leaves every record terminal and the store well formed |
| `JobStoreModel.KeyIndexFinds` | core/src/job_store.cpp:509-520 | The key index finds a non-empty key exactly when some job has it, and then the newest; the empty key it never finds |
| `JobStoreModel.JobStore.constructor` | core/src/job_store.cpp:291-308 | Opening any text gives the recovered store with its compacted journal, and counts what it recovered |
| `JobStoreModel.JobStore.Load` | core/src/job_store.cpp:317-382 | Loading is replay then recovery |
| `JobStoreModel.JobStore.RecoverOne` | core/src/job_store.cpp:349-381 | Unfinished jobs past SendStarted become Unknown, the others failed, all with the evidence erased |
| `JobStoreModel.JobStore.Compact` | core/src/job_store.cpp:384-421 | Writes one job and one state line per job, in order |
| `JobStoreModel.JobStore.CreateJob` | core/src/job_store.cpp:445-475 | Appends the batch and indexes the job, or refuses a known id without a trace |
| `JobStoreModel.JobStore.RecordState` | core/src/job_store.cpp:477-495 | Appends exactly one state record and folds it into the maps; the journal still rebuilds them |
| `JobStoreModel.JobStore.RecordTokens` | core/src/job_store.cpp:497-507 | The same for the token record |
| `JobStoreModel.JobStore.FindByKey` | core/src/job_store.cpp:509-520 | None exactly for the empty key and for one no job has, otherwise the newest job of it |
| `JobStoreModel.JobStore.ReplayAll` | core/src/job_store.cpp:317-347 | The loop of the replay |
| `JobStoreModel.JobStore.RecoverAll` | core/src/job_store.cpp:349-381 | The loop of the recovery |
| `JobStoreModel.JobStore.Install` | core/src/job_store.cpp:462-474 | Batch and maps go in together |
| `JobStoreModel.JobStore.SubmitBatch` | core/src/job_store.cpp:462-470 | Job line and first state line in one append |
| `JobStoreModel.ReplayCompact` | core/src/job_store.cpp:384-421 | Replaying compacted entries gives back the first jobs of the order |
| `Subscriptions.EveryEventOnceInOrder` | core/src/driver.cpp:223-283 | In every interleaving of one emitter and any subscribers: delivered, batch in hand, parked and in flight together are the history, so nothing is lost, repeated or overtaken across the switch to live |
| `Subscriptions.DeliveryNeverSticks` | core/src/driver.cpp:241-257 | Until a subscriber is live with the whole history some delivery step is enabled |
| `Subscriptions.PrintJob.Subscribe` | core/src/driver.cpp:223-234 | Registers draining and takes the whole history as replay, in one critical section |
| `Subscriptions.PrintJob.Drain` | core/src/driver.cpp:241-252 | Goes live only on an empty backlog, otherwise takes it whole |
| `Subscriptions.PrintJob.Emit` | core/src/driver.cpp:260-278 | Records the event, parks it for every draining subscriber and returns exactly the live ones |
| `WorkerLanes.TasksAreConserved` | core/src/driver.cpp:736-787 | Every task pushed is in exactly one of run, running, cancelled, about to be cancelled, queued; job tasks leave in push order, one at a time, whatever peripherals jump ahead |
| `WorkerLanes.StopReachesEverybody` | core/src/driver.cpp:474-509 | Once stop has notified the worker is not asleep, whatever pushes are under way; once it has ended no drainer waits |
| `WorkerLanes.StopNeverHangs` | core/src/driver.cpp:474-509 | From stop on, some step of the stopping thread or of the worker itself is always enabled: the join needs nobody else |
| `WorkerLanes.StepBringsStopNearer` | core/src/driver.cpp:474-509 | Every step of a stop lowers its rank -- phase, what the worker has to go, leftovers -- and until the rank falls no step of any thread disables an enabled one |
| `WorkerLanes.StopEventuallyEnds` | core/src/driver.cpp:474-509 | In every endless run in which tasks return and neither the worker nor the stopping thread is passed over for ever, a stop that was called ends, however many pushes, drains and spurious wake-ups come between |
| `WorkerLanes.DrainWaitsForWork` | core/src/driver.cpp:789-794 | A drain waits only while the lane is busy or a notification is on its way |
| `WorkerLanes.StoppingTakesNoTask` | core/src/driver.cpp:765-776 | Once stopping is published the worker takes no further task |
| `WorkerLanes.StepKeepsInv` | core/src/driver.cpp:736-794 | Conservation, order and the shape of the lane under every step |
| `WorkerLanes.StepKeepsAwake` | core/src/driver.cpp:474-509 | No step leaves a thread asleep without work pending elsewhere or a notification to come, nor the worker asleep behind the notification of stop |
| `WorkerLanes.LaneState.Push` | core/src/driver.cpp:736-742 | Appends one task |
| `WorkerLanes.LaneState.PushPeripheral` | core/src/driver.cpp:753-763 | Puts a peripheral first or last as asked |
| `WorkerLanes.LaneState.Take` | core/src/driver.cpp:765-778 | Takes the head, or nothing once stopping |
| `WorkerLanes.LaneState.TakeLeftovers` | core/src/driver.cpp:497-501 | Takes everything still queued |
| `WorkerLanes.LaneState.Finish` | core/src/driver.cpp:782-785 | The lane is no longer active |
| `WorkerLanes.LaneState.BeginStop` | core/src/driver.cpp:483-486 | Stopping is published under the queue lock |
| `TranscodeLaws.TranslationLaw` | core/src/star.cpp:349-546 | For every document of accepted calls whose text avoids DLE, ESC and GS: the translation equals the Star rendering if and only if it has no zero-line feed and no bare change of underline thickness |
| `TranscodeLaws.CallTranslates` | core/src/star.cpp:369-520 | Whatever follows it, each call of the ESC/POS encoder is translated to what Star writes for it |
| `TranscodeLaws.RasterTranscodes` | core/src/star.cpp:459-480 | A raster's pixels are copied or skipped by its dimensions, never read as commands |
| `TranscodeLaws.SymbolTranscodes` | core/src/star.cpp:481-498 | The operands of a length-prefixed symbol or process-ID command are skipped, whatever they are |
| `TranscodeLaws.DeclaresWhatItDrops` | core/src/star.cpp:336-341 | The degradations noted are exactly those of the calls without a Star spelling, in order |
| `TranscodeLaws.ByteIsSafeIff` | core/src/star.cpp:365-530 | A text byte is translated as itself before anything if and only if it is none of DLE, ESC and GS |
| `TranscodeLaws.AtMostFourfold` | core/src/star.cpp:349-546 | On any bytes at all the output is at most four times the input |
| `TranscodeLaws.TranslatedLength` | core/src/star.cpp:404-422 | Every unfaithful call costs exactly three stray bytes |
| `TranscodeLaws.DocumentTranslates` | core/src/star.cpp:349-546 | A whole document translates, whatever follows it |
| `Transcoding.TranscodeFromEscPos` | core/src/star.cpp:349-546 | The loop, with its early exit on a truncated command, its notes once each and its count of unrecognised bytes |
| `Transcoding.Command` | core/src/star.cpp:364-530 | One command at any position, in bounds |
| `Transcoding.PassThrough` | core/src/star.cpp:536-541 | The rest behind a truncated command is passed through and counted |
| `Transcoding.EscCommand` | core/src/star.cpp:367-434 | The ESC commands |
| `Transcoding.GsCommand` | core/src/star.cpp:436-511 | The GS commands |
| `Transcoding.RasterImage` | core/src/star.cpp:459-480 | A raster, copied, declined or truncated |
| `Transcoding.TranslateOne` | core/src/star.cpp:364-534 | One round of the loop |
| `EscPosEncoding.Encoder.Apply` | core/src/escpos_encoder.cpp:190-452 | One call on the encoder: bytes appended, cached style after it, or an exception that changes nothing |
| `EscPosEncoding.Encoder.FeedDots` | core/src/escpos_encoder.cpp:273-282 | Chunked feed |
| `EscPosEncoding.Encoder.AppendBandedRaster` | core/src/escpos_encoder.cpp:35-45 | Bands of at most so many rows, each with its own header and pixels |
| `EscPosEncoding.Encoder.ResetStyle` | core/src/escpos_encoder.cpp:174-181 | The power-on style; the cut setting stays |
| `StarEncoding.Encoder.RasterPacked` | core/src/star.cpp:281-305 | One length-prefixed row command a row between enter and quit, or nothing for an ill-sized raster |
| `StarEncoding.Encoder.FeedDots` | core/src/star.cpp:259-268 | Chunked feed |
| `StarEncoding.Encoder.Text` | core/src/star.cpp:177-187 | Seven-bit text, the rest as question marks |
| `StarEncoding.Encoder.SetAlign` | core/src/star.cpp:201-211 | Star alignment, only on a change |
| `StarEncoding.Encoder.SetUnderline` | core/src/star.cpp:222-229 | Star underline, only on a change |
| `StarEncoding.Encoder.Initialize` | core/src/star.cpp:193-199 | Initialise and forget the style |
| `StarEncoding.Encoder.SetBold` | core/src/star.cpp:213-220 | Star emphasis, only on a change |
| `StarEncoding.Encoder.FeedLines` | core/src/star.cpp:248-257 | Star line feed, nothing for zero |
| `StarEncoding.Encoder.Cut` | core/src/star.cpp:270-279 | Star cut, full or partial |
| `StarEncoding.Encoder.AppendRows` | core/src/star.cpp:292-301 | One row command a row |
| `CloudPrnt.CloudPrntServer.Poll` | agent/src/cloudprnt.cpp:601-686 | Offers the oldest unconfirmed submission, or nothing; a foreign printer learns nothing |
| `CloudPrnt.CloudPrntServer.FetchJob` | agent/src/cloudprnt.cpp:688-742 | An unconfirmed job answers with the bytes it was submitted with as often as asked; the request consumes nothing |
| `CloudPrnt.CloudPrntServer.Confirm` | agent/src/cloudprnt.cpp:744-854 | The first confirmation retires the job and fixes its verdict; repeated with its token it changes nothing and is answered the same while the job is remembered |
| `CloudPrnt.CheckIdentity` | agent/src/cloudprnt.cpp:352-380 | Pinning, adoption and refusal of a printer's MAC |
| `CloudPrnt.ConfirmOn` | agent/src/cloudprnt.cpp:764-854 | One confirmation on one queue, keeping it sound |
| `CloudPrnt.FetchFrom` | agent/src/cloudprnt.cpp:704-741 | One download on one queue, keeping it sound |
| `CloudPrnt.SubmitTo` | agent/src/cloudprnt.cpp:486-537 | One submission on one queue, keeping it sound |
| `CloudPrnt.RetireJob` | agent/src/cloudprnt.cpp:832-844 | Drops the bytes, moves the token from queue to history, evicts the oldest results |
| `CloudPrnt.QueueIsWhatIsOpen` | agent/src/cloudprnt.cpp:744-854 | The queue is the submissions in order less the confirmed ones, within its limit; queue and history are disjoint and together the retained jobs |
| `CloudPrnt.DoneIffConfirmedWith200` | agent/src/cloudprnt.cpp:225-247 | A retained job is Done if and only if its one confirmation carried 200 |
| `CloudPrnt.OfferIsStable` | agent/src/cloudprnt.cpp:639-651 | The offered job stays the head until it is itself confirmed |
| `CloudPrnt.TokensNeverRepeat` | agent/src/cloudprnt.cpp:382-396 | Two tokens are equal only for the same sequence number, whatever the random digits |
| `CloudPrnt.IssuedAreDistinct` | agent/src/cloudprnt.cpp:382-396 | All tokens ever issued are distinct |
| `CloudPrnt.Erase` | agent/src/cloudprnt.cpp:837-840 | Removes a token's first place in the queue |
| `CloudPrnt.CloudPrntServer.Commit` | agent/src/cloudprnt.cpp:520-537 | Token, queue and log move together |
| `CloudPrnt.CloudPrntServer.Submit` | agent/src/cloudprnt.cpp:476-538 | Accepted whole at the end of the queue with its negotiated types, under a token never issued before, or refused without a trace |
| `CloudPrnt.CloudPrntServer.AddPrinter` | agent/src/cloudprnt.cpp:289-316 | Registers an empty queue with its types, limits and address, an empty type list and a zero queue limit filled in, a zero history kept |
| `CloudPrnt.NegotiateTypes` | agent/src/cloudprnt.cpp:498-519 | The types asked for by name, in order, if all are advertised; none asked for means the first advertised |
| `CloudPrnt.TokenlessConfirmationChangesNothingIff` | agent/src/cloudprnt.cpp:764-770 | A confirmation without a token retires the head of the queue; it changes nothing if and only if nothing is waiting |
| `CloudPrnt.RepeatIsAnsweredIff` | agent/src/cloudprnt.cpp:784-794 | A confirmation repeated by its token changes nothing, and is answered with the verdict of the first if and only if its job is among the last max_history confirmed |
| `CloudPrnt.TokenlessConfirmationIsIdempotentIff` | agent/src/cloudprnt.cpp:764-770 | Two in a row equal one if and only if at most one job was waiting; otherwise the second retires the next job |
| `CodePages.DecodeIff` | core/src/code_page.cpp:56-101 | A scalar is returned and n bytes consumed if and only if those bytes are its encoding under RFC 3629; otherwise one byte is consumed |
| `CodePages.DecodeUtf8` | core/src/code_page.cpp:56-101 | The loop with its index computes that decoding |
| `CodePages.LookupCp852` | core/src/code_page.cpp:103-114 | Binary search over a sorted table finds the byte of a codepoint exactly when there is one |
| `CodePages.TransliterateText` | core/src/code_page.cpp:118-137 | The loop computes the transliteration |
| `CodePages.NeverLengthens` | core/src/code_page.cpp:118-137 | Output no longer than input |
| `CodePages.DistributesAfterWellFormed` | core/src/code_page.cpp:118-137 | Transliteration distributes over concatenation after a well-formed prefix |
| `CodePages.OneByteACharacter` | core/src/code_page.cpp:118-137 | Well-formed text becomes one byte a character, each the character's own |
| `CodePages.AsciiIsKept` | core/src/code_page.cpp:118-137 | A seven-bit byte other than the fallback is in the output exactly when it is in the input, so no control byte is ever made or hidden |
| `CodePages.MapScalar` | core/src/code_page.cpp:124-135 | The byte of one decoded scalar |
| `CodePages.DistributesIff` | core/src/code_page.cpp:118-137 | Transliterating in two pieces is transliterating the whole, whatever the second piece, if and only if no position the decoder stops at in the first begins a character the piece does not finish |
| `CodePages.UnfinishedBegins` | core/src/code_page.cpp:56-101 | The bytes called unfinished begin the encoding of some character |
| `CodePages.BeginsUnfinished` | core/src/code_page.cpp:56-101 | And every proper beginning of an encoding is called unfinished |
| `CodePages.SplitCharacterIsLost` | core/src/code_page.cpp:118-137 | A concrete case: a character cut in two becomes two question marks |
| `Cp852.TableIsATable` | core/src/code_page.cpp:16-49 | The 128 entries of the source's table are sorted and outside ASCII, as the lookup needs |
| `Rasters.DiffuseOne` | core/src/escpos_encoder.cpp:391-411 | One cell: the value read is the recurrence's, and each later cell moves by exactly its share |
| `Rasters.CellBounds` | core/src/escpos_encoder.cpp:382-412 | No working cell leaves [-252, 507] at any point of the scan, for any image, width and threshold |
| `Rasters.WhiteSetsNoDot` | core/src/escpos_encoder.cpp:382-412 | An all-white image sets no dot |
| `Rasters.FixedThreshold` | core/src/escpos_encoder.cpp:372-382 | A dot exactly below the threshold, padding clear |
| `Rasters.ResampleGray` | core/src/escpos_encoder.cpp:50-84 | Every target pixel is the average over its box |
| `Rasters.SpanIsInside` | core/src/escpos_encoder.cpp:53-71 | Every box is non-empty and inside the source |
| `Rasters.ResamplingKeepsRange` | core/src/escpos_encoder.cpp:72-80 | Averages stay within the range of the source |
| `Rasters.Packed.SetDot` | core/src/escpos_encoder.cpp:86-89 | Sets one bit and no other |
| `Rasters.PackGrayscale` | core/src/escpos_encoder.cpp:346-414 | The whole conversion, with its error cases |
| `Rasters.HeightCheckIff` | core/src/escpos_encoder.cpp:354-362 | The 16-bit height check sees the true height if and only if it fits 32 bits |
| `Rasters.TallImageBecomesOneRow` | core/src/escpos_encoder.cpp:354-362 | A concrete image accepted as a single row |
| `Rasters.SumBox` | core/src/escpos_encoder.cpp:72-79 | Sum and count of one box |
| `Rasters.OnePixel` | core/src/escpos_encoder.cpp:64-81 | One averaged pixel |
| `Rasters.PassOn` | core/src/escpos_encoder.cpp:398-410 | An error handed to the four cells still to be scanned, and to no other |
| `Rasters.CellIsValue` | core/src/escpos_encoder.cpp:391 | A cell holds its value in the recurrence when the scan reaches it |
| `Rasters.FloydSteinberg` | core/src/escpos_encoder.cpp:382-412 | The scan in place equals the pull recurrence: a dot exactly where the diffused value is below the threshold, padding clear; and the buffer before the scan and after each cell of it, in order, is that of the recurrence, no cell of it ever outside [-252, 507] |
| `Rasters.ScanRow` | core/src/escpos_encoder.cpp:389-412 | One row of the scan: what the buffer held after each cell, every cell in range |
| `Epos.Retrieve` | core/src/epos.cpp:937-973 | The first settling retrieval decides, asked for exactly so often; silence until the deadline is Unknown |
| `Epos.DoneRestsOnARetrieval` | core/src/epos.cpp:844-891 | With the spooler on, Done if and only if a job id was given and the first settling retrieval said success, no code, completed, no cutter error; never by the submission |
| `Epos.SilenceIsUnknown` | core/src/epos.cpp:939-950 | The timeout verdict is reached exactly when no retrieval settles the job |
| `Epos.RetrievalDoneIff` | core/src/epos.cpp:796-896 | Which retrievals say printed; the first answer never does with a spooler |
| `Epos.Print` | core/src/epos.cpp:898-974 | The verdict of the submission, of the first settling retrieval, or Unknown; an unparsed reply is a failure only with an error text, as in the source |
| `XmlText.EscapeXml` | core/src/epos.cpp:483-498 | The loop computes the escaping |
| `XmlText.DecodeEntities` | core/src/epos.cpp:60-102 | The loop computes the decoding, unknown and unterminated references included |
| `XmlText.EscapeRoundTrips` | core/src/epos.cpp:60-102 | Decoding escaped text gives the text back, whatever it is |
| `XmlText.EscapedHasNoMarkup` | core/src/epos.cpp:483-498 | Escaped text holds no quote, angle bracket or line break |
| `XmlText.DecodeOne` | core/src/epos.cpp:63-100 | One character or reference |

## Left out

- Sockets, files, threads, clocks and random sources are parameters or adversarial steps. One clock reading stands for all of a job's timestamps.
- Failing journal writes and failing fsync (the exceptions of the store), and the in-memory store without a directory.
- JobRunners.PrinterRuntime.RunJob: keeps the journal as text and appends the records `JobStore.RecordState` and `RecordTokens` append, rather than calling the store object; banners, margins, trailers and drawer kicks inside the payload are any bytes behind ESC @.
- JobRunners.PrinterRuntime.RunJob: a registered completion method is foreign code, so the script says what its matcher answers and what bytes its fences are, and nothing is claimed about either.
- JobRunners.PrinterRuntime.RunJob: reads reach the channel while a transfer is written or a wait lasts; one that arrives between two statements counts to the transfer or wait behind it.
- JobScripts.AckIffDelivered: with preflight a frame counts only if the parser was not reset in the middle of it; `AckIffOwnFrameOnWire` states that exactly.
- DriverRuns.AtMostOnce: excludes keys that were force-reprinted, and reserved jobs: `reserve` and `submitReserved` may run one attempt twice.
- DriverRuns.RestartSettlesEverything: a job recovered as Unknown may have printed nothing; the source cannot know either.
- Attribution of GS r 1 and ETB answers to the job that caused them: GS r 1 is one uncorrelated byte, and an ETB counter, cleared per job, has five bits.
- Wake-up of `PrintJob::result`, and a submission that passes the stopping check after stop has swapped the queue.
- WorkerLanes.TasksAreConserved: a task pushed after the swap stays queued for ever, as in the source; a task without a cancel callback counts as cancelled when it is dropped.
- Subscriptions.EveryEventOnceInOrder: one emitter at a time, as the worker is; callbacks that throw or subscribe again are not modelled.
- Probing, discovery, capability profiles, device status merging, drawer sequences and the device-event feeds. The profile facts a job depends on are parameters.
- The decoding of automatic status frames into flags beyond what preflight and the cutter check read.
- TranscodeLaws.TranslationLaw: covers every encoder call but `raw`, whose bytes are the caller's; rasters are those `rasterPacked` accepts, since `rasterGrayscale` does not check the row width against its 16-bit field.
- CodePages.LookupCp852: holds for any sorted table of non-ASCII pairs; that the table of `Cp852` maps onto every byte of the high half is not stated.
- Rasters.ResampleGray: images are rows of bytes and the working buffer a two-dimensional array, where the source indexes one flat vector.
- CloudPRNT JSON, HTTP routing, MAC and media-type normalisation, percent-decoding and the event and condition logs; requests arrive with their fields already read.
- CloudPrnt.CloudPrntServer.Confirm: says nothing of the answer to a first confirmation under a history of zero, which the source reads from an erased job.
- CloudPrnt.IssuedAreDistinct: the sequence number is unbounded, where the source's has 64 bits.
- Epos.Print: retrievals are those that came back before the deadline; a submission that failed with an error text is FailedKnown as in the source, which does not mean that nothing was printed.
- XML parsing of ePOS replies, and `strtoul` inside character references, which is a parameter.
- `tools/`, `capi/`, the agent's command line and the language wrappers: marshalling that would add easy members only.
