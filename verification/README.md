# RAET in Dafny

A model of the RAET protocol stack and proofs about it. RAET carries messages between named stacks:
over UDP between hosts (the road) and over Unix sockets on one host (the lane).

* **Messages.** A Messenger cuts a message into segments, sends them in bursts and answers acks and
  resend requests; a Messengent collects them, asks for what is missing, delivers once and refuses
  what comes late (`Traying`, `Messaging`). `Exchange` joins the two over a road that may lose,
  duplicate and reorder every packet, `Progress` adds a measure that loss-free rounds lower, `Road`
  many messages at once. `Bursts` says what a Messenger sends, `Answers` when it is answered, and
  `Flow` that a good road needs no timer.
* **Packets.** Heads of `key value` lines with defaults left out and lengths patched in, flags, foot
  and signature (`HeadLines`, `Hex`, `Packeting`, `Heading`, `Packets`), segmentation and its size
  bound (`Segmenting`), the way back (`Reassembly`), and the bridge to `Exchange` (`EndToEnd`).
* **Sessions.** Session ids that wrap (`Lotting`), the transactions of a remote and what a new
  session does to them (`Estating`), dispatch, refusal and the allow and alive handshakes
  (`Sessions`), what all runs of these keep (`SessionRuns`) and what becomes of every message body
  in them (`Fates`), which Messengers an event makes and what it puts back (`Making`), two stacks
  over all sessions and how often a message is delivered in them (`Serving`, `Repeats`, `Twice`), packets
  for transactions that are gone (`Stales`), which allow wins and what events do to flags and sessions
  (`Allowing`), what ends and begins a transaction (`Endings`), routing by index (`Indexing`).
* **Joins** that cross (`Joining`).
* **Structures.** The transmit queue (`TxQueue`), the uid and name indexes (`Remotes`), lane pages and
  books (`Paging`, `Laning`), acceptance of role keys (`Keeping`). `Odicts` is the ordered dictionary
  they share, `Basics` the rest.

Most code that changes state in place is a class whose methods are proved against specification
functions on values; the theorems are about those functions. Joiner and Joinent, but for the loop of
the tie-break, TxPacket.pack and repack are modelled by such functions alone. A method that raises
returns the error as a value.

Abstractions: byte strings are Dafny strings, one character a byte as ISO-8859-1 has it. Redo timers
are steps that may happen at any time. Signing and verifying are parameters of which `Packets.Pair`
states what is assumed. A message is the bytes of its packed coat: encoding of bodies and encryption
are taken to be inverse to each other on both sides. A socket is a plan of send outcomes. In the
runs of `SessionRuns` a handshake packet says whether its contents pass their checks, an ack whether
the Messenger's next burst is due (`Messaging.AckEndsExactly` says when it is), and a join begins and
ends, completes, or is rejected and takes the remote along.

Where the code and its own words differ the code is followed:

* the docstrings of `validSid` and `validateSid` say that an old id of zero makes any new one valid;
  the code also accepts a new id of zero (`raet/lotting.py:57-80`);
* both branches of the join tie-break log a lesser local name, but the second is taken when the local
  name is not the lesser (`raet/road/transacting.py:1161-1176`);
* a hello received while a join is in process is refused with the word aborting, but `Allowent.hello`
  goes on after that and disallows messages (`raet/road/transacting.py:1996-2039`);
* `serviceTxOnce` is described as servicing one message of the queue, but it does not do what one turn
  of `serviceTxes` does: a blocked packet goes to the back, behind later ones to the same destination
  (`raet/stacking.py:438-448`);
* a comment in the tie-break says that a non-vacuous join beats a vacuous one, but a vacuous request
  is looked up where only vacuous joins are, so it does not meet a non-vacuous one, and both can
  complete (`Joining.NeverBothExactly`; `raet/road/stacking.py:517-542`,
  `raet/road/transacting.py:1145-1160`);
* messages of an older session are to be saved and sent again in the new one; an ack that asks for
  more, or the end of an allow, heard while the remote is not allowed, or a rejected join, loses
  bodies all the same (`Fates.LostExactly`; `raet/road/estating.py:446-502`); and a body that was
  delivered, but whose done was not heard, is sent again too and delivered twice
  (`Repeats.RepeatedExactly`, `Twice.DeliveredTwice`);
* the limits in `raet/raeting.py:120-123` suggest that a message of permitted length makes at most
  65535 segments; since heads take room it can make more, and then its segments no longer fit
  (`Segmenting.AllFitExactly`, `Segmenting.LongestMakesMore`).

Assumed on purpose, because the source relies on it: segment and page counts of at most 65535 for the
size bounds; session ids of 32 bits; uids that remain to be drawn; for exactly-once delivery one
session, with both sides allowed, whose done entries have not expired, and no transaction timeout; for
sessions no vacuous rejoin that resets the remembered id, and no timeout of a message; for what becomes
of messages free transaction ids when saved ones are sent again; for how often one is delivered that no
transaction id of a session comes twice and that the session id of the sender does not go round; for
crossed joins that both requests were sent before either arrives; for lane order that sends succeed or
block and that the session does not change.

`dafny verify dfyconfig.toml` checks the whole project.

## Model

| member | source | states |
|---|---|---|
| Exchange.ExactlyOnce | raet/road/transacting.py:2675-3271 | Main result. In every run over a road that loses, duplicates and reorders, rxMsgs holds the message at most once and never altered; once the Messenger has ended, by done or by nack, it holds it exactly once; no later delivery adds to it. |
| Exchange.HonestPackets | raet/road/transacting.py:3119-3140 | Over all runs: an ack in flight for segment h means the live receiver holds segments 0..h; all segments up to its highest have been sent; an again flag in flight means a Messengent has existed; a done or nack in flight means the message was delivered. |
| Exchange.FastScanIsFullScan | raet/road/transacting.py:3054-3063 | In every reachable state the scan for missing segments from `lowest` finds what a scan from 0 finds, the resend requests of one redo list exactly that, and an ack is sent exactly when nothing is missing. |
| Exchange.StepKeepsInv | raet/road/transacting.py:2712-2761 | The invariant relating both ends and all packets in flight is kept by every step: both redo timers and every packet, either way, at any time. |
| Exchange.StartInv | raet/road/transacting.py:2779-2837 | Creating the Messenger and sending its first burst, of any size, establishes the invariant. |
| Exchange.SendNextKeeps | raet/road/transacting.py:2822-2837 | A burst is sent in order from the cursor, so what has ever been sent stays a prefix. |
| Exchange.SendMissedsKeeps | raet/road/transacting.py:2893-2933 | Resending missed segments keeps the sender side of the invariant. |
| Exchange.AnotherKeeps | raet/road/transacting.py:2839-2858 | So does an ack, which may roll the cursor back. |
| Exchange.AgainKeeps | raet/road/transacting.py:2860-2891 | So does a resend request. |
| Exchange.CollectKeeps | raet/road/packeting.py:831-861 | A genuine packet is never refused by the receiving tray, and the last missing one yields the message. |
| Exchange.AskMoreHonest | raet/road/transacting.py:3119-3129 | What a Messengent asks for or acknowledges is true of its tray, and asking changes only `lowest`. |
| Exchange.AcceptKeeps | raet/road/transacting.py:3082-3129 | A message packet keeps the whole invariant, whether it creates the Messengent, feeds it, completes it or makes it ask for more. |
| Exchange.TakeKeeps | raet/road/stacking.py:639-646 | So does any packet at the receiving stack, including refusal of again and done transactions. |
| Exchange.DoneStays | raet/road/transacting.py:3269-3271 | Once a transaction id is in the done table no run takes it out again within the session. |
| Progress.RoundProgress | raet/road/transacting.py:3048-3063 | From any reachable unfinished state one loss-free round (receiver redo, sender answer, its delivery) finishes the message or lowers the triple (segments lacking, misseds already held, cursor distance) lexicographically, for any burst size. |
| Progress.RoundsDeliver | raet/road/transacting.py:2822-2858 | Finitely many loss-free rounds deliver the message from any reachable state with a live Messengent. |
| Progress.RoundLeads | raet/road/transacting.py:3037-3063 | A round is a legal run of ordinary steps. |
| Progress.RedoReaches | raet/road/transacting.py:2731-2761 | While no Messengent exists, one redo of the sender that arrives creates one or delivers. |
| Progress.DoneIsLearnt | raet/road/stacking.py:639-646 | A sender that missed the done learns of it: its redo is answered by a nack. |
| Progress.AlwaysRecoverable | raet/road/transacting.py:2675-3271 | No run gets stuck: from every reachable state some continuation ends the Messenger with the message delivered exactly once. |
| Road.EveryMessageOnce | raet/road/stacking.py:861-894 | The same for all messages of a session at once, their packets interleaved in any way under different transaction ids. |
| Road.HappenKeeps | raet/road/stacking.py:612-648 | Every event of that many-message world keeps the per-transaction invariants and the bodies filed under each id. |
| Messaging.RequestsCoverMissing | raet/road/transacting.py:3158-3189 | The resend loop, 64 numbers at a time, asks for exactly the missing list in its order. |
| Messaging.Messenger.Message | raet/road/transacting.py:2779-2837 | The first call packs, each call sends the next burst, wait flag on its last packet; the transaction ends instead if the remote is not allowed, the body does not pack, the packets are used up or another transaction has the index. |
| Messaging.Messenger.SendOn | raet/road/transacting.py:2822-2837 | The burst itself: its size, the flag, the packets sent and the cursor. |
| Messaging.FirstSend | raet/road/transacting.py:2779-2837 | The first call of a message that packs is the start of Exchange, and later calls are its bursts. |
| Messaging.Messenger.SendBurst | raet/road/transacting.py:2830-2837 | The transmit loop sends consecutive packets. |
| Messaging.Messenger.FlagMissed | raet/road/transacting.py:2902-2922 | The listed packets get the again flag, and the wait flag exactly the last of them; no other packet changes. |
| Messaging.Messenger.SendMissed | raet/road/transacting.py:2893-2933 | The first burst of missed packets is flagged, sent and leaves the set. |
| Messaging.Messenger.SendListed | raet/road/transacting.py:2924-2933 | Its transmit loop. |
| Messaging.Messenger.GoOn | raet/road/transacting.py:2839-2858 | An ack: missed packets first, else the cursor falls back if ahead and sending goes on, or the transaction ends if the remote is not allowed. |
| Messaging.AckEndsExactly | raet/road/transacting.py:2839-2858 | Of a live Messenger an ack is the end if and only if the remote is not allowed, nothing is missed and a segment is left from the lower of its cursor and the number after the acknowledged one; while allowed it sends something if and only if that or something is missed. |
| Bursts.NextWaits | raet/road/transacting.py:2822-2837 | A burst of new segments is as many as the burst size and what waits allow, in order; its last packet has the wait flag, and every packet is otherwise as it was. |
| Bursts.MissedWait | raet/road/transacting.py:2893-2933 | A burst of missed segments is the first ones missed, all with the again flag, the last and no other with the wait flag; no other packet changes. |
| Bursts.RedoRepeats | raet/road/transacting.py:2731-2761 | Main result. Over every run of a Messenger: whatever it sends at once is within the burst size and ends with a packet that waits, and its redo is the last packet sent, once more, with the again flag if and only if anything but a nack was heard. |
| Bursts.SendsExactly | raet/road/transacting.py:2779-2837 | message() sends and lives on, or ends and sends nothing: the first if and only if the remote is allowed, the body packs, the index is not taken and a packet is left. |
| Bursts.AskedInOrder | raet/road/transacting.py:2882-2890 | What a resend request asks for goes behind what was missed before, in the order asked. |
| Flow.InOrder | raet/road/transacting.py:2675-3271 | Main result. Over a road that loses and reorders nothing every message of any burst size arrives without a redo timer: each segment is sent once and in order, each burst is answered once, and both ends are done when all bursts have gone. |
| Flow.InOrderIsRun | raet/road/transacting.py:2675-3271 | That is one of the runs of Exchange. |
| Flow.RoundsIs | raet/road/transacting.py:2822-2826 | The number of bursts is the ceiling of the segment count over the burst size, and one without a limit. |
| Answers.AnsweredExactly | raet/road/transacting.py:3082-3129 | A segment that leaves the message incomplete is answered if and only if it waits, with exactly what is missing or else an ack of the highest; one that completes it with a done and the delivery; one of the wrong length with a nack. |
| Answers.RefusedExactly | raet/road/transacting.py:3082-3110 | A segment is nacked, with nothing delivered, where the remote is not allowed, and where another transaction has the index of one that parses. |
| Answers.RedoIsAnswered | raet/road/transacting.py:2731-2761 | Main result. In every run the redo of a live Messenger is one packet, which waits, and whenever it arrives, however late, it draws an answer: no transaction stalls that still has its Messenger. |
| Messaging.Messenger.AddMissed | raet/road/transacting.py:2882-2890 | The loop that adds requested segments to the ordered set, stopping at the first number out of range. |
| Messaging.Messenger.ResendAsked | raet/road/transacting.py:2860-2891 | A resend request. |
| Messaging.Messenger.Receive | raet/road/transacting.py:2712-2729 | Dispatch of ack, resend, done and nack, and the new state after each. |
| Messaging.Messenger.Process | raet/road/transacting.py:2731-2761 | A timeout ends the transaction; the redo timer resends the last packet, with the again flag once anything was acknowledged. |
| Messaging.Correspondent.Message | raet/road/transacting.py:3082-3129 | A message packet at a Messengent: new state, replies, delivery; the nacks of an unallowed remote, a length mismatch and an index collision; and the segment number beyond the list that raises. |
| Messaging.Correspondent.SendMore | raet/road/transacting.py:3119-3129 | What is missing below the highest segment is asked for, else that segment is acknowledged. |
| Messaging.Correspondent.SendResend | raet/road/transacting.py:3158-3189 | The resend loop sends the requests of the specification. |
| Messaging.Correspondent.Complete | raet/road/transacting.py:3191-3203 | One done, one body appended, transaction removed and marked done. |
| Messaging.Correspondent.Reject | raet/road/transacting.py:3230-3244 | The initiator's nack removes the transaction and marks it done. |
| Messaging.Correspondent.Process | raet/road/transacting.py:3037-3063 | A timeout nacks; the redo timer finishes or asks for more. |
| Traying.RxTray.Parse | raet/road/packeting.py:831-861 | One packet into the tray, against its specification, with every way it can end. |
| Traying.RxTray.Desegmentize | raet/road/packeting.py:873-893 | The segments joined, or the length mismatch with nothing changed. |
| Traying.Missing | raet/road/packeting.py:863-871 | Exactly the numbers in range without a segment, in increasing order. |
| Traying.ShortScan | raet/road/packeting.py:863-871 | A scan that begins higher finds the same if nothing below is missing. |
| Traying.CompletesExactly | raet/road/packeting.py:831-893 | A segment completes the tray if and only if it is the last one missing and the whole has the announced length; a length mismatch is reported exactly if not, and an index error exactly beyond the list. |
| Reassembly.MessageRoundTrip | raet/road/packeting.py:785-893 | Main result. Whatever TxTray.pack leaves, at most 65535 packets, every packet is within 1024 bytes and accepted; for every order of arrival with any repetitions RxTray refuses none, completes exactly when each packet has come, and yields the message. |
| Reassembly.FeedRebuilds | raet/road/packeting.py:831-861 | The same on the tray level, for any flags. |
| Reassembly.PacketArrives | raet/road/packeting.py:785-815 | Packet i arrives with number i, the count, the full length and chunk i. |
| Reassembly.ChunksJoin | raet/road/packeting.py:799-803 | The chunks of a message concatenate to it. |
| Reassembly.AlwaysBuilt | raet/road/packeting.py:761-815 | A message of at most 65535 segments is always packed. |
| EndToEnd.RepackedArrives | raet/road/packeting.py:594-608 | Changing again and wait flags of any packet of a message and repacking it never fails, keeps its size, and it arrives with those flags and everything else unchanged: the packets of Exchange are packets on the wire. |
| EndToEnd.TrayIsFresh | raet/road/packeting.py:761-815 | An unflagged tray arrives packet for packet as the tray Exchange starts from. |
| EndToEnd.MessageOnce | raet/road/transacting.py:2675-3271 | Exactly-once delivery for a message as it was packed. |
| Segmenting.JoinCuts | raet/road/packeting.py:799-803 | The first n segments are the bytes before the end of segment n - 1; all of them are the message. |
| Segmenting.SegmentHead | raet/road/packeting.py:791-794 | The sn, sc and ml lines add at most 27 bytes to a head while the count is at most 65535. |
| Segmenting.SegmentsFit | raet/road/packeting.py:785-815 | A message that does not fit one packet makes at least two segments, and with at most 65535 of them each packet is within 1024 bytes. |
| Segmenting.AllFitExactly | raet/road/packeting.py:785-815 | All segments fit if and only if there are at most 65535: of more, segment 4096 is already too long. |
| Segmenting.LongestMakesMore | raet/raeting.py:120-123 | The permitted message length does not ensure that count: the longest message always makes more than 65535 segments. |
| Segmenting.SegmentDelivers | raet/road/packeting.py:805-815 | A segment is built, fits, and is read back by the other side with its number, count, length and bytes. |
| Segmenting.TxTray.Pack | raet/road/packeting.py:761-783 | One packet if it fits, else the segments in order; an error exactly when nothing can be built. A head that packs always leaves room for segments. |
| Segmenting.TxTray.Packetize | raet/road/packeting.py:785-815 | The segmenting loop. |
| Packeting.HeadRoundTrip | raet/road/packeting.py:73-210 | Main result. For all field values below 2^32 a printed head, followed by any bytes of the packed length, is parsed back to every field and flag although defaults are left out, with both lengths true; it is accepted exactly if the packet length is below 2^16. |
| Packeting.PackHeadIs | raet/road/packeting.py:90-126 | The patched lengths are the true ones whatever lengths an earlier pack left, and the head has the size its shown fields give. |
| Packeting.PackedSize | raet/road/packeting.py:90-126 | A head that packs has the size its shown fields give, at most 255, however wide the lengths of an earlier pack were. |
| Packeting.PatchesPl | raet/road/packeting.py:112-118 | Replacing the first match patches the packet length's own line and nothing else. |
| Packeting.PatchesHl | raet/road/packeting.py:119-125 | The same for the head length, which the packet length's line cannot hide. |
| Packeting.LastFour | raet/road/packeting.py:115-118 | Cut to four digits the printed length denotes it exactly if it is below 2^16. |
| Packeting.EnterHead | raet/road/packeting.py:179-196 | Reading the shown fields over the defaults restores all of them, elided ones included. |
| Packeting.TextParses | raet/road/packeting.py:175-182 | The head ends at its own blank line whatever follows, and its lines give its fields. |
| Packeting.FlagsRoundTrip | raet/road/packeting.py:152-159 | Unpacking a packed flag byte gives the flags back. |
| Packeting.HeadFits | raet/road/packeting.py:97-100 | No head of a packet in range exceeds 221 bytes, so the 255-byte limit never refuses one. |
| Packeting.AcceptedIsTrue | raet/road/packeting.py:165-210 | What an accepted head says is true of its packet: head kind, where the head ends, and the length of the packet. |
| HeadLines.ParsePrint | raet/road/packeting.py:179-192 | Lines of plain keys and values, joined and split again, give the same fields in the same order. |
| HeadLines.HeadEndsAtBlank | raet/road/packeting.py:175-178 | The first blank line is the one that ends the head. |
| Hex.ParsePrint | raet/raeting.py:339-369 | Hexadecimal printing with any padding is read back. |
| Heading.TxHead.PackFlags | raet/road/packeting.py:152-159 | The flag loop. |
| Heading.TxHead.BuildKit | raet/road/packeting.py:82-88 | The loop over the defaults keeps exactly the fields off their default, in order. |
| Heading.TxHead.Pack | raet/road/packeting.py:73-126 | The whole of pack, its loops and patches, against its specification, with both errors. |
| Heading.RxHead.ParseLines | raet/road/packeting.py:179-194 | The loop over the lines. |
| Heading.RxHead.Parse | raet/road/packeting.py:165-210 | The whole of parse against its specification, with each error. |
| Packets.PacketRoundTrip | raet/road/packeting.py:446-709 | Main result. Whatever packs is accepted by the other side, which sees the same fields and flags, verifies the bytes that were signed and slices out the original coat. |
| Packets.PacksExactly | raet/road/packeting.py:610-619 | A packet is packed, at the size its parts have, exactly if that is at most 1024 bytes. |
| Packets.RepackKeepsSize | raet/road/packeting.py:594-608 | Flags and lengths left by an earlier pack never change the size, so a packet that was packed can be repacked. |
| Packets.AcceptedIsVerified | raet/road/packeting.py:446-496 | What is accepted has a known version and foot, and under a signature its foot verifies against the packet with a blank one: if only what was signed verifies, what is accepted was signed. |
| Indexing.JoinReplyReturns | raet/road/packeting.py:545-556 | A join reply reaches the Joiner's transaction: always in a non-vacuous join, in a vacuous one exactly if it comes from the address the request went to. |
| Indexing.JoinFollowUpArrives | raet/road/packeting.py:637-648 | Later packets of a Joiner reach the Joinent's transaction, in a vacuous join exactly if the address is the same; and the Joinent finds itself by its own packets. |
| Indexing.OthersFindEachOther | raet/road/transacting.py:67-76 | Between joined remotes every packet of every other kind, and the stale nack of either side, arrives under the other side's index. |
| Indexing.NoMisrouting | raet/road/packeting.py:637-648 | The index a reply arrives under belongs to no other transaction of the initiator. |
| Indexing.OwnIndexLosesVacuousJoiner | raet/road/transacting.py:67-76 | Why joins may not use the index property: after accept it would not find a vacuous Joiner. |
| Lotting.AfterIs | raet/lotting.py:47-55 | k steps of nextSid in closed form. |
| Lotting.LaterSidExactly | raet/lotting.py:67-80 | Exactly when a later id is valid against an earlier one, and the reverse, 0 being skipped at rollover. |
| Lotting.LaterSidWins | raet/lotting.py:67-80 | For 1 to 2^31 - 2 steps from anywhere the newer id is valid against the older and not the reverse. |
| Lotting.LaterSidBoundIsSharp | raet/lotting.py:67-80 | One step more, across the rollover, and the newer id is refused. |
| Lotting.ComparisonIsSerial | raet/lotting.py:67-80 | The comparison is that of section 3.2 of RFC 1982 with 32 bits. |
| Lotting.AfterInjective | raet/road/estating.py:132-139 | Within one turn no id comes twice. |
| Lotting.Lot.NextSid | raet/lotting.py:47-55 | The step itself. |
| SessionRuns.AtMostOnce | raet/road/stacking.py:578-648 | Main result. For every sequence of packets, genuine or not, timers, joins, rejected joins that remove the remote, and allow and alive handshakes of either side, until the remote session id has gone once round: no (session, transaction) is delivered twice although each session change clears the done table; every transaction of the remote but a join is of its present session, and joins are of session 0. |
| SessionRuns.OldSessionRefused | raet/road/stacking.py:578-592 | While the session id has moved by at most 2^31, every packet of a session the remote used before and left is refused with a stale nack, or silently if it is a nack or the remote is gone, and changes nothing. |
| SessionRuns.RefusedExactly | raet/road/stacking.py:578-596 | The session check refuses exactly the packets of sessions 1 to 2^31 behind; any other brings its own session. |
| SessionRuns.BoundsAreSharp | raet/road/stacking.py:578-596 | After 2^31 + 1 a message of the first session is delivered a second time. |
| SessionRuns.AdmitKeeps | raet/road/stacking.py:594-596 | A new valid session drops every Messengent and leaves the earlier deliveries behind it. |
| SessionRuns.ProcessKeeps | raet/road/stacking.py:451-648 | Any packet keeps the invariant: where every transaction may be, and what has been delivered. |
| SessionRuns.RunKeeps | raet/road/stacking.py:451-648 | So does every run, handshakes and joins included. |
| Fates.NoMessageVanishes | raet/road/transacting.py:2779-2858 | Main result. Over every run, with transaction ids to spare: the bodies message() accepted are exactly those pending, those saved, and those whose Messengers the remote ended with a done or a nack, if and only if no ack that asks for more and no end of an allow with messages saved is heard while the remote is not allowed, and no rejected join removes the remote while it holds a body. |
| Fates.EveryBodyHasOneFate | raet/road/estating.py:446-509 | Over every run, without that condition: each body accepted is pending, saved, ended by the remote, or lost, and none twice. |
| Fates.EventBalances | raet/road/transacting.py:2712-2858 | One event of any kind, a removed remote included, keeps that balance of bodies. |
| Fates.LostExactly | raet/road/transacting.py:1764-1808 | Exactly when an event loses a body: an ack that asks for more finds the remote not allowed and reaches a Messenger; the correspondent side of an allow ends, with messages saved, after the remote stopped being allowed (the initiator side never does); or a rejected join removes the remote while it holds a body. |
| Fates.NoneLost | raet/road/transacting.py:2223-2246 | A run loses nothing if and only if none of these three events is in it. |
| Fates.UnsentExactly | raet/road/estating.py:499-509 | Resending leaves nothing unsent if and only if the remote is allowed or nothing was saved. |
| Fates.AckLosesBody | raet/road/transacting.py:1632-1640 | It happens: a Messenger whose stack starts an allow again loses its body to the next ack that asks for more. |
| Fates.EndLosesBody | raet/road/transacting.py:2233-2246 | And a saved body is lost if an alive comes back unallowed before the allow of the other side ends. |
| Fates.RejectLosesBodies | raet/road/transacting.py:856-865 | And a pending and a saved body go with the remote when a join begun here is rejected by the other side, although the remote was allowed all the while. |
| Making.EventAccounts | raet/road/estating.py:446-509 | Per event, of any kind: the Messengers made, the bodies saved after it and those dropped are the bodies saved before it, those a session change puts back and the one message() accepts; and a Messenger is either new or was there before in the same session. |
| Serving.CollectFits | raet/road/packeting.py:831-861 | A tray that holds some of the packets of one message takes any other of them without an error, and either completes with that very message or still holds only its packets. |
| Repeats.DeliveryBalances | raet/road/estating.py:446-509 | Main result. Two stacks, over all sessions and every run in which segments belong to what was sent, however late they come: what was delivered and what is open (saved, dropped, or in a Messenger neither put back nor delivered) is what was accepted and, once more, what a session change put back although it was delivered, before that or after it. |
| Repeats.RepeatedExactly | raet/road/estating.py:446-509 | Main result. Exactly when a body is delivered more often than accepted: more copies of it were delivered and put back than are still open. Nothing is delivered too often if no transaction is both; and once nothing is open, each body was delivered exactly as often as accepted if and only if none is. |
| Repeats.PlayedKeeps | raet/road/stacking.py:451-648 | Every run keeps the invariant behind it: each pending Messenger is in the log and was not put back, each Messengent is fed with one message of the log, and each delivery is of one. |
| Repeats.TheirsFed | raet/road/stacking.py:620-648 | Every event at the receiver delivers nothing or the message of the log at that index. |
| Twice.DeliveredTwice | raet/road/estating.py:446-509 | It happens: a message of one segment is delivered, its done is lost, an allow begins the next session, which puts the message back and sends it under another index, and it is delivered again: accepted once, delivered twice. |
| Stales.GoneIsNacked | raet/road/stacking.py:607-704 | A packet from the correspondent of a transaction of ours that is gone changes nothing and gets one nack at its index, or none if and only if it is a nack, refuse, reject, renew, unjoined or unallowed. |
| Stales.OrphanEnds | raet/road/transacting.py:3230-3244 | Main result. Two stacks: the redo of a Messengent whose Messenger is gone says something, each packet of it is nacked, and that nack ends the Messengent, marks its id done, delivers nothing and leaves all else. |
| Stales.StaleIsExchange | raet/road/stacking.py:681-704 | The stale nack of Exchange is the one the stack sends. |
| Stales.AgainIsNacked | raet/road/stacking.py:639-646 | A segment with the again flag, or of a message done in this session, opens no transaction and is nacked. |
| Stales.UnallowedIsNacked | raet/road/transacting.py:3086-3091 | While the remote is not allowed every segment, of a new, a live or a done message, is nacked, delivers nothing and leaves no Messengent. |
| Stales.DeliversAllowed | raet/road/stacking.py:578-648 | Only a segment in a valid session of an allowed remote delivers anything. |
| Stales.StrayIsDropped | raet/road/stacking.py:620-648 | A packet of the present session that opens nothing is neither answered nor changes anything. |
| Allowing.EventRules | raet/road/transacting.py:1541-1940 | Main result. Over every event: messages are allowed after it if and only if an ack reaches an Allower or a good initiate an Allowent, or they were and no allow begins here, no hello goes on, no allow is rejected and no alive comes back unallowed; likewise joined; and the session id counts on exactly when an allow or a first join completes. |
| Allowing.OneAtATime | raet/road/transacting.py:1989-2082 | Main result. In every run at most one allow is in process, ours or the remote's, and at most one join begun here. |
| Allowing.HelloExactly | raet/road/transacting.py:1996-2050 | What a new hello does: it goes on if no allow is in process; it is refused and changes nothing if the remote has one, or this stack has and is of the lesser name; else the own one gives way and the Allowent enters if joined and good. |
| Allowing.CrossedAllows | raet/road/transacting.py:2019-2039 | Main result. Two allows that cross: the stack of the lesser name refuses and keeps its own, the other gives its own up and answers, and after the packets that follow both allow each other, each in its next session, with no allow in process. |
| Endings.EndsExactly | raet/road/transacting.py:1541-1940 | Main result. Over every event a transaction that is no Messengent is still there if and only if the event is none of those that end it: its closing packets, its own end, a rejected join, a session begun on its side, a hello it gives way to. |
| Endings.Begins | raet/road/transacting.py:1613-1660 | A join, allow or alive begun here is in process afterwards, or one that it waits for is; the remote's join is under its own index. |
| Endings.BackBegins | raet/road/transacting.py:1541-1559 | A handshake or alive that comes back unjoined begins a join, an alive that comes back unallowed an allow, or finds one to wait for. |
| Endings.NothingSaved | raet/road/estating.py:499-509 | At the end of an allow, on either side, nothing stays saved. |
| Sessions.RoadStack.ProcessRx | raet/road/stacking.py:451-618 | processRx for packets of a known remote, joins aside: session checks, dispatch, stale replies. |
| Sessions.RoadStack.ReplyStale | raet/road/stacking.py:706-727 | Nacks are not nacked. |
| Sessions.RoadStack.Stale | raet/road/stacking.py:681-704 | The same for a transaction of ours that is gone; a renew is not nacked either. |
| Sessions.RoadStack.DoReceive | raet/road/transacting.py:3024-3035 | What the transaction found does with the packet: a Messengent in full, of the others what becomes of the remote. |
| Sessions.RoadStack.DoCorrespond | raet/road/stacking.py:620-648 | correspond: a new Messengent or Allowent, or refusal of an again or done message. |
| Sessions.RoadStack.DoHandle | raet/road/stacking.py:639-646 | Table, done ids and rxMsgs after a step of the message protocol, unallowed messages nacked. |
| Sessions.RoadStack.DoHello | raet/road/transacting.py:1989-2082 | A hello: removed if a join is in process, and on nonetheless; the contest with other allows; then no message is allowed and the Allowent enters if the remote has joined and the packet is good. |
| Sessions.RoadStack.Compete | raet/road/transacting.py:2004-2037 | The loop over the allows in process: duplicate, refused, or ours dismissed in favour of the remote of lesser name. |
| Sessions.RoadStack.AllowerHears | raet/road/transacting.py:1541-1559 | The initiator of an allow: which packets end it, start a session and resend, or start a join. |
| Sessions.RoadStack.AllowentHears | raet/road/transacting.py:1921-1939 | Its correspondent: the new session at the initiate, the resending only at the final ack. |
| Sessions.RoadStack.AliverHears | raet/road/transacting.py:2356-2374 | An alive that comes back unjoined starts a join, unallowed an allow. |
| Sessions.RoadStack.StartJoin | raet/road/transacting.py:510-564 | A join: nothing if one is in process, else a Joiner in session 0. |
| Sessions.RoadStack.StartAllow | raet/road/transacting.py:1613-1660 | An allow: nothing if a join or allow is in process, a join first if there was none; messages are not allowed meanwhile. |
| Sessions.RoadStack.StartAlive | raet/road/transacting.py:2417-2454 | An alive: a join or an allow first if there was none. |
| Sessions.RoadStack.FinishJoin | raet/road/transacting.py:802-814 | A join that completes starts a session only if there is none, and does not touch allowed. |
| Sessions.RoadStack.RemoveRemote | raet/road/stacking.py:204-211 | The loop over the transactions of a removed remote: each is nacked in order, Messengents are marked done, none is left, and nothing happens with the remote any more. |
| Sessions.RoadStack.RejectJoin | raet/road/transacting.py:856-865 | The rejected join ends and takes the remote along. |
| Sessions.RoadStack.ProcessRedo | raet/road/transacting.py:3037-3063 | The redo of a Messengent, at the stack. |
| Estating.NoMessageLost | raet/road/estating.py:446-509 | Main result. A new session of an allowed remote and the resending after it turn every saved and every pending body into exactly one Messenger of the new session, saved ones first, in order. |
| Estating.SessionKeepsBodies | raet/road/estating.py:446-485 | For any table: pending and saved bodies together stay the same multiset, nothing initiated here is older than the new session, and neither a join nor a correspondent leaves the table. |
| Estating.OnlyJoinsStay | raet/road/estating.py:446-485 | Of the locally initiated transactions only joins survive a new session. |
| Estating.SavedGoOut | raet/road/estating.py:499-509 | To an allowed remote each saved body becomes one Messenger in saved order under the next transaction ids, across rollover. |
| Estating.SavedSurviveExactly | raet/road/estating.py:499-509 | All saved bodies go out if and only if the remote is allowed or nothing was saved. |
| Estating.RemoteEstate.RemoveStaleCorrespondents | raet/road/estating.py:410-444 | The loop: exactly the stale correspondents are nacked, in order, and removed; the done table is cleared. |
| Estating.RemoteEstate.ReplaceStaleInitiators | raet/road/estating.py:446-485 | The loop: exactly the stale initiators are nacked, in order, and removed, message bodies saved in that order. |
| Estating.RemoteEstate.SendSavedMessages | raet/road/estating.py:499-509 | The loop over the saved messages. |
| Estating.RemoteEstate.Message | raet/road/stacking.py:861-881 | A Messenger under the next transaction id, dropped if not allowed, if the body does not pack or if the index is taken; the id is used up in any case. |
| Estating.RemoteEstate.AddTransaction | raet/road/estating.py:141-161 | Refused exactly if the index is there. |
| Estating.RemoteEstate.RemoveTransaction | raet/road/estating.py:163-180 | The transaction at that index is gone; all others stay, in their order. |
| Estating.RemoteEstate.NextTid | raet/road/estating.py:132-139 | Next transaction id. |
| Estating.RemoteEstate.NextSid | raet/lotting.py:47-55 | Next session id. |
| Joining.NeverBothExactly | raet/road/transacting.py:1127-1176 | Main result. Two crossed joins never both complete, whatever is lost, duplicated or reordered, whatever policies decide, whoever removes the other or times out: in all runs if and only if both are vacuous or neither is. |
| Joining.MixedBoth | raet/road/stacking.py:517-542 | Why: a vacuous request does not meet a non-vacuous join in process, so a vacuous and a non-vacuous join can both complete. |
| Joining.NeverBoth | raet/road/transacting.py:1127-1176 | The safe half, for two joins of one kind. |
| Joining.StrongerWins | raet/road/transacting.py:1127-1176 | Main result. Unless a policy denies it or a side times out, the Joiner of the stronger join (non-vacuous before vacuous, then by lesser name) ends only by completing, and the other one of the same kind never completes; from every state three loss-free steps complete it. |
| Joining.ExactlyOneYields | raet/road/transacting.py:1145-1176 | Of two crossed joins that meet exactly one is refused and the other stack gives its own up: the vacuous one, or between joins of one kind that of the greater name. |
| Joining.TieBreak | raet/road/transacting.py:1127-1176 | The loop over the joins in process. |
| Joining.Consent | raet/road/transacting.py:598-841 | Main result. No join without consent: in every run a join that completes was let pass by the policy of the stack it asked, and by that of its own. |
| Joining.StepTells | raet/road/transacting.py:867-908 | A step that ends a Joiner or Joinent leaves a nack for the other side in the air, or an ack of a Joiner that completes, unless the other side said so, or it timed out or was dropped without a word. |
| Joining.RequestAnswered | raet/road/transacting.py:1045-1260 | Every new request is answered, unless it is dropped or makes the stack remove the remote. |
| Joining.RedoTells | raet/road/transacting.py:449-480 | A live Joiner repeats its request and a live Joinent its response, and what was pended goes on once allowed; a packet for a join that is over gets a nack, and one for a remote that is gone a renew. |
| Joining.ToldEnds | raet/road/transacting.py:843-865 | A nack ends the Joiner it reaches, a nack or an ack the Joinent, and a timeout either. |
| Joining.StepSafe | raet/road/transacting.py:423-447 | Every step, also a removed remote, a renew and a timeout, keeps: a stack that answers the other's join has given up or finished its own. |
| Joining.StepWinning | raet/road/transacting.py:960-1024 | Every step keeps the stronger join untouched. |
| Joining.Finishes | raet/road/transacting.py:802-841 | Request, accept and response delivered complete it. |
| TxQueue.ServiceIsFifoExactly | raet/stacking.py:394-436 | Main result. For every pattern of send outcomes serviceTxes keeps every destination's packets, sent then remaining, equal to those before, if and only if no send raises; what remains is in the old order. |
| TxQueue.OnceIsFifoExactly | raet/stacking.py:438-448 | serviceTxOnce does so if and only if the send succeeds, or it blocks and all other packets waiting for that destination are equal to it. |
| TxQueue.Stack.HandleOneTx | raet/stacking.py:394-424 | One packet: sent, kept behind a blocked one, blocked, or raised. |
| TxQueue.Stack.ServiceTxes | raet/stacking.py:426-436 | Both loops. |
| TxQueue.Stack.Requeue | raet/stacking.py:435-436 | What is kept goes back in order. |
| TxQueue.Stack.ServiceTxOnce | raet/stacking.py:438-448 | The same for one packet. |
| Remotes.Stack.AddRemote | raet/stacking.py:148-163 | Both indexes grow by the remote, or an error exactly when uid or name is taken; the indexes keep agreeing. |
| Remotes.Stack.MoveRemote | raet/stacking.py:165-187 | The uid changes in place, the order stays, or an error exactly as the source raises it. |
| Remotes.Stack.RenameRemote | raet/stacking.py:189-210 | The same for the name. |
| Remotes.Stack.RemoveRemote | raet/stacking.py:212-226 | The remote leaves both indexes. |
| Remotes.Stack.LookupsAgree | raet/stacking.py:148-226 | A remote is found by uid exactly if by name, at the same place. |
| Remotes.Stack.NextUid | raet/stacking.py:139-146 | Next uid. |
| Remotes.Stack.FreshUid | raet/road/estating.py:275-278 | The loop ends with a free uid within two draws more than there are remotes, across rollover, while uids remain. |
| Laning.PrefixDelivery | raet/lane/stacking.py:175-281 | Main result. In every run the bodies a yard has received are a prefix of those the sender's message() accepted, across short and paginated messages, blocked sends and other traffic; all of them once nothing is in flight. |
| Laning.HearStream | raet/lane/stacking.py:175-204 | Any first part of the datagrams gives a first part of the bodies. |
| Laning.HearMessage | raet/lane/stacking.py:175-204 | The yard after each page of one message: one book in progress, then the body. |
| Laning.ServiceKeeps | raet/lane/stacking.py:215-248 | Servicing the queue keeps the stream whole. |
| Laning.OnlyPresentBooks | raet/lane/yarding.py:217-228 | Whatever datagrams come, all books in progress are of the session of the last page. |
| Laning.AllStarted | raet/lane/stacking.py:183-197 | Whatever datagrams come, no book is in progress that did not begin with its first page. |
| Laning.StrayIsDropped | raet/lane/stacking.py:110-159 | A datagram that does not parse or is for another yard changes nothing, nor does a page of the present session whose first page was missed. |
| Laning.RemoteYard.RemoveStaleBooks | raet/lane/yarding.py:217-228 | The loop keeps exactly the books of the present session. |
| Laning.RemoteYard.AddBook | raet/lane/yarding.py:195-203 | Refused exactly if the index is there. |
| Laning.RemoteYard.RemoveBook | raet/lane/yarding.py:205-215 | The book at that index is gone; all others stay, in their order. |
| Laning.RemoteYard.NextBid | raet/lane/yarding.py:167-174 | Next book id. |
| Laning.LaneStack.HandleOneRx | raet/lane/stacking.py:110-159 | A datagram of a known yard: parse, destination check, session change, delivery. |
| Laning.LaneStack.ProcessRx | raet/lane/stacking.py:175-204 | A page: delivered, added to its book, completing it, or dropped. |
| Laning.LaneStack.Message | raet/lane/stacking.py:250-281 | The pages of a body are queued in order under the next book id, none if it is too long or the head leaves no room; the division by zero that the caller does not catch. |
| Paging.PageRoundTrip | raet/lane/paging.py:72-128 | Whatever bytes follow a printed page head, parsing yields its fields and those bytes. |
| Paging.AcceptedIsPage | raet/lane/paging.py:72-128 | What is accepted as a page begins and ends its head as one does, and its body is all that follows. |
| Paging.PageSizes | raet/lane/paging.py:380-401 | A single page is within the limit; of a longer message there are at least two, each 2 bytes below it while their count fits four digits and within it while it fits five. |
| Paging.PagesCountFits | raet/lane/paging.py:380-388 | With heads up to 64509 bytes no permitted message makes more than 65535 pages. |
| Paging.TxBook.Pack | raet/lane/paging.py:359-378 | The pages of a message; PageError exactly if it is too long, and a division by zero exactly if it does not fit and its head is two bytes short of the limit. |
| Paging.TxBook.Paginate | raet/lane/paging.py:380-401 | The paging loop, no page at all if the section size is negative. |
| Keeping.KeysPinned | raet/road/keeping.py:368-459 | Main result. Over every run of statusRole in the modes never and once: a role with an acceptance never changes its persisted keys, and its acceptance only moves none, pending, accepted, and is never written as rejected. |
| Keeping.PinnedExactly | raet/road/keeping.py:436-457 | A call changes the persisted keys of such a role if and only if the mode is always, it may write, and a key given differs. |
| Keeping.AcceptedArePersisted | raet/road/keeping.py:436-457 | In every mode, accepted for two keys means they are the persisted ones. |
| Keeping.OnlyFirstKeys | raet/road/keeping.py:392-434 | Trust on first use: after keys were once not rejected, no others are accepted, whatever was asked in between. |
| Keeping.FirstWithoutKeysLocks | raet/road/keeping.py:392-457 | A role first met without a key is locked: no keys are ever accepted for it in these modes. |
| Keeping.NeverByItself | raet/road/keeping.py:416-434 | Main result. After every run of calls in mode never an answer is accepted if and only if the role had been accepted before all of them, with just these keys. |
| Keeping.AcceptedExactly | raet/road/keeping.py:392-459 | Without mode always a role is accepted after a run if and only if it was before, or a call of the run in mode once that may write answered so. |
| Keeping.FirstKeysDecide | raet/road/keeping.py:392-434 | The keys a role is first met with decide every later answer in the same mode: pending in never and accepted in once for these keys, rejected for any others. |
| Keeping.AlwaysAccepts | raet/road/keeping.py:388-391 | Mode always accepts any keys, which are then the accepted ones in every mode. |
| Keeping.RoadKeep.StatusRole | raet/road/keeping.py:368-459 | The method, its status branches and its dirty flag, against the specification. |

## Left out

- Sockets, receive loops, files, directories, real time and back-off durations: I/O; `statusRole` works on role data in memory.
- NaCl, the CurveCP payloads of the allow handshake, json and msgpack bodies, the JSON head kind, the float field `dt`: the native head is modelled, the rest enters as an inverse pair or not at all.
- Reap and presence, cascades, statistics and console logging: flag updates that no property here depends on.
- raet/flo, raet/nacling.py, raet/encoding.py, packaging and the system tests.
- Expiry of done entries, and in the runs of messages their timeouts, which are off by default: they would let a late packet be delivered again, by design of the source.
- Statements of the source that cannot run as written (`self.incStat` on a transaction, `sha` on the non-join branch, the unqualified `MAX_HEAD_SIZE`, missing returns after a dropped page): the evident drop is modelled, or the branch is left out.
- A packet whose segment or page number is beyond the count raises IndexError out of the source's service loop; the model abandons that packet and goes on, and bounds the scan for missing segments by the list.
- Leniency of Python's int(text, 16), such as signs, blanks and underscores, and negative numbers in a resend request, which Python would count from the end: received digits and numbers are plain.
- ioflo's packByte and unpackByte and its odict are not part of this model: bits are taken to be packed first flag first, and odict to keep insertion order.
- In the runs of `SessionRuns` every body packs; one that does not is not accepted, and uses up a transaction id.
- What becomes of a removed remote's peer in its next life: a stack that meets it again has a new remote, another run.
- `tray.last`, which is only logged.
- Estating.RemoteEstate.RemoveTransaction: does not test that the transaction at the index is the one removed, nor search for it under another index.
- Laning.RemoteYard.RemoveBook: does not test the identity of the book either.
- Heading.RxHead.Parse: leaves out the float field dt and the leniency of int(text, 16).
- The rest of Joiner.accept and Joinent.join (names, roles, keys, mutable roads): one nondeterministic policy per event. A join that follows a renew is another join, not part of the two that cross.
- The third lane index by address, and reaping a yard that refuses a connection: another copy of the index argument, and a drop that the order property excludes.
- Broadcast transactions, which the source does not support either.
- Sessions.RoadStack.ProcessRx: covers packets of a known remote that are not joins and have non-zero uids, and not unreaping; the join branch appears in Joining and Indexing.
- Sessions.RoadStack.DoReceive: of transactions other than Messengents models what becomes of the remote, not the packets they send.
- Sessions.RoadStack.DoCorrespond: an Alivent, which answers an alive and is gone, changes nothing here.
- Sessions.RoadStack.DoHello: takes the checks of the hello's fields as one flag, and leaves out the cookie it sends.
- Laning.LaneStack.HandleOneRx: covers datagrams from a yard that is already known; the source may add a remote for others.
