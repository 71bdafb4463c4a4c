# HTTP2RTSP: a verified model

HTTP2RTSP downloads a video over HTTP and streams it to one RTSP client, or, in its second mode, the
video to an RTSP client and the audio to SIP clients. This project models the five parts that carry its
logic and proves properties of them. The code is modelled as written; where a property it is meant to
have fails, a lemma gives an input that shows it and another says exactly when it holds.

- **Packetiser** (`Rtp`, `SendFrame`, `Depacketizer`, `VideoSequence`, `Division`). `send_video_frame`
  as a loop over byte arrays, proved to send the packets of the function `Fragments`. A receiver is
  written from RFC 6184 alone (sections 5.6 and 5.8). It inverts the fragmentation of the standard for
  every NAL unit and budget, and the loop's exactly when the unit is not fragmented: of every fragmented
  unit the last byte is lost, and when `n - 1` is a multiple of `budget - 2` the end bit with it. Video
  sequence numbers over whole runs of sends, on the sender's fields and on the wire.
- **Timeout queue and time arithmetic** (`Timeval`, `EventOrder`, `EventQueue`, `EventLoop`, `Pacing`).
  The doubly linked list is spliced in place and proved to do what `Insert` says on values. The
  comparison is exact except for one blind spot, reached because two places add microseconds without a
  carry; a push keeps the queue sorted exactly outside that spot. Draining gives a sorted permutation with
  equal times in reverse push order. Armed delays add up to the time between events.
- **Fillers and event loop** (`Pipeline`, `PipelineLocking`, `PipelineDeadlock`, `PipelineBound`,
  `PipelineFrames`, `PipelineTeardown`, `PipelineTimeouts`). A step system with any number of filler threads,
  the mutex, the condition variable, the queue and `media_downloaded`. As long as at most one filler lives, no
  two threads are ever inside the queue operations and the filler never locks the mutex it holds. With more,
  PLAY, which pushes without the mutex, can race exactly if a filler is awake with room to push, and a filler
  that wakes to a full queue locks itself out for ever; both happen in runs of two fillers. With one filler at
  a time the queue holds at most `QUEUESIZE` frames and end marks; each further filler alive at once adds at
  most one. Every frame is dispatched, discarded, queued or in hand once; frames are dispatched in read order,
  the end mark last. A filler that TEARDOWN cancels makes nothing more, and none of its events outlives the
  emptying. While the media is missing the polling never dies.
- **RTSP and SIP messages** (`Wrappers`, `CStrings`, `MessageText`, `Rtsp`, `Sip`). Parsers as loops over
  an index, printers as appending methods, the reply builders, and round trips through both for arbitrary
  field values, and from received text to the reply: RTSP requests in any spelling and order of their lines,
  and every SIP request that is parsed. Of a SIP request each header comes back exactly if it had a value.
- **Sessions** (`SipDialogs`, `RtspSession`). The SIP dialog table, the audio fan-out and its
  numbering, and the RTSP client state with its replies, over whole runs of messages: which requests are
  answered, with what, and what the table then holds, counted from the messages alone.

Where code and comment disagree the code is followed: `push_event` puts an event in front of events of
equal time; the marker can be on two packets of a frame; the reply to DESCRIBE carries the CSeq of the
client record and not the request's.

Bytes are integers below 256 and the masks of `send_frame.c` are written as arithmetic. Parameters stand
for the clock, random numbers, frames read from the file, fresh descriptors and the choice of the thread
that a signal wakes. A packet handed to `send_all` is appended to the list `sent`.

## Model

| member | source | states |
|---|---|---|
| Rtp.PackI16 | send_frame.c:12-15 | the two bytes written decode, in network order, to the number; the rest of the buffer is untouched |
| Rtp.Pack32I | send_frame.c:18-24 | the same for four bytes and the shifting loop |
| Rtp.EncodingsAreInverse | send_frame.c:12-24 | big-endian decoding inverts both packers |
| Rtp.ParseInvertsBytes | send_frame.c:63-68 | a receiver gets back marker, payload type, sequence number, timestamp, source and payload of every packet |
| Rtp.ParseAllInvertsDatagrams | send_frame.c:110 | and so for every list of datagrams |
| SendFrame.FillFragment | send_frame.c:79-108 | a fragment's kept payload depends on the NAL unit alone even where the copy runs past it |
| SendFrame.SendPackets | send_frame.c:43-115 | the loop sends exactly the packets of `Fragments` and counts them |
| SendFrame.SendVideoFrame | send_frame.c:27-117 | the same for every frame size; the return value is the number of packets |
| SendFrame.SendAudioFrame | send_frame.c:120-137 | one marked packet of payload type 8 that carries the whole frame |
| SendFrame.SendDummyRtp | send_frame.c:140-153 | one empty unmarked packet, and the caller's number moves by one modulo 65536 |
| Depacketizer.ReferenceRoundTrip | send_frame.c:34-117 | as meant: the receiver gets the unit back, for every unit and budget, exactly if it is fragmented or has a type from 1 to 23 |
| Depacketizer.ReferenceShape | send_frame.c:47-108 | as meant: ceil((n-1)/(budget-2)) packets within the buffer, start bit on exactly the first, end bit and marker on exactly the last |
| Depacketizer.WhatIsReceived | send_frame.c:43-113 | as written: what the receiver gets for every unit and budget: the unit, the unit less its last byte, or nothing |
| Depacketizer.RoundTripIffNotFragmented | send_frame.c:77-84 | as written the round trip holds exactly for units within the budget |
| Depacketizer.FragmentedUnitComesBackShort | send_frame.c:77-84 | at the budget of 63988: every unit of 63989 bytes comes back without its last byte, every unit of 127973 bytes not at all |
| Depacketizer.FragmentsData | send_frame.c:43-113 | the data of all fragments concatenated is the unit without its first and last byte |
| Depacketizer.FragmentsNumbered | send_frame.c:65-66 | ceil(n/(budget-2)) packets with consecutive numbers and one timestamp, none beyond the buffer |
| Depacketizer.MarkerAndFragmentBits | send_frame.c:53-61 | the marker is on the last packet alone, and the end bit on the last at all, exactly under a condition on n modulo budget-2 |
| Depacketizer.MatchesReferenceIffNotFragmented | send_frame.c:77-108 | the loop sends the standard's packets exactly when it does not fragment |
| VideoSequence.CounterFollowsIff | server.c:487-490 | after a send the counter is the next unused number exactly when a parameter set takes one packet modulo 65536 |
| VideoSequence.OnePacketIff | server.c:487-490 | one packet is taken exactly by sizes from 1 to the budget |
| VideoSequence.SmallSendsAre | server.c:376-379 | a parameter set of one packet goes out whole and marked at timestamp zero, a dummy empty and unmarked |
| VideoSequence.RunIsConsecutive | server.c:362-378 | over every list of frames, dummies and one-packet parameter sets the numbers are consecutive and the counter follows |
| VideoSequence.CounterFollowsRunIff | server.c:487-490 | over every run of sends the counter is the next unused number all along exactly if every parameter set takes one packet modulo 65536 |
| VideoSequence.EmptyParameterSetLeavesGap | server.c:487-490 | whatever the budget and the number, an empty parameter set leaves a gap in the numbers |
| VideoSequence.VideoSender.SendFrameEvent | server.c:361-363 | the fields after a frame: datagrams, counter and log, with the log still describing the wire |
| VideoSequence.VideoSender.SendParameterSet | server.c:193-209 | the same for a parameter set, in a frame of exactly its size |
| VideoSequence.VideoSender.SendDummy | server.c:376-379 | the same for a dummy packet |
| VideoSequence.VideoSender.Reseed | server.c:556 | a new seed starts a new log |
| VideoSequence.VideoSender.WireIsConsecutive | server.c:361-379 | in every state so reached a receiver reads consecutive numbers off the wire |
| Timeval.DeltaIsExact | server.c:171-184 | subtraction keeps the microseconds for all inputs; when the result is normal |
| Timeval.TimeCmpExactIff | server.c:187-191 | on the times the program builds the comparison has the true sign exactly outside the blind spot |
| Timeval.TimeCmpExact | server.c:187-191 | the true sign for any microsecond difference between minus two and plus one seconds |
| Timeval.NormalTimesAreOrdered | server.c:187-191 | a total order on normal times, zero only for equal ones |
| Timeval.UncarriedTimeoutIsMisjudged | server.c:139-155 | a timeout 50 ms later that is ranked earlier |
| Timeval.TimeoutIsExact | server.c:145-147 | a timeout's distance from now, and when its fields are normal |
| Timeval.FrameTimeIsExact | server.c:158-169 | base plus floor(100*ts/9) microseconds, normal after at most one carry |
| Timeval.FrameTimeIsStrict | server.c:158-169 | timestamp order is event order, strictly |
| Timeval.EndComesLast | server.c:255-256 | the end mark is ranked after every frame not after the last one read |
| EventOrder.PushKeepsOrderIff | server.c:95-109 | a push keeps a sorted queue sorted exactly if the last really earlier event is not misjudged |
| EventOrder.NormalPushKeepsOrder | server.c:83-112 | with normal times always |
| EventOrder.UncarriedTimeoutBreaksOrder | server.c:139-155 | a push that breaks the order |
| EventOrder.DrainIsSortedPermutation | server.c:83-136 | after any pushes: sorted, the same events, those of one instant in reverse push order |
| EventOrder.RunIsSorted | server.c:40-136 | after any run of pushes, pulls and empties the queue is sorted and its head a minimum |
| EventQueue.Queue.WalkBack | server.c:95-97 | the walk stops at the position that `Position` defines |
| EventQueue.Queue.Splice | server.c:98-111 | both chains, the ends and the size after linking in; no other event moves |
| EventQueue.Queue.InsQue | server.c:104 | the POSIX splice |
| EventQueue.Queue.RemQue | server.c:124 | the POSIX unsplice |
| EventQueue.Queue.PushEvent | server.c:83-112 | the list is valid and its values are `Insert` of the old ones |
| EventQueue.Queue.PullEvent | server.c:115-136 | the head is returned and the values are the old tail; null exactly for an empty list |
| EventQueue.Queue.EmptyQueue | server.c:40-64 | the list is empty and each queued frame was freed once, in order |
| EventQueue.FreedAreFrames | server.c:49-52 | each FRAME event's frame is freed once, in its turn, and nothing else is |
| EventQueue.Queue.PushTimeout | server.c:139-155 | a new event at now plus the timeout, without a carry, is inserted |
| EventLoop.HandleTimeout | server.c:348-407 | what is dispatched, the queue afterwards, the armed delay and the signal |
| EventLoop.WhatATimeoutLeaves | server.c:374-382 | a CHECKMEDIASTATE handled while the media is missing puts another one, due a second later, among the events behind it; any other timeout leaves just those |
| EventLoop.PollingGoesOn | server.c:348-396 | over every run of timeouts without the media the number of CHECKMEDIASTATE events stays, so that the queue never runs empty; while the media streams each timeout takes one event |
| EventLoop.Rearm | server.c:688-702 | the delay armed after descriptor activity |
| Pacing.ActivityDelayIff | server.c:689-701 | the delay is max(0, head - now) exactly unless an uncarried head is due within the second |
| Pacing.UncarriedHeadIsNotWaitedFor | server.c:145-147 | a timeout of 100 ms that is not waited for in its last 40 ms |
| Pacing.DelaysAddUp | server.c:389-396 | over undisturbed timeouts the delays are non-negative and add up to the time between the first and the last event |
| PipelineLocking.StepKeepsLockInv | server.c:226-274 | every step keeps the tie between the mutex and the program counters |
| PipelineLocking.OnlyPlayRaces | server.c:348-406 | in every reachable state a race involves one of PLAY's unlocked pushes |
| PipelineLocking.RaceReachableIff | server.c:670-671 | during those pushes a race can be reached exactly if some filler is awake and can push |
| PipelineLocking.PlayRacesIff | server.c:653-672 | so handling PLAY can race exactly if such a filler exists before it; the one it creates is harmless |
| PipelineLocking.GuardedRunsNeverRace | server.c:226-274 | mutual exclusion in every run that handles PLAY otherwise |
| PipelineLocking.DownloadThenPlayCanRace | server.c:483-499 | a run with two fillers that ends in a race |
| PipelineDeadlock.LoneFillerIsSafe | server.c:226-274 | in every run in which at most one filler lives in any state: no two threads inside the queue operations, and no filler locks a mutex it holds |
| PipelineDeadlock.DeadlockIff | server.c:226-240 | a run leaves a filler locked out by itself exactly if that filler once woke to a full queue |
| PipelineDeadlock.DeadlockIsForever | server.c:227-240 | and then it holds the mutex for the rest of every run |
| PipelineDeadlock.DeadlockIsReachable | server.c:653-672 | with two fillers there is such a run: the second, signalled while the queue was empty, wakes when the first has filled it |
| PipelineBound.BufferBound | server.c:237-274 | where at most n fillers live at once, frames and end marks in the queue never exceed QUEUESIZE - 1 + n, those of ended fillers included |
| PipelineBound.LoneFillerIsBounded | server.c:237-274 | with one filler at a time they never exceed QUEUESIZE |
| PipelineBound.BoundIsReached | server.c:237-241 | with two fillers at once the bound is met |
| PipelineFrames.StepKeepsFrameInv | server.c:237-277 | every step keeps the account of every filler's events |
| PipelineFrames.FramesAreConserved | server.c:351-372 | over every run each event made is dispatched, discarded, queued or in hand, exactly once |
| PipelineFrames.DisposalIsByCause | server.c:351-540 | a run without TEARDOWN discards nothing and a run without a timeout dispatches nothing |
| PipelineFrames.FramesLeaveInReadOrder | server.c:237-277 | with increasing timestamps a filler's frames are dispatched in the order read, whatever is interleaved, and none is skipped unless it was discarded |
| PipelineFrames.EndOfStreamComesLast | server.c:247-258 | the single end mark comes after all frames of its filler, in the queue and among what is dispatched, if the last frame read is the latest |
| PipelineTeardown.TeardownStopsFiller | server.c:535-540 | in every run the filler made last makes no further event from the TEARDOWN on |
| PipelineTeardown.TornDownIsForgotten | server.c:535-540 | and once the queue is emptied none of its events is queued, and none is dispatched afterwards |
| PipelineTimeouts.PollingGoesOn | server.c:374-382 | over all interleavings CHECKMEDIASTATE events are never lost while the media is missing |
| PipelineTimeouts.PlayArmsFirst | server.c:670 | whatever the fillers do, PLAY first inserts a CHECKMEDIASTATE event due after 100 ms |
| PipelineTimeouts.PlayArmsSecond | server.c:671 | and then one due after 2 s |
| PipelineTimeouts.LockedPushesAreDue | server.c:495-497 | when the events pushed with the mutex are due |
| PipelineTimeouts.StepWakesIff | server.c:398-401 | a waiting filler is woken exactly by a timeout that leaves the queue less than half full, or by TEARDOWN |
| PipelineTimeouts.WaitsUntilPicked | server.c:227-228 | and in every run it waits until then, unless it is cancelled |
| CStrings.FindIsFirst | httpmsg.c:68 | `strstr` gives the first occurrence, or there is none |
| CStrings.PrintedIntReadsBack | httpmsg.c:103-104 | `%d` of `sscanf` inverts `%d` of `sprintf` |
| CStrings.NumberIsRead | httpmsg.c:103-104 | `%d` reads any digits behind blanks, with a plus, a minus or no sign |
| CStrings.RestReadsBackIff | sipfunctions.c:45-47 | a value ended by CR is scanned back exactly if it is not empty and has no leading blank |
| MessageText.ScanIsFold | httpmsg.c:75-131 | the scan takes the header lines exactly one at a time and stops at the blank line |
| MessageText.HeaderEnds | httpmsg.c:68 | the blank line is found right behind the last header line |
| Rtsp.ParseRtsp | httpmsg.c:64-134 | the loop terminates and computes `Parse` for every buffer |
| Rtsp.TypeIsRead | httpmsg.c:77-101 | the type is what the first word says, unsupported exactly for none of the six; a text without a blank line is an OPTIONS without fields |
| Rtsp.PortsAreRead | httpmsg.c:119-124 | the digits behind the first `client_port=` of the last Transport line are the RTP port, those behind a dash the RTCP port, which otherwise stays |
| Rtsp.WriteRtsp | httpmsg.c:138-194 | the appends produce `Print` and its length |
| Rtsp.TextIsParsed | httpmsg.c:75-131 | every message whose header lines hold their values, in any spelling, order and number and among any other lines, is parsed to its type and the value of each header's last line |
| Rtsp.IncompleteLineRunsOn | httpmsg.c:103-104 | a CSeq line without a number takes it from the next line |
| Rtsp.MessageIsParsed | httpmsg.c:75-131 | for headers spelled as `write_rtsp` spells them, once each and in any order among other lines: exactly the values they were written from, and the client ports |
| Rtsp.RoundTrip | httpmsg.c:138-194 | parsing what is written gives a 200 OK with exactly the readable fields; date and body are ignored |
| Rtsp.RtspOptions | httpmsg.c:197-209 | the client record's CSeq and the reply with the Public header spliced in |
| Rtsp.OptionsReplyReadsBack | httpmsg.c:205-208 | the spliced header does not disturb the round trip |
| Rtsp.OptionsReplyOffers | httpmsg.c:206 | the reply ends with the offered methods |
| Rtsp.RtspDescribe | httpmsg.c:212-244 | the reply takes the record's CSeq, which then moves on |
| Rtsp.DescribeReplyReadsBack | httpmsg.c:218-242 | the reply brings the session description behind the blank line, with its type and its exact length |
| Rtsp.RtspSetup | httpmsg.c:247-255 | the session drawn, and the reply with the server ports appended |
| Rtsp.SetupReplyTellsPorts | httpmsg.c:252 | the client reads its own Transport value with the server's RTP and RTCP port behind it, and the session |
| Rtsp.SetupReplyReadsBack | httpmsg.c:252 | the appended server ports leave the client ports readable |
| Rtsp.RtspPlay | httpmsg.c:257-271 | the reply, its Session bit toggled |
| Rtsp.PlayTogglesSession | httpmsg.c:268 | a client reads a Session in the reply to PLAY exactly if its request had none |
| Rtsp.RtspTeardown | httpmsg.c:273-286 | the reply with CSeq and Session alone |
| Rtsp.TeardownReplyReadsBack | httpmsg.c:277-284 | the reply reads back with the request's CSeq and session, and nothing else |
| Rtsp.RepliesAreDated | httpmsg.c:152-155 | the replies to PLAY and DESCRIBE carry the date |
| Rtsp.RepliesEchoCSeq | httpmsg.c:197-286 | the CSeq a client reads in each of the five replies |
| Rtsp.SetupExchange | httpmsg.c:64-255 | request to reply: the CSeq and the client ports come back for every SETUP request whose lines hold their values, in any spelling, if its Transport value is one word that names a client port |
| Sip.ParseSipMsg | sipfunctions.c:12-86 | the loop and the search behind it compute `Parse` for every buffer |
| Sip.TypeIsRead | sipfunctions.c:19-37 | the type is what the first word says, unsupported exactly for none of the four; a text without a blank line is an INVITE without headers |
| Sip.TextIsParsed | sipfunctions.c:12-86 | every message whose header lines hold their values, in any spelling, order and number, is parsed to its type and the value of each header's last line; the body is looked at exactly if a session description is announced |
| Sip.AudioPortIsRead | sipfunctions.c:78-83 | and then the audio port is the word behind the first `m=audio` |
| Sip.UnsupportedLooksLikeInvite | sipfunctions.c:19-37 | an unsupported request leaves type INVITE and no Call-ID |
| Sip.WriteSip | sipfunctions.c:138-195 | the appends produce `Print`; other types are refused |
| Sip.CreateOk | sipfunctions.c:103-134 | the reply field by field |
| Sip.OkReadsBack | sipfunctions.c:103-195 | the reply to an INVITE or BYE reads back as 200 OK with each identifying header exactly if it is non-empty without leading blank, and with the audio port |
| Sip.DescriptionIsBehind | sipfunctions.c:115-124 | the session description stands behind the blank line of the reply to an INVITE, nothing behind that of the reply to a BYE |
| Sip.ContactIsWritten | sipfunctions.c:138-195 | every printed message has its recipient as contact and a hop limit |
| Sip.ParsedIsStored | sipfunctions.c:39-70 | of every text that is parsed each header value stored is empty, or starts with no blank and holds no CR |
| Sip.ReplyReadsBack | sipfunctions.c:12-195 | text to reply: for every INVITE or BYE that is parsed each identifying header comes back exactly if the request had a value for it |
| Sip.MissingViaIsNotEchoed | sipfunctions.c:45-47 | an INVITE without a Via gets a reply with a Via that is not empty |
| Sip.CreateBye | sipfunctions.c:88-100 | the BYE field by field, its unused fields garbage |
| Sip.ByeReadsBack | sipfunctions.c:88-100 | a BYE reads back with the dialog's Call-ID and From and To exchanged |
| Sip.ByeExchange | mt_server.c:125-135 | BYE, parsed, answered and parsed again: a 200 OK for the same dialog |
| SipDialogs.AcceptedFindsSlot | mt_server.c:236-268 | the counter's test passes exactly if there is a free slot |
| SipDialogs.RunKeepsInv | mt_server.c:234-322 | over every run the counter, the slots and the descriptor set agree |
| SipDialogs.RunHoldsOpened | mt_server.c:235-322 | over every run each Call-ID is in the table as often as the messages say it was accepted and not yet ended, and the counter counts them |
| SipDialogs.RunStandsAsSaid | mt_server.c:235-322 | over every run the slot of a Call-ID is acknowledged exactly if an ACK came since its INVITE, with the socket of the INVITE and the From, To and address of the last ACK |
| SipDialogs.AckTextAcknowledges | mt_server.c:276-288 | the text of an ACK for an open dialog acknowledges the first slot that holds its Call-ID and no other |
| SipDialogs.MessageIsAnsweredIff | mt_server.c:235-293 | in every run an INVITE is answered exactly while fewer than ten dialogs are open, a BYE always, anything else never |
| SipDialogs.ByeEndsDialogIff | mt_server.c:295-307 | after any run a BYE or 200 OK ends its dialog exactly if the Call-ID was not accepted again while open |
| SipDialogs.RetransmittedInviteOutlivesBye | mt_server.c:235-307 | an INVITE sent twice leaves a slot taken after the BYE |
| SipDialogs.UnsupportedTakesSlot | mt_server.c:232-270 | an unsupported request takes a slot |
| SipDialogs.FanOutReaches | mt_server.c:145-152 | a frame goes to exactly the acknowledged slots, with consecutive numbers |
| SipDialogs.AudioIsConsecutive | mt_server.c:107-328 | over every interleaving of messages, audio frames and seedings the audio packets on all sockets together are numbered consecutively from the seed |
| SipDialogs.ClientHears | mt_server.c:145-152 | over every run of audio frames an acknowledged client gets each frame once, in order, its numbers as far apart as there are acknowledged clients |
| SipDialogs.ClientSeesConsecutiveIff | mt_server.c:145-152 | from every state its stream over such a run is numbered consecutively exactly if there is at most one frame or it is the only acknowledged client |
| SipDialogs.TwoClientsHearGaps | mt_server.c:145-152 | with two acknowledged clients neither hears consecutive numbers |
| SipDialogs.TwoClientsAreServed | mt_server.c:235-288 | two INVITEs and ACKs lead to such a state |
| SipDialogs.DialogServer.Invite | mt_server.c:235-275 | accepted exactly below the limit; the reply sent and the table afterwards |
| SipDialogs.DialogServer.Ack | mt_server.c:276-288 | the table afterwards |
| SipDialogs.DialogServer.Remove | mt_server.c:289-322 | the reply sent and the table afterwards |
| SipDialogs.DialogServer.SendAudio | mt_server.c:146-151 | the datagrams sent and the counter, which still number consecutively since the seeding |
| SipDialogs.DialogServer.EndOfStream | mt_server.c:125-135 | the BYEs sent are those of `Byes` |
| SipDialogs.ByesReach | mt_server.c:126-134 | one BYE for each acknowledged slot, in slot order and at its address, and none for any other |
| SipDialogs.ByesAreRead | mt_server.c:126-134 | each client reads its own dialog's Call-ID, From and To exchanged |
| SipDialogs.ByeGoesBack | mt_server.c:126-134 | over every run a confirmed dialog gets its BYE at the address of its last ACK, with that ACK's From and To exchanged |
| SipDialogs.DialogServer.Reseed | mt_server.c:439-440 | the new audio number; the numbering starts anew |
| RtspSession.StepKeepsInv | server.c:416-679 | every event keeps the tie between the client record and the history |
| RtspSession.PlaysAreInOrder | server.c:567-675 | in every run each answered PLAY has an answered DESCRIBE and SETUP of its own client before it and two SETUPs since the last reset; when exactly two of its own |
| RtspSession.RequestIsAnsweredIff | server.c:567-679 | in every run the next request is answered, once, exactly if the events before it call for that: OPTIONS and DESCRIBE until the DESCRIBE, SETUP until there are an own one and two in all, PLAY from then on, TEARDOWN always |
| RtspSession.ConnectionIsServedIff | server.c:428-437 | a connection is served exactly if no client is connected |
| RtspSession.SessionIsAnswered | server.c:567-679 | OPTIONS, DESCRIBE, two SETUPs and PLAY are all answered |
| RtspSession.PortsAreTold | server.c:601-632 | in every run the first SETUP since the record was reset is told ports 50510 and 50511, every further one 50508 and 50509, behind its own Transport value |
| RtspSession.SetupCountOutlivesClient | server.c:523-534 | after a disconnect the next client reaches PLAY with one SETUP, answered with the video ports |
| RtspSession.RepliesEcho | server.c:569-679 | in every run the client reads its own CSeq in every reply but DESCRIBE's |
| RtspSession.DescribeEchoIff | server.c:570-597 | DESCRIBE right after OPTIONS echoes exactly if the client counts on by one |
| RtspSession.DescribeFirstIsNotEchoed | server.c:570-597 | a client that opens with DESCRIBE and CSeq 1 reads 0 |
| RtspSession.RtspServer.AcceptConnection | server.c:417-438 | served exactly if there is no client |
| RtspSession.RtspServer.ConnectionClosed | server.c:523-565 | the record after a disconnect, the previous message looked at again |
| RtspSession.RtspServer.MessageReceived | server.c:529-679 | the reply, or none, and the record afterwards |
| RtspSession.RtspServer.InitClientRecord | server.c:66-81 | the record reset |

## Left out

- Sockets, `select`, partial sends, host resolution (socketfunc.c), logging and file writes (fileio.c), the download over HTTP and `parse_url`: input and output.
- libavformat, libavcodec and glib (parse_video.c): foreign code; frames and parameter sets are parameters.
- `pthread_cancel` while a filler is blocked or between two statements, `sleep`, `usleep`, fairness and lost signals: teardown is one step that stops the latest filler and empties the queue, and only safety is claimed. Waits end by a signal only.
- The context that TEARDOWN frees, and the reply it sends on a closed descriptor: memory and descriptor lifetime are not modelled.
- Array bounds of message fields and buffers, and `%d` beyond the machine's `int`: numbers are unbounded and strings have any length. Frame sizes are naturals, so the conversion of a size beyond `int` is not modelled.
- The socket slot that server.c:623 fills: the RTCP sockets are not used by the program.
- `set_timeval` divides by 0.09 in floating point; the model computes floor(100*r/9), its value for every residue r below 90000.
- The `time` field of an event is set before the push and constant afterwards, so `set_timeval` is the function `FrameTime`.
- SIPClient records are values in the table's slots: each is reachable from one slot only.
- Sip.OkReadsBack: for header values that contain a CR nothing is claimed; by Sip.ParsedIsStored no parsed message has one.
- Rtsp.TextIsParsed: a header line without its value, for which `sscanf` runs on into the lines behind it, is not claimed beyond Rtsp.IncompleteLineRunsOn.
- Rtsp.RoundTrip: content type, transport and range must be single words and a Transport value must name a client port; without one `parse_rtsp` passes a null pointer to `sscanf`, which `Parse` reports as `Crash`.
- The timeout branch and the RTSP states of mt_server.c, which repeat those of server.c.
