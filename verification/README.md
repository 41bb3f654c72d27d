# MIC-TCP: a verified model of the protocol

MIC-TCP is a stop-and-wait transport with partial reliability over UDP. This project models its client,
its server and the two channels between them, and proves what the protocol guarantees over every run:
order, at-most-once, the loss budget, termination of the send loop, agreement of the handshake and of
the close, conservation of the measurement, and the first-in first-out path to the receiving
application. Where the code gives less than its documentation says, the project proves the exact
condition under which the promise holds.

## Shape

- `Pdus`: the PDU, wildcard matching, 32-bit numbers. `Handlers`: what one PDU does to a socket, on
  each side. `Threads`: the main threads of client and server, cut into the statements between which
  the network thread of the same process can run.
- `MicTcp`, `Accept`, `AppQueue`: the socket object, the library calls and the linked application queue
  as imperative code with the loops of the C. Each call is proved equal to the thread model, for every
  finite schedule of network-thread turns, timeouts, errors and signals.
- `Systems`: client, server, channels and a log of what happened; `Exec` runs any sequence of
  actions. Every other module proves invariants of `Exec` by induction on that sequence.
- `SlidingWindow` and `LossBudget` treat the bitmask alone; `Window` carries them over to whole runs.
- `OwnMessage`, `CallHistory`, `Trust`, `FirstMessage` and `ConnectTrust`: when a success of
  `mic_tcp_send` speaks of the caller's own message, as exact conditions. `LateClose`: when the close
  keeps its promises, likewise.
- `Outcomes`, `Attempts`, `OwnPdu`, `Endings` and `CloseProgress`: how each call and thread ends, how
  often what is sent, what a failing IP_send leaves behind, and that the close comes to its end.
- `Runs` builds concrete runs; `ConnectRun` those from the first SYN to a connect that returned 0;
  `BorrowedSuccess`, `FalseSuccess`, `LateSynAck` and `Duplicates` the ones that show where promises
  end.

## Assumptions, by name

Each theorem states the ones it uses, as a condition on the `Env` or on the start state.

- *Any channel*: loss, duplication and reordering, in both directions. No condition at all.
- *Ordered ACKs* (`!env.down.reorders`): the direction to the client loses and duplicates but does not
  reorder. The other direction is arbitrary.
- *No duplication* (`!env.up.duplicates && !env.down.duplicates`).
- *Ordered channels* (`Systems.Fifo`): both directions lose, neither reorders or duplicates.
- *Drained start* (`LockStep.Drained`): both ends ESTABLISHED with number 1, no measurement packet or
  ACK in flight, and no SYN+ACK still to be sent; one already on its way does no harm.
  `Connected.DrainedAfterConnect` says exactly when a connect leaves it.
- *Atomic wait* (`atomicWait`): the client's network thread runs only while `mic_tcp_send` waits, not
  between two of its statements. `StopAndWait.Atomic` adds it to ordered ACKs, `Progress.Orderly` to
  ordered channels. Theorems that do not mention it hold for every interleaving;
  `Duplicates.NoBoundOnCopies` shows what it is for.
- *Atomic accept* (`atomicAccept`): no PDU is handled between the state check in `mic_tcp_accept` and
  the SYN+ACK it leads to. The C unlocks the socket there (src/mictcp/mictcp_socket.c:96-103) and
  nobody can check that it was not preempted, so the theorems of `Connected`, `ConnectTrust` and
  `LateClose` do without it and say what changes with it. *No spurious wake-up* (`!spurious`).
  `CloseAgreement.Undisturbed` adds both to ordered channels.
- *No failed call* (`StopAndWait.NoFailures`, `Trust.Unfailing`): no `mic_tcp_send` of the run returned
  -1. `StopAndWait.ExactWhenNoLossAllowed`, `Trust.TrustAfterDrain` and the two theorems of
  `ConnectTrust` use it; the caller can tell whether it holds. `Trust.TrustAfterResults` does without
  it, and `Trust.TrustDespiteFailures` says what is left without it.
- *No wrap* (`NoWrap`): fewer than 2^32 - 1 payloads accepted, since number 0 is the wildcard.
  *Plain messages* (`PlainMessages`): no application message reads, up to its first NUL, as "mesure". Messages
  are meant to be non-empty: for an empty one `mic_tcp_send` returns 0 both when it was acknowledged
  and when its loss was tolerated, and the reused reception buffer can make it read as the message
  before. For all others the return value tells the three results apart.
- *Quiet* schedules (`Progress.Quiet`), for the two termination theorems only: deliveries and the
  client's own statements, without loss, timeout, error or failing IP_send. The close starts from a
  client that waits: a FIN+ACK that comes between IP_send of the FIN and the wait wakes nobody, and the
  next FIN is needed.
- A timeout may end any timed wait at any moment: the deadline arithmetic does not carry nanoseconds
  into seconds. IP_send may fail at any call.

## Where the code and its documentation disagree

The model follows the code.

- README.md line 54 promises reliable sending. A success of `mic_tcp_send` can belong to another
  message or to none. A late measurement ACK sets the client's number to 0; the server answers the
  first message with number 1 without accepting it, and 1 is what the client waits for
  (`FalseSuccess.FirstSendCanLie`). After a tolerated loss, or a call that returned -1, whose packet did
  arrive, the next message shares its number and is acknowledged in its place
  (`BorrowedSuccess.SuccessCanBeBorrowed`). A SYN+ACK sent late by a preempted `mic_tcp_accept` sets the
  client back to number 1 after its first call (`LateSynAck.AllCountedCanLie`). The exact conditions, on
  what the caller can see: once the start is drained, a success is the caller's own message if and only
  if the call before returned acknowledged, or there was none (`Trust.TrustAfterResults`); a client
  that counted all hundred measurement ACKs, on channels that do not duplicate, can be sure of its
  first call and of no other, or, if accept cannot be preempted, of as many as the loss allowance
  leaves; with fewer ACKs counted, of none (`ConnectTrust.TrustInSocket`).
- README.md line 55 promises a robust close. The same late SYN+ACK makes a closing client ESTABLISHED
  again: a plain ACK then passes for the FIN+ACK, and the ACK that answers the SYN+ACK for the final
  one. `LateClose.CloseAfterConnect` gives the exact condition.
- README.md line 136 gives the loss rate as `(100 - (ACKs / 100)) * 100`; the code computes 100 - ACKs
  (`Measurement.MeasurementConservation`).
- `sliding_window_consecutive_loss` reads as a bound on losses in a row; the code bounds the losses
  among the last ten sends and, since the window starts empty, tolerates none before 11 - L successes
  (`LossBudget.FirstLoss`).

## Model

| member | source | states |
|---|---|---|
| Trust.TrustAfterResults | src/mictcp/mictcp.c:30-86 | From any drained start with ordered ACKs and any interleaving, after any history of results that the window affords: a success is sure to mean that the caller's own message was delivered if and only if the call before was acknowledged, or there was none |
| Trust.TrustAfterDrain | src/mictcp/mictcp.c:59-82 | In runs in which no call returns -1: all successes among the first `calls` calls are the callers' own if and only if L = 0 or calls + L <= 12 |
| Trust.TrustDespiteFailures | src/mictcp/mictcp.c:40-70 | With calls that return -1, for every allowance, that holds if and only if calls <= 1 |
| OwnMessage.OpeningSuccessIsOwn | src/mictcp/mictcp.c:33-82 | With ordered ACKs and any interleaving, a success whose call is the first, or follows an acknowledged one, delivered its own message |
| ConnectTrust.TrustAfterConnect | src/mictcp/mictcp_socket.c:233-286 | After a connect that returned 0 on any channel: trust in the first `calls` calls as in TrustAfterDrain if and only if, besides, the client's number is 1, no measurement packet or ACK is in flight, and, beyond the first call, no SYN+ACK is left to be sent by a preempted accept |
| ConnectTrust.TrustInSocket | src/mictcp/mictcp_asynchronism.c:185-201 | On channels that do not duplicate, the client's socket alone warrants that trust: with accept not preempted before its SYN+ACK, if and only if it counted 100 ACKs and L = 0 or calls + L <= 12; with accept possibly preempted, if and only if it counted 100 ACKs and calls = 1 |
| FirstMessage.FirstSuccessIsOwn | src/mictcp/mictcp_asynchronism.c:178-201 | After a connect that left number 1 and no measurement packet or ACK in flight, on any channel and with any interleaving, late SYN+ACKs included: if the first call is acknowledged, its message was accepted |
| LateSynAck.AllCountedCanLie | src/mictcp/mictcp_socket.c:94-110 | For all messages a and b, a run over ordered channels from the very first SYN in which 100 ACKs are counted, no loss is allowed, both sends return success, and only a was accepted |
| LateSynAck.MistakenAck | src/mictcp/mictcp_asynchronism.c:178-201 | From any idle connected state with a SYN+ACK in flight, a run in which the closing client takes a plain ACK for the FIN+ACK, the server having seen no FIN |
| LateSynAck.MistakenFinalAck | src/mictcp/mictcp_asynchronism.c:10-28 | And one in which the server is CLOSED before the final ACK was sent, and the next FIN takes it out of CLOSED |
| Duplicates.NoBoundOnCopies | src/mictcp/mictcp.c:33-76 | Without atomic waits, from any drained start and for every n, a run over ordered channels in which one message fills n slots |
| FalseSuccess.FirstSendCanLie | src/mictcp/mictcp_asynchronism.c:82-117 | For every first message, a run over ordered channels from the very first SYN in which that send returns success and the server has accepted nothing |
| BorrowedSuccess.SuccessCanBeBorrowed | src/mictcp/mictcp.c:59-82 | From any drained start, after any affordable history that ends in a tolerated loss or a -1, a run in which the next send is reported delivered, its slot holds the message of the call before, and no slot holds its own |
| StopAndWait.HonestSuccess | src/mictcp/mictcp.c:30-83 | Calls sharing a number form one block that an acknowledged call ends; the slot of an acknowledged call holds a message of its block, and its own when it is the first call or the call before was acknowledged |
| StopAndWait.ExactWhenNoLossAllowed | src/mictcp/mictcp.c:30-86 | With allowance 0, in runs in which no call returned -1, after n completed sends the server has accepted n or n + 1 payloads, exactly the messages sent, in order |
| StopAndWait.AtMostOnce | src/mictcp/mictcp.c:31-77 | Every transmission of a message carries the same number, and the calls of the accepted payloads strictly increase, whatever is retransmitted, duplicated or tolerated |
| StopAndWait.AllSucceed | src/mictcp/sliding_window.c:47-64 | With allowance 0 no completed send of any run is a tolerated loss |
| Progress.SendTerminates | src/mictcp/mictcp.c:30-83 | Over ordered channels with atomic waits, from any state that a run from a drained start reaches with a packet of the current send in flight: once losses and timeouts stop, every interleaving longer than the rank has completed the send as acknowledged, and none gets stuck before |
| Progress.QuietAdvances | src/mictcp/mictcp.c:66-77 | Each effective step either completes the send as acknowledged or strictly lowers the rank, although every stale ACK triggers another transmission |
| Progress.NeverStuck | src/mictcp/mictcp_asynchronism.c:97-110 | While a packet of the current send or its ACK is on its way, some delivery or statement is enabled |
| LockStep.PartialReliability | src/mictcp/mictcp.c:30-86 | Of n completed sends the server has accepted at least n - L * ceil(n / 10), for every interleaving and an arbitrary data direction |
| LockStep.LockStepNumbers | src/mictcp/mictcp_asynchronism.c:194-201 | client number <= server number <= client number + 1, ACKs in flight lie between the two and arrive in order, after any SYN+ACK, and successes never exceed accepted payloads |
| LockStep.AllowanceFixed | src/mictcp/mictcp_socket.c:263-271 | The negotiated allowance does not change during the data phase |
| InOrder.InOrderDelivery | src/mictcp/mictcp_asynchronism.c:94-117 | On any channel and any interleaving: slot k holds a PDU the client sent under number k with its call's message, accepted calls never go backwards, and no number in use exceeds the server's |
| InOrder.OrderedReception | src/mictcp/mictcp.c:95-110 | The i-th mic_tcp_recv returned the message of the mic_tcp_send call whose payload was accepted i-th, cut to the caller's room, and those calls come in order |
| Window.LossBudgetOfRun | src/mictcp/mictcp.c:59-82 | In every run from the start, any consecutive completed sends contain at most L tolerated losses per ten, L in 0..3 |
| LossBudget.RunBudget | src/mictcp/sliding_window.c:24-64 | For every window size and allowance, any n consecutive outcomes hold at most L * ceil(n / N) losses |
| LossBudget.WindowBudget | src/mictcp/sliding_window.c:47-64 | Any N consecutive outcomes hold at most L losses, none when L is negative |
| LossBudget.FirstLoss | src/mictcp/sliding_window.c:58 | A tolerated loss needs L >= 1 and comes only after at least N - L + 1 successes |
| LossBudget.ToleratesMeans | src/mictcp/sliding_window.c:47-58 | The unsigned comparison tolerates a loss if and only if the last N outcomes hold more than N - L successes and L <= N |
| SlidingWindow.WindowRefinesHistory | src/mictcp/sliding_window.c:24-30 | For sizes 1 to 30 the mask stays in range without overflow, bit i is the i-th most recent outcome, and its set bits count the successes among the last `size` |
| Handshake.HandshakeAgreement | src/mictcp/mictcp_socket.c:182-286 | On any channel: connect returned 0 implies the server was ESTABLISHED, and a server that was ESTABLISHED implies the client received a SYN+ACK |
| Handshake.NegotiationTable | src/mictcp/mictcp_socket.c:257-281 | The real-valued comparisons are the integer table on counted ACKs (99, 96, 89, 80, refuse), and the loss rate is exactly 100 - r |
| Measurement.MeasurementConservation | src/mictcp/mictcp_socket.c:233-281 | Without duplication, until the first send call, counted ACKs plus measurement packets and ACKs in flight never exceed packets sent, at most 100, and stay below if an ACK was read uncounted; a successful connect measured 80..100 and holds the allowance of the table |
| Connected.DrainedAfterConnect | src/mictcp/mictcp_socket.c:155-156 | After a connect that returned 0 on any channel: the server is ESTABLISHED and expects 1, and the drained start holds if and only if the client's number is 1, no measurement packet or ACK is in flight, and accept has no SYN+ACK left to send, as it never has when not preempted |
| Connected.AllCountedMeansClean | src/mictcp/mictcp_asynchronism.c:185-192 | On channels that do not duplicate, a hundred counted ACKs imply that the number is 1 and nothing of the measurement is in flight |
| LateClose.CloseAfterConnect | src/mictcp/mictcp.c:126-181 | After a connect that returned 0 on any channel, over all runs from there on ordered channels: leaving the FIN loop with a FIN+ACK means the server saw a FIN, CLOSED means the final ACK was sent and nothing is in flight to the server, and CLOSED is final, each if and only if no SYN+ACK is in flight or left to be sent |
| CloseAgreement.CloseAgreement | src/mictcp/mictcp.c:135-181 | Over ordered channels from the first SYN, accept not preempted before its SYN+ACK and without spurious wake-ups, after a successful connect: leaving the FIN loop with a FIN+ACK means the server saw a FIN; the server is CLOSED only after the final ACK was sent, with nothing of the client's in flight |
| CloseAgreement.ClosedForGood | src/mictcp/mictcp_asynchronism.c:10-16 | Under the same conditions such a server never leaves CLOSED, whatever follows |
| CloseProgress.CloseTerminates | src/mictcp/mictcp.c:135-181 | From any state that a run over ordered channels reaches after a connect with no SYN+ACK to come, the client waiting and a FIN or a FIN+ACK in flight, the server in whatever state: once losses, timeouts and failures stop, no interleaving is longer than the rank, and one that cannot go on has left the loop with the FIN+ACK and both ends CLOSED |
| CloseProgress.QuietEnds | src/mictcp/mictcp_asynchronism.c:10-28 | Each effective step of server, network thread or main thread keeps the close on its way and strictly lowers the rank |
| Attempts.TenAttempts | src/mictcp/mictcp.c:135-167 | On any channel mic_tcp_close gives up exactly after ten attempts, each a FIN refused by IP_send or one whose wait timed out; it leaves with a FIN+ACK during the wait for its last FIN, all before having timed out |
| Attempts.AtMostTenFins | src/mictcp/mictcp.c:135-167 | On any channel mic_tcp_close sends at most MAX_ATTEMPTS FINs |
| Attempts.HundredPackets | src/mictcp/mictcp_socket.c:233-247 | On any channel exactly a hundred measurement packets were sent or refused by IP_send when the loss rate is computed |
| Attempts.SynAfterEachFailure | src/mictcp/mictcp_socket.c:182-218 | On any channel a SYN is sent once, and again exactly after each failed receive |
| OwnPdu.WaitsOnlyForItsOwn | src/mictcp/mictcp.c:40-57 | On any channel every call that waits for its ACK or has completed has transmitted its own message |
| OwnPdu.NothingAfterReturn | src/mictcp/mictcp.c:40-44 | Once a call has returned, with -1 or otherwise, no PDU of it or of an earlier call is ever sent |
| OwnPdu.EstablishedOnlyByAck | src/mictcp/mictcp_socket.c:143-161 | On any channel a client is ESTABLISHED or measuring only if an ACK of the connection was transmitted |
| Endings.AcceptEndings | src/mictcp/mictcp_socket.c:87-135 | On any channel mic_tcp_accept returns -1 only if one of its waits broke, and, without spurious wake-ups, 0 only if the server has been ESTABLISHED or has seen a FIN |
| Endings.ClosedHandlesNoMore | src/mictcp/mictcp_asynchronism.c:144-166 | In every reachable state: a PDU that leaves the socket CLOSED is the last one the client ever handles; after any other the thread goes on |
| Outcomes.SendOutcome | src/mictcp/mictcp.c:40-85 | A send call ends with -1 exactly if IP_send fails or the wait breaks, as a tolerated loss exactly if it times out and the window allows it, as delivered exactly if it wakes to the expected number; otherwise it goes on with the same message |
| Outcomes.SendEmits | src/mictcp/mictcp.c:33-44 | The message goes on the wire under the number read exactly when IP_send takes it; a refusal leaves nothing but the -1 |
| Outcomes.CloseOutcome | src/mictcp/mictcp.c:126-181 | Each way on from each point of the close, in literal numbers |
| Outcomes.ConnectOutcome | src/mictcp/mictcp_socket.c:182-288 | Each way on from each point of the connect, what it sends and when it returns -1 |
| Outcomes.AcceptOutcome | src/mictcp/mictcp_socket.c:85-135 | -1 exactly on a broken wait, 0 exactly when the state has moved on, another round after a SYN+ACK that could not be sent |
| Outcomes.FinAnswered | src/mictcp/mictcp_asynchronism.c:17-59 | A server answers every FIN, first or repeated, in every state; an ESTABLISHED or closing client reacts alike |
| Outcomes.ServerHeeds | src/mictcp/mictcp_asynchronism.c:60-140 | In each state a server reacts to the PDUs it expects and to no other, and signals exactly for three of them |
| Outcomes.ClientHeeds | src/mictcp/mictcp_asynchronism.c:168-240 | The same for the client; closing, both ends react alike |
| Outcomes.AcknowledgedOrNothing | src/mictcp/mictcp_asynchronism.c:178-181 | A SYN+ACK makes the client ESTABLISHED with number 1 exactly when the ACK could be sent, and changes nothing otherwise |
| Outcomes.FailedSendIsSilent | src/mictcp/mictcp.c:40-44 | Nothing enters a channel by a statement whose IP_send fails |
| ServerLog.ReceiverLog | src/mictcp/mictcp_asynchronism.c:61-131 | For every sequence of PDUs and accepts: while ESTABLISHED the expected number is one more than the payloads accepted since the accept, the j-th carried number j (modulo 2^32, 0 being the wildcard), and nothing is accepted before |
| ServerLog.MessageDelivered | src/mictcp/mictcp_asynchronism.c:82-117 | The text of a data PDU before the first NUL alone decides: "mesure" is answered with 0 and changes nothing; anything else is accepted exactly with the expected number (any, once wrapped to 0) and acknowledged with the number expected next, whether or not the ACK can be sent |
| Pdus.IsMeasure | src/mictcp/mictcp_asynchronism.c:84 | The comparison holds exactly of the payloads whose C string is "mesure" |
| Pdus.BuiltVerifies | src/mictcp/mictcp_pdu.c:16-79 | A built PDU verifies exactly against its own flags and its own numbers or the wildcard 0, the acknowledgment number counting only beside the ACK flag |
| ServerLog.FrozenAfterFin | src/mictcp/mictcp_asynchronism.c:46-59 | After a FIN the log and the number are frozen, whatever arrives, and the socket stays in AWAITING_CLOSING or CLOSED |
| AppBuffer.ReceivedPrefix | src/api/mictcp_core.c:211-274 | For every interleaving of puts and gets, the results of mic_tcp_recv are a prefix of the accepted payloads, in order, each cut to its caller's room, and the queue is exactly the rest; a result is the whole payload if it fits the caller's room and otherwise as many of its first bytes as fit |
| AppQueue.Queue.Put | src/api/mictcp_core.c:254-274 | The tail insertion keeps the links a single chain of distinct entries that carries the old payloads and then the new one |
| AppQueue.Queue.Take | src/api/mictcp_core.c:232-252 | Removing the head keeps the chain, which carries all payloads but the oldest; that one is returned, whole if it fits the caller's room and otherwise its first bytes |
| AppQueue.Queue.Get | src/api/mictcp_core.c:211-252 | For every schedule of insertions and wake-ups: waits exactly while the queue is empty, then does to the queue and the log what one step of the system does |
| Provenance.Holds | src/mictcp/mictcp.c:33-40 | On any channel every data PDU in flight or accepted was transmitted by the client with the message of the call it is attributed to |
| MicTcp.Socket.MicTcpSend | src/mictcp/mictcp.c:18-86 | For every finite schedule of deliveries, timeouts and errors: the socket, the PDUs sent and the result are those of the statement-by-statement model; the value is the size, 0 or -1, and -1 only on a socket not ESTABLISHED, a refused IP_send or a broken wait |
| MicTcp.Socket.PreparePacket | src/mictcp/mictcp.c:31-38 | The packet's number and the number the expected ACK counts from are two separate reads of the shared field |
| MicTcp.Socket.SendPacket | src/mictcp/mictcp.c:31-44 | The packet is on the wire exactly when IP_send succeeded; otherwise the call fails |
| MicTcp.Socket.AwaitAck | src/mictcp/mictcp.c:47-82 | The wait ends in a tolerated loss, a failure, a success or another round, as in the model |
| MicTcp.Socket.MicTcpClose | src/mictcp/mictcp.c:117-188 | The FIN loop, the final ACK and CLOSED, as in the model, for every finite schedule; when it gives up, the FINs in what it sent and those refused in its turns are ten |
| MicTcp.Socket.SendFin | src/mictcp/mictcp.c:138-166 | One attempt: an unsent FIN or a timeout counts as an attempt, a signal leaves the loop, another error ends the call |
| MicTcp.Socket.FinishClose | src/mictcp/mictcp.c:176-181 | The final ACK goes out whether or not a FIN+ACK came, then the state is CLOSED |
| MicTcp.Socket.MicTcpConnect | src/mictcp/mictcp_socket.c:169-289 | SYN loop, ACK, measurement and negotiation, as in the model, for every finite schedule; 0 and -1 exactly where the model is connected or finished |
| MicTcp.Socket.Synchronise | src/mictcp/mictcp_socket.c:182-218 | The loop ends only with a SYN+ACK, repeating the SYN after each failure to receive |
| MicTcp.Socket.Measure | src/mictcp/mictcp_socket.c:233-256 | Exactly a hundred turns of the main thread, whatever becomes of each packet |
| MicTcp.Socket.NegotiateLoss | src/mictcp/mictcp_socket.c:259-281 | The allowance for every number of counted ACKs, and refusal below 80 |
| MicTcp.Socket.Conclude | src/mictcp/mictcp_socket.c:258-288 | Establishes with the negotiated allowance, or closes and returns -1 |
| MicTcp.Socket.SendConnectionAcknowledgement | src/mictcp/mictcp_socket.c:143-161 | ESTABLISHED with number 1 exactly when the ACK could be sent, no change otherwise |
| MicTcp.Socket.UpdateSlidingWindow | src/mictcp/sliding_window.c:24-30 | A window that stands for a history stands for it with the new outcome appended |
| MicTcp.Socket.VerifyAcceptableLoss | src/mictcp/sliding_window.c:47-64 | The counting loop terminates; the answer is whether the last N outcomes hold more than N - L successes |
| MicTcp.Socket.ProcessServerPdu | src/mictcp/mictcp_asynchronism.c:37-141 | New socket, reply, signal and queue are those of the reaction the run theorems are about |
| MicTcp.Socket.ProcessClientPdu | src/mictcp/mictcp_asynchronism.c:168-240 | The same for the client |
| MicTcp.Socket.HandleAwaitingClosingState | src/mictcp/mictcp_asynchronism.c:10-28 | A final ACK closes, a repeated FIN is answered again, anything else is ignored |
| MicTcp.Socket.Listen | src/mictcp/mictcp_asynchronism.c:144-166 | One round of the listening thread, which leaves its loop once the state is CLOSED |
| Accept.MicTcpAccept | src/mictcp/mictcp_socket.c:78-136 | Waits for a SYN, repeats the SYN+ACK while SYN_RECEIVED, returns 0 once the state has moved on, as in the model, for every finite schedule |
| Accept.AnswerSyn | src/mictcp/mictcp_socket.c:96-134 | The loop repeats the SYN+ACK while the state is SYN_RECEIVED and ends with 0 or -1, as in the model |
| Accept.SendSynAck | src/mictcp/mictcp_socket.c:96-130 | A failed SYN+ACK or a timeout leads to another round, another error to -1 |

## Left out

- MicTcp.Socket.MicTcpSend: its loop runs against finite schedules, and the contract says how far the model got when the schedule ends first; the original loop has no bound.
- MicTcp.Socket.MicTcpConnect: finite schedules likewise, for the SYN loop; the socket starts IDLE and one call is made per socket.
- Accept.MicTcpAccept: finite schedules likewise; the run theorems call it once per socket, `ServerLog` several times.
- MicTcp.Socket.MicTcpClose: finite schedules likewise; `socket_cleanup` is not modelled.
- MicTcp.Socket.NegotiateLoss: `float` is modelled by `real`; both are exact on the integers 0 to 100.
- MicTcp.Socket.ProcessServerPdu: the comparison with "mesure" takes a NUL to follow the payload in the reception buffer; what an earlier, longer PDU left there is not modelled.
- MicTcp.Socket.ProcessClientPdu: the counter of received packets does not wrap at 2^31.
- AppQueue.Queue.Get: finite schedules likewise; a negative buffer size and a failing `malloc` are not modelled, and the lock makes insertion and removal one step each.
- ConnectTrust.TrustInSocket: channels that duplicate are left out, since a copied ACK is counted twice.
- Handlers run as one atomic step each; a signal sent later than its update is covered by a spurious wake-up, which the theorems on ordered channels exclude where they say so.
- Ports and addresses, the socket table, `mic_tcp_socket` and `mic_tcp_bind`: table look-ups only.
- `IP_send`, `IP_recv`, header layout and simulated losses: replaced by the channels.
- Clocks, thread creation and joining, `socket_cleanup`: timeouts are free choices, thread creation one that can fail.
- Several clients of one server, a close started by the server or by both ends, and a second connection on the same socket.
- Sequence numbers after a wrap to 0 in the run theorems: the wildcard then accepts any packet (`ServerLog` covers the receiver alone).
- The applications, the gateway and all logging.
