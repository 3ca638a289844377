# WolkSensor firmware core, verified

A Dafny model of the platform-independent core of the WolkSensor firmware, with proofs of what that core promises. Each
module follows one component of the firmware:

- `Basics`: bytes, words and options.
- `GaloisField`, `SubstitutionTables`, `Fips197`, `Encryption`, `BlockChaining`: AES-128 in CBC mode. `Fips197` and the CBC
  functions of `BlockChaining` are the standards (FIPS 197 sections 5.1 to 5.3, NIST SP 800-38A section 6.2); the methods of
  `Encryption` and `BlockChaining` are the in-place code, proved equal to them.
- `CircularBuffer`: the ring over a fixed array, proved to be a bounded sequence. The event queues, the command stream and the
  response buffers below are such rings.
- `StateMachine`: the engine for hierarchical machines. The class `Engine` is the in-place engine; it is proved equal to
  functions on configurations, and these functions are what the machines are reasoned about with. A configuration holds the
  current child of every state, the queue, the variables behind the handlers and the calls made so far.
- `TcpModule`, `WifiModule`, `MqttProtocol`, `Application`: the four machines that run on the engine. Driver calls, packets and
  time come from the environment: every handler call gets an arbitrary answer, and between calls any input may come, so that
  what is proved holds of all interleavings of requests, interrupts and processing. Each machine keeps a trace of what it asks
  of the outside; the main results are about these traces, for every run.
- `Backoff`: the heartbeat and its back-off after failures.
- `Framing`, `Readings`, `AlarmText`: text on the rings: the command stream, the READINGS responses in parts, the ALARM line.
- `Inet`: dotted-quad addresses. `Eeprom`: the configuration store. `Bootloader`: the page-by-page program image.

`dafny verify dfyconfig.toml` verifies everything.

Handlers are C function pointers in the source. Here a handler is a function from variables, event and answer to the new
variables, whether the event is consumed, and the actions taken in order (posting events, clearing the queue, choosing the
child, going to another state); the engine carries the actions out in place. A transition from an entry handler is one such
action. `fault` records a transition to a state whose parent is not active, or one that would nest without end; each
`AlwaysOnePath` proves that no run ever sets it.

Where the code differs from what one might expect, the model follows the code:

- `circular_buffer_drop_from_end` never marks the ring empty: `DropFromEndExactly` gives the exact condition under which it
  works, and `Ring.DropFromEnd` promises the contents only when an element is left or nothing is dropped.
- `start_heartbeat` puts the counter on the period itself when it was a non-zero multiple of it; `BeatsWithinPeriod` gives the
  exact condition. The source divides by the period, so a period of 0 is excluded once minutes have been counted.
- A SUBACK with a wrong identifier queues the number of the disconnecting state as an event. `StuckExactly` gives the exact
  condition under which the protocol then gets stuck, `MismatchHappens` a run in which it does, and `MismatchNeverEnds` proves
  that the process handle then never returns false; what holds of MQTT in all runs is safety, not progress.
- The error byte of the MQTT protocol is kind | state, and the number 16 of the disconnecting state repeats a bit of its kind.
  The byte still belongs to one failure only; reading its halves as kind and state is wrong exactly for the failure of sending
  the disconnection, whose byte is 0x10 (`ErrorTellsLast`).
- Commands that a receive added before it failed stay in the buffer, and the next receive that succeeds removes readings for
  them even if it brings none. `RemovesExactly` gives the exact condition of a removal and `LeftoverRemoves` such a run.
- A connection, or an address, that the driver reports before it is asked for one may be taken for the answer: `StaleReport` is
  such a run, and `OldConnectionExactly` and `OldAddressExactly` give the exact condition, on the queue at that moment.
- Padding a message of more than 65520 bytes overflows its 16-bit size: `PaddingFits` is the exact condition, and `Encrypt`
  says what happens beyond it.
- `init_wolksensor` ends in the normal state even after a brownout reset (`StartsNormal`).
- `parse_alarm_argument` passes the position of an item's end as its size, and a limit that is off gets whatever value was on
  the stack; the round trip holds all the same, of the values that are on.
- Reading a name or password whose first page is full keeps what the destination held at byte 30: `ReadsStoredExactly` and
  `NameSurvives` give the exact condition for reading what was written.
- The loop of `decrypt` never ends for a length of 0 or above 65521: `DecryptEndsExactly`.
- The receive buffer of the boot loader has room for one frame; a byte that would be written behind it, or a page with the right
  checksum behind the flash, is outside the model.

## Model

| member | source | states |
|---|---|---|
| GaloisField.UnmixMix | wolksensor/wolksensor/src/encryption.c:150-179 | The coefficients 0e, 0b, 0d, 09 of the inverse column transform undo 02, 03, 01, 01, for all bytes of GF(2^8) |
| GaloisField.TimesLinear | wolksensor/wolksensor/src/encryption.c:73-81 | Multiplication by each coefficient of the column transforms distributes over addition |
| GaloisField.MixByteOneDoubling | wolksensor/wolksensor/src/encryption.c:254-282 | A mixed byte needs one doubling: it is the byte, the sum of the column and the doubled sum of two neighbours |
| GaloisField.Barreto | wolksensor/wolksensor/src/encryption.c:133-179 | Adding the fourfold of the sum of opposite bytes first turns the forward column transform into the inverse one |
| SubstitutionTables.SBoxIsAffineOfInverse | wolksensor/wolksensor/src/encryption.c:4-21 | Every entry of the table is the affine transform of a multiplicative inverse in GF(2^8) |
| SubstitutionTables.InvSBoxOfSBox | wolksensor/wolksensor/src/encryption.c:4-39 | The inverse table undoes the table, for all 256 bytes |
| SubstitutionTables.SBoxOfInvSBox | wolksensor/wolksensor/src/encryption.c:4-39 | The table undoes the inverse table |
| Fips197.InverseRounds | wolksensor/wolksensor/src/encryption.c:83-326 | After any number of rounds of the inverse cipher the state is that of the cipher as many rounds before the end |
| Fips197.InvCipherOfCipher | wolksensor/wolksensor/src/encryption.c:83-326 | InvCipher of FIPS 197 section 5.3 inverts Cipher of section 5.1 for every key and block |
| Encryption.RconIsRoundConstant | wolksensor/wolksensor/src/encryption.c:41-42 | The table of round constants holds the powers of 02 of section 5.2 |
| Encryption.ExpandKey | wolksensor/wolksensor/src/encryption.c:46-71 | The array ends up as the key schedule of section 5.2: every round key, for every key |
| Encryption.ExpandRound | wolksensor/wolksensor/src/encryption.c:50-70 | One round of the loop extends the schedule by one round key and leaves the earlier ones |
| Encryption.ScheduleStep | wolksensor/wolksensor/src/encryption.c:50-70 | The four words of a round are those of the schedule, the first through RotWord, SubWord and the round constant |
| Encryption.AddKeySubShift | wolksensor/wolksensor/src/encryption.c:228-253 | The fused in-place step is AddRoundKey, then SubBytes, then ShiftRows; other blocks of the array stay |
| Encryption.MixColumnsInPlace | wolksensor/wolksensor/src/encryption.c:254-282 | The in-place column loop is MixColumns |
| Encryption.AesEncr | wolksensor/wolksensor/src/encryption.c:223-326 | In place the block becomes Cipher of the block for the key expanded in the array |
| Encryption.InvShiftSubAddKey | wolksensor/wolksensor/src/encryption.c:107-130 | The fused in-place step is InvShiftRows, InvSubBytes and AddRoundKey |
| Encryption.MixOfBarreto | wolksensor/wolksensor/src/encryption.c:133-179 | The Barreto step followed by MixColumns is InvMixColumns on every column |
| Encryption.InvMixColumnsInPlace | wolksensor/wolksensor/src/encryption.c:150-179 | The optimised in-place step is InvMixColumns |
| Encryption.AesDecr | wolksensor/wolksensor/src/encryption.c:83-207 | In place the block becomes InvCipher of the block |
| BlockChaining.DecryptOfEncrypt | wolksensor/wolksensor/src/encryption.c:209-221 | CBC decryption of section 6.2 of NIST SP 800-38A inverts CBC encryption over any number of blocks, with the zero vector |
| BlockChaining.BlocksInjective | wolksensor/wolksensor/src/encryption.c:209-350 | Texts of whole blocks with the same blocks are the same |
| BlockChaining.Encrypt | wolksensor/wolksensor/src/encryption.c:328-350 | For every 16-bit size: up to 65520 the size is rounded up to blocks and the buffer holds the CBC encryption of the zero-padded message; beyond, the message is padded but nothing encrypted and 0 returned, as the size overflows |
| BlockChaining.PaddingFits | wolksensor/wolksensor/src/encryption.c:328-337 | The size padded on 16 bits is the padded size if and only if it is at most 65520; beyond it is 0 |
| BlockChaining.EncryptBlocks | wolksensor/wolksensor/src/encryption.c:338-348 | The block loop leaves the encryption of every block and nothing else changed |
| BlockChaining.Decrypt | wolksensor/wolksensor/src/encryption.c:209-221 | For the lengths on which the loop ends the buffer holds the CBC decryption of its blocks, using the saved previous cipher block |
| BlockChaining.DecryptEndsExactly | wolksensor/wolksensor/src/encryption.c:209-221 | The loop over a 16-bit counter ends if and only if the length is between 1 and 65521 |
| BlockChaining.DecryptRestoresMessage | wolksensor/wolksensor/src/encryption.c:209-350 | Decrypting what encrypting returned, in place and with the returned size, gives the message followed by its zero padding |
| CircularBuffer.Ring.constructor | wolksensor/SDK/core/circular_buffer.c:30-40 | An empty ring of the given size |
| CircularBuffer.Ring.Add | wolksensor/SDK/core/circular_buffer.c:49-79 | Refused by a full ring that does not wrap; otherwise the last capacity elements of the contents and the new one |
| CircularBuffer.Ring.AddArray | wolksensor/SDK/core/circular_buffer.c:84-105 | Without wrapping all or nothing; with wrapping, for any length, the last capacity elements of old and new |
| CircularBuffer.Ring.AddAsManyAsPossible | wolksensor/SDK/core/circular_buffer.c:107-129 | As long a prefix as there is room for, and its length |
| CircularBuffer.Ring.Pop | wolksensor/SDK/core/circular_buffer.c:131-151 | The oldest element, or false when empty |
| CircularBuffer.Ring.PopArray | wolksensor/SDK/core/circular_buffer.c:157-176 | The first n elements are returned and removed, or all |
| CircularBuffer.Ring.DropFromBeginning | wolksensor/SDK/core/circular_buffer.c:178-181 | The first n elements are removed, or all, and counted |
| CircularBuffer.Ring.DropFromEnd | wolksensor/SDK/core/circular_buffer.c:184-199 | The last n elements are removed when n is 0 or fewer than there are; in every case where the tail goes |
| CircularBuffer.DropFromEndExactly | wolksensor/SDK/core/circular_buffer.c:184-199 | Dropping from the end leaves a consistent ring with the right contents if and only if it keeps an element, drops nothing, or an empty ring's tail comes full circle: the empty flag is never set |
| CircularBuffer.DroppedTailAround | wolksensor/SDK/core/circular_buffer.c:184-199 | The tail comes back to its place exactly after whole turns |
| CircularBuffer.Ring.Peek | wolksensor/SDK/core/circular_buffer.c:201-223 | The element at a position from the oldest, false beyond the contents |
| CircularBuffer.Ring.PeekArray | wolksensor/SDK/core/circular_buffer.c:225-240 | A slice of the contents, cut at their end |
| CircularBuffer.Ring.Size | wolksensor/SDK/core/circular_buffer.c:262-280 | The number of elements, from the pointers and flags |
| CircularBuffer.Ring.FreeSpace | wolksensor/SDK/core/circular_buffer.c:282-291 | The capacity left |
| CircularBuffer.Ring.Clear | wolksensor/SDK/core/circular_buffer.c:293-303 | No contents, and the storage filled |
| CircularBuffer.Perform | wolksensor/SDK/core/circular_buffer.c:49-303 | Any sequence of operations acts on the contents as on a bounded sequence |
| CircularBuffer.WrappingAdditions | wolksensor/SDK/core/circular_buffer.c:84-105 | However the input is cut into additions, a wrapping ring keeps the last elements of it all |
| StateMachine.DispatchBubbles | wolksensor/SDK/core/state_machine.c:13-29 | An event goes from the innermost active state outward along the path active when it was dispatched, and stops at the first state that consumes it |
| StateMachine.TransitionOrder | wolksensor/SDK/core/state_machine.c:31-62 | The old subtree hears that it is left from the inside out, stopping at a consumer, before the target hears that it is entered, and that comes before any other call; if no entry from the target down starts another transition, then exactly the target and its descendants hear it, from the top down along the path that is active in the end |
| StateMachine.DescendantsInOrder | wolksensor/SDK/core/state_machine.c:51-59 | The loop into the children tells each descendant once, from the top down along the path active in the end, if no entry starts a transition |
| StateMachine.SameProcessed | wolksensor/SDK/core/state_machine.c:13-62 | What a process call does depends on the environment only through the answers to the handler calls it makes |
| StateMachine.SilentProcessed | wolksensor/SDK/core/state_machine.c:13-62 | An event that no handler posts except when handling it stays out of the queue through any processing, and what only its handling changes stays the same |
| StateMachine.BubbleQuietly | wolksensor/SDK/core/state_machine.c:13-29 | The states asked are a prefix of the path, all of it unless one consumed the event |
| StateMachine.BubbleSplits | wolksensor/SDK/core/state_machine.c:13-29 | Asking one more state at the end is asking it if nobody before consumed the event |
| StateMachine.Engine.ProcessEvent | wolksensor/SDK/core/state_machine.c:13-29 | The recursive dispatch over the mutable state table is the dispatch function; it terminates by the depth of the tree |
| StateMachine.Engine.Transition | wolksensor/SDK/core/state_machine.c:31-62 | The transition in place is the transition function, entry handlers that transition again included |
| StateMachine.Engine.EnterDescendants | wolksensor/SDK/core/state_machine.c:51-59 | The loop into the children, which rereads the current child after every call, enters the path as it then is |
| StateMachine.Engine.Post | wolksensor/SDK/core/event_buffer.c:12-22 | The event is the youngest; a full queue forgets its oldest |
| StateMachine.Engine.Process | wolksensor/SDK/core/tcp_communication_module.c:77-87 | The oldest event is taken off and dispatched; false when there is none |
| StateMachine.Engine.Discard | wolksensor/SDK/core/wifi_communication_module.c:451-479 | Cycling the queue once removes exactly the given events and keeps the order of the others |
| StateMachine.PerformedPosts | wolksensor/SDK/core/state_machine.c:13-29 | Posting a list of events and then acting is acting with all of them queued |
| TcpModule.CallsInOrder | wolksensor/SDK/core/tcp_communication_module.c:333-643 | In every run send, receive and close use only the id of the latest successful open that was not closed since, and there are at most three opens between two entries of the opening state |
| TcpModule.AlwaysOnePath | wolksensor/SDK/core/tcp_communication_module.c:166-643 | In every run no transition has an inactive parent, the active path is one of four, and the receive timer runs only in the receive state |
| TcpModule.FirstErrorStays | wolksensor/SDK/core/tcp_communication_module.c:145-152 | Until the next request the first error stays, whatever happens |
| TcpModule.WatchMeans | wolksensor/SDK/core/tcp_communication_module.c:333-643 | The monitor of driver calls accepts only traces with those two properties |
| TcpModule.RunIsGood | wolksensor/SDK/core/tcp_communication_module.c:166-643 | Every step of every run keeps the invariant of variables, queue and states |
| TcpModule.InitialIsGood | wolksensor/SDK/core/tcp_communication_module.c:166-200 | Initialisation establishes it |
| TcpModule.StepFollows | wolksensor/SDK/core/tcp_communication_module.c:118-240 | Requests, seconds, closing peers and process calls keep it |
| TcpModule.DispatchKeeps | wolksensor/SDK/core/tcp_communication_module.c:242-643 | Every event in every state keeps it |
| TcpModule.ClosedOffer | wolksensor/SDK/core/tcp_communication_module.c:270-331 | Keeps the invariant; send and receive are queued behind an entry of the opening state if the parameters are set, else they fail; exact variables and queue |
| TcpModule.OpeningOffer | wolksensor/SDK/core/tcp_communication_module.c:333-405 | Keeps the invariant; a success opens, the third failure ends closed with the queue forgotten, an earlier one tries again; send and receive wait |
| TcpModule.OpenedOffer | wolksensor/SDK/core/tcp_communication_module.c:407-466 | Keeps the invariant; send ends opened or closed, receive starts the timer, close ends closed, a closing peer ends closed with the queue forgotten; exact variables and queue |
| TcpModule.ReceiveOffer | wolksensor/SDK/core/tcp_communication_module.c:512-597 | Keeps the invariant; data and timeout end opened, nothing yet asks again, a failure or closing peer ends closed with the queue forgotten; the timer stops whenever receiving ends |
| TcpModule.ToSend | wolksensor/SDK/core/tcp_communication_module.c:468-510 | Entering the send state sends and ends opened, or closes the socket and ends closed, with exactly these variables |
| TcpModule.ToClosing | wolksensor/SDK/core/tcp_communication_module.c:599-643 | Entering the closing state closes and ends closed, forgetting the queue on failure |
| TcpModule.Step | wolksensor/SDK/core/tcp_communication_module.c:118-240 | The module in place does what the step function says |
| WifiModule.DriverInOrder | wolksensor/SDK/core/wifi_communication_module.c:517-1833 | In every run the driver is asked to connect, disconnect, reset or stop only between a successful start and the next stop, to start only outside, to disconnect only when online, never to connect or stop again without a disconnection or reset in between; STARTED is active exactly while the driver is started, and CONNECTED only after a connection was asked for and then the report of a connection and that of an address passing the static address check were handled (they may be older than the request) |
| WifiModule.NoReportNoneTaken | wolksensor/SDK/core/wifi_communication_module.c:183-191 | In every run, from any moment when no report of a connection (of an address) is queued, none is taken up unless the driver makes a new one |
| WifiModule.OldConnectionExactly | wolksensor/SDK/core/wifi_communication_module.c:721-977 | In every run in which a connection has just been asked for: if only the process handle is called from then on, a report of a connection older than the request is taken for its answer if and only if it is queued before every disconnection, timeout and error |
| WifiModule.OldAddressExactly | wolksensor/SDK/core/wifi_communication_module.c:882-1095 | The same for an address: when the report of the connection is taken up, an older report of an address is taken later if and only if it is queued before every disconnection, timeout and error |
| WifiModule.TakenUpExactly | wolksensor/SDK/core/wifi_communication_module.c:882-1095 | From any configuration that waits for the access point or for an address, with any answers: some report is taken up in calls of the process handle alone if and only if the first queued event that can end waiting is that report |
| WifiModule.FirstDecides | wolksensor/SDK/core/wifi_communication_module.c:882-1095 | Whatever requests, reports and seconds come meanwhile, as long as they find room in the queue, the calls for the k events before that first one take up nothing, and call k + 1 takes up a report if and only if it is the one waited for, else leaves only the reset queued; if only the handle is called the first k calls leave all variables alone |
| WifiModule.QueueIsBounded | wolksensor/SDK/core/wifi_communication_module.c:104-160 | No run has more events queued than the buffer holds |
| WifiModule.StaleReport | wolksensor/SDK/core/wifi_communication_module.c:844-977 | A run in which the driver reports a connection before it is asked for one and nothing afterwards, and the report is taken for the answer |
| WifiModule.FirstErrorWins | wolksensor/SDK/core/wifi_communication_module.c:263-270 | In every run the error byte is 0 exactly if nothing failed since the last request, else its halves are kind and state of the first failure |
| WifiModule.AlwaysOnePath | wolksensor/SDK/core/wifi_communication_module.c:272-347 | In every run no transition has an inactive parent, no run rests in STARTING or STOPPING, and the sequence timer runs only while CONNECTING or DISCONNECTING is active |
| WifiModule.PhaseMeans | wolksensor/SDK/core/wifi_communication_module.c:517-1833 | The monitor's phase says whether the driver is started, a connection was asked for and not given up, and which of its reports were handled |
| WifiModule.ErrorIsFirstFailure | wolksensor/SDK/core/wifi_communication_module.c:263-270 | The latched byte is that of the first failure since the request |
| WifiModule.RunIsGood | wolksensor/SDK/core/wifi_communication_module.c:272-449 | Every step of every run keeps the invariant |
| WifiModule.DispatchKeeps | wolksensor/SDK/core/wifi_communication_module.c:481-1833 | Every event in every configuration at rest keeps it |
| WifiModule.StoppedOffer | wolksensor/SDK/core/wifi_communication_module.c:517-583 | Keeps the invariant; connect and transfers are queued and the module started, ending in DISCONNECTED, or in STOPPED with the queue forgotten and the error set |
| WifiModule.ToStarting | wolksensor/SDK/core/wifi_communication_module.c:585-633 | Entering STARTING ends in STARTED and DISCONNECTED if the driver started, else in STOPPED with the error set and the queue forgotten |
| WifiModule.ToStarted | wolksensor/SDK/core/wifi_communication_module.c:635-658 | Entering STARTED enters DISCONNECTED |
| WifiModule.ResetOffer | wolksensor/SDK/core/wifi_communication_module.c:660-719 | Keeps the invariant; the process handles are called until done, then the driver is reset and DISCONNECTED entered; both stop requests are queued as EVENT_STOP |
| WifiModule.DisconnectedOffer | wolksensor/SDK/core/wifi_communication_module.c:721-842 | Keeps the invariant; stop ends stopped, connect and transfers ask for a connection with the transfer queued or reset, a transfer without parameters fails, a driver error resets without the queued transfers |
| WifiModule.ToConnecting | wolksensor/SDK/core/wifi_communication_module.c:844-977 | Entering CONNECTING starts the timer and asks for the connection, or ends in RESET with the timer stopped |
| WifiModule.ConnectingToApOffer | wolksensor/SDK/core/wifi_communication_module.c:882-977 | Keeps the invariant; a connected report goes to ACQUIRING, an early address report is queued again, disconnection, timeout and error reset with the queue forgotten |
| WifiModule.AcquiringOffer | wolksensor/SDK/core/wifi_communication_module.c:979-1095 | Keeps the invariant; an address goes to CONNECTED unless a static one is set and differs, which resets as disconnection, timeout and error do |
| WifiModule.ConnectedOffer | wolksensor/SDK/core/wifi_communication_module.c:1097-1219 | Keeps the invariant; every request enters the state that serves it with exactly this queue, disconnection and error reset without the queued transfers |
| WifiModule.TransferOffer | wolksensor/SDK/core/wifi_communication_module.c:1221-1605 | Keeps the invariant; a transfer that ended well goes back to CONNECTED, an error is translated and resets with the queue forgotten |
| WifiModule.ClosingSocketOffer | wolksensor/SDK/core/wifi_communication_module.c:1607-1714 | Keeps the invariant; closed sockets go back to CONNECTED, one closed meanwhile is no error; another error resets without the queued transfers |
| WifiModule.ToDisconnecting | wolksensor/SDK/core/wifi_communication_module.c:1716-1801 | Entering DISCONNECTING starts the timer and asks for the disconnection, or ends in RESET without the queued transfers |
| WifiModule.DisconnectingOffer | wolksensor/SDK/core/wifi_communication_module.c:1716-1801 | Keeps the invariant; the disconnected report enters DISCONNECTED with the queue as it is, stop waits, timeout and error reset without the queued transfers |
| WifiModule.GivesUp | wolksensor/SDK/core/wifi_communication_module.c:451-479 | Every error that resets ends in RESET with only the first step of the reset queued, or with what was queued without the transfers, in order |
| WifiModule.ToStopping | wolksensor/SDK/core/wifi_communication_module.c:1803-1833 | Entering STOPPING stops the driver and ends stopped |
| WifiModule.Step | wolksensor/SDK/core/wifi_communication_module.c:162-449 | The module in place does what the step function says |
| MqttProtocol.OnlyInOpenSessions | wolksensor/SDK/core/mqtt_communication_protocol.c:395-910 | In every run, however requests come, PUBLISH, PUBREL and PINGREQ are sent and CONNECTED is active only after a CONNECT, a CONNACK, a SUBSCRIBE and a SUBACK with its very identifier, with no CONNECT or DISCONNECT since |
| MqttProtocol.QueueStaysShort | wolksensor/SDK/core/mqtt_communication_protocol.c:122-147 | If requests come only when the process handle last returned false, at most two events are queued, at most one of them internal, and no post drops any |
| MqttProtocol.SentIsReported | wolksensor/SDK/core/mqtt_communication_protocol.c:912-1028 | In every run the number reported to the sender is that of the last publication if it succeeded, else 0 |
| MqttProtocol.AlwaysOnePath | wolksensor/SDK/core/mqtt_communication_protocol.c:165-206 | In every run no transition has an inactive parent and the active states form one path |
| MqttProtocol.MismatchNeverEnds | wolksensor/SDK/core/mqtt_communication_protocol.c:516-555 | Stuck after a wrong SUBACK, the process handle returns true forever and nothing but the queue moves, whatever the environment answers |
| MqttProtocol.StuckExactly | wolksensor/SDK/core/mqtt_communication_protocol.c:750-837 | At the end of waiting for the SUBACK, with a request waiting, the protocol gets stuck if and only if a complete SUBACK came with another identifier: it queues a state number instead of a transition |
| MqttProtocol.MismatchHappens | wolksensor/SDK/core/mqtt_communication_protocol.c:137-147 | A run with patient requests that gets stuck: a session accepted by the broker, whose SUBACK has identifier 2 for 1; the handle returns true on every call from then on |
| MqttProtocol.ErrorTellsLast | wolksensor/SDK/core/mqtt_communication_protocol.c:208-217 | In every run the error byte is 0 exactly if nothing failed since the last request, and else belongs to the last failure and to no other that the states can have; its halves are kind and state exactly if that is not the failure of sending DISCONNECT, whose byte is 0x10 |
| MqttProtocol.CodeDecodes | wolksensor/SDK/core/mqtt_communication_protocol.c:214-217 | Among the kinds and states that go together no two give the same byte |
| MqttProtocol.CodeIsOr | wolksensor/SDK/core/mqtt_communication_protocol.c:214-217 | The byte is the bitwise or of kind and state |
| MqttProtocol.PhaseReached | wolksensor/SDK/core/mqtt_communication_protocol.c:557-910 | The phase of the session means that these packets went back and forth in this order |
| MqttProtocol.RunIsGood | wolksensor/SDK/core/mqtt_communication_protocol.c:165-279 | Every step of every run keeps the invariant, with the short queue if requests are patient |
| MqttProtocol.DispatchKeeps | wolksensor/SDK/core/mqtt_communication_protocol.c:358-1677 | Every event in every configuration keeps it |
| MqttProtocol.DisconnectedOffer | wolksensor/SDK/core/mqtt_communication_protocol.c:395-514 | Keeps the invariant; a request that needs a connection is queued and the connection begun if the parameters are set, else it fails |
| MqttProtocol.ConnectingOffer | wolksensor/SDK/core/mqtt_communication_protocol.c:516-555 | Keeps the invariant; requests that need a connection are queued again |
| MqttProtocol.ConnectedOffer | wolksensor/SDK/core/mqtt_communication_protocol.c:839-910 | Keeps the invariant; every request enters its state, whose packet is prepared and whose event is queued |
| MqttProtocol.SentOffer | wolksensor/SDK/core/mqtt_communication_protocol.c:557-618 | Keeps the invariant; after CONNECT, SUBSCRIBE, PUBLISH, PUBREL, PINGREQ and DISCONNECT the next state is entered, or the disconnected one with the error set; a publication's end is reported |
| MqttProtocol.ReceivedOffer | wolksensor/SDK/core/mqtt_communication_protocol.c:620-694 | Keeps the invariant; failure ends disconnected with the error set, an incomplete packet and a packet have the outcomes of the next two rows |
| MqttProtocol.CompleteOffer | wolksensor/SDK/core/mqtt_communication_protocol.c:1030-1623 | Keeps the invariant; in every waiting state another packet is waited past (a PUBREC through the event for PUBACK), the right one goes on, a wrong identifier queues the disconnecting state's number |
| MqttProtocol.IncompleteOffer | wolksensor/SDK/core/mqtt_communication_protocol.c:1030-1138 | Keeps the invariant; nothing received pings while waiting for a publication, ends disconnected at CONNACK and PINGRESP, and disconnects otherwise |
| MqttProtocol.Step | wolksensor/SDK/core/mqtt_communication_protocol.c:137-279 | The protocol in place does what the step function says, and returns false exactly with an empty queue |
| Application.AtLeastOnce | wolksensor/SDK/application/wolksensor.c:775-890 | In every run the buffer holds, in order, exactly the readings stored and not gone, and each reading that is gone was cleared by READINGS CLEAR, or removed as one of exactly the oldest readings counted by the last publication, right after a receive that succeeded while a command waited that arrived in it or was left by an earlier one that failed |
| Application.RemovesExactly | wolksensor/SDK/application/wolksensor.c:845-890 | In every run a receive that succeeds is followed by a removal if and only if a command waits that arrived in it, or that an earlier receive left when it failed; so exactly if it brought one itself, unless some receive failed with commands waiting |
| Application.LeftoverRemoves | wolksensor/SDK/application/wolksensor.c:828-890 | A run in which a reading is removed although no command arrived in the receive that succeeded: the one waiting was left by the receive that failed before |
| Application.WaitingMeans | wolksensor/SDK/application/wolksensor.c:444-468 | Commands wait if and only if one arrived and nothing was typed or executed since |
| Application.OwnOrLeft | wolksensor/SDK/application/wolksensor.c:828-890 | A command that waits when a receive ends arrived in it, or in an earlier one that failed |
| Application.LeavesOnlyDelivered | wolksensor/SDK/application/wolksensor.c:850-862 | A reading leaves at one fact only, and that fact is a clearing or a removal after delivery, of a prefix already stored when it was published |
| Application.NoExchangeWhileLow | wolksensor/SDK/application/wolksensor.c:524-773 | In every run, once an exchange failed with the voltage below the minimum, none starts before a USB connection is processed |
| Application.AlwaysOnePath | wolksensor/SDK/application/wolksensor.c:681-773 | In every run no transition has an inactive parent, the battery monitor is on exactly during an exchange, and the brownout state is active exactly while brownout is latched |
| Application.StartsNormal | wolksensor/SDK/application/wolksensor.c:314-390 | However it was started, even after a brownout reset, the application begins in the normal state |
| Application.BusyWhileExchanging | wolksensor/SDK/application/wolksensor.c:444-717 | In every run a command is executed with leave to write exactly outside exchanges and right after a removal, and without leave only if it does not write; exactly writing ones are answered busy, only in exchanges; readings are cleared only by a clearing command just executed, in an exchange only right after a removal |
| Application.ExecuteCommands | wolksensor/SDK/application/wolksensor.c:444-468 | The loop empties the command buffer, oldest command first, with the effects of each |
| Application.ExecutedKeeps | wolksensor/SDK/application/wolksensor.c:444-468 | Executing the waiting commands keeps the ledger of readings and commands balanced; without leave to write no reading is cleared |
| Application.RunIsGood | wolksensor/SDK/application/wolksensor.c:314-390 | Every step of every run keeps the invariant |
| Application.DispatchKeeps | wolksensor/SDK/application/wolksensor.c:392-996 | Every event in every configuration keeps it |
| Application.IdleOffer | wolksensor/SDK/application/wolksensor.c:470-522 | Keeps the invariant; commands are executed with leave to write; acquisition, begun with sensors and room only, is back in IDLE with nothing changed; acquisition, commands and reset are consumed |
| Application.ToIdle | wolksensor/SDK/application/wolksensor.c:470-487 | Entering IDLE enters BROWNOUT or NORMAL as latched |
| Application.ToAcquisition | wolksensor/SDK/application/wolksensor.c:608-646 | Acquisition comes back to IDLE and its child within the same event |
| Application.NormalOffer | wolksensor/SDK/application/wolksensor.c:524-565 | Keeps the invariant; exactly heartbeats and alarms are consumed, and start an exchange that sends, with the monitor on |
| Application.BrownoutOffer | wolksensor/SDK/application/wolksensor.c:567-606 | Keeps the invariant; heartbeats and alarms are consumed without effect, a USB connection ends in NORMAL with the latch off and is passed on, nothing else happens |
| Application.DataExchangeOffer | wolksensor/SDK/application/wolksensor.c:681-717 | Keeps the invariant; commands are executed without leave to write, the process handle is called again until done, nothing else is consumed |
| Application.SendOffer | wolksensor/SDK/application/wolksensor.c:775-826 | Keeps the invariant; exactly the end is consumed: success enters RECEIVE, failure STOP_MODULE, remembered as failure |
| Application.ReceiveOffer | wolksensor/SDK/application/wolksensor.c:828-890 | Keeps the invariant; exactly the end is consumed: failure enters STOP_MODULE, success without waiting commands DISCONNECT; success with some removes the readings sent, executes all with leave to write, and enters SEND if readings are left, else DISCONNECT |
| Application.RemovedKeeps | wolksensor/SDK/application/wolksensor.c:850-856 | Removing what was sent takes the published prefix and keeps the order of the rest |
| Application.DisconnectOffer | wolksensor/SDK/application/wolksensor.c:892-936 | Keeps the invariant; success or not, the end enters STOP_MODULE, a failure remembered |
| Application.StopModuleOffer | wolksensor/SDK/application/wolksensor.c:938-996 | Keeps the invariant; the handle is called until done; the end settles the outcome, turns the monitor off and enters IDLE with the child the latch selects |
| Application.Step | wolksensor/SDK/application/wolksensor.c:127-312 | The application in place does what the step function says |
| Backoff.BackoffClosedForm | wolksensor/SDK/application/wolksensor.c:648-679 | After any number k of failures in a row the period is min(60, h * 2^(j/2)), j the 8-bit count between 1 and 256; a period of an hour or more stays |
| Backoff.HeartbeatFollows | wolksensor/SDK/application/wolksensor.c:648-679 | From the second failure on the heartbeat runs with that period, but once per wrap of the count it is still an hour |
| Backoff.NextBeat | wolksensor/SDK/application/wolksensor.c:163-179 | The next heartbeat comes after exactly so many minutes, around the 16 bits if the counter is at the period or beyond |
| Backoff.BeatsWithinPeriod | wolksensor/SDK/application/wolksensor.c:181-202 | After a change of the period the next heartbeat comes within it if and only if the counter was 0 or not a multiple of it; otherwise it takes 65536 minutes |
| Backoff.Heartbeat.StartHeartbeat | wolksensor/SDK/application/wolksensor.c:181-202 | The static variables change as the function says |
| Backoff.Heartbeat.MinuteExpired | wolksensor/SDK/application/wolksensor.c:163-179 | The counter counts, wraps and beats as the function says |
| Backoff.Heartbeat.AdjustOnError | wolksensor/SDK/application/wolksensor.c:648-679 | USB restarts the system heartbeat, alarms to sound change nothing, otherwise the failure counts |
| Backoff.Heartbeat.FailTimes | wolksensor/SDK/application/wolksensor.c:648-679 | k failures on the static variables leave the closed form |
| Framing.FramingOfChunks | wolksensor/SDK/core/command_parser.c:482-516 | However the stream is cut into chunks, the commands extracted and the rest left over are those of the whole stream |
| Framing.FramingOfTwo | wolksensor/SDK/core/command_parser.c:482-516 | Extracting before more text arrives loses and adds nothing |
| Framing.FramingSplits | wolksensor/SDK/core/command_parser.c:482-516 | Commands and rest make up the text; each command ends with its only terminator, the rest has none |
| Framing.FramingUnique | wolksensor/SDK/core/command_parser.c:482-516 | No other cut of a text does so |
| Framing.ExtractCommand | wolksensor/SDK/core/command_parser.c:482-503 | The first segment is taken off the ring with its terminator, or nothing is |
| Framing.ExtractCommands | wolksensor/SDK/core/command_parser.c:505-516 | All segments go to the command ring, which keeps the last ones; the count wraps at 8 bits |
| Framing.Receive | wolksensor/SDK/core/command_parser.c:482-516 | Chunks buffered and extracted one by one yield the commands of the whole stream and leave its rest |
| Readings.PartsMakeTheLine | wolksensor/SDK/core/protocol.c:63-111 | The responses one after the other are exactly the line of all readings, each once and in order, or READINGS; without any |
| Readings.EndsIfFits | wolksensor/SDK/core/commands.c:214-226 | The rounds come to the end if and only if the first reading fits beside the header and every other one alone |
| Readings.ResponsesAreRest | wolksensor/SDK/core/protocol.c:91-111 | From any reading on the responses are the rest of the line |
| Readings.CursorStops | wolksensor/SDK/core/commands.c:214-226 | The cursor never passes a reading that does not fit |
| Readings.CursorAdvances | wolksensor/SDK/core/commands.c:214-226 | Each round gets further while there are readings that fit |
| Readings.SerializeReadings | wolksensor/SDK/core/protocol.c:63-89 | As many readings as fit whole are appended, each with its separator |
| Readings.AppendReadings | wolksensor/SDK/core/protocol.c:91-111 | Header, readings that fit, and the end mark in place of the last separator when none is left or the text is not split |
| Readings.Respond | wolksensor/SDK/application/wolksensor.c:456-466 | The loop of partial executions sends the whole line, and ends; clearing first leaves READINGS; |
| Readings.ExecutePart | wolksensor/SDK/core/commands.c:214-226 | One execution fills the cleared response with the part at the cursor and advances by its readings |
| AlarmText.AlarmRoundTrip | wolksensor/SDK/core/protocol.c:604-644 | For plain distinct sensor ids and any settings the printed line is read back as an ALARM command with the same switches, and the same values wherever on, whatever was set before |
| AlarmText.ReadsItems | wolksensor/SDK/core/command_parser.c:126-160 | The item loop reads every printed item into its sensor |
| AlarmText.ItemRead | wolksensor/SDK/core/command_parser.c:69-124 | One printed item is read back, whatever follows it |
| AlarmText.AtoiOfSigned | wolksensor/SDK/core/command_parser.c:92-118 | Every 16-bit value printed with %d is read back |
| AlarmText.ItemLengthOf | wolksensor/SDK/core/command_parser.c:55-67 | The length of the first item ends at its separator |
| AlarmText.FindsAlarm | wolksensor/SDK/core/command_parser.c:420-480 | The search of the command table finds ALARM for an alarm line, as no other name begins it |
| AlarmText.FindArgumentItem | wolksensor/SDK/core/command_parser.c:55-67 | The loop finds the length of the first item |
| AlarmText.FindComma | wolksensor/SDK/core/command_parser.c:81-89 | The loop finds the position after the comma within the size |
| AlarmText.ParseItem | wolksensor/SDK/core/command_parser.c:69-124 | Key, separators and both limits, or failure; a limit that is off keeps the stale value |
| AlarmText.ParseAlarms | wolksensor/SDK/core/command_parser.c:126-160 | The loop yields the settings of the recursive reading, or fails with it |
| AlarmText.AppendAlarms | wolksensor/SDK/core/protocol.c:604-644 | The whole line is appended if and only if there is room for it |
| Inet.PtonAcceptsDotted | wolksensor/wolksensor/src/inet.c:98-138 | Accepted are exactly four numbers up to 255 without leading zeros with dots in between, each text for its own four bytes |
| Inet.PtonIpv4 | wolksensor/wolksensor/src/inet.c:98-138 | The loop over the characters yields those bytes, or fails and leaves the destination |
| Inet.PtonAcceptsNtoa | wolksensor/wolksensor/src/inet.c:98-181 | The accepted texts are exactly those that inet_ntoa prints |
| Inet.AtonAgreesWithPton | wolksensor/wolksensor/src/inet.c:9-138 | On each of them inet_aton gives the same bytes as one big-endian number |
| Inet.AtonOfNtoa | wolksensor/wolksensor/src/inet.c:9-181 | Every 32-bit address printed is read back by both functions |
| Inet.AtonReads | wolksensor/wolksensor/src/inet.c:9-96 | One to four decimal, octal or hexadecimal numbers, with anything after a space, are read as their address, the last number taking the bytes left |
| Inet.AtonAccepts | wolksensor/wolksensor/src/inet.c:9-96 | Every text with an address other than 0 is one to four such numbers with nothing, or a space and anything, behind them, and the address is theirs |
| Inet.Aton | wolksensor/wolksensor/src/inet.c:9-96 | The loops compute that function on every C string |
| Inet.Collect | wolksensor/wolksensor/src/inet.c:33-44 | The inner loop accumulates digits of the base on 32 bits |
| Inet.Combine | wolksensor/wolksensor/src/inet.c:66-95 | The bounds and positions of the parts |
| Inet.IntegerToAscii | wolksensor/wolksensor/src/inet.c:140-158 | One to three digits without leading zeros, written behind what was there |
| Inet.Ntoa | wolksensor/wolksensor/src/inet.c:160-181 | The static buffer holds the four numbers of the address, most significant first, and a NUL |
| Eeprom.WriteRefinesMap | wolksensor/wolksensor/src/OS/nonvolatile_memory.c:60-92 | Writing a page to its target keeps at most one page a type, and changes the map of stored fields for this type only, to the version and bytes written |
| Eeprom.Nonvolatile.ReadPage | wolksensor/wolksensor/src/OS/nonvolatile_memory.c:39-57 | Found if and only if the type is stored with this version; then its bytes are copied |
| Eeprom.Nonvolatile.WritePage | wolksensor/wolksensor/src/OS/nonvolatile_memory.c:60-92 | Written if and only if short enough and the type has a page or an empty one is left, which it then takes; the last page and, on failure, all memory stay |
| Eeprom.Nonvolatile.Search | wolksensor/wolksensor/src/OS/nonvolatile_memory.c:66-81 | The loop finds the page of the type, else the first empty one |
| Eeprom.Nonvolatile.Read | wolksensor/wolksensor/src/OS/nonvolatile_memory.c:95-154 | A field, or the text put together from the pages of a name or password, with what the destination held from byte 30 on in between if the first page is full |
| Eeprom.ReadsStoredExactly | wolksensor/wolksensor/src/OS/nonvolatile_memory.c:95-154 | What is read is what is stored if and only if the first page is not full or the destination has a zero at byte 30 |
| Eeprom.Nonvolatile.Write | wolksensor/wolksensor/src/OS/nonvolatile_memory.c:156-210 | A field, or a name or password over its pages: written if and only if its last part fits a page and there are as many empty pages as parts without one; other types and the last page stay |
| Eeprom.WriteTakes | wolksensor/wolksensor/src/OS/nonvolatile_memory.c:66-81 | Writing takes an empty page exactly if the type had none |
| Eeprom.TargetMeans | wolksensor/wolksensor/src/OS/nonvolatile_memory.c:66-81 | There is a page for a type if and only if it has one or one is empty |
| Eeprom.NameRoundTrip | wolksensor/wolksensor/src/OS/nonvolatile_memory.c:95-210 | A name of up to 32 bytes comes back out of its two pages, whatever the second page held behind its three bytes |
| Eeprom.PasswordRoundTrip | wolksensor/wolksensor/src/OS/nonvolatile_memory.c:95-210 | A password of up to 63 bytes comes back out of its three pages |
| Eeprom.NameSurvives | wolksensor/wolksensor/src/OS/nonvolatile_memory.c:95-210 | A name written, then any other fields, passwords included, then read into an array: reading succeeds if and only if there was room for its two pages, whatever became of the other writes, and what is read is the name if and only if it is shorter than 30 bytes or byte 30 of the array was zero |
| Eeprom.PasswordSurvives | wolksensor/wolksensor/src/OS/nonvolatile_memory.c:95-210 | The same for a password, its three pages and any other fields, names included |
| Eeprom.StrCat | wolksensor/wolksensor/src/OS/nonvolatile_memory.c:118-118 | The text after appending is both texts, if there is room |
| Bootloader.FrameDelivered | wolksensor/wolksensor/bootloader/src/Bootloader.c:314-356 | A complete PROGRAM frame delivers its 512 bytes as they are, terminators included, whatever rounds without a byte lie between its bytes or follow, short of a timeout: with the right checksum and working flash the page is written, counted and acknowledged; with a wrong one nothing but the replies changes |
| Bootloader.FrameIsBuffered | wolksensor/wolksensor/bootloader/src/Bootloader.c:314-324 | A terminator inside a frame does not end it: up to its last byte it is only buffered, with any rounds without a byte in between |
| Bootloader.RoundKeeps | wolksensor/wolksensor/bootloader/src/Bootloader.c:314-398 | Every round the buffer and the flash have room for keeps the flash below the address equal to the acknowledged pages: bytes, commands, timeouts and idle rounds, however full both are |
| Bootloader.FlashIsAcknowledged | wolksensor/wolksensor/bootloader/src/Bootloader.c:265-398 | In every run from a reset in which no byte comes with the receive buffer full and no page is programmed beyond the flash, whatever bytes come otherwise, whatever times out and whatever the flash makes of what is written in each round, the flash below the address is the pages acknowledged since the reset or the last START_BOOT |
| Bootloader.ProgrammedKeeps | wolksensor/wolksensor/bootloader/src/Bootloader.c:241-261 | A page written and read back, well or badly, leaves everything below the address |
| Bootloader.AlignedWrite | wolksensor/wolksensor/bootloader/src/BootloaderAPI.c:40-51 | A whole page written at its own address replaces that page and no other byte |
| Bootloader.CheckSum | wolksensor/wolksensor/bootloader/src/Bootloader.c:174-185 | The 513 bytes add up to 0 on 8 bits |
| Bootloader.Loader.constructor | wolksensor/wolksensor/bootloader/src/Bootloader.c:265-312 | The state after a reset satisfies the invariant |
| Bootloader.Loader.WriteData | wolksensor/wolksensor/bootloader/src/BootloaderAPI.c:40-51 | Read, overlay, write: the page of the address is overlaid up to its end, other pages stay |
| Bootloader.Loader.DecodeCommand | wolksensor/wolksensor/bootloader/src/Bootloader.c:202-237 | The four commands and the refusal of others, with flag, address and replies |
| Bootloader.Loader.DecodeProgram | wolksensor/wolksensor/bootloader/src/Bootloader.c:241-261 | Only a page that reads back equal is acknowledged and counted |
| Bootloader.Loader.ReceiveByte | wolksensor/wolksensor/bootloader/src/Bootloader.c:314-356 | What a byte does: buffered, a command, or a complete frame with its checksum |
| Bootloader.Loader.CountTime | wolksensor/wolksensor/bootloader/src/Bootloader.c:358-394 | Both timeouts and counters |
| Bootloader.Loader.OneRound | wolksensor/wolksensor/bootloader/src/Bootloader.c:312-398 | One round in place is the round function, and keeps the invariant |

## Left out

- UDP and Ethernet modules: near copies of the TCP machine.
- `libemqtt`: packets are kinds and identifiers given by the environment.
- Stopwatch times and platform-specific error codes of the communication modules: data carried along, without effect.
- Nested process handles: WiFi sees TCP and UDP, MQTT and the application see the modules below, only by their answers.
- A process handle called before any was set: `EVENT_PROCESS` at the root always gets an answer.
- Interrupts inside ring operations: every ring operation and every handler is one step.
- Ring elements as raw bytes of some size, and rings without storage: elements are values, and storage has 1 to 32768 elements.
- Heartbeat, alarm and sensor decisions inside `Application`: their events come at any time; `Backoff` has the heartbeat.
- Effects of commands other than READINGS, NOW, ACQUISITION and RELOAD on settings.
- Actuator states, detected networks and system items in a publication.
- SYSTEM responses in parts: their separator is added apart and may be lost in a full buffer.
- Rendering of numbers in readings: a reading is a non-empty text.
- Arguments of commands other than ALARM: whether they are valid is a parameter.
- Timing of flash and EEPROM operations, the watchdog, and the hardware set-up of the boot loader.
- Logging, USB, infrared, configuration loaders and status texts.
- MqttProtocol.Step: returns true for a request, which the source answers with the process handle itself.
- Eeprom.Nonvolatile.WritePage: the type 255, which marks an empty page and is no field, is excluded.
- Eeprom.Nonvolatile.Write: passwords longer than one page but shorter than two, for which the source copies a negative length, are excluded.
- BlockChaining.Decrypt: the lengths 0 and 65522 to 65535, for which the loop of the source never ends, are excluded.
- Backoff.Heartbeat.StartHeartbeat: a new period of 0 once minutes have been counted, by which the source divides, is excluded.
- Eeprom.Nonvolatile.Read: a destination in which the appended text would run past the end, or without a zero behind a full first
  page, is excluded.
- Eeprom.NameSurvives: excludes the same destinations, as does `Eeprom.PasswordSurvives`.
- Bootloader.FlashIsAcknowledged: runs with a byte behind the receive buffer or a page to program beyond the flash are excluded.
- Bootloader.RoundKeeps: such rounds are excluded.
- Bootloader.Loader.ReceiveByte: such bytes are excluded.
- Bootloader.Loader.OneRound: a byte that comes with the receive buffer full, and a page to program beyond the flash, are excluded.
- WifiModule.DriverInOrder: the reports counted are those handled, whenever the driver made them.
- Application.AtLeastOnce: that the protocol reports no more readings than the buffer has is what `Readings.AppendReadings` proves of
  its count, put into the answers here; the two machines are not run together.
- Application.BusyWhileExchanging: the texts of the answers are not part of it.
