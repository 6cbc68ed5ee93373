# A keep-alive SSH gateway, modelled and proved in Dafny

The gateway holds SSH sessions open while their clients come and go. One task per
session ingests the shell's output into a bounded scrollback addressed by absolute
offsets. Clients attach over length-prefixed framed streams, each with a reader and a
cursor of its own, drop, and attach again with a resume token. Output to a client is
metered and throttled; session slots are opened and closed with a control plane.

`dafny verify dfyconfig.toml` checks everything. One module a file:

| module | what it covers |
|---|---|
| `Frames`, `Utf8`, `Codec`, `Layout`, `Canonical` | the wire types; encoder and decoder for every frame, in the Postcard wire format ("Varint Encoded Integers", "Tagged Unions"), and the bytes they come to; how far the decoder is from reading exactly what the encoder writes |
| `Places` | what it means to keep of a sequence exactly what some places of it say, in order |
| `Framing` | length prefixes, and the two stream halves as classes over a byte stream that may end anywhere |
| `Scrollback` | the ring buffer and the locked block of `next`, as values and as classes |
| `Readers`, `Delivery`, `CancelSafety` | one ingest task and any number of readers as interleaved atomic steps; wakeups, delivered streams, keep-alive, dropped calls |
| `Sessions` | the two-map registry |
| `ReplyGrammar`, `Lifecycle`, `LifecycleProofs`, `LifecycleTheorems`, `LifecycleSlots`, `LifecycleTokens`, `LifecycleResume`, `LifecycleTrace` | any number of connection handlers interleaving at each `await` over one registry and one control plane; when a slot is freed, when it is lost, how long a token works and where it leads, what each step sends and reports |
| `Quota` | the token bucket, its exact envelope, and `throttle` |
| `Receiver`, `Sender`, `Metering`, `SshActor` | the loops of a connection and of the SSH channel |
| `Streaming`, `StreamingProgress`, `StreamingLifecycle` | one client's sender task and its meter, drawing from its reader while everything else goes on, up to the bytes on the wire; and that task in the machine of all handlers |
| `Keystrokes`, `KeystrokesProgress` | any number of handlers and the SSH actor around the one bounded queue they share, and who keeps that queue open |
| `Gateway` | constants and byte streams put together across crates |

The step machines hold the ghost history the statements are about: every byte ever
appended, what each reader was given and what it skipped, the log the control plane
sees, the tokens clients were sent. The clock keeps a ghost log of the time that passed
on it and of the bytes metered meanwhile. Classes are tied to values (`Value()`,
`Snapshot()`), and the values carry the lemmas.

Assumed: session ids and resume tokens are never drawn twice; a client presents a token
it was sent or one that belongs to no session, ever; `sleep` lasts at least as long as
asked and the clock does not run backwards; `Notify::notify_waiters` readies exactly the
`Notified` values created before it and stores no permit; `usize` is 64 bits wide.

## Where the code and a natural reading part ways

The model follows the code. Where a promise fails there is a state or an input that shows
it, and a lemma that says exactly when it is kept.

- `decode` is documented to take exactly a frame's bytes (`crates/gw-proto/src/codec.rs:31`);
  it ignores trailing bytes and accepts padded varints (`Codec.DecodeIsNotInjective`). What
  is decoded is the encoding if and only if no varint read from it is padded and nothing
  follows the frame; the encoding is the one shortest byte string that decodes to its frame
  (`Canonical.ClientDecodesExactlyIff`, `Canonical.ServerDecodesExactlyIff`).
- A client that reattaches is to replay everything it missed (`crates/gw-core/src/lib.rs:7`).
  If it is no further behind than the scrollback that is in the stream it gets, after some
  bytes it already holds (`Delivery.KeepAlive`), but no frame says how many. What it was sent
  leaves exactly the numbers of `Delivery.OverlapIff` open: all it holds when the replay does
  not fill the scrollback, and otherwise any end of what it holds that the replay begins with
  (`Delivery.OverlapUnknown`). `Delivery.OverlapKnownIff` says when there is only one.
- `session_close` is not reported exactly once: two connections attached to one session can
  both report it (`LifecycleTheorems.CloseReportedTwice`); `LifecycleTheorems.CloseRepeatsIff`
  says which reports are repeats. A session may end while nobody is attached to it
  (`LifecycleTheorems.EndsWhileDetached`); nothing is reported until someone is
  (`LifecycleSlots.HeldWhileDetached`, `LifecycleSlots.FreedIff`), and whoever attaches then
  can free the slot by its own steps (`LifecycleSlots.HandlerFrees`).
- A connection that fails between approval and its `Hello` leaves an approved session whose
  token nobody knows: its slot is held for ever (`LifecycleTheorems.SlotCanBeStranded`,
  `LifecycleTheorems.StrandedForever`). Nothing else strands a session
  (`LifecycleSlots.StrandsIff`).
- `Closed` is documented to mean that the resume token is no longer valid
  (`crates/gw-proto/src/frame.rs:113`). It is sent before the removal
  (`LifecycleTheorems.ClosedSentTokenWorks`); the token works exactly until the session is
  first removed (`LifecycleTokens.TokenWorksIff`, `LifecycleTokens.ClosedTokenIff`).
- `throttle` never returns for more than the burst, because `time_until` caps its argument
  and `try_consume` does not (`Quota.ThrottleReturnsIff`). No chunk of a session with the
  default scrollback is that large (`Gateway.ChunksAreSendable`).
- `sender.abort()` is not awaited, so the reported `bytes_out` may exceed what is ever sent
  (`Metering.ReportMayExceedSent`); `Metering.ReportIsSentIff`, and `Streaming.ReportInRun`
  for the task with its reader and its wire, say when it is what has been sent, and when it
  is what is sent in the end.
- An explicit `Close` is documented to tear the session down (`crates/gw-server/src/handler.rs:8`).
  It leaves the SSH actor running (`Keystrokes.CloseLeavesActor`): the ingest task owns the
  session and with it the input sender (`crates/gw-core/src/lib.rs:157`,
  `crates/gw-core/src/lib.rs:112`), so the actor's end-of-input branch
  (`crates/gw-ssh/src/lib.rs:267`) is never reached (`Keystrokes.QueueNeverCloses`) and only
  its channel ends it (`Keystrokes.ActorStopsIff`).
- Nothing follows an `Error` frame, whatever `crates/gw-proto/src/frame.rs:111` says
  (`LifecycleTheorems.RepliesAreGrammatical`), and the token in `Hello` is never rotated
  (`crates/gw-proto/src/frame.rs:89`): it is the one its session was created with
  (`LifecycleTheorems.HelloIsTrue`).

Byte-exact encodings that fix the variant numbers, the order of fields and the option tags
stand beside the codec as examples: `Codec.ClientWireExamples`, `Codec.OpenWireExample`,
`Codec.TagWireExamples` and `Codec.ServerWireExamples`.

## Model

| member | source | states |
|---|---|---|
| Codec.VarintRoundTrip | crates/gw-proto/src/codec.rs:27-34 | reading a written varint of any permitted width gives the number and leaves what followed; it takes at most that many groups |
| Codec.VarintShape | crates/gw-proto/src/codec.rs:32-34 | a successful read takes a non-empty run of groups off the front and returns their base-128 value |
| Codec.VarintCanonical | crates/gw-proto/src/codec.rs:32-34 | what was read is written back to the same bytes if and only if the last of several groups is not zero |
| Codec.CapWidths | crates/gw-proto/src/codec.rs:27-34 | the group limits carry exactly 16, 32, 64 and 128 bits |
| Codec.ClientRoundTrip | crates/gw-proto/src/frame.rs:54-83 | every client frame is read back from its encoding, whatever bytes follow it |
| Codec.ServerRoundTrip | crates/gw-proto/src/frame.rs:85-126 | every server frame is read back from its encoding, whatever bytes follow it |
| Codec.AuthRoundTrip | crates/gw-proto/src/frame.rs:34-52 | every authentication intent, with its nested option, is read back from its encoding |
| Codec.CodecRoundTrip | crates/gw-proto/src/codec.rs:26-34 | `decode(encode(f)) == f` for all client and all server frames |
| Codec.ClientPrefixFree | crates/gw-proto/src/codec.rs:26-29 | no client frame's encoding is a prefix of another's, so encodings are unambiguous |
| Codec.ServerPrefixFree | crates/gw-proto/src/codec.rs:26-29 | the same for server frames |
| Codec.DecodeIsNotInjective | crates/gw-proto/src/codec.rs:31-34 | a trailing byte and a padded varint decode to the same frame as the encoding |
| Canonical.ClientTight | crates/gw-proto/src/codec.rs:26-34 | reading a client frame off any bytes and writing it back before what is left is never longer than the bytes; it is as long, and it is them, if and only if no varint read is padded |
| Canonical.ServerTight | crates/gw-proto/src/codec.rs:26-34 | the same for server frames |
| Canonical.ClientDecodesExactlyIff | crates/gw-proto/src/codec.rs:31-34 | what decodes to a client frame is its encoding if and only if no varint read from it is padded and nothing follows the frame, and if and only if it is as long; nothing shorter decodes to the frame |
| Canonical.ServerDecodesExactlyIff | crates/gw-proto/src/codec.rs:31-34 | the same for server frames |
| Codec.OutputOverhead | crates/gw-proto/src/codec.rs:26-29 | an output frame is at most 15 bytes longer than its payload |
| Layout.ClientLayout | crates/gw-proto/src/frame.rs:34-83 | every client frame is its variant number and then its fields, nested ones included, in the order in which they are declared |
| Layout.ServerLayout | crates/gw-proto/src/frame.rs:85-126 | every server frame is |
| Utf8.ValidIff | crates/gw-proto/src/codec.rs:32-34 | a text field is accepted if and only if its bytes are the UTF-8 encoding of some sequence of scalar values |
| Framing.Be32RoundTrip | crates/gw-proto/src/codec.rs:44 | the big-endian length prefix of any 32-bit length is read back as that length |
| Framing.Be32Places | crates/gw-proto/src/codec.rs:44 | the prefix is the four base-256 digits of the length, the most significant first, and nothing else reads as that length |
| Framing.EncodeFramed | crates/gw-proto/src/codec.rs:38-47 | the prefix and the body, or an error carrying the length if and only if the body exceeds the cap |
| Framing.FramedSend.Send | crates/gw-transport/src/framed.rs:45-49 | writes the whole framed encoding, or nothing if it is too large, or what fits when the peer goes away, and reports which |
| Framing.FramedRecv.Recv | crates/gw-transport/src/framed.rs:68-78 | one receive as `Framing.Receive` gives it, with a body buffer never above the cap |
| Framing.ReceivesIff | crates/gw-transport/src/framed.rs:68-78 | a frame is received if and only if the stream starts with a length within the cap and a body of that length that decodes to it, and what follows is left |
| Framing.ReceiveFails | crates/gw-transport/src/framed.rs:68-78 | a length above the cap is an error carrying it, with the body unread; a stream that ends in the prefix or the body is a truncation |
| Framing.ReceiveFramed | crates/gw-transport/src/framed.rs:68-78 | a receive on a sent frame returns that frame and leaves exactly what follows |
| Framing.CutStream | crates/gw-transport/src/framed.rs:68-78 | a stream of frames cut after any number of bytes yields exactly the frames that arrived whole and then a truncation error |
| Framing.WholeIsLongestPrefix | crates/gw-transport/src/framed.rs:68-78 | the frames that arrived whole are the longest prefix whose bytes lie before the cut |
| Framing.StreamRoundTrip | crates/gw-transport/src/framed.rs:45-78 | repeated receives on the concatenated frames return exactly the list sent |
| Framing.ClientsAreSendable | crates/gw-proto/src/codec.rs:38-47 | every list of client frames within the cap meets what the stream results ask of it |
| Framing.ServersAreSendable | crates/gw-proto/src/codec.rs:38-47 | every list of server frames within the cap does too |
| Scrollback.AppendAllRetains | crates/gw-core/src/lib.rs:95-104 | after any appends the buffer is the last `max_bytes` bytes of everything appended, at its absolute offsets |
| Scrollback.ChunkingLeavesNoTrace | crates/gw-core/src/lib.rs:95-104 | the same output split differently leaves the same buffer and offsets |
| Scrollback.LookMeaning | crates/gw-core/src/lib.rs:184-198 | a look skips exactly what aged out past the cursor, returns all the rest of the output, and leaves the cursor at its end |
| Scrollback.SessionInner.Append | crates/gw-core/src/lib.rs:96-104 | extending and draining in place appends to the output the buffer stands for |
| Scrollback.SessionReader.Check | crates/gw-core/src/lib.rs:184-198 | the locked block returns what is left past the cursor in terms of the whole output, and moves the cursor to its end |
| Readers.CheckMeaning | crates/gw-core/src/lib.rs:184-198 | what a check does to a reader, in terms of the output alone |
| Readers.StepKeepsInv | crates/gw-core/src/lib.rs:157-202 | every step of ingest and of every reader keeps the invariant: retained output, explained logs, finality, and the owed notify |
| Delivery.NoLostWakeup | crates/gw-core/src/lib.rs:157-202 | in every run, a reader asleep and not notified, with output to return or a closed session, is owed a `notify_waiters` |
| Delivery.NextReturns | crates/gw-core/src/lib.rs:177-202 | when ingest owes nothing and there is something to return, `next` returns after at most four steps of its own |
| Delivery.StreamRefinement | crates/gw-core/src/lib.rs:157-202 | in every run a reader's output is the session's with exactly its skipped positions removed, its cursor is delivered plus skipped, and `None` comes only at the end of output that never grows again |
| Delivery.ChecksDeliver | crates/gw-core/src/lib.rs:184-198 | what each check adds to what the reader got: a gap exactly when more than `max_bytes` arrived past its cursor, and `None` exactly when closed and caught up |
| Delivery.ClosedIsFinal | crates/gw-core/src/lib.rs:159-164 | once closed, a session stays closed and its output never changes |
| Delivery.KeepAlive | crates/gw-core/src/lib.rs:137-144 | a client that holds a prefix of the output and is at most `max_bytes` behind recovers all of it by dropping the overlap of a fresh reader's stream |
| Delivery.OverlapIff | crates/gw-core/src/lib.rs:137-194 | of a client that holds some output and reattaches at most `max_bytes` behind: over all runs, its replay overlaps what it holds by all of it if shorter than the scrollback, and else by any end of it that begins the replay, and by nothing else |
| Delivery.OverlapKnownIff | crates/gw-core/src/lib.rs:137-194 | so what it received determines the overlap if and only if the replay is shorter than the scrollback or no non-empty end of what it holds begins the replay |
| Delivery.OverlapUnknown | crates/gw-proto/src/frame.rs:97-99 | one replay that may overlap what is held by none, one or both of its bytes |
| Delivery.ReattachReplays | crates/gw-core/src/lib.rs:137-194 | a newly attached reader's first call returns the last `min(max_bytes, length)` bytes of non-empty output, from any reachable state |
| Delivery.ChunkBound | crates/gw-core/src/lib.rs:189-193 | no chunk is larger than the scrollback |
| CancelSafety.DropWhenNotified | crates/gw-server/src/handler.rs:311-335 | dropping a notified call and calling again ends in the same state as letting it finish |
| CancelSafety.DropWhenIdle | crates/gw-server/src/handler.rs:311-335 | dropping a sleeping call while ingest owes nothing and calling again leaves the very same state |
| CancelSafety.DropWhenOwed | crates/gw-server/src/handler.rs:311-335 | racing a notify, dropping and calling again delivers the same as waiting and differs at most in a pending wakeup |
| CancelSafety.StepRefines | crates/gw-core/src/lib.rs:177-202 | every step refines a machine with no wakeups and no drops; wakeups, re-arming and drops are invisible in it |
| CancelSafety.RunRefines | crates/gw-core/src/lib.rs:157-202 | every run ends where that machine ends on the steps that changed something visible |
| CancelSafety.DropsLeaveNoTrace | crates/gw-server/src/handler.rs:311-335 | two runs that agree on the steps that changed something deliver the same to every reader, however often either dropped a pending call |
| CancelSafety.DropFreeTwin | crates/gw-server/src/handler.rs:311-335 | for every run of a session that retains anything there is one without any drop, given outright, that ends with the same session and with every reader at the same cursor having received the same |
| CancelSafety.SilentTwin | crates/gw-core/src/lib.rs:43-48 | with a scrollback of zero bytes the same run without drops ends with the same session, every reader having received the same, no byte at all, and as many final `None`s |
| Sessions.CreateConsistentIff | crates/gw-core/src/lib.rs:51-59 | inserting keeps the two maps inverse if and only if id and token are both new or already belong together |
| Sessions.OperationsRefine | crates/gw-core/src/lib.rs:51-74 | create, resume and remove act on one token-to-session map; remove is idempotent and undoes create |
| Sessions.SameSize | crates/gw-core/src/lib.rs:33-36 | the two maps have the same size |
| Sessions.RunHoldsAlive | crates/gw-core/src/lib.rs:51-78 | after any operations on fresh sessions the maps are inverse, of one size, and hold exactly the sessions created and not removed since |
| Sessions.ResumeIff | crates/gw-core/src/lib.rs:62-66 | a token resolves to a session if and only if it is that session's and it was created and not removed since |
| Sessions.SessionManager.Create | crates/gw-core/src/lib.rs:51-59 | the two maps after registering a freshly drawn id and token |
| Sessions.SessionManager.Resume | crates/gw-core/src/lib.rs:62-66 | the lookup through both maps |
| Sessions.SessionManager.Remove | crates/gw-core/src/lib.rs:69-74 | the two maps after a removal, present or not |
| Sessions.SessionManager.Len | crates/gw-core/src/lib.rs:76-78 | the number of live sessions |
| ReplyGrammar.ScanShape | crates/gw-server/src/handler.rs:100-201 | whatever the reply automaton accepts is some signature requests and then an error, or a `Hello`, a live status, output and pongs and at most a final `Closed`, or a prefix of that; and a resumed `Hello` follows no request |
| LifecycleProofs.StepKeepsInv | crates/gw-server/src/handler.rs:44-201 | every step of every handler keeps the invariant of registry, tokens, log, reply phases and slots |
| LifecycleTheorems.SlotAccounting | crates/gw-server/src/handler.rs:82-201 | in every run, opened and unclosed sessions are registered; registered ones are opened and unclosed, or await a verdict or a refusal's removal, or are between a close report and its removal |
| LifecycleTheorems.OpenedBeforeAll | crates/gw-server/src/handler.rs:143-201 | every close, greeting, resume and usage report of a session comes after its `session_open` was granted; the log only grows |
| LifecycleTheorems.HelloIsTrue | crates/gw-server/src/handler.rs:188-194 | a `Hello` names an approved session and carries the token that resolves to it, unless its close was reported meanwhile |
| LifecycleTheorems.RepliesAreGrammatical | crates/gw-server/src/handler.rs:100-335 | in every run the frames of every connection follow the reply grammar, and a resumed connection asked for no signature |
| LifecycleResume.ResumesIff | crates/gw-server/src/handler.rs:143-147 | in every run, an authorized handler greets a session as resumed if and only if its `Hello` carried the token with which that session was created and no handler has removed it since; if there is none it has sent and reported nothing and waits for an `Open` |
| LifecycleResume.OpensNew | crates/gw-server/src/handler.rs:145-201 | from there its own steps and an approval lead to a session that is registered, reported as opened, greeted as not resumed, and live |
| LifecycleResume.RefusedLeavesNothing | crates/gw-server/src/handler.rs:171-186 | and with a refusal to an error as its only frame, with registry and reports as they were |
| LifecycleTrace.ClientGetsWhatIsSent | crates/gw-server/src/handler.rs:100-335 | in every run a client has been sent exactly the frames its handler's steps sent, in order |
| LifecycleTrace.LogIsWhatIsReported | crates/gw-server/src/handler.rs:82-187 | in every run the control plane has seen exactly the events the steps reported, in order |
| LifecycleTheorems.UsageBeforeClose | crates/gw-server/src/handler.rs:82-91 | in every run a session's usage is reported before its close is |
| LifecycleTheorems.ClosedAtMostOnce | crates/gw-server/src/handler.rs:89-91 | a session never used by two connections at once has its close reported at most once |
| LifecycleTheorems.CloseReportedTwice | crates/gw-server/src/handler.rs:89-91 | a reachable state in which one session's close was reported twice |
| LifecycleTheorems.CloseRepeatsIff | crates/gw-server/src/handler.rs:89-91 | a close is reported if and only if asked for or the session ended, and is a repeat if and only if the session is unregistered or another handler is between report and removal |
| LifecycleTheorems.EndsWhileDetached | crates/gw-server/src/handler.rs:89-95 | a reachable state in which a session has ended with nobody attached, its slot is still held, and its client can still resume it |
| LifecycleSlots.FreedIff | crates/gw-server/src/handler.rs:89-91 | in every run a held slot is freed by a step if and only if in it a handler attached to the session decides that its client asked to close or that the session has ended |
| LifecycleSlots.HeldWhileDetached | crates/gw-server/src/handler.rs:89-95 | in every run, while nobody is attached to a session its slot stays held and it stays registered, ended or not |
| LifecycleSlots.HandlerFrees | crates/gw-server/src/handler.rs:79-91 | from any state, a running handler of an ended session, or one asked to close, frees the slot and unregisters the session by its own four steps |
| LifecycleTheorems.ClosedSentTokenWorks | crates/gw-server/src/handler.rs:321-324 | a reachable state in which `Closed` was sent and the token still resolves |
| LifecycleTokens.TokenWorksIff | crates/gw-core/src/lib.rs:62-74 | in every run a created session's token resolves to it if and only if no handler has removed the session yet |
| LifecycleTokens.ClosedTokenIff | crates/gw-server/src/handler.rs:188-194 | a connection that has sent `Closed` has sent a `Hello`, and the token in it resolves if and only if no handler has removed that session yet |
| LifecycleTheorems.StrandedForever | crates/gw-server/src/handler.rs:171-195 | an approved session that nobody uses and whose token nobody was sent keeps its slot and its registration in every later state |
| LifecycleTheorems.SlotCanBeStranded | crates/gw-server/src/handler.rs:188-194 | such a session is reachable: its connection fails before the `Hello` leaves |
| LifecycleSlots.StrandsIff | crates/gw-server/src/handler.rs:171-195 | in every run a step strands a session if and only if its creator's connection fails before its `Hello`, none of which reaches the client, and nobody was sent the token |
| Quota.TokensAreLeastRoom | crates/gw-core/src/quota.rs:98-123 | over any run from a full bucket the tokens are the minimum, over all windows ending now, of capacity plus rate times time minus bytes |
| Quota.LimiterIsExact | crates/gw-core/src/quota.rs:115-123 | a take succeeds if and only if every window ending with it stays within burst plus rate times its length |
| Quota.PayableIff | crates/gw-core/src/quota.rs:98-123 | a full bucket can pay for a log of takes and times if and only if no window of it, anywhere, exceeds burst plus rate times its length |
| Quota.RefillSplits | crates/gw-core/src/quota.rs:110-112 | refilling in two goes is refilling once |
| Quota.TimeUntilIff | crates/gw-core/src/quota.rs:126-133 | a wait brings the amount, capped at capacity, if and only if it is at least `time_until` |
| Quota.WaitSuffices | crates/gw-core/src/quota.rs:126-133 | after waiting at least `time_until`, an amount within capacity is available |
| Quota.ThrottleReturnsIff | crates/gw-server/src/handler.rs:340-351 | some round of `throttle` succeeds if and only if the amount fits the burst, and then the first or the second does |
| Quota.RoundIsRefill | crates/gw-server/src/handler.rs:342-350 | refilling in any number of rounds, sleeps in between, is refilling once for the whole time |
| Quota.Throttle | crates/gw-server/src/handler.rs:340-351 | watched for any number of rounds, it is through after the first one that is granted; the bucket is refilled for all the time since `last` and pays the amount if through; amounts within the burst get through in two rounds and larger ones never; after a sleep, the amount was not there at any time before that sleep had run out, and what is left came in while the last reading was late |
| Quota.TokenBucket.TryConsume | crates/gw-core/src/quota.rs:115-123 | takes the amount if and only if that many tokens are there, else changes nothing |
| Quota.TokenBucket.TimeUntil | crates/gw-core/src/quota.rs:126-133 | the least wait that brings an amount capped at capacity |
| SshActor.ActsInOrder | crates/gw-ssh/src/lib.rs:236-270 | after any turns on any queue, what was done on the channel is what was consumed, in order, but for a resize still deferred or a refused write that ended it |
| SshActor.ActsDeliver | crates/gw-ssh/src/lib.rs:243-256 | and the output passed on is the output that came in, until it stopped |
| SshActor.ActsRun | crates/gw-ssh/src/lib.rs:228-272 | every turn is taken until one stops the actor, for the cause that turn gives; each that takes from the queue consumes the next input as long as there is one |
| SshActor.Run | crates/gw-ssh/src/lib.rs:228-272 | the loop computes exactly those turns; whenever it waits or stops, the operations done are, one for one and in order, the same keystrokes written and the same sizes set as in everything consumed, a refused write excepted; the output passed on is exactly that of the turns that deliver |
| Keystrokes.StepKeepsInv | crates/gw-server/src/handler.rs:361-384 | every step of handlers, actor and ingest keeps the account of each client's inputs, the owner of each operation, and the session held while the actor runs |
| Keystrokes.KeystrokesInOrder | crates/gw-ssh/src/lib.rs:236-270 | in every run of any number of handlers sharing the bounded queue, the operations applied for one client are, one for one and in order, what its first frames say: keystrokes written, sizes set |
| Keystrokes.NothingLost | crates/gw-core/src/lib.rs:146-150 | and they are all of its frames up to a `Close` once its handler is done and the actor has caught up |
| Keystrokes.QueuesAreBounded | crates/gw-ssh/src/lib.rs:222-223 | in every run no more than 64 inputs wait for a running actor and no more than 256 messages for the ingest task |
| KeystrokesProgress.EverythingArrives | crates/gw-server/src/handler.rs:361-384 | from every state of every run with a running actor, a client's handler and the actor by themselves bring everything in the client's stream up to its `Close` to the channel |
| Keystrokes.ActorIsRun | crates/gw-ssh/src/lib.rs:228-272 | in every run the actor has done what `SshActor.Run` computes from its turns and the shared queue |
| Keystrokes.QueueNeverCloses | crates/gw-core/src/lib.rs:157-166 | in every run, while the actor runs the ingest task holds the session, so the actor never finds its inputs closed or its consumer gone |
| Keystrokes.ActorStopsIff | crates/gw-ssh/src/lib.rs:242-270 | in every run the actor has stopped if and only if its channel has hung up or refused a write |
| Keystrokes.CloseLeavesActor | crates/gw-server/src/handler.rs:89-91 | a run in which the only client asks to close and the session is unregistered, and the actor still runs |
| Receiver.ReceiverLoop | crates/gw-server/src/handler.rs:355-385 | serves exactly the frames before the first `Close` or error: the inputs forwarded are, one for one and in order, the keystrokes and sizes in its `Input` and `Resize` frames; a pong per ping; `bytes_in` grows by the bytes typed; and the outcome is `Closed` if and only if a `Close` arrived |
| Receiver.BeforeCloseIsPrefix | crates/gw-server/src/handler.rs:361-383 | what is served is a prefix of what was sent, all of it if and only if there is no `Close` |
| Receiver.ControlSigner.Sign | crates/gw-server/src/handler.rs:256-295 | sends one request with the next id and returns the first response with it, or the transport error, or the first other frame; the stream is left just after it |
| Receiver.AnswerIs | crates/gw-server/src/handler.rs:274-293 | pings and responses to other requests are passed over and nothing else; the first other frame is the signature if it is the response and an error with that frame if not; without one the call fails with the stream |
| Receiver.NextIsFirst | crates/gw-server/src/handler.rs:281-292 | the frame an answer comes from is the first that is neither a ping nor a stale response |
| Receiver.AnswersMatch | crates/gw-server/src/handler.rs:256-295 | over any number of calls with their increasing ids, each answer is the response to its own request, after only stale responses and pings, further on than the answer before |
| Receiver.ChainedTaken | crates/gw-server/src/handler.rs:256-295 | of any number of chained calls of `Sign`, each reading on from where the one before stopped, those that succeed return the signatures at just those positions, and the next one fails |
| Sender.RepliesKeepGrammar | crates/gw-server/src/handler.rs:311-335 | after the greeting, what the sender emits on any schedule keeps the reply grammar, and the connection is over if and only if the end of output was reached |
| Sender.RepliesAnswer | crates/gw-server/src/handler.rs:311-335 | on any schedule, what is sent is, one for one and in order, each chunk, each out-of-band frame and `Closed` for the end, up to that end and while the out-of-band channel is open; what is metered is the sizes of those chunks |
| Sender.SenderTask | crates/gw-server/src/handler.rs:299-336 | the frames emitted are those the turns done ask for, whole on the wire; it stops early only for a chunk the limiter never lets through or for a frame that is too large or does not fit, of which only what fits is written; while it runs, the clock's log shows the time that passed and, where they were metered, exactly the sizes of the chunks of the turns done and of a failed send, in order; the meter counts them; with a limit, no window of that log exceeds burst plus rate times its length, and whatever was held back for longer than a late reading ends a window that is full but for what comes in during that; without one no time passes |
| Metering.MeteringBounds | crates/gw-server/src/handler.rs:79-87 | in every run taken >= metered >= sent within one chunk, and what is metered and not sent is the chunk in flight or lost |
| Metering.ReportIsSentIff | crates/gw-server/src/handler.rs:79-87 | totals read after any step lie between what was sent by then and the final meter; they are what was sent by then if and only if no non-empty chunk is in flight or lost, and what is sent in the end if and only if the bytes counted since are those lost in the end |
| Metering.ReportMayExceedSent | crates/gw-server/src/handler.rs:79-82 | a run whose reported total is never sent |
| Streaming.StepKeepsInv | crates/gw-server/src/handler.rs:311-335 | every step of the sender task, its reader, ingest and the others keeps: the selects yielded exactly what the reader was given, the frames sent are the replies to them, and the counters are those of the meter after the same takes, counts and sends |
| Streaming.ClientSeesOutput | crates/gw-server/src/handler.rs:311-335 | in every run, what a client decodes from its connection's stream cut anywhere is a prefix of the session's output with exactly the skipped bytes left out |
| Streaming.ClosedMeansAll | crates/gw-server/src/handler.rs:321-324 | in every run a client told `Closed` has been sent all the output there will ever be, less what its reader skipped, and every connection keeps the reply grammar |
| Streaming.ReportInRun | crates/gw-server/src/handler.rs:79-87 | in every run, totals read at any point lie within one scrollback above the output sent by then; they are it if and only if no non-empty chunk is being sent or was lost so, and what is sent in the end if and only if the bytes counted since are those lost in the end |
| StreamingProgress.WhatIsDueGoesOut | crates/gw-server/src/handler.rs:311-335 | in every run, a task at its `select!` with something to be had sends by its own steps just that: in one frame all its reader has not skipped or returned, or `Closed` |
| StreamingLifecycle.EveryRunLifts | crates/gw-server/src/handler.rs:70-96 | from wherever a run of all handlers has brought the task's handler, every run of the task goes on as a run of all handlers, with the same frames sent at every point and the session ended at the same time |
| StreamingLifecycle.StreamingBegins | crates/gw-server/src/handler.rs:195-201 | a handler that sends its live status in any reachable state starts such a task, its greeting complete and no output sent |
| StreamingLifecycle.ElsewhereKeepsTracks | crates/gw-server/src/handler.rs:70-96 | anything other handlers do, or this one's receiver, may come in between without disturbing it |
| Gateway.ChunksAreSendable | crates/gw-server/src/handler.rs:23-25 | with the default scrollback every chunk in every run passes the throttle after at most one sleep and its frame fits the frame cap |
| Gateway.ForwardsAPrefix | crates/gw-server/src/handler.rs:361-384 | wherever a client's stream is cut, what its handler forwards is a prefix of the inputs the client sent |
| Gateway.KeystrokesInOrder | crates/gw-ssh/src/lib.rs:236-270 | a client sends frames, its stream is cut anywhere, other handlers work beside it: in every run the operations applied for it are, one for one and in order, what the first frames it sent say |

## Left out

- Quota.Throttle: watches the source's loop for a given number of rounds, because for amounts above the burst the loop never ends.
- Sender.SenderTask: runs a finite schedule of select outcomes, and watches each `throttle` for a given number of rounds.
- Receiver.ControlSigner.Sign: requires that the 64-bit request counter does not overflow.
- Receiver.ChainedTaken: speaks of calls whose requests went out; a call whose request cannot be sent fails and reads nothing, as `Receiver.ControlSigner.Sign` says.
- Receiver.ReceiverLoop: is one handler by itself, whose channels lose everything after the point where their receiver went away; full queues and other handlers are in `Keystrokes`.
- LifecycleTheorems.ClosedAtMostOnce: is one direction, because two connections may share a session and only one of them close it; `LifecycleTheorems.CloseRepeatsIff` is exact, report by report.
- Readers.StepKeepsInv: takes the asynchronous loop of `next` and the ingest task as steps on values; of their in-place form only the locked block and the buffer are classes.
- LifecycleProofs.StepKeepsInv: takes `handle_connection` and `negotiate` as steps on values, with each `await` a point where any other handler may run; the entitlement and the account token play no part in it.
- Keystrokes.StepKeepsInv: takes a handler's stream as the frames it yields; `Gateway.KeystrokesInOrder` starts from the bytes.
- Streaming.StepKeepsInv: lets a chunk be metered at any moment after it was taken; when the limiter lets it through is in `Sender.SenderTask`.
- Metering.MeteringBounds: takes the two tasks around the unawaited abort as steps on values; atomics are plain counters.
- QUIC endpoints, TLS, PEM files, certificate pinning and `finish`: a stream is an ordered byte sequence that may end anywhere, also in the middle of a write.
- SSH handshake, authentication, host keys, fingerprints and PTY setup: opening a session succeeds or fails.
- `HttpAuthHook`, JSON, URLs, configuration, the command line, logging and deployment: the hook is any sequence of verdicts and an event log.
- The texts of error messages and the causes of transport errors, beyond which kind they are.
- Rounding of `f64` and of `Duration`: tokens and seconds are reals.
- Overflow of 64-bit offsets and byte counters: they are natural numbers.
- How ids and tokens are drawn; fairness of the scheduler and real time: progress is stated as steps a task can take by itself.
- Panics, and with them a poisoned lock or an ingest task that ends before the actor does.
