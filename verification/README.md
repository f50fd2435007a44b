# Stream delay: what is proved

stream-delay sits between an encoder and a streaming destination. It keeps what the encoder
sends for as long as the chosen delay, sends it on, and lets the streamer change the delay, throw
away ("dump") what still waits, and end or resume the broadcast. This project models its
hardest parts in Dafny and proves what they promise.

- **The delay engine** (`EngineTypes`, `Ring`, `Trace`, `EngineState`, `EngineLemmas`,
  `DelayEngine`, `EngineDecisions`, `EngineRuns`, `HeldFrames`). `DelayEngine.Engine` is a class with the
  engine's own operations over a ring of arrived messages. `Valid()` is its representation invariant; the
  ghost `log` remembers what a run must keep (all that arrived with what inspection said of it, all that
  was passed and what went out of it, identities of what was thrown away, the delay that was reached,
  when memory fell short, what the connection took). Every message has an identity of its own, because a
  replay reuses sequence numbers. `Trace` states the rules of what goes out over that history alone,
  `EngineDecisions` what look-ups, timestamps and refusals mean, and `EngineRuns` the rules over whole
  runs.
- **The dump handshake** (`WriteLog`, `DumpHandshake`, `HandshakeSteps`, `RelayCore`). The core and the
  egress task with their queues and the shared counter, as a relation over the steps of both in any
  interleaving; the write log and the core's side of a dump as classes.
- **The broadcast lifecycle** (`BroadcastRules`, `BroadcastEffects`, `Lifecycle`). The state machine as a
  function with its rules proved over every series of events, each of its effects in exactly the cases it
  is for, and the class that does exactly those steps.
- **The RTMP chunk codec** (`Bytes`, `ChunkFormat`, `ChunkDecoding`, `ChunkSending`, `ChunkLayout`,
  `ChunkCodec`). The decoder as a function from state and bytes, what a peer may send, the round
  trip between the two, both byte by byte with the protocol's own numbers, and the two classes as they
  run.
- **AMF0** (`Amf0`, `Amf0Layout`). Encoder, decoder and reader, when a value comes back, and the bytes it
  comes and goes as.
- **The settings merge** (`SettingsMerge`).

The model follows the code. Where a promise turned out to be narrower than its wording, the code
is kept, an input that shows it is given, and the exact condition is proved:

- A setting that a change leaves alone can still reach the saved file, with a section that the file
  has as `null` (`AgreementNotAlwaysKept`). It stays out if and only if the merge gets down to it or
  the values agree (`AgreementKeptExactly`), so always for settings of one shape (`SameShapeKept`).
- End stream after air is forgotten when the encoder is lost and the destination cannot be reached
  (`EndCanBeForgotten`). `EndIsKept` says exactly when it is not, over every run.
- A held frame can be shown to a destination that has not got its configuration: because the
  connection never did (`HeldFrames.ShowsUnconfigured`), or because the dump took back what would
  have brought it (`HeldFrames.ShowsLost`). `HeldFrames.DumpAndPoll` says exactly when the first held
  frame after a dump finds it: if and only if what the connection took configures what the encoder
  had configured at the keyframe held; and if the keyframe itself was taken there, if and only if
  nothing taken since configures otherwise (`AiredHere`).
- A comment in the core says that what was emitted after the last message delivered has not aired.
  After a reset some of it may have left the computer (`DeliveredIsNotAll`); what is proved is that
  no more of it leaves, and that everything up to that message was acknowledged.
- A peer that leaves extended timestamps out is read right exactly when four bytes of data are there
  and are not the timestamp (`UnrepeatedTimestamp`), and then over its whole run
  (`UnrepeatedFromStart`). A message whose second chunk begins with its own timestamp never comes
  (`DataMayBeginAlike`).

Memory is the one thing that breaks a promised delay. Every time it falls short is on record in
`log.shortfalls`, with how much had to be held. `Run` gives the states a run goes through, each a step
from the one before, and shows that none is recorded at an event at which what must be held, with what
the event adds, fits the limit.

## Model

| member | source | states |
|---|---|---|
| DelayEngine.Engine.constructor | crates/engine/src/lib.rs:468-517 | A new engine meets the invariant: nothing buffered, sent or remembered, not started, no delay, waiting for a keyframe, two seconds taken for the keyframe interval |
| DelayEngine.Engine.SpliceTo | crates/engine/src/lib.rs:1896-1919 | A jump puts the cursor at that keyframe, in its session, at a timestamp a frame after everything sent (0 on an unused connection), gated so that nothing older follows |
| DelayEngine.Engine.EndHold | crates/engine/src/lib.rs:1254-1260 | Leaving a hold moves the output's timestamps on by the time since the last held frame, and forgets the frame |
| DelayEngine.Engine.RunPending | crates/engine/src/lib.rs:1504-1685 | Keeps the invariant and ends; the change only falls in rank, or stays at its rank with the cursor not moving back; it is moved along until it has nothing to do yet (no keyframe, slate or age it waits for), and one that has nothing to do moves nothing; going live after air starts once all has aired |
| DelayEngine.Engine.RunGoLive | crates/engine/src/lib.rs:1508-1521 | Going live jumps to the newest keyframe exactly when it came after the change and is ahead; already there, the delay falls to the target |
| DelayEngine.Engine.RunReduce | crates/engine/src/lib.rs:1530-1551 | Coming down never goes below the delay asked for nor back: it ends within half a second of it, or skips to the newest keyframe that old unless a gap follows |
| DelayEngine.Engine.RunMask | crates/engine/src/lib.rs:1552-1605 | The anchor is the first keyframe a margin after the slate was confirmed or, unconfirmed for two seconds, after the change began; until there is one nothing moves, evicted it ends the change, and once as old as the delay the output jumps to it |
| DelayEngine.Engine.RunAnchored | crates/engine/src/lib.rs:1590-1605 | With its keyframe evicted the change ends where it is; due, the output jumps to it; otherwise nothing moves |
| DelayEngine.Engine.RunDump | crates/engine/src/lib.rs:1606-1645 | Unconfirmed, a covered dump becomes a hold exactly after two seconds; confirmed, it jumps to the first keyframe recorded a margin after, exactly when there is one, with the delay to build up behind a slate that is silent if that is set |
| DelayEngine.Engine.RunHold | crates/engine/src/lib.rs:1646-1668 | A hold ends only at the first keyframe after the dump, once that is as old as the delay, or past the end mark |
| DelayEngine.Engine.RunReplay | crates/engine/src/lib.rs:1669-1681 | A replay goes on only at the first keyframe after the dump, once that is as old as the delay |
| DelayEngine.Engine.SkipToEnd | crates/engine/src/lib.rs:1650-1660 | With nothing decodable left before the end mark, a hold ends past the mark |
| DelayEngine.Engine.LeaveHold | crates/engine/src/lib.rs:1254-1260 | Ends a hold with a jump to the keyframe, its age as the delay, and the next change pending |
| DelayEngine.Engine.HeadersAt | crates/engine/src/lib.rs:1934-1954 | Exactly the decoder configuration in effect at that message of that session |
| DelayEngine.Engine.SendConfig | crates/engine/src/lib.rs:1964-1991 | Afterwards the destination has every configuration asked for; only configuration went out, none it had, and what it had stays |
| DelayEngine.Engine.SendMissing | crates/engine/src/lib.rs:1993-2002 | A configuration record goes out exactly if the destination does not have just that, and from then on it has it |
| DelayEngine.Engine.EmitMetadata | crates/engine/src/lib.rs:1967-1977 | Metadata goes out exactly if there is some and the destination was not sent just that last |
| DelayEngine.Engine.EmitHeaders | crates/engine/src/lib.rs:1956-1991 | Before the first message after a jump, the connection has the metadata and the configuration in effect at it; what goes out is only what it lacked of that |
| DelayEngine.Engine.EmitEntry | crates/engine/src/lib.rs:2004-2067 | Configuration goes out exactly if the destination was not sent just that; anything else exactly if it airs after the last splice: sound and data of another session than the keyframe spliced to or not from before it, pictures but for those leading an open-GOP keyframe until a trailing or IRAP picture; with its own payload, at the encoder's timestamp plus what the splice added, or the last one of its kind if that is later; the cursor moves past it |
| EngineLemmas.LeftOutRight | crates/engine/src/lib.rs:2020-2045 | What the cursor remembers of a splice leaves out exactly what does not air after it by the history of all messages passed |
| Trace.StartsAreKeyframes | crates/engine/src/lib.rs:609-643 | With all that arrived marked as inspection and its stream say, every picture the output ever starts from or holds was a keyframe to inspection |
| Trace.StartsGoOut | crates/engine/src/lib.rs:1896-2067 | A picture the output is spliced to always goes out |
| DelayEngine.Engine.AiredKeyframe | crates/engine/src/lib.rs:1158-1183 | The held frame is the newest keyframe before the cursor with its payload, composition time, frame duration and, unless a limit was passed, exactly the configuration in effect at it; no frame without such a keyframe, or when it is audio; never one thrown away |
| DelayEngine.Engine.EmitHoldFrame | crates/engine/src/lib.rs:1185-1220 | Exactly when due, only the held frame goes out, after its configuration if the connection is new to it: at the clock's pace, or later to come strictly after everything sent; with what went out in this stretch taken, it finds its configuration if and only if the connection is new to it or what it took has it already |
| DelayEngine.Engine.SendHeld | crates/engine/src/lib.rs:1200-1220 | The same for a frame at a given timestamp, and the rules of everything sent are kept |
| Trace.AiredHere | crates/engine/src/lib.rs:1158-1252 | A hold whose keyframe the destination got finds its configuration if and only if nothing it got since configures otherwise |
| HeldFrames.DumpAndPoll | crates/engine/src/lib.rs:783-1252 | After a dump on air and connected that holds, with no limit on configuration passed, the next poll sends just the newest keyframe before what the connection did not take, if it is video; it finds its configuration if and only if what the connection took has it, and, if that keyframe was among it, if and only if nothing taken since configures otherwise |
| HeldFrames.ShowsUnconfigured | crates/engine/src/lib.rs:1158-1183 | From a new engine: after a reconnect at a keyframe not due yet, a dump's hold sends an earlier keyframe as the only message of the connection, without its configuration |
| HeldFrames.ShowsLost | crates/engine/src/lib.rs:783-812 | From a new engine: configuration and keyframe go out after a reconnect, the connection takes nothing of them, and the dump's hold shows the keyframe before them without its configuration |
| DelayEngine.Engine.EmitHoldHeaders | crates/engine/src/lib.rs:1222-1252 | Afterwards the connection has the metadata and all configuration the held frame came with; only what it lacked of the configuration went out |
| DelayEngine.Engine.Prune | crates/engine/src/lib.rs:2181-2202 | Forgetting replaced configuration changes nothing for any message still buffered, and leaves no record a later one replaces before the buffer |
| DelayEngine.Engine.ForgetHeaders | crates/engine/src/lib.rs:2181-2202 | The same for every session, keeping the totals exact |
| DelayEngine.Engine.ForgetSessions | crates/engine/src/lib.rs:2165-2179 | Sessions without buffered messages go; every buffered message's session stays; nothing is kept that no buffered message needs |
| DelayEngine.Engine.DropTo | crates/engine/src/lib.rs:948-961 | Exactly the messages before that number go; the rest, the index and the totals stay exact |
| DelayEngine.Engine.DropOldest | crates/engine/src/lib.rs:948-961 | One message less, with the index and the totals still exact |
| DelayEngine.Engine.EvictOldest | crates/engine/src/lib.rs:2087-2135 | The oldest group goes exactly when over the memory limit, expired after it aired, or not needed without history; it counts as lost exactly if only the limit makes it go and a reconnect, or before the start the broadcast, would need it |
| DelayEngine.Engine.MakeRoom | crates/engine/src/lib.rs:2087-2135 | The loop ends within the memory limit or with one message; within the limit only what may go for its age goes, and in any case nothing older than the history, or not needed, is left; something is lost only if more than the limit had to be held, and then what a reconnect needs is gone |
| DelayEngine.Engine.Evict | crates/engine/src/lib.rs:2087-2135 | Ends within the memory limit or with one message; once started, nothing a reconnect would restart from goes unless that and all after it takes more than the limit, which is recorded with how much it takes and what went; by arrivals, maximum and headroom: what is within the limit goes only if it is older than the history kept, or not needed, and no reconnect needs it, and all that is goes, group by group; with no reason to evict, nothing changes |
| DelayEngine.Engine.AllStays | crates/engine/src/lib.rs:2087-2135 | With history kept, there is no reason to evict while the buffer is within the memory limit and the history |
| DelayEngine.Engine.KeepMeans | crates/engine/src/lib.rs:2069-2085 | Without history, what comes before a keyframe is not needed exactly if a reconnect needs nothing from before it, nor, before the start, the broadcast, nor a Mask to rewind to |
| DelayEngine.Engine.NothingIsOld | crates/engine/src/lib.rs:2087-2135 | If it is not time for the oldest group to go, no keyframe but the first is older than the history kept, or not needed |
| DelayEngine.Engine.MemoryShort | crates/engine/src/lib.rs:2140-2163 | The delay only comes down, towards what is held, and only an idle plan or a longer reduction is replaced |
| DelayEngine.Engine.Resync | crates/engine/src/lib.rs:1752-1819 | The output starts exactly when its start point is as old as the delay in force and not past the end mark, and then from just there with its age as the delay; otherwise plan and connection stay, and it is looked at again exactly when that keyframe will be that old |
| DelayEngine.Engine.StartAt | crates/engine/src/lib.rs:1795-1816 | The broadcast starts, or starts again, with the age of the keyframe as the delay, and comes back to the target or the maximum |
| DelayEngine.Engine.BackUnderMax | crates/engine/src/lib.rs:1329-1338 | A delay more than an interval past the maximum comes back down to it, unless a change is under way |
| DelayEngine.Engine.NextSessionStart | crates/engine/src/lib.rs:1859-1865 | The first message of a later session, or the one to come next |
| DelayEngine.Engine.SkipEvicted | crates/engine/src/lib.rs:1742-1745 | A cursor the buffer has left behind goes to its oldest message and waits for a keyframe |
| DelayEngine.Engine.CheckSession | crates/engine/src/lib.rs:1749-1756 | A cursor at a message of another session waits for a keyframe from then on, exactly |
| DelayEngine.Engine.HoldReplay | crates/engine/src/lib.rs:1723-1741 | A replay with nothing left becomes a hold at the same delay, from the same point |
| DelayEngine.Engine.Settle | crates/engine/src/lib.rs:1742-1824 | A message is next only when it is due, of the current session and not past the end mark; otherwise there is nothing to do before the time given, at which the next message or keyframe will be as old as the delay |
| DelayEngine.Engine.Emit | crates/engine/src/lib.rs:1830-1850 | One due message is passed: sent unless it is left out or is sound behind a silent slate, which is recorded with it, and nothing else but configuration goes out |
| DelayEngine.Engine.SkipMuted | crates/engine/src/lib.rs:1833-1841 | Sound under a slate is consumed without being sent |
| DelayEngine.Engine.SendDue | crates/engine/src/lib.rs:1706-1857 | The loop ends, by the rank of the change and the messages left; it stops only when nothing is due before the time given or the budget is used; a replay that has run out waits for what comes next exactly if that is due within two seconds, and holds its last keyframe otherwise |
| DelayEngine.Engine.PollBudget | crates/engine/src/lib.rs:1695-1857 | Ends from every state; what it sends is old enough, not thrown away and not past the end mark, and at most the budget but for the last message and the configuration it needs; it leaves off only when nothing is due or the budget is used; it asks to be called again when the next message, keyframe or held frame is due, and within 50 ms while a change is pending or the budget is used; the promised age goes only with a recorded shortfall, when what must be held is over the memory limit; in a hold with nothing due the poll sends just the held frame, when due |
| DelayEngine.Engine.NoteHeader | crates/engine/src/lib.rs:626-663 | A changed configuration is kept, a repeat is not; the count stays within 64 and the size within its share, the oldest going only as far as that needs; nothing is refused or forgotten exactly when it fits beside all that is kept |
| DelayEngine.Engine.Ingest | crates/engine/src/lib.rs:597-695 | The message is appended as it came; it is one the output may start from, and in the index, if and only if inspection says it is a keyframe, or it is sound and no picture has come since its encoder connected; only older messages may go, none while within memory and history; a limit on configuration is passed exactly when this message does not fit; a shortfall is recorded only when what must be held is over the memory limit; an inactive encoder or an empty payload changes nothing |
| DelayEngine.Engine.IngestStart | crates/engine/src/lib.rs:538-567 | A new session with nothing known of it yet; before the broadcast has started what was buffered goes for good, and otherwise nothing of it changes |
| DelayEngine.Engine.IngestEnd | crates/engine/src/lib.rs:569-571 | The encoder stops; what is buffered keeps draining |
| DelayEngine.Engine.IngestMetadata | crates/engine/src/lib.rs:579-590 | Metadata is kept with the current session, unless it is too large or there is none |
| DelayEngine.Engine.DropBuffer | crates/engine/src/lib.rs:845-861 | The buffer is empty, everything from the cursor on is gone for good, and only a running session stays |
| DelayEngine.Engine.OutputConnected | crates/engine/src/lib.rs:700-744 | A new generation; the output starts again at its restart point, except before the start and during a hold or a covered dump, whose frame is then to come with its configuration |
| DelayEngine.Engine.Restart | crates/engine/src/lib.rs:724-742 | A reconnect never shortens the delay: the larger of what it was and the keyframe's age |
| DelayEngine.Engine.BackToTarget | crates/engine/src/lib.rs:1304-1327 | At least half a second over the target and with no change pending that brings it lower, the delay is to come down to the target, or live when that is zero; otherwise nothing changes; left idle, it is within half a second |
| DelayEngine.Engine.OutputDisconnected | crates/engine/src/lib.rs:746-759 | Sending resumes right after the last message written, or at the first one emitted, and never further on than it was |
| DelayEngine.Engine.ResumeAt | crates/engine/src/lib.rs:746-781 | Right after the last message taken, or without one at the first one emitted, unless the cursor is not that far |
| DelayEngine.Engine.OutputReset | crates/engine/src/lib.rs:814-838 | The broadcast is over: not started, no change or end mark, the delay back at the target |
| DelayEngine.Engine.Discard | crates/engine/src/lib.rs:840-843 | Empty buffer, no broadcast, and every message received so far is gone for good |
| DelayEngine.Engine.EndAfter | crates/engine/src/lib.rs:921-924 | Sets the end mark and nothing else |
| DelayEngine.Engine.CancelEnd | crates/engine/src/lib.rs:926-930 | Clears the end mark and nothing else |
| DelayEngine.Engine.RestartAfterEnd | crates/engine/src/lib.rs:940-946 | Everything up to the mark is gone for good; what came after it stays for a new broadcast |
| DelayEngine.Engine.ReplayInstead | crates/engine/src/lib.rs:1433-1454 | Replays exactly when history reaches back far enough: what waited is gone for good, numbering goes back to the cursor, and the output jumps to a keyframe at least the delay before it; otherwise nothing changes |
| DelayEngine.Engine.Cut | crates/engine/src/lib.rs:1456-1481 | What is taken off is gone for good; what is recorded next is a new session with the same configuration in effect |
| DelayEngine.Engine.DumpWaiting | crates/engine/src/lib.rs:1115-1156 | A dump throws away everything from the cursor on; on air its delay becomes the target and the change pending: a replay exactly when asked for and possible, or else, with an empty buffer, a hold or a covered dump of the newest keyframe aired |
| DelayEngine.Engine.HoldOrCover | crates/engine/src/lib.rs:1130-1156 | Without a replay the buffer is emptied and what is recorded next waits, as a hold or under the slate, with the newest keyframe before the cursor as the held frame |
| DelayEngine.Engine.EndNow | crates/engine/src/lib.rs:1120-1128 | Off air, or with an end mark set, a dump empties the buffer and drops the change |
| DelayEngine.Engine.Command | crates/engine/src/lib.rs:965-1103 | Refused exactly when the delay is too large for the maximum or the memory, or there is nothing to dump, and then nothing changes; otherwise what each command makes of the plan, and what it keeps, with the change moved along as far as it gets now; the answer says what of the plan is left |
| DelayEngine.Engine.BeginChange | crates/engine/src/lib.rs:1070-1097 | A longer delay rewinds or masks, a shorter one reduces, the same one changes nothing |
| DelayEngine.Engine.SetDelayTo | crates/engine/src/lib.rs:1041-1099 | A dump's change goes on to the new delay; the same mask again changes nothing; before the start the delay is just set; zero is going live; else the change is a reduction, none, a mask begun now, or a rewind that reaches the delay unless history is short |
| DelayEngine.Engine.GoLiveCommand | crates/engine/src/lib.rs:1027-1040 | The exact plan: target zero, and before the start delay zero; on air, live with the first keyframe after the newest message, at once or once all up to that has aired |
| DelayEngine.Engine.CancelCommand | crates/engine/src/lib.rs:998-1018 | Stops a change, and nothing that a dump began |
| DelayEngine.Engine.CancelChange | crates/engine/src/lib.rs:1001-1018 | The delay in effect becomes the target, at most the maximum, and none under half a second |
| DelayEngine.Engine.Rewind | crates/engine/src/lib.rs:1371-1407 | With enough history the output goes back to the newest keyframe that meets the new delay, to come down to it if a gap follows that; otherwise as far as the oldest one kept (the second oldest with nine tenths of the memory in use), if that is further back than it is, and says so |
| DelayEngine.Engine.ConfirmSlate | crates/engine/src/lib.rs:982-997 | The time is set exactly when the change is the one under way, not confirmed yet and without its anchor; nothing else changes |
| DelayEngine.Engine.DumpAfter | crates/engine/src/lib.rs:783-812 | After a dump nothing that waited or was emitted but not taken is left, and a hold shows the newest keyframe before what the connection did not take; refused, nothing is dumped, but the configuration is sent again and a lost stretch restarts at a keyframe; what the destination has is what it took, and nothing of what was lost |
| DelayEngine.Engine.Unsend | crates/engine/src/lib.rs:761-781 | What was emitted after the last message taken counts as not aired, and the destination as having no configuration but what it took |
| DelayEngine.Engine.Forget | crates/engine/src/lib.rs:783-812 | A refused dump sends all configuration again; with media lost, the destination has what it took, and the cursor waits for a keyframe |
| DelayEngine.Engine.SetKeepHistory | crates/engine/src/lib.rs:525-529 | Only that setting changes |
| DelayEngine.Engine.SetRestoreAfterReconnect | crates/engine/src/lib.rs:531-536 | Only that setting changes |
| DelayEngine.Engine.RulesKept | crates/engine/src/lib.rs:1889-1930 | In every valid state all that was ever sent keeps the rules: timestamps of each kind never go back, splices and held frames come strictly after what was sent, the cursor is continuous, all that arrived is marked as inspection says, everything goes out as it arrived, what was passed went out if and only if it airs, and buffered frames find their decoder configuration unless a limit on it was passed |
| EngineDecisions.LooksUpExactly | crates/engine/src/lib.rs:1357-1502 | A look-up gives a keyframe exactly if that is buffered and the newest up to or before a message, or that had arrived by a time, or the oldest from a message or a time on |
| EngineDecisions.GapExactly | crates/engine/src/lib.rs:1483-1496 | A skip waits exactly if there is a newer keyframe, and the one before came within less than the skip would be over |
| EngineDecisions.RestartsExactly | crates/engine/src/lib.rs:1361-1369 | What a reconnect needs is the newest keyframe up to the cursor or without one the message there, and what must be held is all but what comes before that |
| EngineDecisions.StartsExactly | crates/engine/src/lib.rs:1757-1783 | An output that waits starts from the first keyframe of the session at the cursor, or, before the broadcast has begun, from the newest one old enough if there is one |
| EngineDecisions.ReplaysExactly | crates/engine/src/lib.rs:1409-1419 | A replay goes back exactly to the newest keyframe the delay older than the first message not aired, with history |
| EngineDecisions.ConnectsExactly | crates/engine/src/lib.rs:700-744 | A new connection starts exactly on air and outside a hold, from the newest keyframe up to the cursor; nothing counts as sent on it |
| EngineDecisions.TimestampsExactly | crates/engine/src/lib.rs:1889-1930 | A keyframe spliced to gets the least timestamp a frame after everything sent as decoded and as presented, 0 on an unused connection; any other message the least not before its own and its kind's last |
| EngineDecisions.HeldTimestampExactly | crates/engine/src/lib.rs:1192-1199 | A held frame gets the least timestamp a frame after everything sent and as many milliseconds after the last as have passed, one at least |
| EngineDecisions.SplicesExactly | crates/engine/src/lib.rs:1896-1919 | After a splice the keyframe's timestamp becomes the one given, sound and data of its session from before it stay out, and after an open-GOP one its leading pictures |
| EngineDecisions.FrameExactly | crates/engine/src/lib.rs:1876-1882 | A frame lasts as long as its session says, or 33 ms |
| EngineDecisions.ObservesExactly | crates/engine/src/lib.rs:609-643 | A message changes of its session just that pictures have come, when the last one was, and, from two of them up to 200 ms apart, how long a frame lasts |
| EngineDecisions.BeginsExactly | crates/engine/src/lib.rs:538-567 | A publisher begins a session about which nothing is known; the one before goes exactly if none of its messages is buffered |
| EngineDecisions.CutsExactly | crates/engine/src/lib.rs:1433-1481 | A replay cuts off exactly the messages from the cursor on, and what comes next is a session with all the configuration and knowledge of the last one |
| EngineDecisions.WaitsExactly | crates/engine/src/lib.rs:845-861 | What counts as waiting from a message on is exactly that message and those after it |
| EngineDecisions.DumpsExactly | crates/engine/src/lib.rs:1105-1267 | A dump goes back to the delay asked for, or without one to that in effect; it is refused exactly on air with more to come and less than half a second of that |
| EngineDecisions.LosesExactly | crates/engine/src/lib.rs:796-806 | A refused dump lost something exactly if the output would go back to send again what was not taken, or with nothing taken if anything had been emitted |
| EngineDecisions.RefusesExactly | crates/engine/src/lib.rs:1340-1355 | A delay is refused exactly if over the maximum, or if an encoder with a known bitrate would need more than the memory there is with it and a fifth more |
| EngineDecisions.DelaysExactly | crates/engine/src/lib.rs:1329-1338 | A delay comes down to the maximum exactly if more than an interval over it with no change pending; a new delay for a dump changes nothing else of it |
| Ring.LookUpIsScan | crates/engine/src/lib.rs:1357-1502 | A keyframe looked up in the index is the one a scan of the whole ring finds |
| Ring.ReplacedNotNeeded | crates/engine/src/lib.rs:2181-2202 | A record replaced before the oldest buffered message is in effect at none of them |
| EngineRuns.Run | crates/engine/src/lib.rs:597-1857 | Over any run of messages, polls, commands, dumps, outages and restarts: all the rules, among them that every picture started from or held was a keyframe to inspection, and that every message passed since a splice, unless silent behind a slate, went out if and only if it airs, at the encoder's timestamp plus a constant wherever its kind had nothing later out; every buffered frame configured if all configuration messages fit the limits; nothing thrown away is ever sent, nothing past a standing end mark, and nothing younger than promised unless memory fell short, which is only at an event at which what must be held, with what it adds, is over the limit, so never while all that came in fits |
| EngineRuns.RunFromStart | crates/engine/src/lib.rs:468-1857 | The same from a new engine, with no condition but that the configuration messages of the run fit |
| EngineRuns.Apply | crates/engine/src/lib.rs:538-961 | Each operation keeps what Run states; what comes is recorded as it came and nothing else is; memory falls short at most once, only if what must be held, with what the operation adds, is over its limit, and then what a reconnect would restart from has gone; configuration that fits passes no limit |
| EngineRuns.DelayIsKept | crates/engine/src/lib.rs:700-755 | A delay once reached is kept over any run without commands, dumps or the end of the broadcast, through outages, reconnects and encoder restarts, unless at some event what must be held does not fit the memory limit |
| EngineRuns.DumpIsKept | crates/engine/src/lib.rs:783-812 | After a dump nothing that waited airs in any continuation; answered with a replay or a hold, nothing airs before it is as old as the delay the dump restored, as long as nothing lowers the delay and what must be held fits the memory limit at every event |
| EngineRuns.DiscardIsKept | crates/engine/src/lib.rs:840-861 | After a discard nothing received before is ever sent, whatever follows |
| EngineRuns.RestartIsKept | crates/engine/src/lib.rs:940-961 | After a broadcast ended at its mark nothing recorded up to the mark is ever sent, whatever follows |
| WriteLog.SureOfIsExact | crates/relay/src/egress.rs:463-500 | What the log calls surely sent is the last batch of the whole history within the bytes sent; it says nothing only if there is none or it lies further back than the log reaches |
| WriteLog.Writer.Written | crates/relay/src/egress.rs:476-488 | The log stays the end of the whole history, from the first batch within reach on |
| WriteLog.Writer.SurelySent | crates/relay/src/egress.rs:490-500 | Searches from the newest batch back, and nothing if more may be unsent than was written |
| DumpHandshake.DumpedMediaNeverAirs | crates/relay/src/core.rs:718-776 | In every interleaving: once an answered dump has finished, no byte of media queued before it is written to any connection or leaves on one that is open |
| DumpHandshake.AnswersFinishTheirOwnDump | crates/relay/src/core.rs:581-591 | Only the answer to this very dump finishes it, and then it is true; a late answer finishes nothing |
| DumpHandshake.CutAnswered | crates/relay/src/egress.rs:779-808 | Without a reset all that was written has left, up to the message reported; with one, all up to the message reported has been acknowledged |
| DumpHandshake.SureIsAcknowledged | crates/relay/src/egress.rs:783-793 | If the system holds no more than it says, everything up to what the log calls surely sent was acknowledged, other bytes on the wire or not |
| DumpHandshake.DeliveredIsNotAll | crates/relay/src/core.rs:755-762 | A reachable state in which a message after the last one reported delivered has left this computer when the connection was reset |
| DumpHandshake.WithoutResetAllLeft | crates/relay/src/egress.rs:779-808 | In every reachable state, after an answer without a reset all that was written to that connection has left this computer, and the message reported is the last of it |
| DumpHandshake.NothingIsLost | crates/relay/src/egress.rs:850-898 | What was queued for the connection in use since the last dump is written, in hand or queued: all of it, once, in order |
| DumpHandshake.BacklogIsExact | crates/relay/src/core.rs:794-814 | The shared backlog is exactly what is queued or being written |
| DumpHandshake.InvKeep | crates/relay/src/egress.rs:271-448 | Every step of either task keeps the numbering of dumps, the answers, the books of the connection, the flow of media and the reports of connections that ended |
| DumpHandshake.ReportsAreTrue | crates/relay/src/egress.rs:401-425 | In every reachable state each report of a lost connection under way is about a connection that ended, in their order, and names the last numbered message of the batches written to their end on it, or none exactly if there is none |
| DumpHandshake.EndsAreReported | crates/relay/src/egress.rs:779-908 | However a connection ends (it fails, is stopped, aborted or started anew, in the middle of a write or not, or is reset for a dump), what was written to its end is recorded and what is reported next is the last numbered message of that |
| HandshakeSteps.TakenWhilePublishing | crates/relay/src/egress.rs:775-826 | Stopping and aborting lead to idleness with nothing queued, a new destination to a new connection, and a dump to an answer or a reset of the connection it found |
| HandshakeSteps.TakenElsewhere | crates/relay/src/egress.rs:282-345 | Without a connection a dump is answered at once, a start connects, and stopping leaves nothing to do |
| HandshakeSteps.LostAgain | crates/relay/src/egress.rs:410-448 | A connection that fails is tried again after a wait, one reset for a dump at once |
| HandshakeSteps.DumpBeginsAndEnds | crates/relay/src/core.rs:724-786 | A dump takes back what is queued before its number goes to the egress, what is queued carries the latest number, and answered or timed out it is over for the core |
| HandshakeSteps.StepsArePossible | crates/relay/src/egress.rs:720-908 | The steps leave out nothing the egress, the network and the operating system can do |
| DumpHandshake.DoneGrows | crates/relay/src/core.rs:724-776 | Finished dumps only count up, so what holds after one holds from then on |
| RelayCore.Core.StartDump | crates/relay/src/core.rs:724-743 | A dump under way is joined; otherwise a new number takes back what is queued and is sent to the egress |
| RelayCore.Core.FinishDump | crates/relay/src/core.rs:746-774 | Everyone who asked is told once; without a connection it does not replay |
| RelayCore.Core.CutDone | crates/relay/src/core.rs:581-591 | Exactly the answer to the latest dump ends it |
| RelayCore.Core.CheckDump | crates/relay/src/core.rs:776-786 | After two seconds without an answer the dump goes ahead without a replay, with nothing counted as delivered |
| BroadcastRules.RulesHoldFromStart | crates/relay/src/lifecycle.rs:118-420 | Over every series of events and reports: ended means no connection, connections start and stop in turn, and there is an end mark exactly while the plan is to end at it |
| BroadcastRules.StepKeeps | crates/relay/src/lifecycle.rs:150-420 | One event stops a connection at most once and only one that runs, and asks for one only when none runs, the stream is not ended, and something is due for a destination |
| BroadcastRules.EndedStays | crates/relay/src/lifecycle.rs:229-295 | An ended stream goes on exactly on a resume or a new stream of an encoder that was stopped on purpose |
| BroadcastRules.EndedStaysEnded | crates/relay/src/lifecycle.rs:229-395 | Over every series of events without one of those it stays ended and nothing is started |
| BroadcastRules.EndingDiscardsInRun | crates/relay/src/lifecycle.rs:157-226 | Over every series of events that ends a stream, the buffer has been thrown away |
| BroadcastRules.GoneEndsInRun | crates/relay/src/lifecycle.rs:330-420 | Over every run in which the encoder stays away and the destination stays, whatever the buffer and the connection report, the broadcast has ended once there was a tick after the grace periods, the delay and the slack had passed |
| BroadcastRules.StreamsOn | crates/relay/src/lifecycle.rs:331-367 | While the encoder streams and neither End stream nor the destination stops it, the connection runs on over every series of events, whatever is reported |
| BroadcastRules.EndAtMarkEnds | crates/relay/src/lifecycle.rs:198-420 | Exactly what becomes of a stream that is to end at the mark: ended, live again, a restart, or still to end |
| BroadcastRules.EndIsKept | crates/relay/src/lifecycle.rs:157-420 | Over every series of events, a stream that is to end at the mark is still to end there or has ended exactly while there is no resume, no new stream on purpose and no tick at which it is over before the mark is due; and then no new broadcast starts |
| BroadcastRules.EndsByDeadline | crates/relay/src/lifecycle.rs:395-420 | Over every such series it has ended once there was a tick with a destination at or after the mark's deadline |
| BroadcastRules.EndCanBeForgotten | crates/relay/src/lifecycle.rs:157-172 | From the start, a run, with output wanted only when something published is about to be due, in which the streamer ends the stream after air and yet, with no resume and no stop, a reconnecting encoder's broadcast starts |
| BroadcastEffects.AbortsExactly | crates/relay/src/lifecycle.rs:188-194 | A connection is reset if and only if the streamer ends the stream at once while it runs, after the buffer was thrown away, and never stopped cleanly then |
| BroadcastEffects.EndNowResets | crates/relay/src/lifecycle.rs:188-194 | Over every series of events: a connection seen started and not ended since is reset by End stream now |
| BroadcastEffects.ResetsInRun | crates/relay/src/lifecycle.rs:150-194 | Over every series of events a connection is reset only at End stream now |
| BroadcastEffects.StopsExactly | crates/relay/src/lifecycle.rs:150-193 | A connection is stopped cleanly exactly when it has no destination, its stream ends otherwise than at once, or its broadcast is over at the mark |
| BroadcastEffects.RunsExactly | crates/relay/src/lifecycle.rs:150-420 | It runs afterwards exactly if it ran and was not ended, or was started |
| BroadcastEffects.DiscardsExactly | crates/relay/src/lifecycle.rs:157-245 | The buffer is thrown away exactly when a stream ends, now or otherwise, or an ended one is resumed |
| BroadcastEffects.MarksExactly | crates/relay/src/lifecycle.rs:196-297 | The end mark is set, cleared or passed with a restart exactly in the cases for it |
| BroadcastEffects.ExplainsExactly | crates/relay/src/lifecycle.rs:331-393 | The streamer is told why exactly when a stream ends with what it had left unaired for want of a destination or after its grace |
| BroadcastEffects.EncoderExactly | crates/relay/src/lifecycle.rs:247-322 | When the encoder counts as there, as gone and how, and as none |
| BroadcastEffects.PlanExactly | crates/relay/src/lifecycle.rs:157-420 | What the plan is after each event, with the deadline the delay and half a minute away |
| BroadcastEffects.FirstStreamIsOnPurpose | crates/relay/src/lifecycle.rs:247-297 | The first stream of all counts as started on purpose |
| Lifecycle.Lifecycle.Finish | crates/relay/src/lifecycle.rs:157-172 | Stops a running connection cleanly, throws the buffer away, makes a departed encoder idle and drops a plan to end at the mark, in that order |
| Lifecycle.Lifecycle.EndNow | crates/relay/src/lifecycle.rs:188-194 | Throws the buffer away, then resets a running connection; the stream is ended (`AbortsExactly` says that nothing else does) |
| Lifecycle.Lifecycle.EndAfterAir | crates/relay/src/lifecycle.rs:196-226 | With something left that can air, marks the end and sets the deadline; with nothing left, ends at once; a restart under way becomes an end at the same deadline |
| Lifecycle.Lifecycle.Resume | crates/relay/src/lifecycle.rs:228-245 | An ended stream starts afresh without what arrived meanwhile; a pending end is taken back; otherwise nothing happens |
| Lifecycle.Lifecycle.Publishes | crates/relay/src/lifecycle.rs:247-297 | A new stream after one stopped on purpose that still airs gets its own broadcast at the mark; an ended stream goes on only after a stop on purpose without a takeover |
| Lifecycle.Lifecycle.EncoderLeft | crates/relay/src/lifecycle.rs:299-307 | Only a publishing encoder leaves, at that time and in that way |
| Lifecycle.Lifecycle.StartFailed | crates/relay/src/lifecycle.rs:314-322 | Finishes a stream whose encoder has gone, and otherwise waits |
| Lifecycle.Lifecycle.Tick | crates/relay/src/lifecycle.rs:330-393 | Stops without a destination, ends at a mark that is due, asks for a start when something is due, or finishes a stream that is over |
| Lifecycle.Lifecycle.CheckMark | crates/relay/src/lifecycle.rs:395-420 | Ends the broadcast at the mark exactly when it is due, for good or for the next one, and says so |
| Lifecycle.Lifecycle.Manage | crates/relay/src/core.rs:820-845 | A tick, with the start it asks for made or failed, is one event of the rules |
| ChunkFormat.BasicRoundTrip | crates/rtmp/src/chunk.rs:628-642 | Both forms of a basic header are read back as the stream they were written for |
| ChunkLayout.BasicPut | crates/rtmp/src/chunk.rs:628-642 | A basic header is one, two or three bytes: format in the top bits, the stream in the rest, or less 64 in the next, or next two with the low byte first |
| ChunkLayout.OutOfRangeMoved | crates/rtmp/src/chunk.rs:628-642 | A stream id out of range is written as the nearest one with a three-byte header |
| ChunkLayout.EncodedLayout | crates/rtmp/src/chunk.rs:584-615 | By position, with section 5.3.1 of the RTMP 1.0 specification written out: three bytes of timestamp and of length, highest first, one of type, four of stream id, lowest first, an extended timestamp from 0xFFFFFF on, and at most one chunk of data |
| ChunkLayout.LaterLayout | crates/rtmp/src/chunk.rs:584-615 | A later chunk is a header of format 3, an extended timestamp again, and the next data |
| ChunkLayout.BasicExactly | crates/rtmp/src/chunk.rs:299-323 | A basic header is read as the stream it is for, and awaited exactly while bytes of it are missing |
| ChunkLayout.RefusedExactly | crates/rtmp/src/chunk.rs:330-374 | A header is refused exactly if it leaves out what its stream never had, is for one stream more than 64, or its message is over its limit |
| ChunkLayout.FieldsRead | crates/rtmp/src/chunk.rs:330-398 | The fields of each format lie where the format says, the same way round as written |
| ChunkLayout.HeadLayout | crates/rtmp/src/chunk.rs:330-411 | What is read of a header that is not refused: every field of its stream afterwards, from the bytes or from the last on the stream |
| ChunkLayout.PendingExactly | crates/rtmp/src/chunk.rs:412-497 | A chunk waits exactly until its data are there, and is refused exactly if unfinished messages would be over 64 MiB |
| ChunkDecoding.NextChunkKeeps | crates/rtmp/src/chunk.rs:295-497 | After every chunk `pending` is exactly what unfinished messages hold, within its limit, with at most 64 chunk streams |
| ChunkDecoding.DrainKeeps | crates/rtmp/src/chunk.rs:276-297 | The same after any bytes, aborts and changes of the chunk size |
| ChunkDecoding.NextChunkStable | crates/rtmp/src/chunk.rs:295-430 | Bytes that come later change neither a complete chunk nor an error already there |
| ChunkDecoding.DrainSplit | crates/rtmp/src/chunk.rs:258-293 | Draining what is there and then the rest is draining all of it |
| ChunkDecoding.SplitIndependent | crates/rtmp/src/chunk.rs:258-297 | The same bytes in any pieces give the same messages, first error and state |
| ChunkSending.BeginRead | crates/rtmp/src/chunk.rs:330-398 | Whatever header format starts a message, its stream gets the message's own fields |
| ChunkSending.ContinueRead | crates/rtmp/src/chunk.rs:376-407 | A later chunk's data is found right after its header, repeated extended timestamp or not |
| ChunkSending.ChunkTaken | crates/rtmp/src/chunk.rs:295-497 | One chunk of any form completes for the receiver exactly the message it completes for the sender |
| ChunkSending.RoundTrip | crates/rtmp/src/chunk.rs:285-497 | Any valid mix of header formats and interleaved chunk streams, with aborts and changes of the chunk size, comes back as exactly the sender's messages in completion order |
| ChunkSending.RoundTripInPieces | crates/rtmp/src/chunk.rs:258-293 | The same however the bytes arrive |
| ChunkSending.UnrepeatedTimestamp | crates/rtmp/src/chunk.rs:381-407 | A peer that does not repeat extended timestamps is read right at its first continuation exactly when four bytes are there and are not the timestamp |
| ChunkSending.UnrepeatedRoundTrip | crates/rtmp/src/chunk.rs:285-497 | Any valid mix of chunks from such a peer comes back as exactly its messages, if at the first chunk that shows how it sends four bytes are there and are not the timestamp |
| ChunkSending.UnrepeatedFromStart | crates/rtmp/src/chunk.rs:225-497 | The same from a new connection on |
| ChunkSending.DataMayBeginAlike | crates/rtmp/src/chunk.rs:381-407 | A message of two chunks such a peer may send that never comes, because the second one's data are its own timestamp |
| ChunkSending.EncoderSends | crates/rtmp/src/chunk.rs:584-615 | What the encoder writes for a message is one such sender's chunks, and delivers exactly it |
| ChunkSending.EncoderRoundTrip | crates/rtmp/src/chunk.rs:578-642 | Everything the encoder writes, announcing its chunk size changes, comes back and nothing else |
| ChunkSending.FreshMatches | crates/rtmp/src/chunk.rs:225-240 | A new connection's two ends are in step |
| ChunkCodec.ChunkDecoder.constructor | crates/rtmp/src/chunk.rs:225-240 | A new decoder: 128-byte chunks, nothing pending, nothing known of repeated timestamps |
| ChunkCodec.ChunkDecoder.Push | crates/rtmp/src/chunk.rs:258-260 | Bytes go to the end of the buffer |
| ChunkCodec.ChunkDecoder.SetChunkSize | crates/rtmp/src/chunk.rs:266-273 | Accepted exactly from 1 to 16 MiB |
| ChunkCodec.ChunkDecoder.Abort | crates/rtmp/src/chunk.rs:276-282 | The stream's unfinished message goes, and its bytes from `pending` |
| ChunkCodec.ChunkDecoder.Header | crates/rtmp/src/chunk.rs:295-411 | Reads a chunk header as specified, changing nothing |
| ChunkCodec.ChunkDecoder.NewMessage | crates/rtmp/src/chunk.rs:330-398 | Reads the header of a new message: fields left out stay, timestamps wrap, over-long messages are refused |
| ChunkCodec.ChunkDecoder.Continuation | crates/rtmp/src/chunk.rs:376-407 | Decides whether the extended timestamp is repeated from what the peer has shown |
| ChunkCodec.ChunkDecoder.NextChunk | crates/rtmp/src/chunk.rs:295-497 | Takes one chunk off the buffer, or leaves everything as it is when more is needed or it is an error |
| ChunkCodec.ChunkDecoder.NextMessage | crates/rtmp/src/chunk.rs:285-293 | The first complete message, if there is one |
| ChunkCodec.ChunkDecoder.HandleControl | crates/rtmp/src/session/mod.rs:92-103 | Set Chunk Size and Abort change how later chunks are read |
| ChunkLayout.ControlExactly | crates/rtmp/src/session/mod.rs:92-103 | Message type 1 with four bytes or more sets the chunk size to them, highest first and without the top bit, if that is 1 byte to 16 MiB, and is an error otherwise; type 2 drops exactly the unfinished message of the stream named; any other type changes nothing |
| ChunkLayout.FreshSizes | crates/rtmp/src/chunk.rs:14-17 | Before any such message chunks have 128 bytes |
| ChunkCodec.ChunkDecoder.Feed | crates/rtmp/src/session/server.rs:103-111 | The read loop drains all there is, obeying protocol messages in between |
| ChunkCodec.ChunkDecoder.FeedAll | crates/rtmp/src/session/server.rs:103-111 | Fed in any pieces it gives what it gives for all the bytes at once |
| ChunkCodec.ChunkEncoder.SetChunkSize | crates/rtmp/src/chunk.rs:578-582 | Clamped to 1 to 16 MiB |
| ChunkCodec.ChunkEncoder.Write | crates/rtmp/src/chunk.rs:584-615 | Appends the full header and data chunk by chunk, exactly as specified |
| Amf0.ValueRoundTrip | crates/rtmp/src/amf0.rs:139-268 | A value comes back as the format can carry it, with exactly its own bytes consumed, exactly when it nests at most 64 deep, else it is too deep |
| Amf0.AllRoundTrip | crates/rtmp/src/amf0.rs:79-86 | A list of values comes back exactly when none nests more than 64 deep, else it is too deep |
| Amf0.OneRoundTrip | crates/rtmp/src/amf0.rs:89-93 | Decoding one value takes exactly its own bytes, whatever follows |
| Amf0.DecodedKeeps | crates/rtmp/src/amf0.rs:139-201 | Whatever bytes were decoded, the value is within all limits |
| Amf0.DecodedRoundTrip | crates/rtmp/src/amf0.rs:89-268 | What was decoded from any bytes, encoded again, decodes to itself |
| Amf0.Reader.Props | crates/rtmp/src/amf0.rs:139-156 | The loop reads properties to an empty name with the end marker or the end of the data |
| Amf0.Reader.Items | crates/rtmp/src/amf0.rs:175-187 | The loop reads exactly that many elements |
| Amf0.Reader.Value | crates/rtmp/src/amf0.rs:158-201 | Reads the value at the position and moves past it |
| Amf0.Reader.Payload | crates/rtmp/src/amf0.rs:163-200 | Reads what follows each marker |
| Amf0.DecodeEvery | crates/rtmp/src/amf0.rs:79-86 | Every value, or the first error |
| Amf0.DecodeFirst | crates/rtmp/src/amf0.rs:89-93 | The first value and its size |
| Amf0.Put | crates/rtmp/src/amf0.rs:220-268 | Appends exactly the encoding to the buffer |
| Amf0.PutProps | crates/rtmp/src/amf0.rs:211-217 | Appends names, values and the end marker |
| Amf0Layout.WrittenLayout | crates/rtmp/src/amf0.rs:204-268 | By position, with the markers of section 2.1 of the AMF 0 specification written out: which marker each value gets, and what follows it, highest byte first |
| Amf0Layout.MarkersExactly | crates/rtmp/src/amf0.rs:163-200 | A marker says what a value is, and no other marker is known |
| Amf0Layout.ScalarsExactly | crates/rtmp/src/amf0.rs:101-137 | Values without others in them are read where they lie, exactly if all of it is there |
| Amf0Layout.ContainersExactly | crates/rtmp/src/amf0.rs:158-201 | The count of an associative array means nothing, that of a strict one must fit what is left, and nothing is read deeper than 64 |
| Amf0Layout.EndMayBeMissing | crates/rtmp/src/amf0.rs:139-156 | At the very end of the data an object is read the same without its end marker |
| SettingsMerge.FromUnmodified | crates/control/src/changes.rs:327-369 | Merged into an unmodified copy, a change gives exactly the settings after it |
| SettingsMerge.Idempotent | crates/control/src/changes.rs:343-369 | A change merged twice is merged once |
| SettingsMerge.AgreementKept | crates/control/src/changes.rs:343-369 | Where before and after agree, at any depth, the saved subtree stays, present or absent, if the merge gets down to there; else an enclosing section arrives whole |
| SettingsMerge.AgreementKeptExactly | crates/control/src/changes.rs:343-369 | It stays if and only if the merge gets down to there or it has that value anyway |
| SettingsMerge.SameShapeKept | crates/control/src/changes.rs:343-369 | In settings with the same sections and fields, everything a change leaves alone stays as saved |
| SettingsMerge.AgreementNotAlwaysKept | crates/control/src/changes.rs:366-368 | Whatever else the settings hold, a change of the service type of OBS's backup brings the backup's server along into a file whose backup is null |
| SettingsMerge.ChangeArrives | crates/control/src/changes.rs:343-369 | A setting given another value has it in the saved settings |
| SettingsMerge.CopyChanges | crates/control/src/changes.rs:343-369 | The loops over the target's fields compute the merge |
| SettingsMerge.Settings.Save | crates/control/src/changes.rs:267-300 | A change takes effect and is saved, or, with a file that cannot be written, neither |
| SettingsMerge.NoOverrides | crates/control/src/changes.rs:267-300 | Without overrides the file always holds what is in effect |
| SettingsMerge.OverridesStayOut | crates/control/src/changes.rs:267-273 | An override no change touches never reaches the file |

## Left out

- DelayEngine.Engine.EndAfter: takes only a number that has arrived, as its one caller gives (the newest message), because the code's later draining arithmetic relies on it.
- DelayEngine.Engine.Ingest: what inspecting the payload finds is a parameter of type `Inspected` (a keyframe is never also configuration, and the measured keyframe interval is positive); byte-level FLV and HEVC inspection is not part of this model.
- DelayEngine.Engine.Unsend: restarts from a keyframe at once, where the code leaves that to the dump that always follows it.
- DelayEngine.Engine.EmitEntry: the rewriting of CRA pictures to BLA ones and the wrap of output timestamps at 32 bits are not modelled.
- EngineRuns.DumpIsKept: a dump under the slate promises no delay, since behind the slate media airs almost live.
- DumpHandshake.DumpedMediaNeverAirs: speaks of dumps answered in time and of connections that are open; what a connection closed by a stop or a new destination had written may still arrive, as stopping cleanly intends.
- ChunkSending.UnrepeatedRoundTrip: one direction only, since bytes read out of step after that first chunk could by coincidence be the same messages; chunk by chunk, UnrepeatedTimestamp is exact.
- Amf0.ValueRoundTrip: numbers are eight opaque bytes and strings byte strings; UTF-8 repair is not modelled, and strings and arrays have fewer than 2^32 bytes or elements.
- SettingsMerge.CopyChanges: JSON values that are not objects are opaque; the fall-back to the whole new settings when they cannot be converted is not modelled.
- The handshake's two tasks are steps of one relation rather than methods: their order is the network's and the scheduler's, which a method could not leave open.
- Fields of the engine that are only shown (warnings, counters, rates, snapshots) do not appear.
- What a buffered entry itself takes in memory (88 bytes) is the compiler's choice, and stated for a 64-bit machine.
- Configuration is compared by its payload, where the code compares a fingerprint.
- Sockets, TLS, name resolution, retries and their timing, and picture renumbering for the destination's decoder.
- The block pool that message payloads are copied into, and the heap settings.
- HTTP routes, authentication, hotkeys, overlays, settings validation, secrets and connection limits would only add easy members.
