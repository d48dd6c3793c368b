# Locomotion SDK: lease protocol, wire layer, stream accounting

A Dafny model of three parts of the repository, with proofs of what they are for.

**The EXTERNAL lease.** The production topic mock is a lease server: a client PREPAREs, COMMITs, streams commands and
CANCELs, while a watchdog ends what goes silent. `LeaseServer` is the server as values, `Protocol` the object that
updates its fields, `Mock` the callbacks around it, `Controller` the client. `LeaseSystem` joins one server and any
number of clients by a network that may delay, drop, repeat and reorder every message at will; the session thread of a
client is cut wherever it does not hold its lock, and its other threads publish, deliver, close and call exit in
between. `LeaseCommands`, `LeaseReplies` and `LeaseTimers` say what each call does and when the watchdog strikes. `LeaseSafety`
holds the invariant of the composed system, `LeaseTheorems`, `LeaseDelivery`, `LeaseEntry`, `LeaseCancel` and
`LeaseIdentity` what follows for every run, and `LeaseRaces` concrete runs where a promise of the client fails.

**The FlatBuffers wire layer.** `VectorDownward` is the buffer that grows down with a scratch pad growing up,
`FlatBufferBuilder` the builder object over it, `BuilderModel` the same as values. `TableRoundTrip`, `BuilderLayout` and
`BuilderExact` prove what a finished table reads and how it is laid out, `BodyCommand`, `BodyCommandEncoder`,
`CommandRoundTrip`, `CommandVerified` and `CommandDelivery` take a whole command through the encoder, past the verifier,
and back through the readers.
`Verifier`, `BodyStateDecoder`, `StateArrays` and `JointReaders` do the other direction for untrusted states,
`MotorCodec` the planned bulk decoding of motors; `VerifierExact`, `StateShown` and `MotorShown` say what is accepted and
what comes out, apart from the code that does it.

**Stream accounting.** `Joy`, `JoyEdges`, `JoyAccounting` and `JoySplitting` for the joystick reader, `Recorder` for the
trial recorder and its writer thread, `Schedulers` for the re-anchoring deadlines.

Objects whose methods update fields are classes; each method is proved to do what a function on values says. What such
a function means is proved apart from it, in the lemmas whose names end in `Exactly` and `Outcome`; the theorems are
about those functions. Sequences of calls, interleavings and networks are step machines over the functions.

## What the proofs found

- `close` between an accepted PREPARE and the storing of its lease sends its only CANCEL without a lease. The server
  refuses it, the entry still sends its COMMIT, and the robot stays held after every message has been served. An
  `exit_external` on another thread at that moment does the same, and there entering even returns successfully, with
  no CANCEL left. `LeaseCancel.CancelNamesCommittedLease` proves that a CANCEL misses its lease exactly when another
  thread claimed it before the lease was stored, and `LeaseCancel.ServedCancelFreesCommittedLease` that every other
  CANCEL frees its lease once it is served.
- `close` may return while another thread, in entering, leaving or a `close` of its own, has claimed the CANCEL and not
  yet handed it over; `LeaseCancel.ClosedClientCancelledEachRequestOnce` proves that this is the only case.
- A command published between the arrival of the RUNNING status and the return of `enter_external` takes sequence 1,
  and the return resets the counter, so the next command takes it again. `LeaseIdentity.EntryRepeatsIdentityIffEarly`
  proves that an identity is repeated exactly then.
- Error 1007 ("not armed") is never answered: no reachable state has a holder outside the armed and the session phases.

## Assumptions

- The monotonic time that successive calls read does not decrease, since the watchdog subtracts unsigned times. The
  time stamps of statuses do not decrease either.
- In the composed system clients have distinct names, requests distinct identities, clients are honest, and the server
  has no scripted rejection.
- A flush, a write or the closing of a file may fail at any time; a call of the transport may fail at any time.

## Model

| member | source | states |
|---|---|---|
| Words.DecimalInjective | tools/production_topic_mock/protocol.cpp:246 | the decimal spelling of the counter names one number only |
| LeaseServer.LeaseInjective | tools/production_topic_mock/protocol.cpp:246 | two leases made from different counter values are different strings |
| ProtocolObject.Protocol.constructor | tools/production_topic_mock/protocol.cpp:184-192 | a new server is idle and owns nothing |
| ProtocolObject.Protocol.Create | tools/production_topic_mock/protocol.cpp:184-192 | a server, or none exactly when the counter or a timeout is zero |
| ProtocolObject.Protocol.Clear | tools/production_topic_mock/protocol.cpp:199-208 | everything is forgotten but the counters; the status sequence goes up by one |
| ProtocolObject.Protocol.InvalidateApplied | tools/production_topic_mock/protocol.cpp:209-213 | the evidence of an applied command is gone, the positions stay |
| ProtocolObject.Protocol.Watchdog | tools/production_topic_mock/protocol.cpp:214-223 | an arming or a running session that outlived its timeout is ended, exactly as the value model says |
| ProtocolObject.Protocol.RequestControl | tools/production_topic_mock/protocol.cpp:224-274 | the whole new state and the answer of a request, branch by branch those of the value model |
| ProtocolObject.Protocol.Accept | tools/production_topic_mock/protocol.cpp:275-308 | a command is taken exactly when it is admissible after the watchdog; it replaces a pending one, which is counted |
| ProtocolObject.Protocol.Tick | tools/production_topic_mock/protocol.cpp:309-318 | a tick applies the pending command of a running session, and nothing else |
| LeaseRuns.StepInv | tools/production_topic_mock/protocol.cpp:199-318 | every call keeps the invariant: the phases, idle exactly when nothing is owned, a session number exactly in a session, a pending command only of the running session and equal to the last sequence, no evidence outside RUNNING, counter bounds |
| LeaseRuns.RequestIdempotent | tools/production_topic_mock/protocol.cpp:224-274 | the same request twice at one time: same error, and the second changes nothing |
| LeaseReplies.AcceptedIffGrantable | tools/production_topic_mock/protocol.cpp:224-274 | a request is accepted if and only if the state of the lease allows it; a refusal changes nothing |
| LeaseReplies.AcceptedOutcome | tools/production_topic_mock/protocol.cpp:235-273 | what an accepted PREPARE, COMMIT and CANCEL leave behind |
| LeaseReplies.RefusalReasons | tools/production_topic_mock/protocol.cpp:226-273 | each error code if and only if its reason holds, in the order in which the reasons are looked at; 1007 is never answered |
| LeaseReplies.EverySubmissionIsCounted | tools/production_topic_mock/protocol.cpp:275-318 | over any run every submitted command is rejected and counted, applied, overwritten, discarded or still pending |
| LeaseCommands.CommandTakenExactly | tools/production_topic_mock/protocol.cpp:275-291 | a command is taken if and only if a session runs or is held, the command is of that session and newer than the last one taken, it rests on an observation, and every motor slot is finite and within the limits |
| LeaseCommands.TakenOutcome | tools/production_topic_mock/protocol.cpp:300-308 | a taken command runs the session again, is pending and the newest, and takes the place of a pending one, which is counted |
| LeaseCommands.RefusedOutcome | tools/production_topic_mock/protocol.cpp:292-299 | a refused command is counted and coded, and nothing else of the session changes |
| LeaseCommands.RequestOutcome | tools/production_topic_mock/protocol.cpp:224-273 | only the PREPARE that arms, the COMMIT that starts and the CANCEL of what is held change the server, each in its own way and no other |
| LeaseCommands.AppliesExactly | tools/production_topic_mock/protocol.cpp:309-318 | a tick applies if and only if a command is pending and the session has not been silent for the command timeout |
| LeaseCommands.OutputMovesByTicks | tools/production_topic_mock/protocol.cpp:209-223 | only a tick that applies moves the joints, to the pending command; evidence lasts exactly as long as the session runs |
| LeaseRuns.StatusChangeRaisesSequence | tools/production_topic_mock/protocol.cpp:199-308 | whatever changes any field of the status raises its sequence, clearing included |
| LeaseRuns.TickShowsPending | tools/production_topic_mock/protocol.cpp:309-318 | a tick shows the pending command and uses it up |
| LeaseRuns.StepGrants | tools/production_topic_mock/protocol.cpp:242-273 | a new lease or session takes its number from the counter, which grew |
| LeaseRuns.StepKeepsCount | tools/production_topic_mock/protocol.cpp:214-318 | one call moves commands between accepted, applied, overwritten, discarded and pending, and loses none |
| LeaseRuns.ReplayInv | tools/production_topic_mock/protocol.cpp:199-318 | the history invariant holds after any sequence of calls |
| LeaseRuns.AppliedInOrderAndConserved | tools/production_topic_mock/protocol.cpp:275-318 | over any run the applied (session, sequence) pairs strictly increase, each output is the newest accepted command, and accepted = applied + overwritten + discarded + pending |
| LeaseRuns.LeasesAndSessionsNeverRepeat | tools/production_topic_mock/protocol.cpp:246-270 | over any run no lease and no session is given twice, and sessions grow |
| LeaseRuns.StatusSequenceIdentifiesStatus | tools/production_topic_mock/protocol.cpp:199-308 | over any run equal status sequences mean equal statuses |
| LeaseRuns.LostLeaseStaysLost | tools/production_topic_mock/protocol.cpp:199-274 | a lease that is no longer held is never held again |
| LeaseRuns.AcceptedCancelIsFinal | tools/production_topic_mock/protocol.cpp:252-263 | an accepted CANCEL ends its lease for good |
| LeaseRuns.AppliedCommandsAreFresh | tools/production_topic_mock/protocol.cpp:214-223 | with a clock that does not go back: no command is applied later than the command timeout after it was accepted, and no arming or running session outlives its timeout |
| LeaseTimers.WatchdogIsExact | tools/production_topic_mock/protocol.cpp:214-223 | over any run with a clock that does not go back: a session is held, and a pending command dropped, if and only if the session was last kept alive the command timeout ago or more; an arming is lost if and only if it outlived its own timeout or was cancelled |
| LeaseTimers.HeldStep | tools/production_topic_mock/protocol.cpp:214-308 | a held session stays held, under its lease, until a command revives it or a CANCEL ends it |
| LeaseTimers.StreamKeepsRunning | tools/production_topic_mock/protocol.cpp:275-308 | a stream whose calls come before the timeout since the last command taken never leaves RUNNING and drops no command |
| Schedulers.NextApplyTickIsLeast | tools/production_topic_mock/protocol.cpp:176-183 | the tick is the least multiple of the period at or after its input, and the call overflows exactly when that does not fit 64 bits |
| Schedulers.Advance | tools/production_topic_mock/mock.cpp:236-238 | a deadline that has come moves to the first one after now on its grid, exactly when that one fits 64 bits |
| Schedulers.RunCycles | examples/velocity_mode/velocity_mode.py:116-209 | the deadlines of the loop, from its waking delays and its work: a cycle that ends in time keeps the grid, an overrun waits a whole period |
| Schedulers.DeadlinesApart | examples/velocity_mode/velocity_mode.py:206-209 | deadlines are at least a period apart |
| Schedulers.NoCatchUpBurst | examples/velocity_mode/velocity_mode.py:206-209 | a window of length T holds fewer than T / P + 2 cycle starts |
| Mock.Context.ReceiveCommand | tools/production_topic_mock/mock.cpp:88-135 | a command frame changes the server and exactly one counter; an accepted one plans its tick |
| Mock.CommandCounted | tools/production_topic_mock/mock.cpp:125-134 | every command frame moves exactly one counter, and only an acceptance plans a tick |
| Mock.Context.ReceiveRequest | tools/production_topic_mock/mock.cpp:136-165 | a request is tried on a copy; only a published acknowledgement makes the copy the server |
| Mock.RequestCounted | tools/production_topic_mock/mock.cpp:136-165 | every request frame moves one counter, and an acknowledgement that failed to go out is remembered |
| Mock.Context.ApplyDue | tools/production_topic_mock/mock.cpp:359-369 | the apply step ticks only at or after the planned tick; then a pending command that has not timed out is applied and counted |
| Mock.Context.SnapshotStatus | tools/production_topic_mock/mock.cpp:384-390 | a status is taken after the watchdog |
| Controller.IsNewerIsLexicographic | python/locomotion_aorta/controller.py:513-522 | the order on statuses is the strict lexicographic order on stamp and sequence |
| Controller.LatestIsFirstMaximum | python/locomotion_aorta/controller.py:383-393 | in whatever order statuses arrive, the remembered one is the first of the maxima |
| Controller.GotReportExactly | python/locomotion_aorta/controller.py:383-393 | an open controller keeps a status if and only if it is newer; a closed one hears nothing |
| Controller.OwnsRunningExactly | python/locomotion_aorta/controller.py:446-458 | entering waits for its own session to run, in a status after the one known before the COMMIT |
| Controller.GotAckExactly | python/locomotion_aorta/controller.py:370-381 | an acknowledgement is kept if and only if it is the first of its operation for the active request; a kept one never changes |
| Controller.FirstAckWins | python/locomotion_aorta/controller.py:370-381 | in whatever order and however often acknowledgements arrive, the first of an operation counts |
| Controller.RequestBoundaries | python/locomotion_aorta/controller.py:156-166 | a request begins with nothing of an earlier one, and ending it forgets it |
| Controller.PublishedExactly | python/locomotion_aorta/controller.py:229-294 | a command goes out if and only if the controller is open, the command valid, and the session its own and running or learned; it carries exactly what the caller asked for, numbered on |
| Controller.ExternalController.constructor | python/locomotion_aorta/controller.py:64-122 | a new controller has no request, no lease and no session |
| Controller.ExternalController.BeginEnter | python/locomotion_aorta/controller.py:156-166 | a controller without a request begins one, with a clean session |
| Controller.ExternalController.StoreLease | python/locomotion_aorta/controller.py:179-183 | the lease of the accepted PREPARE is stored together with the status before the COMMIT |
| Controller.ExternalController.FinishEnter | python/locomotion_aorta/controller.py:199-202 | the session of the RUNNING status is taken and its sequences restart at one |
| Controller.ExternalController.BestEffortCancel | python/locomotion_aorta/controller.py:435-444 | whoever comes first claims the one CANCEL of a request |
| Controller.ExternalController.Close | python/locomotion_aorta/controller.py:325-341 | closing claims the CANCEL unless another has |
| Controller.ExternalController.ClearSession | python/locomotion_aorta/controller.py:479-484 | the session is forgotten |
| Controller.ExternalController.OnAck | python/locomotion_aorta/controller.py:370-381 | the first acknowledgement of each operation of the current request is kept |
| Controller.ExternalController.OnStatus | python/locomotion_aorta/controller.py:383-393 | a status is kept when it is newer |
| Controller.ExternalController.Publish | python/locomotion_aorta/controller.py:229-294 | the identity a command is published under, with all the caller asked for, or why it is not published |
| LeaseSafety.NextInv | python/locomotion_aorta/controller.py:149-484 | the invariant of server, clients and network is kept by every step |
| LeaseTheorems.ReachedInv | python/locomotion_aorta/controller.py:149-484 | and so holds in every reachable state |
| LeaseTheorems.AcceptedCommandIsOfHolder | tools/production_topic_mock/protocol.cpp:275-308 | with commands delayed, repeated and reordered: a command the server accepts was issued by the client that holds the lease, under that lease and session, and what is pending is what its caller asked for |
| LeaseTheorems.AppliedCommandIsOfHolder | tools/production_topic_mock/protocol.cpp:309-318 | the same for a command the server applies: the joints show what the caller asked for |
| LeaseTheorems.EarlierSessionIsNeverAccepted | tools/production_topic_mock/protocol.cpp:275-308 | a command of a session that is over is never accepted in any continuation |
| LeaseDelivery.HolderIsServed | tools/production_topic_mock/protocol.cpp:275-308 | in every reachable state with a session, the next command of its holder above the last one taken and within the limits is taken and runs the session, also out of a hold |
| LeaseDelivery.HolderMovesTheJoints | tools/production_topic_mock/protocol.cpp:275-318 | and a tick before it times out shows what its caller asked for |
| LeaseEntry.EnteringReturnsGranted | python/locomotion_aorta/controller.py:168-202 | entering returns only when the server accepted the PREPARE with the lease the client holds, and its COMMIT, and reported the own session running |
| LeaseEntry.LeavingReturnsReleased | python/locomotion_aorta/controller.py:296-323 | leaving returns only when the server accepted a CANCEL of the request and the robot was reported given back; the committed lease is then not held now or later, unless the CANCEL was claimed before the lease was stored |
| LeaseEntry.LeavingExactly | python/locomotion_aorta/controller.py:296-323 | leaving claims the CANCEL if nobody has, waits for its acknowledgement and for a status that shows the robot given back, and forgets the session; a refusal ends it |
| LeaseEntry.ReportExactly | tools/production_topic_mock/protocol.cpp:65-91 | a status is EXTERNAL exactly while a session runs or is held, and names its holder, lease and session |
| LeaseTheorems.CancelIsFinal | tools/production_topic_mock/protocol.cpp:252-263 | after the server processed a CANCEL that names a lease, no continuation has that lease again |
| LeaseTheorems.StatusOrderIsSound | python/locomotion_aorta/controller.py:383-393 | the order in which a client puts statuses never contradicts the order in which the server made them |
| LeaseCancel.ClosedClientCancelledEachRequestOnce | python/locomotion_aorta/controller.py:325-341 | after any close has returned every request of the client had exactly one CANCEL claimed; it was handed over if and only if no thread, in entering, leaving or another close, is between the two |
| LeaseCancel.QuietCloseHandsOverEachCancel | python/locomotion_aorta/controller.py:325-341 | if no other thread is inside entering, leaving or closing when close returns, the CANCEL of each request was handed over exactly once |
| LeaseCancel.CancelNamesCommittedLease | python/locomotion_aorta/controller.py:168-205 | a committed request has no CANCEL exactly while it is active and unclaimed; after that one, which names the committed lease if and only if it was not claimed before the lease was stored, by close or by an exit on another thread |
| LeaseCancel.FailedEntryCancelsOnce | python/locomotion_aorta/controller.py:203-205 | an entry that fails attempts exactly one CANCEL in every continuation, handed over unless a thread stands before that; after a COMMIT it names the committed lease under the same condition |
| LeaseCancel.OnlyCloseOvertakes | python/locomotion_aorta/controller.py:325-336 | when no other thread calls exit beside the session thread, a CANCEL is claimed before its lease is stored only by closing the client |
| LeaseCancel.ServedCancelFreesCommittedLease | python/locomotion_aorta/controller.py:168-205 | once a CANCEL of a request has been served, no later state holds the lease committed for the request, unless the CANCEL was claimed before the lease was stored |
| LeaseRaces.CloseMayLeaveTheRobotHeld | python/locomotion_aorta/controller.py:179-205 | a run in which close overtakes the storing of the lease: its CANCEL carries no lease, and the session stays |
| LeaseRaces.CloseMayReturnBeforeTheCancel | python/locomotion_aorta/controller.py:325-341 | a run in which close returns while the CANCEL that a failed entry claimed is not handed over |
| LeaseRaces.SecondCloseMayReturnBeforeTheCancel | python/locomotion_aorta/controller.py:325-341 | a run in which a second close returns while the CANCEL that the first one claimed is not handed over |
| LeaseRaces.ExitMaySpendTheCancel | python/locomotion_aorta/controller.py:296-302 | a run in which an exit on another thread spends the CANCEL without a lease: entering returns with a running session and no CANCEL left |
| LeaseIdentity.SequencesRunFromOne | python/locomotion_aorta/controller.py:251-277 | the sequences of a lease run 1, 2, 3, ... unless it was published under before entering returned |
| LeaseIdentity.NoIdentityTwice | python/locomotion_aorta/controller.py:251-277 | no (session, sequence) is assigned twice by any clients in any sessions, under the same condition |
| LeaseIdentity.EntryRepeatsIdentityIffEarly | python/locomotion_aorta/controller.py:199-202 | when entering returns, its next identity was assigned before if and only if a command was published under the lease during the entry |
| LeaseRaces.EntryMayRepeatAnIdentity | python/locomotion_aorta/controller.py:199-202 | a run in which that happens: two commands with identity (3, 1) |
| VectorDownward.Vector.Reallocate | demo_onnx/cpp/body_cmd_vendor/flatbuffers/vector_downward.h:278-293 | growing keeps all data and all scratch bytes and adds at least the room asked for |
| VectorDownward.Vector.EnsureSpace | demo_onnx/cpp/body_cmd_vendor/flatbuffers/vector_downward.h:144-153 | afterwards there is the room asked for; nothing moved |
| VectorDownward.Vector.MakeSpace | demo_onnx/cpp/body_cmd_vendor/flatbuffers/vector_downward.h:155-162 | room in front; what was there keeps its offset from the end |
| VectorDownward.Vector.Push | demo_onnx/cpp/body_cmd_vendor/flatbuffers/vector_downward.h:200-211 | data grows at its front by the bytes pushed; the scratch pad is untouched |
| VectorDownward.Vector.ScratchPush | demo_onnx/cpp/body_cmd_vendor/flatbuffers/vector_downward.h:213-218 | the scratch pad grows at its back; the data is untouched |
| VectorDownward.Vector.Fill | demo_onnx/cpp/body_cmd_vendor/flatbuffers/vector_downward.h:222-231 | zeros in front |
| VectorDownward.Vector.Pop | demo_onnx/cpp/body_cmd_vendor/flatbuffers/vector_downward.h:233-236 | takes back the last bytes pushed |
| VectorDownward.Vector.ScratchPop | demo_onnx/cpp/body_cmd_vendor/flatbuffers/vector_downward.h:238 | takes back the last scratch bytes |
| BuilderObject.FlatBufferBuilder.Align | demo_onnx/cpp/body_cmd_vendor/flatbuffers/flatbuffer_builder.h:290-293 | padding to a multiple of the element size, counted from the end |
| BuilderObject.FlatBufferBuilder.PreAlign | demo_onnx/cpp/body_cmd_vendor/flatbuffers/flatbuffer_builder.h:529-533 | padding such that what comes next ends aligned |
| BuilderObject.FlatBufferBuilder.PushElement | demo_onnx/cpp/body_cmd_vendor/flatbuffers/flatbuffer_builder.h:311-317 | an aligned scalar in front; its offset is the new size |
| BuilderObject.FlatBufferBuilder.TrackField | demo_onnx/cpp/body_cmd_vendor/flatbuffers/flatbuffer_builder.h:327-334 | the location goes on the scratch pad |
| BuilderObject.FlatBufferBuilder.AddElement | demo_onnx/cpp/body_cmd_vendor/flatbuffers/flatbuffer_builder.h:338-347 | a scalar is stored unless it equals its default and defaults are not forced |
| BuilderObject.FlatBufferBuilder.AddOffset | demo_onnx/cpp/body_cmd_vendor/flatbuffers/flatbuffer_builder.h:350-353 | a reference is stored as the distance to its target; null is not stored |
| BuilderObject.FlatBufferBuilder.AddStruct | demo_onnx/cpp/body_cmd_vendor/flatbuffers/flatbuffer_builder.h:362-367 | a struct is stored aligned; null is not stored |
| BuilderObject.FlatBufferBuilder.ReferTo | demo_onnx/cpp/body_cmd_vendor/flatbuffers/flatbuffer_builder.h:376-402 | the distance from the next word to an offset |
| BuilderObject.FlatBufferBuilder.StartTable | demo_onnx/cpp/body_cmd_vendor/flatbuffers/flatbuffer_builder.h:420-424 | a table begins at the current size |
| BuilderObject.FlatBufferBuilder.SameVTable | demo_onnx/cpp/body_cmd_vendor/flatbuffers/flatbuffer_builder.h:473-476 | two vtables are compared by size and then by bytes |
| BuilderObject.FlatBufferBuilder.FindShared | demo_onnx/cpp/body_cmd_vendor/flatbuffers/flatbuffer_builder.h:464-481 | the first kept vtable with the same bytes |
| BuilderObject.FlatBufferBuilder.EndTable | demo_onnx/cpp/body_cmd_vendor/flatbuffers/flatbuffer_builder.h:429-496 | the table is closed with its own vtable or a kept one of the same bytes, and every kept vtable stays good |
| BuilderObject.FlatBufferBuilder.CreateVectorOfStructs | demo_onnx/cpp/body_cmd_vendor/flatbuffers/flatbuffer_builder.h:937-947 | a vector of structs: aligned elements behind their count |
| BuilderObject.FlatBufferBuilder.CreateString | demo_onnx/cpp/body_cmd_vendor/flatbuffers/flatbuffer_builder.h:1412-1418 | a string: its length, its bytes and a zero |
| BuilderObject.FlatBufferBuilder.Finish | demo_onnx/cpp/body_cmd_vendor/flatbuffers/flatbuffer_builder.h:1293-1320 | the distance to the root in front, and the whole size aligned |
| TableRoundTrip.ReadsThrough | demo_onnx/cpp/body_cmd_vendor/flatbuffers/table.h:30-50 | a table whose link names a vtable reads its fields from there |
| TableRoundTrip.FieldRoundTrip | demo_onnx/cpp/body_cmd_vendor/flatbuffers/flatbuffer_builder.h:327-496 | any distinct fields added in any order: reading the finished table, in its buffer or any later one, gives each value, each struct, each target, and the default of what was not stored |
| TableRoundTrip.OthersAbsent | demo_onnx/cpp/body_cmd_vendor/flatbuffers/flatbuffer_builder.h:442-462 | a field that was not added reads as absent |
| TableRoundTrip.FieldLiesInTable | demo_onnx/cpp/body_cmd_vendor/flatbuffers/flatbuffer_builder.h:436-462 | every stored field lies in the table behind its link, and is aligned |
| TableRoundTrip.EarlierTablesKept | demo_onnx/cpp/body_cmd_vendor/flatbuffers/flatbuffer_builder.h:464-493 | building a table, with or without sharing a vtable, changes what no earlier table reads |
| BuilderExact.PlacedExactly | demo_onnx/cpp/body_cmd_vendor/flatbuffers/flatbuffer_builder.h:327-367 | a field at its default, an absent struct and a null reference take no room; any other takes its own bytes and the least padding |
| BuilderExact.PreAlignedExactly | demo_onnx/cpp/body_cmd_vendor/flatbuffers/flatbuffer_builder.h:529-533 | padding is zeros, none for nothing, and no longer than alignment asks for |
| BuilderExact.SharedExactly | demo_onnx/cpp/body_cmd_vendor/flatbuffers/flatbuffer_builder.h:469-481 | a vtable is shared if and only if a kept one has the same bytes, and then with the first of them |
| BuilderExact.EndedExactly | demo_onnx/cpp/body_cmd_vendor/flatbuffers/flatbuffer_builder.h:464-493 | ending a table adds its link, and a vtable only when no kept one will do |
| BuilderExact.FieldsInOrder | demo_onnx/cpp/body_cmd_vendor/flatbuffers/flatbuffer_builder.h:327-462 | no two fields of a table overlap: what was added later lies in front |
| Tables.PrependKeepsTable | demo_onnx/cpp/body_cmd_vendor/flatbuffers/table.h:30-50 | a table reads the same whatever is put in front of it |
| BuilderLayout.VectorStands | demo_onnx/cpp/body_cmd_vendor/flatbuffers/flatbuffer_builder.h:684-699 | count and elements lie together, both aligned counting from the end |
| BuilderLayout.StringStands | demo_onnx/cpp/body_cmd_vendor/flatbuffers/flatbuffer_builder.h:1412-1418 | length, bytes and terminator lie together |
| BuilderLayout.FinishedStands | demo_onnx/cpp/body_cmd_vendor/flatbuffers/flatbuffer_builder.h:1293-1320 | a finished buffer begins with the place of its root, and its size is a multiple of the coarsest alignment, so offsets from the end are aligned from the start |
| BodyCommandEncoder.MarshalJoints | demo_onnx/cpp/body_cmd_encoder.cpp:39-47 | the joints as fixed-stride rows |
| BodyCommandEncoder.Encode | demo_onnx/cpp/body_cmd_encoder.cpp:36-100 | the message of a command built step by step in the order of the encoder, or the refusal of a wrong joint count |
| BulkReader.BulkReadsExactly | python/locomotion_aorta/_body_codec.py:30-62 | the bulk reader succeeds on exactly the sound tables whose field is absent or well placed, and then reads what the accessors read |
| BulkReader.BulkRefusals | python/locomotion_aorta/_body_codec.py:30-62 | each refusal of the bulk reader if and only if its reason is the first that holds |
| CommandRoundTrip.JointsRead | python/locomotion_aorta/_body_codec.py:70-74 | rows of joints read back |
| CommandRoundTrip.EncodedReadsBack | demo_onnx/cpp/body_cmd_encoder.cpp:70-100 | every encoded command passes all checks of the bulk reader, which returns exactly the 31 joints; the accessors give back every other field and the header |
| BodyCommandEncoder.CommandVTableIsNew | demo_onnx/cpp/body_cmd_vendor/flatbuffers/flatbuffer_builder.h:464-485 | the command never shares the vtable of its header, so the largest size of the buffer is that of the message |
| CommandVerified.MessagePasses | tools/production_topic_mock/mock.cpp:93-96 | every encoded command passes the whole verification its receiver runs: root, both tables and vtables, alignment of every field from the start, joints, name and its terminator |
| CommandDelivery.NodesFit | demo_onnx/cpp/body_cmd_encoder.cpp:64-73 | only a name within 4 KiB of 2 GiB can make a message too long for the builder |
| CommandDelivery.EncodeReadsBack | demo_onnx/cpp/body_cmd_encoder.cpp:36-100 | encoding refuses exactly a wrong number of joints, and whatever it does not refuse passes the verifier and reads back whole |
| CommandDelivery.EncodedLayout | demo_onnx/cpp/body_cmd_encoder.cpp:81-100 | exactly the numbers at zero and an absent orientation are left out of a command, and its fields lie in the order of the encoder |
| Verifier.TableStartOk | demo_onnx/cpp/body_cmd_vendor/flatbuffers/verifier.h:184-200 | the checks on a table's link and vtable, with the subtraction modulo 2^64; what passes can be read |
| Verifier.VectorOk | demo_onnx/cpp/body_cmd_vendor/flatbuffers/verifier.h:145-161 | the checks on a vector; what passes lies in the buffer, elements included |
| VerifierExact.TableStartExactly | demo_onnx/cpp/body_cmd_vendor/flatbuffers/verifier.h:184-200 | a table passes if and only if it can be read, is in place, and neither it nor its vtable is the whole buffer |
| VerifierExact.VectorExactly | demo_onnx/cpp/body_cmd_vendor/flatbuffers/verifier.h:145-161 | a vector passes if and only if its count and all its elements lie in place in the buffer, short of the limit on elements |
| VerifierExact.StringExactly | demo_onnx/cpp/body_cmd_vendor/flatbuffers/verifier.h:136-143 | a string passes if and only if, besides, a zero stands behind its bytes |
| Verifier.CountingVerifier.VerifyComplexity | demo_onnx/cpp/body_cmd_vendor/flatbuffers/verifier.h:286-290 | depth and number of tables go up by one and are checked |
| Verifier.CountingVerifier.VerifyTableStart | demo_onnx/cpp/body_cmd_vendor/flatbuffers/verifier.h:184-200 | accepts exactly when the checks pass and the limits are not reached |
| Verifier.CountingVerifier.VerifyVectorOfTables | demo_onnx/cpp/body_cmd_vendor/flatbuffers/verifier.h:173-182 | accepts exactly when every element is a good table and the limit on tables is kept |
| Verifier.CountingVerifier.VerifyBodyState | demo_onnx/cpp/body_cmd_vendor/body_state_generated.h:634-654 | accepts exactly the well-formed states of at most a million tables |
| VerifierExact.StateExactly | demo_onnx/cpp/body_cmd_vendor/body_state_generated.h:634-654 | a state passes if and only if its tables, strings and vectors are sound, field by field of their schemas |
| VerifierExact.TablesCounted | demo_onnx/cpp/body_cmd_vendor/flatbuffers/verifier.h:286-290 | the tables of a state that are counted are itself, its header and its IMU samples |
| Verifier.CountingVerifier.VerifyBodyCmd | demo_onnx/cpp/body_cmd_vendor/body_cmd_generated.h:271-287 | accepts exactly the well-formed command tables |
| VerifierExact.CommandExactly | demo_onnx/cpp/body_cmd_vendor/body_cmd_generated.h:271-287 | a command passes if and only if its tables, string and vector are sound, field by field of their schemas |
| Verifier.CountingVerifier.VerifyBodyCmdBuffer | demo_onnx/cpp/body_cmd_vendor/flatbuffers/verifier.h:203-225 | accepts exactly the buffers whose root is a well-formed command |
| BodyStateDecoder.VerifiedReadsInside | demo_onnx/cpp/body_state_decoder.cpp:37-92 | for every byte string: in a verified state all fields, all joints, all IMU tables and their 52-byte structs lie in the buffer |
| BodyStateDecoder.ReadState | demo_onnx/cpp/body_state_decoder.cpp:37-92 | accepts exactly the verified version-2 states with 31 joints or none, and returns what stands there; every raw read is shown to lie in the buffer |
| StateShown.DecodedExactly | demo_onnx/cpp/body_state_decoder.cpp:37-92 | a buffer decodes to a state if and only if its table passes, is of version 2, has 31 joints or none, and its accessors find exactly the bytes of that state; each error if and only if its reason is the first |
| StateShown.ShownStateIsUnique | demo_onnx/cpp/body_state_decoder.cpp:37-92 | no table shows two states |
| StateArrays.DecodeArrays | demo_onnx/cpp/body_state_decoder.cpp:158-232 | the same buffers and errors as decoding; the columns hold the state row by row |
| StateArrays.RebuiltStateIsDecoded | python/locomotion_aorta/state_arrays.py:48-72 | columns that hold a state determine it, absent IMU rows included |
| StateArrays.ImuColumnsExactly | demo_onnx/cpp/body_state_decoder.cpp:158-232 | the thirteen values of a sample in their order, or zeros for a sample without a state |
| StateArrays.DecodeThroughArrays | python/locomotion_aorta/state_arrays.py:48-72 | decoding into columns and rebuilding equals decoding, for every buffer and offset |
| JointReaders.ReadersAgree | python/locomotion_aorta/_body_codec.py:65-67 | on a state that both accept, the native decoder and the Python bulk reader give the same joints |
| MotorCodec.PlanExists | python/locomotion_aorta/_motor_codec.py:55-81 | there is a plan exactly for vtables with sound sizes whose present fields lie in the table and do not overlap |
| MotorCodec.PlanReads | python/locomotion_aorta/_motor_codec.py:70-81 | one read with the plan stays inside the object and gives for each field the bytes at its own offset, or zero |
| MotorCodec.StatePlan | python/locomotion_aorta/_motor_codec.py:55-81 | the plan, or the first reason against it |
| MotorCodec.UnpackTable | python/locomotion_aorta/_motor_codec.py:106-119 | one motor, with a kept plan or a new one |
| MotorCodec.UnpackMotorStates | python/locomotion_aorta/_motor_codec.py:84-120 | the motors of a message are those read field by field without any plan; keeping plans per vtable changes nothing |
| MotorShown.MotorExactly | python/locomotion_aorta/_motor_codec.py:55-119 | a motor is read if and only if its table is sound and its fields lie apart, and is the one the accessors show at the slots of the schema |
| MotorShown.MessageExactly | python/locomotion_aorta/_motor_codec.py:84-120 | a message has exactly the motors its vector shows, in order |
| MotorShown.PlanRefusals | python/locomotion_aorta/_motor_codec.py:55-81 | each refusal of a vtable if and only if its reason is the first that holds |
| MotorCodec.FirstErrorWins | python/locomotion_aorta/_motor_codec.py:101-120 | the first motor that is refused refuses the message |
| Joy.JoyReader.Diagnose | python/locomotion_aorta/joy.py:91-93 | a diagnostic is counted and the history marked incomplete |
| Joy.JoyReader.CountEdges | python/locomotion_aorta/joy.py:137-142 | presses and releases of every button both samples have, and nothing else |
| Joy.JoyReader.Accept | python/locomotion_aorta/joy.py:95-148 | the whole new state after a decoded sample |
| Joy.JoyReader.Read | python/locomotion_aorta/joy.py:150-189 | drains the frames, hands out what was counted, and starts counting anew |
| Joy.AcceptedKeeps | python/locomotion_aorta/joy.py:106-148 | a sample that is no duplicate becomes the latest, what it skipped is missing, and exactly what makes the history incomplete |
| JoyEdges.ComparedExactly | python/locomotion_aorta/joy.py:137-142 | one comparison counts a press exactly where a button goes down and a release exactly where it comes up |
| JoyEdges.FrameEdges | python/locomotion_aorta/joy.py:106-142 | a frame counts an edge of a button if and only if it is compared with the latest sample and the button changed its level |
| JoyEdges.FrameDiagnostics | python/locomotion_aorta/joy.py:91-138 | a frame is diagnosed with exactly the causes that apply to it |
| JoyEdges.FrameLatest | python/locomotion_aorta/joy.py:143-148 | a sample that is no duplicate becomes the latest; any other frame leaves the latest alone |
| JoyEdges.EdgesAreSteps | python/locomotion_aorta/joy.py:134-142 | on an unbroken baseline the presses of a button are the rising steps of its level over the samples taken, the releases the falling ones |
| JoyEdges.ReadHandsOut | python/locomotion_aorta/joy.py:150-189 | after any series of reads a read hands out, for every button and diagnostic, the count over the frames it took, and the next begins with nothing |
| JoyEdges.QuietRead | python/locomotion_aorta/joy.py:171-172 | a read that finds no frame repeats the verdict of the read before |
| JoyAccounting.ReceivedInv | python/locomotion_aorta/joy.py:95-148 | the latest sample's publisher always has its last number remembered |
| JoyAccounting.CompleteMeansConsecutive | python/locomotion_aorta/joy.py:171-188 | a read that took frames reports a complete history if and only if they are samples of one publisher numbered on from the last sample before, modulo 2^64, with as many buttons |
| JoySplitting.EveryCompleteReadIsConsecutive | python/locomotion_aorta/joy.py:150-189 | the same for the next read of every reader, whatever it has read before |
| JoyAccounting.EdgesBalanceLevels | python/locomotion_aorta/joy.py:134-142 | on an unbroken baseline presses less releases are the change of level |
| JoyAccounting.SamplesAccountForSpans | python/locomotion_aorta/joy.py:111-148 | samples accepted plus missing are the lengths of what each source counted through, across wrap-around and interleaving |
| JoySplitting.SplittingChangesNothing | python/locomotion_aorta/joy.py:150-189 | however arrivals are split into reads, the reads hand out the same counts and leave the same state |
| JoySplitting.TotalsAreHandedOut | python/locomotion_aorta/joy.py:147-188 | the totals grow by what the reads hand out |
| Recorder.TrialRecorder.Write | examples/wbc_tracking_mode/wbc_tracking_mode.py:116-132 | a row is enqueued, refused or kept as summary; a closed recorder takes none |
| Recorder.SubmittedExactly | examples/wbc_tracking_mode/wbc_tracking_mode.py:116-132 | a closed recorder takes nothing, an open one keeps every summary, refuses a row if and only if an error happened or the queue is full, and queues any other last |
| Recorder.TrialRecorder.Fail | examples/wbc_tracking_mode/wbc_tracking_mode.py:155-160 | after an error everything queued is dropped and counted |
| Recorder.TrialRecorder.Take | examples/wbc_tracking_mode/wbc_tracking_mode.py:164-169 | the writer takes the oldest row, or leaves when the recorder closes |
| Recorder.StepInv | examples/wbc_tracking_mode/wbc_tracking_mode.py:116-200 | every interleaved step keeps the invariant |
| Recorder.NothingVanishes | examples/wbc_tracking_mode/wbc_tracking_mode.py:116-200 | at every moment: submitted = enqueued + refused + summaries; enqueued = handed to the file + in flight + queued + lost; dropped = refused + lost; the queue is within its capacity |
| Recorder.NormalCloseWritesEverything | examples/wbc_tracking_mode/wbc_tracking_mode.py:162-200 | when close returns normally the file is the enqueued rows in order and one summary, the last one submitted before closing began or the default when there was none, and written = enqueued + 1 |

## Left out

- Aorta nodes, Zenoh, QoS, service calls and ctypes headers: foreign calls; they are channels and inputs here.
- Policies, ONNX sessions and all floating-point arithmetic: joint values are opaque words, or reals where the server
  compares them with its limits. The client's validation of a command is an input.
- Two threads of one client that are inside `enter_external` at once, and an `exit_external` beside the session thread
  that gets as far as clearing the session under it: an exit beside it gives up while it waits. All statements about
  the composed system are for clients used in this way.
- A restart of the lease server, which starts a new counter.
- Exceptions that interrupt a client between claiming its CANCEL and handing it over, such as a keyboard interrupt.
- The transport's own result for a published command or request: a message that was handed over may be lost.
- Publish-timing traces, logging, command-line parsing, signal handling, packaging.
- Hand and gripper clients: their counters and checks repeat easier forms of the controller's.
- The 64-bit region, shared strings, sorted vectors, custom allocators and moves of the vendored builder.
- 32-bit wrap-around of the buffer sizes: sizes are naturals, and the 2 GiB bound that the builder asserts is a
  precondition where words of 32 bits are written.
- The size-tracking instance of the verifier, nested buffers and identifiers: the decoder uses none of them.
- Python's own FlatBuffers builder and generated accessors: their source is not part of this model; the offset of the
  motor vector is an input of `MotorCodec.UnpackMotorStates`.
- Unsigned overflow of the status sequence and of the reject and overwrite counters: they are naturals. Overflow is
  modelled where the code checks it: the lease counter, the client's sequence and the apply tick.
- Axes and time stamps of joystick samples, which are carried along unread. A header whose publisher name is empty is
  a header without a publisher.
- JSON formatting of recorded rows: it is part of the write that may fail.
- VectorDownward.Vector.MakeSpace: does not say what the new bytes hold, as the source leaves them undetermined.
- BodyCommandEncoder.Encode: the message is below 2 GiB, as the builder asserts; the joint values have already been
  converted to binary32.
- Schedulers.Advance: says nothing of a deadline that is still ahead; the loop advances only one that has come.
