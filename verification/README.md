# Display driver verification

Dafny 4.11 models of the parts of the display driver that are state machines, allocators or arithmetic, with
proofs of what they keep. Each area has a model on values (what one call does), proofs about every run of the
model, and, where the source updates structures in place, a class whose methods are proved to perform the
model's steps. Hardware, TrustZone, the KMS hooks and the DRM core are parameters: arbitrary functions,
arbitrary answers, or answers under a stated assumption.

`dafny verify dfyconfig.toml` checks everything.

| area | source | files |
|---|---|---|
| atomic commit | `msm/msm_atomic.c` | `CommitProtocol`, `CommitProofs`, `CommitEffects`, `CommitProgress`, `CommitDriver` |
| leases | `msm-lease/msm_lease_drv.c` | `LeaseModel`, `LeasePrimaries`, `LeaseProofs`, `LeaseRest`, `LeaseDriver` |
| HDCP 2.2 transmitter | `msm/sde_hdcp_2x.c` | `HdcpMessages`, `HdcpTransmitter`, `HdcpSession`, `HdcpLater`, `HdcpRuns`, `HdcpStale`, `HdcpEffects`, `HdcpOff`, `HdcpWitness`, `HdcpDriver`, `HdcpStreams` |
| clock and bandwidth votes | `msm/sde_cesta.c` | `CestaModel`, `CestaVotes`, `CestaAdmission`, `CestaDriver` |
| event log | `msm/sde_dbg_evtlog.c`, `msm/sde_dbg.c` | `EvtLogModel`, `EvtLogProofs`, `EvtLogDriver` |
| GEM mappings | `msm/msm_gem.c`, `msm/msm_gem_vma.c` | `GemModel`, `GemProofs`, `GemEffects`, `GemDriver` |
| properties | `msm/msm_prop.c` | `PropertyModel`, `PropertyProofs`, `PropertyDriver` |
| DSC | `msm/sde_dsc_helper.c` | `DscModel`, `DscProofs`, `DscPps`, `DscPpsProofs`, `DscDriver` |
| CEA data blocks | `msm/sde_edid_parser.c` | `EdidModel`, `EdidProofs`, `EdidAudio`, `EdidDriver` |
| event clients | `msm/msm_drv.c` | `EventModel`, `EventProofs`, `EventDriver` |

## What the models show about the code

Some properties one would expect hold only under a condition. The condition is stated and shown to be exact, or
an input is given on which the property fails.

- HDCP: every message handed over is the one TrustZone prepared, except that a STOP between the two reads of
  `hdcp_off` in `sde_hdcp_2x_msg_sent` hands a repeater stream management with the stream type prepared, and exactly
  then (`StepAgreesIff`; a run that does it: `TearingHappens`).
- HDCP: this rests on what is asked of the client. A START may find commands in the queue, and
  `msm/dp/dp_display.c:585-588` starts again after a failed authentication without a STOP. The agreement of messages
  holds on every continuation exactly if those commands are harmless, that is, none asks for authentication, and
  reports of sent messages and changes of the encryption level come after one that switches HDCP off
  (`StartAgreesIff`). For the claim about authentication, harmless commands are enough (`AuthenticatedMeansFull`) but
  not shown to be necessary one by one; a stale report can make the new session authenticated at once
  (`StaleReportAuthenticates`).
- HDCP: asking for authentication twice in a session breaks the agreement (`AskingTwiceDisagrees`,
  `StartAuthAgreesIff`). A report of a message that was not handed over breaks it, before authentication is asked for,
  exactly if HDCP is on when it is worked off (`SpuriousReportAgreesIff`); later it hands over prepared messages only
  (`SpuriousReportKeepsAgreement`).
- HDCP streams: adding back a stream whose removal was not yet worked off is lost (`AddTakesEffect`).
- Votes: a post-commit update settles the vote exactly when its request peaks where the stored one does
  (`PostCommitSettlesIff`). `msm/sde/sde_core_perf.c:104-134` passes its own IB again instead of the derived one. Then
  the votes before a commit cover both requests exactly if the request raises something or the last lowering was not
  settled with an IB above the derived one (`OwnIbCoversIff`); an input on which they do not: `OwnIbLowersFirst`.
- Admission: a request whose 64-bit sum wraps is admitted (`AdmittedWithinIff`, `WrappedIsAdmitted`).
- Leases: a notification that fails leaves the encoders as they were exactly if every connector named before the first
  failing name could drive a single CRTC anyway (`FailedKeepsEncodersIff`); one that does not: `FailureNarrows`.
- Event log: the counters start one apart, so that until the debugfs file is opened for the first time a dump leaves
  out the newest event (`DumpMissesNewest`).
- GEM: `smmu_aspace_map_vma` takes a reference even when mapping fails, and unmapping ignores an address of 0
  (`LeaksIff`).
- Properties: an unresolved blob id gives up a reference and keeps the pointer (`SetBalancesIff`).
- Data blocks: on any extension the audio loop spins exactly if the search finds a sixth audio block, or one of 31
  bytes, after bytes were copied (`AudioSpinsIff`); extensions that do it: `SixAudioBlocksSpin`, `SpinningInputs`. The
  search by tag finds what the walk visits and a last block that runs one byte past the end
  (`SearchIsWalkAndOverrun`, `SearchOverruns`); when this is what the walk enumerates: `SearchMatchesWalkIff`. If byte 2
  is 128 or more it reads on past the extension; otherwise it stays inside (`SearchStaysInside`).
- DSC: byte 88 of a DSC 1.2 set without a native format repeats byte 87 (`ReadsBackIff`, `ReservedBitsSet`);
  in native 4:2:0 `slice_bpg_offset` can wrap to 0 and make a divisor 0, and only then is a divisor 0 for a slice with
  a pixel (`NothingDividesByZeroIff`, `IncrementDivisorVanishes`); `slice_chunk_size` and `slice_bpg_offset` can wrap
  (`ChunkHoldsIff`, `SliceBudgetIff`); the parameter table has one row too many, so native 4:2:0 pictures get the row
  before their own (`RowsFitIff`, `RatesFitIff`).

## Model

| member | source | states |
|---|---|---|
| CommitProofs.PendingMasksPartition | msm/msm_atomic.c:883-892 | over every interleaving of any number of commits, the pending masks are the union of the in-flight commits' masks, and those are pairwise disjoint |
| CommitProofs.Serializable | msm/msm_atomic.c:649-689 | over every interleaving, an object no commit holds is as running the commits one at a time in gate order leaves it; with none in flight, all objects are |
| CommitProofs.CompletedAndFreedOnce | msm/msm_atomic.c:725-792 | every commit is completed at most once, freed at most once and never touched after its free; one that is over was completed and freed exactly once, blocking or not, queued or completed by its caller; a blocking caller returns only then |
| CommitProgress.RunsEnd | msm/msm_atomic.c:691-792 | without new commits a run from any reachable state has no more steps than were left, and when no step is possible every commit that passed the gate was completed exactly once and freed exactly once |
| CommitProgress.CommitsEnd | msm/msm_atomic.c:691-792 | from any reachable state, however it goes on without new commits, the run gets to such a point |
| CommitProgress.StepAdvances | msm/msm_atomic.c:691-937 | every step but a new commit takes something off what the commits have left to do |
| CommitProgress.CanMove | msm/msm_atomic.c:806-937 | while a commit is not over, some step other than a new commit or a failed wait is possible |
| CommitProofs.InvAlways | msm/msm_atomic.c:806-937 | the invariant behind these results holds in every reachable state |
| CommitProofs.GateStep | msm/msm_atomic.c:883-892 | a commit that passes the gate finds its objects at the outcome of the commits gated before it |
| CommitProofs.ClearStep | msm/msm_atomic.c:157-173 | clearing a commit's bits leaves its objects at the outcome of the serial run up to it |
| CommitEffects.SwapInstalls | msm/msm_atomic.c:897 | on every run, right after a commit's swap each object it brings a state for has that state, the former one is the one taken out, what the hardware was told stays, and other objects are as before |
| CommitEffects.LastNamedWins | msm/msm_atomic.c:649-689 | an object no commit holds has the state brought by the last commit in gate order that names it, its first one if none does, for hooks that leave current states alone |
| CommitEffects.PhasesInOrder | msm/msm_atomic.c:649-689 | an object no commit holds has gone through the eight phases of its last commit, each once and in the driver's order, as hooks that leave their mark show |
| CommitEffects.GateOpensIff | msm/msm_atomic.c:883-892 | on every run a waiting commit can pass the gate exactly if it shares no object with a commit in flight |
| CommitEffects.ThreadsKeepOrder | msm/msm_atomic.c:725-792 | on every run a display thread starts on the commits sent to it in the order they were sent |
| CommitDriver.MsmDrmPrivate.GatherMask | msm/msm_atomic.c:838-875 | the mask gathered has exactly the bits of the objects in the state |
| CommitDriver.MsmDrmPrivate.TryGate | msm/msm_atomic.c:883-892 | the wait condition holds exactly when the protocol's gate step is enabled, and marking is that step |
| CommitDriver.MsmDrmPrivate.CommitDestroy | msm/msm_atomic.c:157-173 | clearing the bits is the protocol's clearing step, and the structure is freed exactly when its finishing step frees it |
| CommitDriver.MsmDrmPrivate.Dispatch | msm/msm_atomic.c:725-792 | the commit is queued only on the row of the first active CRTC with a matching row, and only if its thread exists; otherwise it falls back |
| LeaseProofs.LeasesPartition | msm-lease/msm_lease_drv.c:1020-1098 | after any sequence of probes, notifications and removals no object is in two leases or twice in one, and each lease has at most 64 |
| LeaseProofs.PrimariesMatch | msm-lease/msm_lease_drv.c:710-768 | planes of type PRIMARY stay in one-to-one correspondence with the CRTCs that have a primary plane, over every run |
| LeaseProofs.EveryCrtcHasPrimary | msm-lease/msm_lease_drv.c:710-768 | with at least as many non-cursor planes as CRTCs, whenever anything is leased every CRTC has a primary plane |
| LeaseProofs.ExplicitCrtcsHavePrimaries | msm-lease/msm_lease_drv.c:792-809 | every CRTC of a lease that names planes and connectors has a primary plane from that lease, whatever is leased later |
| LeaseProofs.ConnectorsStayTied | msm-lease/msm_lease_drv.c:598-672 | a connector leased by name has a CRTC leased with it, and its encoder can drive that CRTC and no other while the lease lasts |
| LeaseProofs.TiedCrtcsDiffer | msm-lease/msm_lease_drv.c:598-672 | two connectors leased by name, in one lease or two, never share a CRTC |
| LeaseProofs.FailedKeepsEncodersIff | msm-lease/msm_lease_drv.c:1036-1048 | a failed notification leases nothing and moves no primary plane, and keeps every possible_crtcs exactly if the connectors named before the first failing name could drive one CRTC each |
| LeaseProofs.FailureNarrows | msm-lease/msm_lease_drv.c:654-664 | a list whose second connector does not exist leaves the first one's encoder with one of its two CRTCs |
| LeaseProofs.GatherKeeps | msm-lease/msm_lease_drv.c:814-989 | what a lease of the remaining objects gathers is free, distinct, at most 64, and leaves tied connectors tied |
| LeaseProofs.ParseKeeps | msm-lease/msm_lease_drv.c:770-812 | what the named objects gather is free, distinct and at most 64, and a success has no more CRTCs than planes |
| LeasePrimaries.FixupKeeps | msm-lease/msm_lease_drv.c:710-768 | the repair keeps the matching, gives the i-th CRTC the i-th plane granted, leaves other CRTCs' planes alone, and fills every CRTC when there are planes enough |
| LeasePrimaries.SparePlane | msm-lease/msm_lease_drv.c:753-767 | while a CRTC has no primary plane and planes are enough, an overlay plane is left for it |
| LeasePrimaries.FixupTakes | msm-lease/msm_lease_drv.c:735-768 | a cursor plane is taken only by being granted to a CRTC, and CRTCs left without a plane take, in order, the first overlays there are |
| LeaseRest.GatherIsRest | msm-lease/msm_lease_drv.c:846-985 | a lease of the remaining objects gets the first 64 of its planes, the dedicated CRTCs, the other CRTCs with a primary plane and the connectors these can drive, each kind in the device's order |
| LeaseRest.GatherTakesAll | msm-lease/msm_lease_drv.c:846-985 | while fewer than 64 are held, a lease that names nothing gets an object exactly if no lease has it and it is a plane, a CRTC with a primary plane, or a connector whose encoder can drive a CRTC it gets |
| LeaseRest.RestLeaseTakesAll | msm-lease/msm_lease_drv.c:814-989 | over every run, a notification that goes through gives this to the last bound lease without objects, and changes no other |
| LeaseRest.NamedAreLeased | msm-lease/msm_lease_drv.c:770-812 | over every run, it binds its lease, which has the first plane and connector of each name in order, with a CRTC its encoder could drive after each connector; other leases stay |
| LeaseRest.PlanesGatheredIff | msm-lease/msm_lease_drv.c:674-708 | named planes are gathered exactly if all are there, in no lease, distinct and not too many |
| LeaseRest.ConnectorGatheredIff | msm-lease/msm_lease_drv.c:598-672 | a named connector is gathered, with the first free CRTC its encoder may drive, exactly if it is there and free, has such a CRTC, and both fit |
| LeaseRest.UnbindFrees | msm-lease/msm_lease_drv.c:1150-1168 | on every run, what a removed lease had is in no lease then |
| LeaseModel.FirstFree | msm-lease/msm_lease_drv.c:645-654 | the first CRTC the encoder allows that is in no lease, or none |
| LeaseModel.Target | msm-lease/msm_lease_drv.c:831-837 | the last lease in the list that is bound and empty, or none |
| LeaseDriver.Driver.FindObjId | msm-lease/msm_lease_drv.c:177-187 | the scan tells whether the id is in the array |
| LeaseDriver.Driver.ObjIsLeased | msm-lease/msm_lease_drv.c:189-199 | the scan tells whether the object is in any lease or already gathered |
| LeaseDriver.Driver.AddConnector | msm-lease/msm_lease_drv.c:598-672 | the result, ids and possible_crtcs are those of the allocator on values, in every error case |
| LeaseDriver.Driver.AddPlane | msm-lease/msm_lease_drv.c:674-708 | the result and ids are those of the allocator on values, in every error case |
| LeaseDriver.Driver.FixupCrtcPrimary | msm-lease/msm_lease_drv.c:710-768 | the nested loops perform the repair on values |
| LeaseDriver.Driver.ParseObjs | msm-lease/msm_lease_drv.c:770-812 | the loops over names perform the gathering on values |
| LeaseDriver.Driver.ParseRemainObjs | msm-lease/msm_lease_drv.c:814-989 | the last empty bound lease gets what the gathering on values yields |
| LeaseDriver.Driver.Notifier | msm-lease/msm_lease_drv.c:1020-1098 | a notification, with either DRM core call failing, is the notification on values |
| HdcpRuns.MessageAgreement | msm/sde_hdcp_2x.c:153-215 | on every run, each message handed to the sink, on or off, is the one TrustZone had prepared, unless it is torn, and then it is not |
| HdcpRuns.StepAgreesIff | msm/sde_hdcp_2x.c:517-531 | in every reachable state, the next command hands over prepared messages only, exactly unless a STOP comes between the two reads of hdcp_off as a repeater's key message is reported sent |
| HdcpStale.StartAgreesIff | msm/sde_hdcp_2x.c:906-917 | in every reachable state, all sessions a START can begin agree with TrustZone exactly if the commands left in the queue are harmless |
| HdcpStale.HarmfulBreaks | msm/sde_hdcp_2x.c:906-917 | the continuation that breaks the agreement otherwise: the queue is worked off and authentication asked for |
| HdcpStale.SpuriousReportAgreesIff | msm/sde_hdcp_2x.c:483-551 | in every reachable state before authentication is asked for, a report of a message not handed over keeps all continuations in agreement exactly if it is harmless in the queue it joins |
| HdcpStale.SpuriousReportKeepsAgreement | msm/sde_hdcp_2x.c:483-551 | in a session under way such a report hands over prepared messages only, or a torn one in the same case as any report |
| HdcpRuns.AuthenticatedMeansFull | msm/sde_hdcp_2x.c:483-718 | on every run, authenticated implies AKE, locality check, SKE, the repeater's steps if the sink is a repeater and the stream type if not, and encryption enabled, in order since START |
| HdcpWitness.ReceiverAuthenticates | msm/sde_hdcp_2x.c:483-718 | some permitted run ends authenticated with a receiver whose km is stored |
| HdcpWitness.PairedReceiverAuthenticates | msm/sde_hdcp_2x.c:483-718 | some permitted run does with a receiver that has to be paired |
| HdcpWitness.RepeaterAuthenticates | msm/sde_hdcp_2x.c:483-718 | some permitted run does with a repeater |
| HdcpWitness.TearingHappens | msm/sde_hdcp_2x.c:517-531 | some permitted run hands stream management over with the stream type prepared |
| HdcpWitness.StaleReportAuthenticates | msm/sde_hdcp_2x.c:906-917 | a report left in the queue by a session that got to the stream type makes the next START authenticated without an authentication |
| HdcpRuns.OneFailureReport | msm/sde_hdcp_2x.c:358-387 | on every run, at most one failure is reported between two STARTs, and none after STOP or DISABLE |
| HdcpRuns.StartAuthAgreesIff | msm/sde_hdcp_2x.c:561-578 | START_AUTH agrees with TrustZone exactly when nothing was exchanged since START, or nothing is sent |
| HdcpRuns.SendTypeAgreesIff | msm/sde_hdcp_2x.c:411-431 | a change of encryption level agrees exactly after the key exchange, or when nothing is sent |
| HdcpLater.HandleLater | msm/sde_hdcp_2x.c:1007-1052 | in any state, a command adds to the history, takes no stage of encryption back, and tears one message exactly in that case and none otherwise |
| HdcpEffects.ExpiredWaitReports | msm/sde_hdcp_2x.c:217-261 | a timed wait that expires, with no STOP before, leaves HDCP off and not authenticated and reports one failure |
| HdcpEffects.RefusalReported | msm/sde_hdcp_2x.c:1007-1052 | from any state with HDCP on, so does a command that TrustZone refuses, and a failure or STOP that the client reports |
| HdcpEffects.FailuresReported | msm/sde_hdcp_2x.c:1007-1052 | on every run with HDCP on, a refused command, a reported failure or STOP, an answer of the sink that does not come in time, and encryption refused for a repeater each switch HDCP off and add exactly one failure report |
| HdcpEffects.AuthStarts | msm/sde_hdcp_2x.c:561-578 | after START, START_AUTH hands over AKE_INIT and HDCP stays on |
| HdcpEffects.SentAwaits | msm/sde_hdcp_2x.c:541-547 | the report of AKE_INIT, km, LC_INIT or stream management has the sink asked for its answer; only for H' the wait can expire |
| HdcpEffects.KeySent | msm/sde_hdcp_2x.c:514-528 | after the key message a receiver is handed the stream type, and a repeater asked for its receivers within the time for it |
| HdcpEffects.TypeReported | msm/sde_hdcp_2x.c:498-513 | after the stream type encryption is on and the receiver authenticated exactly unless TrustZone refuses, and it is polled |
| HdcpEffects.AckSent | msm/sde_hdcp_2x.c:529-535 | after a repeater's first acknowledgement it is handed stream management |
| HdcpEffects.LaterAckSent | msm/sde_hdcp_2x.c:536-539 | after later ones it is only polled |
| HdcpEffects.PairingAwaited | msm/sde_hdcp_2x.c:648-653 | accepting H' before pairing has the sink asked for the pairing information within the time for it |
| HdcpEffects.AnswerSent | msm/sde_hdcp_2x.c:689-718 | any other accepted message is followed by TrustZone's answer, and the key message tells whether the sink is a repeater |
| HdcpEffects.RepeaterEncrypted | msm/sde_hdcp_2x.c:662-687 | with its streams managed a repeater gets encryption and is polled; refused, HDCP goes off with one failure report, whether or not the wait expires meanwhile |
| HdcpEffects.RepeaterPolled | msm/sde_hdcp_2x.c:662-687 | authenticated already, or to be asked again, it is only polled |
| HdcpEffects.EmptyIgnored | msm/sde_hdcp_2x.c:623-626 | a message without content changes nothing |
| HdcpEffects.TypeSent | msm/sde_hdcp_2x.c:411-431 | a change of the encryption level hands the stream type to a receiver after its key exchange |
| HdcpEffects.StreamsManaged | msm/sde_hdcp_2x.c:433-472 | a repeater authenticated or past its acknowledgement is handed stream management |
| HdcpEffects.StreamsNotManaged | msm/sde_hdcp_2x.c:433-472 | anyone else is not, and nothing changes |
| HdcpEffects.StreamsChanged | msm/sde_hdcp_2x.c:776-784 | changed streams have an authenticated repeater asked at once, one under way asked again, and nothing happens otherwise |
| HdcpOff.OffIgnored | msm/sde_hdcp_2x.c:411-718 | reports of sent and received messages, level changes and stream queries that find HDCP off, or a STOP just coming in, change nothing |
| HdcpOff.NothingSentOff | msm/sde_hdcp_2x.c:1007-1052 | on every run, whatever the timing of a STOP, a message handed over with HDCP off is AKE_INIT's, or the stream type was prepared |
| HdcpEffects.StopLasts | msm/sde_hdcp_2x.c:893-904 | on every run, a STOP or DISABLE of the client switches HDCP off at once, until the next START |
| HdcpEffects.CommandQueued | msm/sde_hdcp_2x.c:880-945 | a wake-up queues its command, ENABLE once until worked off, a level change only once authenticated, a DISABLE behind a STOP if HDCP was on |
| HdcpRuns.AskingTwiceDisagrees | msm/sde_hdcp_2x.c:561-578 | authentication asked for twice after one START breaks the agreement |
| HdcpRuns.RunKeeps | msm/sde_hdcp_2x.c:974-1056 | the session invariant holds after any interleaving of client and worker, with any answers |
| HdcpRuns.HandleKeeps | msm/sde_hdcp_2x.c:1007-1052 | every command keeps the session where its history says it can be |
| HdcpSession.MsgSentKeeps | msm/sde_hdcp_2x.c:483-551 | reporting a message sent keeps the session good, in every case of the prepared message |
| HdcpSession.MsgRecvdKeeps | msm/sde_hdcp_2x.c:604-718 | receiving a message keeps the session good, accepted or not |
| HdcpSession.ReplyIsNext | msm/sde_hdcp_2x.c:153-215 | TrustZone's answer to a message is the message picked next, including stored and new km, locality retry and repeater paths |
| HdcpSession.CleanKeeps | msm/sde_hdcp_2x.c:358-387 | cleaning up leaves HDCP off and unauthenticated, and reports a failure only if nothing failed or stopped before |
| HdcpSession.OrderlyMeans | msm/sde_hdcp_2x.c:286-318 | the form of the agreement that follows the history implies the quantified one |
| HdcpMessages.EncryptionMeansAuthenticated | msm/sde_hdcp_2x.c:153-215 | a history whose stage has encryption on contains a whole authentication in order, a repeater's or a receiver's by the stage |
| HdcpMessages.StageSound | msm/sde_hdcp_2x.c:153-215 | every stage has the events behind it in the history, in order |
| HdcpDriver.Hdcp2x.GetNextMessage | msm/sde_hdcp_2x.c:153-215 | the switch picks the modelled message and clears the resend flag only after stream management |
| HdcpDriver.Hdcp2x.WaitForResponse | msm/sde_hdcp_2x.c:217-261 | waiting is the model's, and the cycle with waking and cleaning terminates with hdcp_off as measure |
| HdcpDriver.Hdcp2x.WakeupClient | msm/sde_hdcp_2x.c:286-318 | the message picked, the wake-up logged and the wait after it leave the structure as modelled, for every answer; terminates |
| HdcpDriver.Hdcp2x.Clean | msm/sde_hdcp_2x.c:358-387 | a failure is reported only by the call that turns HDCP off, for every timing of a STOP; terminates; the stream list is StreamTable.Clean's |
| HdcpDriver.Hdcp2x.SendType | msm/sde_hdcp_2x.c:411-431 | nothing is sent once either read finds HDCP off or a repeater is attached; else the type message |
| HdcpDriver.Hdcp2x.QueryStream | msm/sde_hdcp_2x.c:433-472 | stream management is sent only to a repeater past its acknowledgement, and not once HDCP is off |
| HdcpDriver.Hdcp2x.MsgSent | msm/sde_hdcp_2x.c:483-551 | by the prepared message: encryption, type, stream query, link poll or receive, as modelled for every answer and STOP |
| HdcpDriver.Hdcp2x.StartAuth | msm/sde_hdcp_2x.c:561-578 | AKE_INIT is handed over, or everything cleaned up when TrustZone refuses |
| HdcpDriver.Hdcp2x.MsgRecvd | msm/sde_hdcp_2x.c:604-718 | flags, reply, encryption and clean-up after a received message are as modelled, for every answer and STOP |
| HdcpDriver.Hdcp2x.Wakeup | msm/sde_hdcp_2x.c:866-948 | what the client's thread changes at once, and what it queues, with ENABLE queued once until worked off |
| HdcpDriver.Hdcp2x.Handle | msm/sde_hdcp_2x.c:1007-1052 | every command has the effect on the structure that the runs are made of |
| HdcpStreams.TableMirrors | msm/sde_hdcp_2x.c:743-855 | over every run, keys are unique, inactive entries have a handle, and each handle was given out once more than closed if held and as often if not |
| HdcpStreams.OpenIffHeld | msm/sde_hdcp_2x.c:743-785 | the handles open in TrustZone are exactly the nonzero ones in the table |
| HdcpStreams.ManageKeeps | msm/sde_hdcp_2x.c:743-785 | the walk keeps the mirror and leaves active entries only |
| HdcpStreams.ManageDoes | msm/sde_hdcp_2x.c:743-785 | the walk keeps active entries in order, closes each other's handle once, asks once for each active entry without a handle, and wants streams managed exactly if it closed or opened one |
| HdcpStreams.ManageOpens | msm/sde_hdcp_2x.c:763-774 | if TrustZone opens what it is asked to, every entry has a handle then |
| HdcpStreams.AddTakesEffect | msm/sde_hdcp_2x.c:822-855 | an add takes effect exactly when no entry for the stream waits to be closed |
| HdcpStreams.AddAfterRemove | msm/sde_hdcp_2x.c:787-855 | removing and adding back a stream leaves it active exactly when it had no handle |
| HdcpStreams.StreamTable.StreamPresent | msm/sde_hdcp_2x.c:720-741 | the first entry with the key, if any |
| HdcpStreams.StreamTable.ManageStream | msm/sde_hdcp_2x.c:743-777 | the walk in place closes and drops inactive entries and opens the others as the proved walk does, and the 8-bit count stays the length modulo 256 |
| HdcpStreams.StreamTable.RemoveStreams | msm/sde_hdcp_2x.c:787-820 | the loop removes each key in turn and reports whether any was present |
| HdcpStreams.StreamTable.AddStreams | msm/sde_hdcp_2x.c:822-855 | the loop adds each key in turn at the head and reports whether the list changed |
| HdcpStreams.StreamTable.Clean | msm/sde_hdcp_2x.c:370-380 | every entry is closed once and the list emptied |
| CestaVotes.RaiseBeforeLower | msm/sde_cesta.c:500-608 | over every run of paired updates of any clients, the votes under way cover outgoing and incoming request, and settle to the stored one |
| CestaVotes.PreCommitCoversIff | msm/sde_cesta.c:539-589 | from any vote, the pre-commit vote of an enabled client covers both requests exactly if the request raises something or the vote covered the stored one, or for a forced repeat if its IB is not below the stored one |
| CestaVotes.PreCommitIsHigher | msm/sde_cesta.c:539-589 | from a settled vote, the pre-commit vote of an enabled client peaks exactly at the higher of both requests, in clock and bandwidth |
| CestaVotes.SamePeaksNoVote | msm/sde_cesta.c:539-589 | a request that peaks where the stored one does is stored without a vote before or after the commit |
| CestaVotes.IbAloneIsNoUpdate | msm/sde_cesta.c:252-274 | one that differs in its bandwidth IB only changes nothing |
| CestaVotes.ForcedOnce | msm/sde_cesta.c:471-478 | lowering after the commit is forced on the power states, and the next repeat of the request takes the force back |
| CestaVotes.PostCommitSettles | msm/sde_cesta.c:528-534 | the post-commit update with the same request leaves the vote at its peak |
| CestaVotes.PostCommitSettlesIff | msm/sde_cesta.c:456-498 | with another request it does exactly when the peaks agree |
| CestaVotes.OwnIbCoversIff | msm/sde_cesta.c:500-608 | over every run of a caller that repeats its own IB, the pre-commit vote covers both requests exactly if the request raises something or the client is not low from its last lowering |
| CestaVotes.ModestNeverLow | msm/sde_cesta.c:500-608 | a caller whose own IB never exceeds the derived one in peak is never low |
| CestaVotes.OwnIbLowersFirst | msm/sde_cesta.c:591-599 | a caller that repeats its own IB leaves a later raise unvoted before the commit |
| CestaAdmission.LimitsHold | msm/sde_cesta.c:276-339 | over every run of checked changes, switch-offs and repeats, summed clocks, largest IB clock, summed bandwidth and derived IB stay within the limits |
| CestaAdmission.AdmittedWithinIff | msm/sde_cesta.c:276-339 | an admitted request keeps the limits exactly when the check's sums do not wrap |
| CestaAdmission.DerivedIsIb | msm/sde_cesta.c:315-317 | the derived IB is a channel's share of the AB in hundredths of the efficiency, both rounded down, and no other number, as long as a hundred shares fit 64 bits |
| CestaAdmission.AdmitsIff | msm/sde_cesta.c:276-378 | when nothing wraps, an update is admitted exactly if the sums, the IB they ask for and the largest clock are within the limits and the clock can be reserved |
| CestaAdmission.SumsCount | msm/sde_cesta.c:294-306 | each enabled client but the asking one counts in the sums, and nothing else |
| CestaAdmission.DisabledWithin | msm/sde_cesta.c:276-339 | switching a client off keeps the limits without a check |
| CestaAdmission.WrappedIsAdmitted | msm/sde_cesta.c:289-304 | a request whose sum wraps is admitted and breaks the limits |
| CestaDriver.Cesta.ClkBwCheck | msm/sde_cesta.c:276-378 | the loop over the clients decides as the check on values, and lets through no sum or derived IB beyond the limit unless it wraps |
| CestaDriver.Cesta.UpdateHelper | msm/sde_cesta.c:456-498 | the vote placed is the one on values |
| CestaDriver.Cesta.ClkBwUpdate | msm/sde_cesta.c:500-608 | the client is that on values, other clients unchanged, and the request written back has the IB its AB asks for, unless that wraps |
| CestaDriver.Cesta.GetCoreClkRate | msm/sde_cesta.c:763-801 | the unrounded rate is the larger of summed AB and largest IB, within the limit when the limits hold |
| EvtLogProofs.DrainsAreExact | msm/sde_dbg_evtlog.c:118-171 | over every run, a drain after an open prints exactly the events since the drain before, the newest of the ring, oldest first, blanks for slots never written |
| EvtLogProofs.DrainsLoseNothing | msm/sde_dbg_evtlog.c:118-171 | drains that skip nothing together print every event once and in order |
| EvtLogProofs.NeverFolds | msm/sde_dbg_evtlog.c:131-137 | the start never passes the end, so the folding branch is unreachable |
| EvtLogProofs.CountIsExact | msm/sde_dbg_evtlog.c:196-224 | the count is the length of the next drain |
| EvtLogProofs.DumpIsNewest | msm/sde_dbg_evtlog.c:118-149 | a dump of at most a number of rows prints the last slots before the end, no more than that, once and in order |
| EvtLogProofs.DumpPrintsNewest | msm/sde_dbg.c:1183-1191 | over every run, once the file was opened, it prints the newest events not read yet, all of them if there are no more than it may print |
| EvtLogProofs.DumpMissesNewest | msm/sde_dbg.c:1183-1191 | before that it stops one event short of the newest, on every run |
| EvtLogProofs.Run | msm/sde_dbg_evtlog.c:59-171 | the ring, the counters and what was printed fit together after every run |
| EvtLogProofs.RecordHolds | msm/sde_dbg_evtlog.c:71-92 | logging keeps the ring the newest events of the history |
| EvtLogProofs.DrainPrintsFresh | msm/sde_dbg.c:1561-1576 | a drain after an open prints what was not printed and leaves nothing |
| EvtLogDriver.EvtLog.Record | msm/sde_dbg_evtlog.c:59-95 | one slot and two counters change as on values |
| EvtLogDriver.EvtLog.CalcRange | msm/sde_dbg_evtlog.c:118-149 | the counters move as on values, for full and partial dumps |
| EvtLogDriver.EvtLog.Open | msm/sde_dbg.c:1561-1576 | opening is the step on values |
| EvtLogDriver.EvtLog.Read | msm/sde_dbg.c:1615-1641 | the row selected and the counters are those on values |
| EvtLogDriver.EvtLog.Drain | msm/sde_dbg.c:1615-1641 | reading to the end terminates with the rows on values |
| EvtLogDriver.EvtLog.DumpAll | msm/sde_dbg.c:1183-1191 | the loop prints the rows on values, for full and partial dumps |
| EvtLogDriver.EvtLog.Count | msm/sde_dbg_evtlog.c:196-224 | the count on values |
| GemProofs.ActiveListAgrees | msm/msm_gem.c:452-576 | on every run the active flag and list agree, an object has at most one vma, and list_lock is never taken by its holder |
| GemProofs.ReferencesAreMappings | msm/msm_gem_vma.c:24-58 | references are one plus the mapped objects exactly when nothing leaked |
| GemProofs.LookupFinds | msm/msm_gem.c:404-418 | on every run, what is found is the object's only vma, and nothing is found exactly if it has none |
| GemEffects.GetsIff | msm/msm_gem.c:452-576 | without a vma, an iova is got exactly if the buffer is not of the secure device for an unsecure space, can be imported if it has to be, has pages, the domain is attached and mapping succeeds; and what the object is then |
| GemEffects.GotAlready | msm/msm_gem.c:452-576 | with a vma there is nothing to do but to put the object on the active list |
| GemEffects.LeaksIff | msm/msm_gem_vma.c:40-58 | a reference leaks exactly when mapping into the attached domain fails or yields address 0 |
| GemEffects.BarredRefused | msm/msm_gem.c:477-486 | a buffer of the secure device is refused in an unsecure space, and neither it nor the references change |
| GemEffects.SecureNeverMapped | msm/msm_gem.c:477-486 | over every run of an unsecure space such a buffer has no vma, is not active and stays where it is attached until freed |
| GemEffects.AttachStops | msm/msm_gem.c:678-690 | attaching maps the active objects in order up to the first that fails and leaves the later ones alone |
| GemEffects.FreeRemoves | msm/msm_gem.c:909-938 | freeing takes the object and its list entry away, gives back its reference and changes no other object |
| GemProofs.Run | msm/msm_gem.c:452-696 | active list, vmas, attachment and references fit together after every run |
| GemProofs.DetachUnmaps | msm/msm_gem.c:640-677 | a detach leaves no imported active object mapped and marks each dirty |
| GemProofs.AttachMaps | msm/msm_gem.c:678-696 | an attach with nothing failing maps every active object again |
| GemProofs.FreeKeeps | msm/msm_gem.c:909-938 | freeing keeps list, vmas and references accounted for |
| GemDriver.AddressSpace.LookupVma | msm/msm_gem.c:404-418 | the loop finds the first vma of the address space in the object's list exactly if there is one |
| GemDriver.AddressSpace.MapVma | msm/msm_gem_vma.c:40-58 | mapping takes a reference whenever the domain is attached |
| GemDriver.AddressSpace.Import | msm/msm_gem.c:474-536 | refusing, re-attaching, importing and the dirty flag as on values |
| GemDriver.AddressSpace.GetIova | msm/msm_gem.c:452-576 | the result and the new state are those on values |
| GemDriver.AddressSpace.PutIova | msm/msm_gem.c:430-449 | every vma is unmapped and deleted, one reference for each mapped one |
| GemDriver.AddressSpace.Detach | msm/sde/sde_kms.c:3170-3178 | the update and the flag, in this order, as on values |
| GemDriver.AddressSpace.Attach | msm/sde/sde_kms.c:3202-3207 | the flag and the update, stopping at the first failure, as on values |
| GemDriver.AddressSpace.Free | msm/msm_gem.c:909-938 | the mapping part as on values |
| PropertyProofs.Run | msm/msm_prop.c:70-123 | values, dirty list, consumer's copy and order of marking fit together after every run |
| PropertyProofs.ShadowInStep | msm/msm_prop.c:394-454 | over every run a property not on the dirty list has the consumer's value, and none is listed twice |
| PropertyProofs.PopsInOrder | msm/msm_prop.c:70-123 | pops come in the order of marking |
| PropertyProofs.DrainSynchronises | msm/msm_prop.c:70-94 | popping until empty makes the consumer's copy equal to all values |
| PropertyProofs.IndexFinds | msm/msm_prop.c:340-378 | the search finds a property exactly when it is there, wherever it starts |
| PropertyProofs.IndexIgnoresRecentIff | msm/msm_prop.c:340-378 | what it finds is independent of the last index exactly when the property is there at most once |
| PropertyProofs.IndexIsNearest | msm/msm_prop.c:340-378 | of several places it finds the first at or below the index found last, going round |
| PropertyProofs.SetFailsIff | msm/msm_prop.c:394-454 | setting fails exactly if the property is not there, and changes nothing then |
| PropertyProofs.SetStores | msm/msm_prop.c:394-454 | it stores the value, or a found blob and its id, or 0 for an id not found, and makes the property dirty exactly if its value changed or it always is |
| PropertyProofs.SetBalancesIff | msm/msm_prop.c:408-436 | blob references follow the blobs held exactly unless an unresolved id meets a held blob |
| PropertyProofs.ReferencesCounted | msm/msm_prop.c:550-601 | over every run of duplicating, destroying and resolved setting, references equal holders |
| PropertyDriver.PropertyState.PopDirty | msm/msm_prop.c:70-94 | the pop on values |
| PropertyDriver.PropertyState.SetDirty | msm/msm_prop.c:104-123 | the marking on values |
| PropertyDriver.PropertyInfo.Index | msm/msm_prop.c:340-378 | the circular search on values, remembering only successes |
| PropertyDriver.PropertyInfo.AtomicSet | msm/msm_prop.c:394-454 | code, state and references are those on values |
| PropertyDriver.PropertyState.DuplicateFrom | msm/msm_prop.c:550-578 | equal values, nothing dirty, one reference for each blob held |
| PropertyDriver.PropertyState.Destroy | msm/msm_prop.c:580-601 | one put for each blob held, and none is held after |
| DscProofs.ExtraLeavesWholeWords | msm/sde_dsc_helper.c:361-369 | the slice less the extra mux bits is a whole number of mux words, for every slice |
| DscProofs.ClosedFormIsLoop | msm/sde_dsc_helper.c:368-369 | the closed form is the decrementing loop when the remainder is not zero, and one word lower when it is |
| DscProofs.ScalesArePositive | msm/sde_dsc_helper.c:351-352 | initial scale is above 8 and final scale above 9 for every supported format and slice |
| DscProofs.GroupsArePositiveIff | msm/sde_dsc_helper.c:316-338 | there are groups to divide by exactly when the slice has a pixel, for native formats two |
| DscProofs.NothingDividesByZeroIff | msm/sde_dsc_helper.c:266-396 | for a supported format every divisor is positive exactly if the slice has a pixel and, in native 4:2:0, slice_bpg_offset is not 0 in its 16 bits |
| DscProofs.IncrementDivisorVanishes | msm/sde_dsc_helper.c:387-389 | a slice on which slice_bpg_offset wraps to 0 and the divisor is 0 |
| DscProofs.DelaysCoverBuffer | msm/sde_dsc_helper.c:343-349 | transmission and decoding delay carry at least the minimum rate buffer and less than one pixel more; StoredFit and StoredConform say it of the stored delay |
| DscProofs.StoredFit | msm/sde_dsc_helper.c:349-385 | initial_dec_delay and final_offset fit their 16 bits for every slice width that does |
| DscProofs.StoredConform | msm/sde_dsc_helper.c:266-396 | the stored fields carry the rate buffer, spread the first line's bits, leave whole mux words and are quotients rounded down, the increment interval exactly if it fits its 16 bits |
| DscProofs.ChunkHoldsIff | msm/sde_dsc_helper.c:342-344 | the stored chunk size holds the bits of a slice line exactly if they are at most 65535 bytes |
| DscProofs.SliceBudgetIff | msm/sde_dsc_helper.c:376-378 | the stored slice_bpg_offset covers the slice's bits over its groups, with less than one unit a group over, exactly if it fits its 16 bits |
| DscProofs.NoFirstLineFor420 | msm/sde_dsc_helper.c:236-264 | native 4:2:0 gets no first-line offset |
| DscProofs.FirstLineIs | msm/sde_dsc_helper.c:236-288 | the first line's offset by the number of lines: two for each further line, then 12, 13 from 20 lines, 14 from 31 and 15 from 42; fixed for DSC 1.1 |
| DscProofs.LineIs | msm/sde_dsc_helper.c:326-344 | a slice line has the bits of its pixels, but for a native format's odd last one, and just enough groups of three |
| DscProofs.PreExtraIs | msm/sde_dsc_helper.c:366-371 | the extra bits before rounding are a mux word and four bits per component for each substream, four in native 4:2:2 and else three, and 2 more, or 6 in 4:4:4 |
| DscProofs.RatesFitIff | msm/sde_dsc_helper.c:145-165 | the transmission delay is half the model at the format's rate, and the offset the one for it, except for native 4:2:0 with 8 bits per component |
| DscProofs.RowsFitIff | msm/sde_dsc_helper.c:154-165 | quantizer limits and flatness bounds fit the bits per component except for native 4:2:0 at 10 bits, and the second-line budget fits the format except at 8 |
| DscPpsProofs.ReadsBackIff | msm/sde_dsc_helper.c:496-622 | reading a packed set returns the configuration exactly when byte 88 tells the truth |
| DscPpsProofs.RestIsZero | msm/sde_dsc_helper.c:506-506 | every byte that is not a field is zero |
| DscPpsProofs.ReservedBitsSet | msm/sde_dsc_helper.c:605-611 | with the offset of -12 that ends every table, byte 88 is 52 or more although no flag is set |
| DscPpsProofs.RangesBack | msm/sde_dsc_helper.c:592-603 | the 5, 5 and 6 bit range parameters read back, offsets in two's complement |
| DscDriver.GetRcTableIndex | msm/sde_dsc_helper.c:202-234 | the first matching row of the table is the format's ratio, -1 if unsupported or of another major version |
| DscDriver.DscConfig.Populate | msm/sde_dsc_helper.c:266-396 | unsupported formats are refused; for the others the stored fields carry the rate buffer, spread the first line's bits, leave whole mux words and are quotients rounded down |
| DscDriver.CreatePps | msm/sde_dsc_helper.c:496-622 | the buffer holds the packed set, and a short buffer is left alone |
| EdidProofs.WalkInverts | msm/sde_edid_parser.c:89-92 | walking over serialised blocks enumerates exactly those blocks |
| EdidProofs.WalkIsThere | msm/sde_edid_parser.c:89-92 | on any bytes, the blocks enumerated are serialised at the start of them |
| EdidProofs.DataBlocksInvert | msm/sde_edid_parser.c:76-92 | the data blocks of an extension are exactly those that fill its collection, which ends at 127 if byte 2 is 0 |
| EdidProofs.SearchMatchesWalkIff | msm/sde_edid_parser.c:124-159 | on every extension the search by tag finds the data blocks of the tag exactly if the walk does not stop at a block of the tag one byte too long, with nothing to find if byte 2 is 0 or past 127 |
| EdidProofs.FindsTheTag | msm/sde_edid_parser.c:124-159 | searching on for a tag returns exactly the blocks of that tag in order |
| EdidProofs.SearchIsWalkAndOverrun | msm/sde_edid_parser.c:144-156 | on any bytes the search finds the blocks of the tag that the walk visits, and then the block it stops at if that runs one byte past the end |
| EdidProofs.SearchOverruns | msm/sde_edid_parser.c:144-156 | extensions on which the search finds a block that the walk does not visit |
| EdidProofs.SearchStaysInside | msm/sde_edid_parser.c:124-159 | with byte 2 below 128 the search depends on the extension's 128 bytes only |
| EdidAudio.AudioIsExtracted | msm/sde_edid_parser.c:184-232 | at most five audio blocks of at most 30 bytes are extracted in order, when blocks fill the collection |
| EdidAudio.FoundAreExtracted | msm/sde_edid_parser.c:184-232 | on any extension, so are at most five such blocks that the search finds |
| EdidAudio.AudioSpinsIff | msm/sde_edid_parser.c:209-232 | on every extension the loop never ends exactly when an unusable audio block that the search finds follows copied bytes |
| EdidAudio.SixAudioBlocksSpin | msm/sde_edid_parser.c:209-232 | it spins on every extension that starts with six audio blocks of one byte, whatever follows |
| EdidAudio.SpinningInputs | msm/sde_edid_parser.c:209-232 | two such extensions, one that blocks fill and one that no blocks fill |
| EdidDriver.ForEachBlock | msm/sde_edid_parser.c:89-92 | the loop visits the blocks of the walk |
| EdidDriver.DataBlocks | msm/sde_edid_parser.c:76-92 | the offsets and the loop yield the data blocks of the extension, none if the end is out of range |
| EdidDriver.FindBlock | msm/sde_edid_parser.c:124-159 | the loop finds what the search on values finds |
| EdidDriver.EdidCtrl.ExtractAudio | msm/sde_edid_parser.c:184-232 | the buffer holds the bytes of the passes on values and never overflows, and the result tells whether the source's loop ends |
| EventProofs.EnabledWhileListened | msm/msm_drv.c:1526-1642 | over every run an event is enabled exactly while some client listens, and a file has at most one client for it |
| EventProofs.DeregisterKeepsIff | msm/msm_drv.c:1600-1642 | deregistering keeps that exactly unless the file was the last to listen and the KMS does not disable the event |
| EventProofs.DisablesAre | msm/msm_drv.c:1764-1784 | release disables each event only this file listened to, each once |
| EventProofs.ReleaseKeepsIff | msm/msm_drv.c:1734-1784 | release keeps enablement exact exactly if none of its disables fails |
| EventProofs.RegisterKeeps | msm/msm_drv.c:1526-1598 | registering keeps enablement exact and clients distinct |
| EventProofs.RegisterListsIff | msm/msm_drv.c:1526-1598 | the client is listed exactly if the event is supported, it is not listed yet, and somebody listens or the KMS enables it; otherwise nothing changes |
| EventProofs.DeregisterDrops | msm/msm_drv.c:1600-1642 | the file's client for the event goes and no other; which code is returned |
| EventProofs.ListedSince | msm/msm_drv.c:1526-1784 | over every run a file is listed for an event exactly if it was registered for it and neither deregistered nor released since |
| EventDriver.MsmDrm.ClientCount | msm/msm_drv.c:1505-1524 | the number of clients of the pair |
| EventDriver.MsmDrm.Register | msm/msm_drv.c:1526-1598 | code and state are those on values |
| EventDriver.MsmDrm.Deregister | msm/msm_drv.c:1600-1642 | code and state are those on values |
| EventDriver.MsmDrm.Release | msm/msm_drv.c:1734-1784 | state and the disables asked for are those on values |

## Left out

- Masks (`pending_crtcs`, `possible_crtcs`, `possible_encoders`) are sets of bit positions; words of 32 bits and
  shifts past them are not part of the model.
- Atomic commit: the hooks of a commit read and write the objects of its own state only, the swapped-out state
  included; what they do there is arbitrary.
- Atomic commit: connectors are not in the masks the gate tests, so connector state is not in the serializability
  result; a failing swap, preparing planes and fences, `prepare_fence`, shutdown and allocation failure.
- Leases: the connector's first possible encoder is given, and a connector without one is refused; DRM master
  handling, ioctls and names of minors; notifications and removals are one step each.
- HdcpRuns.MessageAgreement: asks of clients that commands left in the queue at a START are harmless
  (`StartAgreesIff` says this is exact), that authentication is asked for once per START, and that a message is
  reported sent only after it was handed over (`AskingTwiceDisagrees` and `SpuriousReportAgreesIff` show why).
- HdcpStale.SpuriousReportKeepsAgreement: says nothing of the stage between a pairing sink's two messages, where
  TrustZone's response, which the report would be taken for, is arbitrary.
- HDCP: a command is worked off as one step but for the reads of `hdcp_off`; a START by the client's thread in the middle
  of one, during the wait or the report of a failure, is not modelled.
- HdcpDriver.Hdcp2x.Wakeup: parking the thread at STOP and DISABLE, which waits for the queue to drain, is left out, so
  that more orders of commands are covered than the source has.
- HdcpDriver.Hdcp2x.Clean: the stream list is not part of this structure, and the STOP call to TrustZone changes nothing
  in it.
- HDCP: TrustZone answers in the order of sections 2.2 to 2.5 of HDCP 2.2: START_AUTH yields AKE_INIT and QUERY_STREAM
  stream management; an answer to a sink message out of that order counts as a refusal, and other calls leave the
  response's type byte alone.
- HDCP: `MSG_RECV_TIMEOUT`, HDMI message ids, message contents and delays, forced encryption and the length of
  requests.
- HDCP: runs of the transmitter and of its stream table are proved apart; what a stream change leads to in the
  transmitter is an arbitrary answer.
- CestaVotes.RaiseBeforeLower: the second update repeats the request as the first left it and an unchanged request
  repeats the stored IB; `OwnIbCoversIff` says exactly what holds for a caller that repeats its own IB.
- CestaAdmission.LimitsHold: the sums of a checked request do not wrap; `AdmittedWithinIff` says this is exact.
- CESTA: rounding of clock rates, idle votes, the hardware's power states, and votes refused for a missing clock or
  bus handle.
- Event log: counters below 2^31; text, filters and the trace; drains and dumps with no logging inside; the modes that
  decide whether and where to dump.
- GEM: objects of one address space; `dma_buf_attach` failing, `msm_gem_unpin_iova`, VRAM, vmaps, shrinking and
  client callbacks.
- PropertyProofs.ReferencesCounted: sets of unresolved ids on a property that holds a blob are excluded;
  `SetBalancesIff` says this is exact.
- EventProofs.EnabledWhileListened: the KMS disables what it is asked to; `DeregisterKeepsIff` and `ReleaseKeepsIff`
  say this is exact.
- Properties: installing properties, blob contents, `msm_property_set_property`, the state cache.
- DSC: `nsl_bpg_offset` and the fields copied from tables,
  the QP, threshold and offset tables row by row; bytes packed from fields wider than their bits where the
  source ors without a mask; slices whose bit count passes 2^31; the private parameters.
- DscDriver.DscConfig.Populate: needs that nothing is divided by zero, which `NothingDividesByZeroIff` makes exact, and
  says of slice_chunk_size and slice_bpg_offset what is stored, which `ChunkHoldsIff` and `SliceBudgetIff` relate to
  what was computed.
- EdidDriver.EdidCtrl.ExtractAudio: where the source's loop goes round for ever the method returns and says so.
- Data blocks: what lies after an extension whose byte 2 is 128 or more has to be given, and is not related to the
  rest of the EDID.
- Data blocks: other block types, extended tags and EDID extensions other than the first CEA one.
- Event clients: delivering events, and allocation failure; each ioctl and release is one step.
- HDCP 1.x, power handling, sharing of displays, SMMU and prime layers: thin or mostly register access.
