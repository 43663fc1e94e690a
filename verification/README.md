# Raftel's hybrid protocol: a verified model

This project models the basic hybrid protocol (the `BASIC_HYBRID_TEE` build) of Raftel, a leader-based Byzantine
fault-tolerant replication protocol in which some of the 3f+1 replicas have a trusted execution environment,
together with the execution loop of its chained variant and the replicated key-value application.

* **Trusted component.** `TrustedMachine.dfy` is the state machine over (view, phase, prepared block, locked
  block), with its laws over every call sequence. `EnclaveComb.dfy` (the enclave) and `TrustedComb.dfy` (its
  software twin) are classes whose methods are proved to take exactly the steps of that machine;
  `Accumulators.dfy` says what the two accumulators compute.
* **Quorums, certificates, votes.** `Quorums.dfy`, `Certificates.dfy`, `SignLists.dfy`, `VoteLog.dfy`,
  `MessageLog.dfy`.
* **The replica.** `Replicas.dfy` is what a replica does on each event, as functions; `HandlerComb.dfy` is the
  handler object. Each of its methods is proved to change the object exactly as the function of the same purpose
  does, up to one method `On` for any event.
* **The system.** `Protocol.dfy` reduces a handler's steps to six actions; `Refinement.dfy` proves that every
  event, with any messages from any peers, is a sequence of these actions. `Safety.dfy` proves the invariant of
  the whole system, `Agreement.dfy` the consequences, and `System.dfy` states them for every run. `CatchUp.dfy`
  and `LeaderRoundTrip.dfy` say what entering a view and proposing achieve, and `PhaseOrder.dfy` says for every
  event exactly when a replica's votes carry the phase of their message type.
* **Arbitrary replicas.** `StoredBlocks.dfy` says which blocks a replica holds and executes, whatever it receives.
  `Byzantine.dfy` and `ByzantineRuns.dfy` prove agreement within a view among arbitrary replicas, with any number of
  faulty hosts of trusted components; `HashFlags.dfy` says when a hand-over is uniform there.
* **Answers.** `Decisions.dfy` says, for any replica and any message, exactly when it decides, votes, certifies or keeps
  a message for later, read off the state before; `Leading.dfy` the same of proposing.
* **Runs.** `Deployments.dfy` proves that every deployment of at least four replicas has a run in which all replicas
  decide, and `SingleReplica.dfy` that the one with f = 0 never does. `Progress.dfy`
  builds, for every n, a run that decides n views. `FlagWitness.dfy`, `Witnesses.dfy` and `StrayLock.dfy`
  build the runs at which the findings below occur.
* **Around it.** `ChainedExecution.dfy`, `KVCodec.dfy`, `KVStore.dfy`.

## Assumptions

* Cryptography is ideal: a digest determines the hashed block, and a signature verifies on the text it was made on
  and on no other. Hash equality ignores the `set` flag of a hash, but the flag is part of every signed text.
* All replicas share one leader function of the view (the skip list of `getLeaderOf` is empty). A replica handles
  nothing before it has started, and starts once.
* The node table holds the replica numbers 0 to 3f and a certificate has room for 2f+1 signatures
  (`Config.Valid`).
* `System`: replicas crash, messages are lost, delayed, repeated and reordered, timers expire at any time. Any
  message that a replica produced, including a vote it only stores for itself, may reach any replica: more runs
  than the code has, so what holds of all of them holds of the code's.
* `ByzantineRuns`: besides the honest replicas, up to f replicas without trusted hardware may send anything, and
  any number of faulty hosts may drive their trusted components with any calls in any order; no signature of an
  honest replica or a trusted component is forged in what honest replicas receive. Where a result needs at most f
  faulty replicas in all, it says so (`Byzantine.FewFaulty`). `HashFlags` takes the runs in which the certificates
  that faulty hosts present to their own components hold no forged signature either (`HashFlags.GenuineCalls`).

## Findings

* **Flags of hashes** (App/Handler.cpp:3031-3059). The leader's own accumulator does not summarise its proof
  exactly when all its new-views agree up to hash flags without being identical
  (`LeaderRoundTrip.AccumulatorRoundTrip`): the fast accumulator is chosen on equality that ignores the flags, and
  then verifies all signatures against one text. One faulty replica without trusted hardware is enough:
  `FlagWitness.AccumulatorFails` is a run of four replicas in which a trusted leader in phase NEWVIEW reaches its
  threshold with the new-view of that replica and does not propose. New-views of honest replicas and of trusted
  components alone never do this while at most f replicas are faulty (`HashFlags.SoundHandOver`), and in runs of
  honest replicas the leader proposes (`LeaderRoundTrip.ProposalSucceedsInEveryRun`).
* **Phase of the handler** (App/Handler.cpp:3160-3165, 3422-3456). Entering a view does not reset the handler's
  phase. A leader whose earlier view ended half-way does not react when new-views reach its threshold: it proposes
  exactly when its phase is NEWVIEW (`LeaderRoundTrip.ThresholdProposesInEveryRun`). `Witnesses.LeaderStuck` is a
  run of a start and a timeout that gets there. The catch-up path of a leader does not test the phase
  (`Leading.CatchUpProposesInEveryRun`).
* **Repeated deliveries** (App/Handler.cpp:3203-3233). The handler does not remember what it has answered in a
  view. A vote is out of phase exactly when a delivery asks for an answer of another phase than the trusted
  component is in (`PhaseOrder.PhaseOrderInEveryRun`), for instance when a proposal is delivered twice
  (`PhaseOrder.RepeatedProposal`, and `Progress.SecondDelivery` for a reachable state). Receivers reject such
  votes.
* **Stopping with a stray lock** (App/Handler.cpp:3364-3385). With a bounded number of views, a replica that stops
  in a view led by a trusted replica while both the final PREPARE and a PRE-COMMIT certificate of the block are
  cached answers the second with a COMMIT message carrying a PRE-COMMIT signature (`CatchUp.StoppingInPhase`).
  That is the only way in which entering a view makes a vote out of phase, whatever was received
  (`CatchUp.StartNewViewExact`; `CatchUp.LastViewExact` reads it off the replica before its last view), and among
  faulty hosts the only one besides those of the finding before (`PhaseOrder.PhaseOrderAmongFaulty`). One faulty
  host is enough (`StrayLock.CatchUpOutOfPhase`); without one no run has such a certificate.
* **A single replica** (App/Handler.cpp:3087-3138). A leader logs its own vote without counting it, so with f = 0, where
  no other vote arrives, nothing is ever executed (`SingleReplica.SingleReplicaNeverDecides`). With f > 0 every
  deployment can decide (`Deployments.EveryDeploymentDecides`).
* **Long keys and values** (App/KVApp.cpp:44-45). The codec loses data exactly when a key or a value has 65536
  bytes or more (`KVCodec.CodecRoundTrip`, `KVCodec.LongKeyIsLost`); payloads of at most 14+65535 bytes are safe.
* **Unchecked link** (App/Handler.cpp:3843-3844). The chained execution loop no longer compares a certificate's
  hash with the stored block. It executes only blocks that their child's certificate names exactly when every link
  of the walk matches (`ChainedExecution.NamedIffLinked`), and two replicas can execute different blocks from one
  certificate otherwise (`ChainedExecution.ExecutesDespiteMismatch`).

## Model

| member | source | states |
|---|---|---|
| System.AgreementInEveryRun | App/Handler.cpp:3460-3540 | in every crash/omission run all blocks executed by any replicas in any views lie on one parent chain in view order, and in one view they are the same block |
| System.CarryOverInEveryRun | Enclave/EnclaveComb.cpp:38-130 | any accumulator that any replica's trusted component accepts names a view at least as high as every view decided below its own, and its block is or descends from each block decided there |
| System.LocksNeverBlockInEveryRun | Enclave/EnclaveComb.cpp:118-149 | whatever a replica is locked on, a block on the hash accumulated from a valid quorum of a later view passes its safe-parent test |
| System.LockstepInEveryRun | App/Handler.cpp:3422-3456 | a started replica and its trusted component are in the same view, or the component has begun nothing of the next; rounds are signed in increasing order, none twice; lockv <= prepv <= view |
| System.ClaimsCertifiedInEveryRun | Enclave/EnclaveComb.cpp:121-145 | in every run, a new-view claims an earlier view, and when an untrusted replica led that view a valid certificate of it for the claimed block was sent |
| System.ExecutesOnceInEveryRun | App/Handler.cpp:3460-3471 | in every run, a replica executes at most one block per view and remembers exactly the views it executed |
| Deployments.EveryDeploymentDecides | App/Handler.cpp:3062-3743 | for every deployment of at least four replicas, any placement of trusted hardware and any leader, trusted or not, there is a run without failures in which a transaction submitted to the leader of view 1 is in the block that all replicas execute there |
| SingleReplica.SingleReplicaNeverDecides | App/Handler.cpp:3087-3138 | the remaining deployment, a single replica (f = 0), executes nothing in any run |
| Decisions.BackupDecides | App/Handler.cpp:3400-3418 | for any messages, a backup executes a PREPARE certificate of its view under a trusted leader, and a COMMIT certificate under another, exactly when it is valid, the view is not executed and the stored block has its hash; a later view follows unless that was the last of the bounded number of views; otherwise nothing changes |
| Decisions.BackupStores | App/Handler.cpp:3612-3674 | a backup answers a PREPARE certificate of an untrusted leader and a PRE-COMMIT certificate with its vote, exactly when it is valid and its component is still in the view; the block is then prepared, or locked |
| Decisions.LeaderDecides | App/Handler.cpp:3274-3299 | in the phase that waits for the deciding votes, a vote that completes QT trusted or exactly 2f+1 votes in the log, all for one record, makes the leader send a valid certificate and execute the block it holds |
| Decisions.LeaderAdvances | App/Handler.cpp:3547-3609 | likewise at PREPARE under an untrusted leader and at PRE-COMMIT: certificate sent, stored in the component, own vote for the next phase sent and logged |
| Decisions.LeaderCounts | App/Handler.cpp:3274-3299 | any other valid vote is only logged, and an invalid one dropped |
| Decisions.StoresForLater | App/Handler.cpp:3313-3321 | a valid certificate for a later view is cached under its type and view, or one of the same signers is, and everything else cached stays; a valid vote of a new signer is added to its slot; anything else is dropped |
| Decisions.ProposalForLater | App/Handler.cpp:3234-3253 | a proposal for a later view that passes the test is the one replayed there unless one is logged, and changes nothing else |
| Decisions.EnteringDecides | App/Handler.cpp:3332-3396 | a timeout decides in the view it enters exactly when the proposal stored for it is accepted and all certificates up to the deciding one are cached for its block |
| Leading.ThresholdLaw | App/Handler.cpp:3156-3163 | the new-view threshold holds exactly when the log has QT trusted new-views of the view and the fast path is on, or 2f+1 in all |
| Leading.NewViewLogged | App/Handler.cpp:3141-3158 | a valid new-view of a current or later view that the replica leads is added to its slot unless its signer's is there; any other is dropped |
| Leading.ProposalLaw | App/Handler.cpp:3087-3138 | a leader that proposes takes the first transactions off its pool, as many as fit, into a block on the accumulated hash, sends the proposal and its vote, stores the block and logs the vote |
| Leading.ProposalTest | App/Handler.cpp:3187-3199 | a proposal passes exactly when the leader of its view signed the round of this block and this set accumulator, and the accumulator |
| Leading.BlockNumber | App/Handler.cpp:2180-2181 | a block's number is written as its leader's number followed by its view |
| Leading.CatchUpProposesInEveryRun | App/Handler.cpp:3332-3345 | in every run, a leader that enters a view whose threshold its log already meets proposes, whatever phase its handler is in |
| Leading.LeaderDecidesInEveryRun | App/Handler.cpp:3274-3299 | in every run, a sent vote that completes a certificate in the deciding phase makes the leader send it and execute the block it holds, when the votes logged are signed in the phase of their message type |
| CatchUp.SigningLoopInEveryRun | App/Handler.cpp:3422-3441 | the signing loop signs one to four consecutive rounds and ends with a new-view signature for exactly view+1 that claims the prepared block, so the branch for a wrong last signature is not reached |
| CatchUp.CatchUpInEveryRun | App/Handler.cpp:3332-3456 | in every run, entering a view and replaying what was received early, through any number of nested views, ends in a higher view and makes every vote in the phase of its message type |
| LeaderRoundTrip.ProposalSucceedsInEveryRun | App/Handler.cpp:3062-3107 | in every run, a leader that has not proposed and whose new-view threshold holds has its accumulator, proof and block accepted by its own trusted component |
| LeaderRoundTrip.ThresholdProposesInEveryRun | App/Handler.cpp:3141-3165 | in every run, a new-view that brings such a leader to its threshold makes it propose exactly when its handler phase is NEWVIEW |
| LeaderRoundTrip.BackupVotesInEveryRun | App/Handler.cpp:3203-3233 | in every run, any proposal that was sent gets the vote, for exactly the leader's round data, of every backup in its view whose trusted component is at phase PREPARE of that view |
| PhaseOrder.PhaseOrderInEveryRun | App/Handler.cpp:3141-3743 | in every run, for any event and any message, all new votes carry the phase of their message type exactly when the trusted component is in the phase of the answer that the delivery asks for; starting, timing out and new-views never lead to a vote out of phase |
| PhaseOrder.PhaseOrderAmongFaulty | App/Handler.cpp:3141-3743 | the same for an honest replica in every run with any number of faulty hosts, except exactly for the event that ends in a stop with a stray lock |
| PhaseOrder.ProposesExactly | App/Handler.cpp:3141-3165 | a new-view makes the leader propose exactly when it has not proposed, its phase is NEWVIEW, the threshold is met with this new-view and its trusted component accepts the hand-over |
| PhaseOrder.LastTimeoutAmongFaulty | App/Handler.cpp:3332-3456 | there, a timeout before the last view leads to a vote out of phase exactly when another, trusted replica leads that view, its stored proposal will be accepted and both the final PREPARE and a PRE-COMMIT certificate of its block are cached |
| ByzantineRuns.SameViewAgreementInEveryRun | App/Handler.cpp:3460-3540 | two honest replicas never execute different blocks in one view, with any number of faulty hosts of trusted components and up to f faulty replicas without a TEE; the executed hashes agree in their flags too when at most f replicas are faulty in all or both decisions are of one phase |
| ByzantineRuns.ExecutedProposedInEveryRun | App/Handler.cpp:3464-3468 | in all these runs, what an honest replica executes in a view of a trusted leader is a block that the leader's component signed a proposal of for that view |
| StoredBlocks.StepStored | App/Handler.cpp:3203-3468 | every event, for any messages, keeps it that each block stored or executed for a view of a trusted leader is that of a known proposal that passes the proposal test, and that a trusted leader that has not proposed can still sign a proposal |
| ByzantineRuns.CertificatesAgreeInEveryRun | App/Handler.cpp:2285-2321 | two unforged certificates for one view and phase, of either kind each, carry the same round data, whatever calls any number of faulty hosts make into their trusted components |
| ByzantineRuns.HonestMessagesDeliverable | App/Handler.cpp:1096-1140 | what honest replicas send is never forged, so the runs with arbitrary replicas include all deliveries among honest ones |
| ByzantineRuns.ReachableGood | App/Handler.cpp:3141-3743 | the invariant of the honest replicas and of all trusted components holds in every reachable state |
| System.ReachableGood | App/Handler.cpp:3141-3743 | the invariant of the whole system, and of each replica, holds in every reachable state |
| Agreement.OneProposal | Enclave/EnclaveComb.cpp:111-130 | the leader of a view proposes at most one block in it, and none in view 0 |
| Agreement.ProofReports | Enclave/EnclaveComb.cpp:38-71 | a prepared certificate and a valid proof for a later view share a replica that reports the certificate's view or a later one |
| Agreement.ProofDescends | Enclave/EnclaveComb.cpp:38-71 | the highest claim of such a proof names the certificate's block or a descendant of it, and exactly that block when the views are equal |
| Agreement.CarryOver | Enclave/EnclaveComb.cpp:111-130 | the same of an accumulator and a block that a trusted component accepts; the block is a proper descendant |
| Agreement.LocksNeverBlock | Enclave/EnclaveComb.cpp:118-119 | the lock's view is reported by every later proof, with the locked block when it is the highest, so the safe-parent test succeeds |
| Agreement.FinalAgree | App/Handler.cpp:3536-3538 | of two final certificates in any views, decided by PREPARE under a trusted leader or by COMMIT otherwise, the lower one's block is an ancestor of the other's |
| Agreement.HighestClaim | Enclave/EnclaveComb.cpp:59-62 | the highest claim of a valid sent proof is below the proof's view and names a block proposed in the claimed view, with a sent PREPARE or PRE-COMMIT certificate when an untrusted replica led it |
| Safety.ActKeeps | App/Handler.cpp:3062-3609 | entering a view, proposing, voting, storing, building and executing a certificate all keep the system invariant |
| Safety.ReceiveKeeps | App/Handler.cpp:3141-3743 | receiving a message that somebody sent keeps the system invariant |
| Safety.RunsKeep | App/Handler.cpp:3141-3743 | any sequence of actions of one replica keeps the system invariant |
| Refinement.StepRefines | App/Handler.cpp:3141-3743 | for any messages from any peers, every event amounts to receiving its message and a sequence of enabled protocol actions, and keeps log, cache and lockstep sound |
| Refinement.StartNewViewRefines | App/Handler.cpp:3422-3456 | entering a view with all catching up is a sequence of protocol actions that keeps the replica's invariant |
| Refinement.LogCertBacked | App/Handler.cpp:3501-3600 | every signature of a certificate read back from the log is a known single vote for the same round data |
| Byzantine.CertificatesAgree | App/Handler.cpp:2285-2321 | two unforged certificates for one view and phase carry the same round data: they share a signer that signs each round once, honest or trusted |
| Byzantine.SoundSignersAgree | App/Handler.cpp:2285-2321 | the same from non-equivocation alone: all but at most f untrusted replicas sign rounds in increasing order |
| Byzantine.DrivenSignersAgree | Enclave/EnclaveComb.cpp:75-159 | the same for trusted components and twins driven by arbitrary call sequences |
| Byzantine.LedToOne | App/Handler.cpp:3187-3199 | a trusted leader leads to one block per view, even when its host is faulty |
| Byzantine.DriveKeeps | Enclave/EnclaveComb.cpp:102-159 | any call of a faulty host into its trusted component keeps the invariant |
| Byzantine.FinalsAgree | App/Handler.cpp:3536-3538 | two final certificates of one view are for one block: always in one phase, and also a PREPARE and a COMMIT certificate under a trusted leader when at most f replicas are faulty |
| Byzantine.HonestSigner | App/Handler.cpp:2285-2321 | with at most f faulty replicas in all, every accepted certificate has an honest signer who published its signature |
| Byzantine.ActKeeps | App/Handler.cpp:3062-3609 | each action of an honest replica keeps the invariant, whatever the others send |
| CatchUp.StartNewViewExact | App/Handler.cpp:3422-3456 | for arbitrary received messages, entering a view, through any number of nested views, raises the view, shrinks the cache and makes every vote in phase except exactly when it ends by stopping in a view of a trusted leader whose block was executed and has a PRE-COMMIT certificate cached |
| CatchUp.LastViewExact | App/Handler.cpp:3332-3456 | that condition read off the replica before it enters its last view, after which no further view follows |
| CatchUp.StartNewViewOrderly | App/Handler.cpp:3422-3456 | so every vote is in phase whenever the replica does not stop or no such certificate is cached |
| CatchUp.ReplayCertificatesExact | App/Handler.cpp:3354-3396 | the same exact condition for the replay of cached certificates of the block at hand, with what executing the final one starts |
| CatchUp.StoppingInPhase | App/Handler.cpp:3364-3385 | when the replica, whose own votes are of rounds its component has passed, stops in a view led by a trusted replica, replaying stays in phase exactly when not both the final PREPARE and a PRE-COMMIT certificate for the block are cached |
| CatchUp.VotesPastInRun | Enclave/EnclaveComb.cpp:75-99 | in every run a replica's own votes are of rounds its component has passed |
| StrayLock.CatchUpOutOfPhase | App/Handler.cpp:3364-3396 | a reachable state with one faulty host in which an honest replica's timeout makes it send a vote out of phase |
| PhaseOrder.StepInPhase | App/Handler.cpp:3141-3743 | the exact condition for one event of one replica, for arbitrary received messages: the answer asked for is in phase and the event does not end in a stop with a stray lock |
| PhaseOrder.RepeatedProposal | App/Handler.cpp:3203-3233 | a proposal answered in phase is answered again when delivered again, and then with a vote out of phase |
| Progress.SecondDelivery | App/Handler.cpp:3203-3233 | a run of honest replicas in which the second delivery of a proposal is answered with a vote out of phase |
| Progress.RunsDecide | App/Handler.cpp:3141-3540 | for every n, a run in which two replicas have executed a block in each of the views 1 to n, so the agreement results are about runs that decide |
| LeaderRoundTrip.HandOver | App/Handler.cpp:3062-3084 | at its threshold the leader hands over exactly QT trusted, or exactly 2f+1, new-views of distinct replicas, all from the log |
| LeaderRoundTrip.MixLaw | App/Handler.cpp:3071-3079 | mixing keeps min(n, all) of the distinct signers' messages, each once |
| LeaderRoundTrip.ProofIsValid | App/Message.h:339-352 | the bounded copy of the hand-over is a valid new-view proof that loses no entry |
| LeaderRoundTrip.AccumulatorRoundTrip | App/Handler.cpp:3031-3107 | the proof is valid and the accumulator signed, and the accumulator summarises the proof exactly unless all new-views are equal up to hash flags but not identical |
| FlagWitness.AccumulatorFails | App/Handler.cpp:3031-3107 | a reachable state of four replicas with one faulty host without a TEE: the trusted leader is in phase NEWVIEW, an unforged new-view brings it to its threshold with new-views equal up to hash flags but not identical, and it does not propose |
| HashFlags.SoundHandOver | App/Handler.cpp:3031-3107 | with at most f faulty replicas and no forged signature presented to any component, any hand-over of unforged new-views of honest replicas and of trusted components that is equal up to hash flags is identical, and its accumulator summarises the proof |
| Witnesses.LeaderStuck | App/Handler.cpp:3160-3165 | a reachable leader that holds enough new-views for its view, has not proposed and does not propose |
| Quorums.QuorumSizes | App/Handler.cpp:653-671 | for every f and number of TEEs: 1 <= QT <= 2f+1, and the fast path is on exactly with at least f+1 TEEs |
| Quorums.LeadersTakeTurns | App/Handler.cpp:923-941 | a fixed leader leads every view; otherwise replicas lead in turn, starting with replica 0 in view 0 |
| Quorums.EveryoneLeads | App/Handler.cpp:923-941 | without a fixed leader every replica leads exactly one of any 3f+1 consecutive views |
| Quorums.QuorumsIntersect | App/Handler.cpp:662-666 | any two quorums meet; a QT TEE quorum meets any other in a trusted replica; two mixed ones share at least f+1 replicas |
| Quorums.HonestInBoth | App/Handler.cpp:662-666 | with at most f dishonest replicas, none trusted, any two quorums share an honest one |
| Quorums.HonestInOne | App/Handler.cpp:662-666 | with at most f dishonest replicas of any kind, every quorum has an honest member |
| Certificates.VerifySigns | Enclave/EnclaveShare.cpp:104-131 | accepts exactly non-empty lists of at most the maximal size of distinct, known, set and valid signatures |
| Certificates.VerifyQuorum | Enclave/EnclaveShare.cpp:144-156 | the same, of exactly the expected size and trusted signers only when asked |
| Certificates.EnclaveValidCert | Enclave/EnclaveComb.cpp:139-142 | the enclave's certificate test decides the one declarative certificate predicate |
| Certificates.SignsVerify | App/Signs.cpp:57-83 | accepts exactly lists of valid signatures of known replicas, repeated or unset ones included |
| Certificates.VerifyCombSigns | App/Handler.cpp:2285-2305 | exact size, distinct known set signers, trusted ones only when asked, all signatures valid |
| Certificates.VerifyCombQC | App/Handler.cpp:2307-2321 | the handler's certificate test decides the same predicate, and the phase |
| Certificates.VerifyCombVote | App/Handler.cpp:2323-2333 | accepts exactly single valid votes of the expected phase |
| Certificates.TwinVerifyQuorum | App/TrustedComb.cpp:10-30 | the software twin's test decides the same predicate as the handler's and the enclave's |
| TrustedMachine.NonEquivocation | Enclave/EnclaveComb.cpp:75-159 | over every call sequence with any arguments the signed (view, phase) pairs strictly increase below the current one, and lockv <= prepv <= view |
| TrustedMachine.OneRecordPerRound | Enclave/EnclaveComb.cpp:75-159 | so a replica never signs two records for one (view, phase) |
| TrustedMachine.PerformLaw | Enclave/EnclaveComb.cpp:102-159 | a failing call changes nothing, a successful one signs the current pair and moves to the next; prepared and locked view never go down |
| TrustedMachine.PrepareEquivalence | App/TrustedComb.cpp:90-143 | enclave and twin take the same step on a proposal exactly when block, accumulator and its signature are set and the block is not oversized, or the twin refuses too |
| TrustedMachine.AcceptanceLaw | Enclave/EnclaveComb.cpp:120-129 | voting for a proposal signs the current round for its block and moves on; under a trusted leader the block then counts as prepared in the current view, under another leader what was prepared stays; the lock is kept |
| TrustedMachine.LockRespected | Enclave/EnclaveComb.cpp:111-119 | on a valid, summarised proof a component votes exactly for a block on the highest claim that extends the locked block or whose claim is above the lock |
| TrustedMachine.HighestIsMax | Enclave/EnclaveComb.cpp:59-62 | the running highest is the maximal claim, and its hash that of the last entry attaining it |
| TrustedMachine.SignPastLaw | App/Handler.cpp:3422-3430 | repeated signing covers every round up to the next view's new-view in order and stops there |
| EnclaveComb.Enclave.IncrementPhase | Enclave/EnclaveComb.cpp:75-86 | moves to the next (view, phase) pair |
| EnclaveComb.Enclave.SignData | Enclave/EnclaveComb.cpp:89-99 | signs the current pair once and moves on |
| EnclaveComb.Enclave.ScanNewViews | Enclave/EnclaveComb.cpp:48-66 | the loop accepts exactly distinct known signers with valid entries of the view, and computes the highest claim and whether all are trusted |
| EnclaveComb.Enclave.ValidateNewViews | Enclave/EnclaveComb.cpp:38-71 | decides exactly: valid proof for the current view, summarised by a set and validly signed accumulator |
| EnclaveComb.Enclave.TEEsign | Enclave/EnclaveComb.cpp:102-109 | the state-machine step, keeping that nothing at or above the current pair is signed |
| EnclaveComb.Enclave.TEEprepare | Enclave/EnclaveComb.cpp:111-130 | the state-machine step on a proposal, whole new state and result |
| EnclaveComb.Enclave.TEEstore | Enclave/EnclaveComb.cpp:132-159 | the state-machine step on a certificate, whole new state and result |
| EnclaveComb.Enclave.TEEaccum | Enclave/EnclaveComb.cpp:161-200 | the loop computes the tally of the first valid claim of each signer |
| EnclaveComb.Enclave.TEEaccumSp | Enclave/EnclaveComb.cpp:202-234 | counts the signers of a list that verifies as a whole |
| TrustedComb.Twin.TEEsign | App/TrustedComb.cpp:85-88 | the same step as the enclave's |
| TrustedComb.Twin.TEEprepare | App/TrustedComb.cpp:90-143 | the twin's step on a proposal, whole new state and result |
| TrustedComb.Twin.TEEstore | App/TrustedComb.cpp:145-168 | the same step as the enclave's |
| TrustedComb.Twin.TEEaccum | App/TrustedComb.cpp:171-204 | the same tally, not looking at set flags of signatures |
| TrustedComb.Twin.TEEaccumSp | App/TrustedComb.cpp:206-232 | counts the distinct signers that verify one by one |
| Accumulators.TallySigners | Enclave/EnclaveComb.cpp:161-200 | the accumulator's size is the number of distinct signers with a valid claim |
| Accumulators.TallyBounds | Enclave/EnclaveComb.cpp:161-200 | its view is at least every signer's first valid claim |
| Accumulators.TallyAttained | Enclave/EnclaveComb.cpp:161-200 | its view and hash are those of one of these claims |
| Accumulators.TallyOfProof | Enclave/EnclaveComb.cpp:161-200 | on a valid proof nothing is dropped: signers and highest claim are the proof's |
| Accumulators.FastAccumulatorRefines | Enclave/EnclaveComb.cpp:202-234 | on equal data with distinct valid signers the fast and the general accumulator return the same |
| SignLists.LexEquivalent | App/Signs.cpp:103-112 | two lists are equivalent in the set order exactly when they have the same signers position by position |
| SignLists.Signs.Add | App/Signs.cpp:137-140 | appends one signature |
| SignLists.Signs.AddUpto | App/Signs.cpp:142-146 | appends as many as fit below n, in order, without overrunning the array |
| SignLists.Signs.GetSigners | App/Signs.cpp:121-127 | the set of signers |
| SignLists.Signs.HasSigned | App/Signs.cpp:114-119 | whether a replica is among the signers |
| SignLists.Signs.Less | App/Signs.cpp:103-112 | decides the order by size, then by signers |
| VoteLog.StoreLaw | App/Log.cpp:562-610 | a store keeps one vote per signer: 0 exactly when the signer is there, else the vote is added and the number of distinct signers returned; other slots are untouched |
| VoteLog.InsertNew | App/Log.cpp:562-584 | inserting a vote of a new signer adds exactly that vote |
| VoteLog.MergedLaw | App/Log.cpp:750-761 | the merged getter returns min(n, total) signatures of distinct signers, drawn from the two slots, the trusted ones first |
| VoteLog.CertificateAtThreshold | App/Handler.cpp:3547-3600 | a certificate built at either threshold from same-data votes passes every replica's certificate test |
| MessageLog.Log.MsgsFrom | App/Log.cpp:119-129 | the erasing loop decides whether every signer already has a message |
| MessageLog.Log.StoreVote | App/Log.cpp:562-584 | whole new log and count |
| MessageLog.Log.StoreLdrPrep | App/Log.cpp:613-636 | whole new log and count: one proposal per leader and view is kept, 0 on repetition |
| MessageLog.Log.FirstLdrPrepare | App/Log.cpp:2010-2024 | the first stored proposal of a view, if any |
| MessageLog.Log.GetSignatures | App/Log.cpp:735-748 | at most n signatures of a slot, in set order |
| MessageLog.Log.GetMerged | App/Log.cpp:750-761 | trusted signatures first, then others, at most n |
| MessageLog.Log.GetMessages | App/Log.cpp:510-521 | at most n messages of a slot |
| HandlerComb.Handler.GatherNewViews | App/Handler.cpp:3031-3046 | the array of entries and the signatures whose data equal the first's up to hash flags |
| HandlerComb.Handler.CreateBlock | App/Handler.cpp:2151-2189 | takes at most the maximal number of transactions off the pool, in order |
| HandlerComb.Handler.MixInto | App/Handler.cpp:3071-3079 | set insertion until n messages |
| HandlerComb.Handler.SignPastView | App/Handler.cpp:3422-3430 | the loop ends where the signing function does, with its last signature |
| HandlerComb.Handler.StartNextView | App/Handler.cpp:3422-3456 | whole new state, with termination of the mutual recursion by the size of the cache |
| HandlerComb.Handler.On | App/Handler.cpp:3141-3743 | for any event the object moves exactly as the step function all runs are made of |
| ChainedExecution.PendingMembers | App/Handler.cpp:3830-3878 | what is executed is exactly the unexecuted certificate-ancestors, each once, oldest first |
| ChainedExecution.PendingMissing | App/Handler.cpp:3872-3877 | nothing is executed exactly when an ancestor's block is missing |
| ChainedExecution.PendingParents | App/Handler.cpp:3852-3856 | each executed block follows its certificate parent, and the oldest one's parent is executed |
| ChainedExecution.MarkKeepsClosed | App/Handler.cpp:3880-3885 | the executed set stays closed under certificate parents |
| ChainedExecution.NamedIffLinked | App/Handler.cpp:3839-3856 | what is executed is named by its children's certificates exactly when the disabled test holds at every step of the walk |
| ChainedExecution.CheckedIffLinked | App/Handler.cpp:3857-3867 | the walk with the test restored is the walk without it exactly when every link matches or nothing is executed; on a mismatch it executes nothing |
| ChainedExecution.SameCertificateSameBlocks | App/Handler.cpp:3839-3856 | two replicas whose links match execute the same block in every view from one certificate |
| ChainedExecution.ChainExecutor.Collect | App/Handler.cpp:3827-3878 | the walk terminates and collects exactly the pending blocks |
| ChainedExecution.ChainExecutor.TryExecute | App/Handler.cpp:3824-3909 | all or nothing, whole new state; over any calls no block is executed twice or before its parent; each block executed is named by its child's certificate exactly when every link matches |
| ChainedExecution.ChainExecutor.StoreBlock | App/Handler.cpp:3978-3982 | stores over whatever is held for the view; the history stays right exactly when the block carries the mark of the one it replaces and, if that was executed, has a parent executed before it |
| ChainedExecution.ExecutesDespiteMismatch | App/Handler.cpp:3839-3849 | two well-shaped chains and one certificate from which different blocks are executed in one view, one of them not the block that the certificate names |
| KVCodec.CodecRoundTrip | App/KVApp.cpp:35-74 | an accepted request comes back unchanged, negative ids included, exactly when key and value are shorter than 65536 bytes |
| KVCodec.CodecRoundTripSmall | App/KVApp.cpp:35-74 | for payloads of 14 to 14+65535 bytes every accepted request comes back unchanged |
| KVCodec.LongKeyIsLost | App/KVApp.cpp:44-45 | an accepted request with a key of 65536 bytes, which comes back empty |
| KVCodec.EncodedInjective | App/KVApp.cpp:35-56 | there, distinct accepted requests have distinct payloads |
| KVCodec.I32RoundTrip | App/KVApp.cpp:19-31 | four two's-complement bytes give back any 32-bit number |
| KVCodec.PutU16 | App/KVApp.cpp:9-12 | writes two bytes and leaves the others |
| KVCodec.PutI32 | App/KVApp.cpp:19-24 | writes four bytes and leaves the others |
| KVCodec.Encode | App/KVApp.cpp:35-56 | accepts exactly what fits, whole buffer; a refused request leaves zeros |
| KVCodec.Decode | App/KVApp.cpp:58-74 | whole output record and result for any bytes; no read is outside the payload |
| KVStore.DedupKeyInjective | App/KVApp.cpp:101-103 | the cache key is injective on the pair of ids |
| KVStore.DedupRefinesPlain | App/KVApp.cpp:195-225 | any log leaves the store of the plain machine on the log without repetitions, and every request gets the plain machine's reply to the first one of its ids |
| KVStore.RepeatsGetFirstReply | App/KVApp.cpp:195-203 | two requests with the same ids get the same reply |
| KVStore.DistinctAnswers | App/KVApp.cpp:195-225 | when no pair of ids repeats: a GET is answered with the value of the last SET of its key that no DEL follows, and with not-found when there is none; a DEL counts 1 exactly when the key is held; an unknown operation is an error; and the store maps exactly the held keys to their values |
| KVStore.ReplicatedAnswers | App/KVApp.cpp:195-225 | the same for any log, on the log without repetitions |
| KVStore.FirstOnlyLaw | App/KVApp.cpp:195-203 | the log without repetitions has one request for each pair of ids in the log |
| KVStore.KVAppExecutor.DoExecute | App/KVApp.cpp:195-203 | whole new state and reply |
| KVStore.KVAppExecutor.DoExecMemory | App/KVApp.cpp:205-225 | whole new store and reply |

## Left out

- Networking, timers, threads, statistics, the client, Redis, deployment scripts, OpenSSL, SGX bridges and key
  loading: I/O and plumbing. Messages and events are parameters.
- String concatenation of signed texts and of hashed blocks, and serialization of messages: replaced by ideal
  signatures and digests over records.
- The Quick/Acc, FREE, OP, HotStuff, Damysus and Achilles variants, and the chained variant except for its execution
  loop: other protocols.
- The leader skip list of `getLeaderOf`: replicas may have different lists and so different leaders for a view; it is
  not modelled.
- Cross-view agreement when new-view claims lie: entries carry the prepared view as a signed claim without a
  certificate, so only crash, omission and timeouts are covered across views.
- Integer widths: `View`, phases and sizes are unbounded numbers or the four phases of the protocol; 32-bit
  wrap-around of views, `std::stoi` overflow of a block's number and phase bytes above COMMIT are not modelled.
- Liveness: no result says that a view change or a decision eventually happens in a run with failures; `Decisions` and
  `Leading` say which single steps succeed, and `Deployments` that every deployment can decide.
- Client replies and reply counting: the pool is a sequence, and answering a client is recording the executed round in
  `executed`. What a refused proposal has taken off the pool is lost, in the source as here.
- HandlerComb.Handler.CreateBlock: the dummy transactions that fill the array of a block are not part of the block.
- MessageLog.Log.StoreVote: one store stands for the eight copies per message type and signer class, new-views
  included, whose single signer is treated as a list of one; the ordered set insertion is the function
  `VoteLog.SetInsert`.
- HandlerComb.Handler.StoreForLater: the three caches of future certificates are one map keyed by message type and
  view.
- Byzantine: agreement across views is not stated there.
- ChainedExecution: certificates point strictly below the view of their block, which the chained handlers ensure and
  which is a precondition here; how the chained handlers come by blocks and certificates is not modelled; the
  parameter `blockL`, which the source never reads, is dropped.
- KVStore.KVAppExecutor.DoExecute: only the in-memory backend.
