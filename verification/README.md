# A Dafny model of the Sawtooth PBFT engine

The project models the consensus engine of Sawtooth PBFT: one node's state machine, its
message log, its event loop, and a cluster of such nodes together with faulty ones. The
protocol is that of Castro and Liskov, "Practical Byzantine Fault Tolerance" (OSDI 1999),
sections 4.2 to 4.4, as this engine changes it: blocks in place of requests, consensus seals
in place of checkpoints, and a second way to commit that catches up from a seal.

`dafny verify dfyconfig.toml` checks everything.

## Layers

- `Types`, `Timing`, `State`, `MessageLog`: messages, blocks, seals, timer, node state and
  log, as values, with the classes that hold them in place.
- `Protocol`: what each handler does to a node, as functions on values, and `Step`, one per
  update of the validator and per tick. Self-delivery of broadcasts is laid out flat.
- `Handlers`, `Node` (module `NodeInPlace`), `Engine`: the engine in the source's own form,
  classes whose methods change state, log and validator connection and deliver every
  broadcast to the sender by calling themselves. Each method is proved to do what `Protocol`
  says, and the event loop to go through a run of `Step`s.
- `Ledger`, `Quorums`, `Ladder`, `Provenance`, `Commits`, `Views`, `Seals`, `Retention`: what
  every step keeps or does.
- `Runs`, `Backlog`, `Lag`, `Checks`: one node over every run. `Progress`: a round that goes as
  it should. `Network`, `Agreement`, `Minds`, `Publication`: a cluster over every run.
- `Causes`, `Account`, `Requests`, `Logs`, `Outcomes`: an account of every step in terms of what
  sets it off, stated apart from the handlers: exactly what it does to the state, to the log, to
  the queue (`Backlog`) and to the record of calls, and what it reports. `Course`: the same over
  every run.
- `Scenario`, `Rounds`: runs of a cluster of four with one faulty peer, put together step by step
  from its start. `Boundaries`, `SealBoundaries`, `Rift`: such runs in which expectations about
  the engine fail; the conditions are in `Views`, `Seals`, `Lag`, `Checks`, `Minds` and
  `Publication`.

## What is taken from outside

A step gets an `Env`: the iteration order of hash sets (any order, chosen anew for every
step), the outcome of the signature and digest checks of a seal's votes, the peer list on
chain as of a block, and the clock. Calls into the validator are recorded in order; a commit
is recorded with the view and sequence number at which it was made.

Theorems name the hypotheses they need:

- `Env.Valid`, `Fresh`: peer lists have at least four members, the forced view change period
  is positive (the source panics otherwise), and a message's type agrees with its content.
- `WellSealed` (`Trace.Sealed`): delivered seals have the shape that `build_seal` gives them.
  The engine checks neither the type nor the view of a seal's votes.
- `ValidNamesPrePrepared` (`Trace.Checked`): the validator finds valid the block that was
  pre-prepared. `Genuine`: a block id determines the block.
- `Moves` (`History.Valid`), `OneCopyEach`: the network delivers each vote under one header only,
  signed by its sender. The engine counts log entries, not signers, so nothing can be said of
  signers without this: on a network that is `Free` of it, agreement fails
  (`Boundaries.TwoHeadersBreakAgreement`).
- `Cluster.Valid`: 3f + 1 distinct peers that stay the same, at most f of them faulty.
- `Vetted`: `Genuine`, `ValidNamesPrePrepared`, and votes in a seal that name a correct peer
  were sent by it. Only agreement on commits, and what is built on committed blocks, needs this.
- `KnowsSignatures`: signatures on the network are good, and a vote without one is not
  authentic. Only the acceptance of published seals needs this.

## Where the code and its documentation differ

The model follows the code.

- The documentation promises that with at most f faulty nodes committed blocks are final and
  there are no forks (`docs/source/introduction-to-sawtooth-pbft.rst:18-25`). Within a view this
  holds (`Agreement.CommitAgreement`). A view change discards the block a node has prepared and
  carries nothing over, so across views it does not hold: one faulty peer among four suffices
  for a fork (`Rift.ViewsCanCommitApart`). Every fork goes through a correct node that answers a
  PrePrepare for another block than the one it prepared at that number
  (`Minds.ForkNeedsChangeOfMind`), and `Minds.OneMindOfStep` says exactly which steps do that.
- The comments promise quorums "from different nodes" (`src/message_log.rs:92-96`); the code
  counts log entries, and one faulty peer that sends each vote under two headers makes correct
  nodes commit different blocks at one view and number (`Boundaries.TwoHeadersBreakAgreement`).
- A node that is changing views is said to process nothing but view changes
  (`src/node.rs:716-718`); the code goes on handling every message, and the mode makes no
  difference to what it does with votes (`Views.VotesIgnoreTheMode`).
- A view change is described as one to the next view (`src/handlers.rs:119-122`); the code
  takes any view that 2f + 1 messages name, also a lower one (`Views.ViewMovement`,
  `Boundaries.ViewChangeCanLowerTheView`).
- A node without exactly one seal for the previous block enters view changing mode but sends
  nothing (`src/node.rs:719-741`), so no node proposes a view change in the round it starts
  in (`Runs.FirstRoundSendsNoViewChange`).
- An accepted PrePrepare is said to update the phase (`src/handlers.rs:44`); one accepted ahead
  of its round does not, and is not answered when the round comes (`Lag.LagOverRuns`).
- Commits of the previous round are kept so that the next seal can be built
  (`src/message_log.rs:298-300`); but the seal also picks up votes for other blocks, and votes
  logged without signature by catching up, or is built from the votes of a later view for
  another block, and is then refused (`Publication.SealAcceptance`).
- The comment asks for a view change if one is forced or the peers changed (`src/node.rs:545`); the
  code does not look at the peer list when one is forced (`Views.ForcedRotationIgnoresPeers`).

## Model

| member | source | states |
|---|---|---|
| `Timing.Timeout.CheckExpired` | src/timing.rs:75-83 | an active timer past its duration becomes expired, and expired is all it reports |
| `State.InitialState` | src/state.rs:138-162 | a new state is in the range where nothing can panic, and its role is the one view 0 gives it |
| `State.PbftState.constructor` | src/state.rs:138-162 | the record built in place is that state |
| `State.PbftState.SwitchPhase` | src/state.rs:203-219 | the phase changes exactly to the successor of the current one, and the answer says whether it did |
| `MessageLog.GetOneMsg` | src/message_log.rs:126-134 | some logged message of the type, sequence number and view, and none exactly if there is none |
| `MessageLog.PbftLog.AddMessage` | src/message_log.rs:164-183 | a message is logged exactly if it is a view change or of the current view, and refused with a view mismatch otherwise |
| `MessageLog.PbftLog.GarbageCollect` | src/message_log.rs:292-314 | a full log loses what is older than the previous sequence number; all seals but those of the block go |
| `Protocol.Step` | src/engine.rs:119-157 | no step leaves the range in which sequence number, fault bound, peer index and period are safe to compute with |
| `Handlers.PrePrepareHandler` | src/handlers.rs:45-93 | the checks in order, with the error of the first that fails and nothing changed; an accepted PrePrepare is logged and, if current, ends the wait and stops the timer |
| `Handlers.CommitHandler` | src/handlers.rs:99-117 | the validator is told to commit the block, and the phase moves on if it was Committing |
| `Handlers.AdoptRole` | src/handlers.rs:135-140 | the role becomes the one the view gives |
| `Handlers.ViewChangeInPlace` | src/handlers.rs:123-145 | with 2f + 1 view changes the view of the message is entered and the block discarded, otherwise nothing happens |
| `NodeInPlace.PbftNode.OnPeerMessage` | src/node.rs:76-147 | self-delivery terminates on a lexicographic measure of message kind and mode, and the recursive form does what the flat one says, result included |
| `NodeInPlace.PbftNode.ProposeViewChangeIfEnoughMessages` | src/node.rs:201-225 | a node in Normal mode joins on f + 1 view changes to a higher view, and only then |
| `NodeInPlace.PbftNode.ProposeViewChange` | src/node.rs:719-741 | a proposal delivers itself once at most; without a single seal it fails, having changed the mode only |
| `NodeInPlace.PbftNode.BroadcastPbftMessage` | src/node.rs:775-795 | a vote of a type that does not fit the phase is not sent at all |
| `NodeInPlace.PbftNode.VerifyVotes` | src/node.rs:313-321 | the loop succeeds exactly if every vote verifies, and then yields exactly the set of voters |
| `NodeInPlace.PbftNode.VerifyConsensusSeal` | src/node.rs:279-359 | the checks of a seal, in order, with the error of the first that fails |
| `NodeInPlace.PbftNode.BuildSeal` | src/node.rs:605-640 | a seal from the messages picked, or an error if there are not enough |
| `NodeInPlace.PbftNode.UpdateMembership` | src/node.rs:744-770 | peers and fault bound are replaced exactly if the set of peers differs |
| `NodeInPlace.PbftNode.ReadyForNextBlock` | src/node.rs:534-543 | next sequence number, with a block already announced for it if there is one |
| `NodeInPlace.PbftNode.RotateIfDue` | src/node.rs:545-548 | one view change at most, for fairness or for changed peers, in this order |
| `NodeInPlace.PbftNode.OnBlockCommit` | src/node.rs:517-565 | nothing unless Finished with this very block; otherwise the node is set up for the next one |
| `NodeInPlace.PbftNode.AddAll` | src/node.rs:415-418 | the loop adds messages in turn up to the first one refused |
| `NodeInPlace.PbftNode.Catchup` | src/node.rs:362-433 | the in-place catch-up does what the flat one says, on every error path too |
| `NodeInPlace.PbftNode.OnBlockNew` | src/node.rs:441-509 | all arms of a new block: ignored, failed, caught up with, adopted, or only logged |
| `NodeInPlace.PbftNode.OnBlockValid` | src/node.rs:572-601 | a Commit goes out for the working block only, and is counted by the sender |
| `NodeInPlace.PbftNode.TryPublish` | src/node.rs:646-690 | only a waiting primary publishes, from block 2 on with a seal |
| `NodeInPlace.PbftNode.RetryBacklog` | src/node.rs:702-709 | the front of the queue is handled again as a peer message |
| `Engine.RunTickers` | src/timing.rs:39-45 | exactly the tickers whose period has passed do their work, in order, and restart from the clock as it reads afterwards |
| `Engine.Handle` | src/engine.rs:119-157 | every arm of the dispatch is one `Step` |
| `Engine.Start` | src/engine.rs:42-73 | the node the engine sets up is the fresh node that runs start from, its timer running |
| `Engine.TakeTurn` | src/engine.rs:76-105 | a turn is the steps of its update and of the ticks due, in this order, and goes on unless the channel closed |
| `Engine.EventLoop` | src/engine.rs:76-105 | whatever arrives and however the tickers fall, the node goes through a run of steps: exactly the updates received and the ticks due, in order, until the channel closes |
| `Engine.TicksExactly` | src/timing.rs:39-45 | a ticker works at a turn exactly if a whole period lies between the clock then and the clock as its last work was done, or as it was set up |
| `Engine.LoopTurnByTurn` | src/engine.rs:76-105 | turn by turn the loop takes the update, the working tick if that ticker falls then, and the retry if the other does |
| `Causes.WelcomeExactly` | src/node.rs:279-359 | a seal is accepted exactly if the block is number 1, or its payload is a seal for the block's own parent and own summary, every vote is authentic, for that parent, and from a peer as of the parent other than the block's signer, and at least 2f distinct peers have voted |
| `Causes.FoundExactly` | src/message_log.rs:194-211 | a seal is found for a number exactly if it is the only one stored for it |
| `Account.StateOfStep` | src/engine.rs:119-157 | every step leaves exactly the state that its cause gives, in every field but the phase: the round ends, a view is entered by a view change, or the node stays, with a changed mode on cause to give up the primary, the working block on a welcome block of the round, and the timer on a PrePrepare or on time |
| `Logs.LogOfEveryStep` | src/message_log.rs:164-211 | after every step a message is logged exactly if it was or the step adds it, and it is not pruned: a full log loses what is older than the round that ends; a seal is stored exactly if it was or comes with a welcome block, and after a round only that of its block is left |
| `Logs.NewBlockIsLoggedOrFailed` | src/node.rs:441-509 | a new block is ignored if older than the round and otherwise announced exactly if welcome, and failed exactly if not; no other event announces a block |
| `Requests.BlocksFailed` | src/node.rs:463-473 | a block is failed exactly if it is new, not older than the round and not welcome |
| `Requests.PublishedOfStep` | src/node.rs:646-690 | a step publishes a block, one at most, exactly if it is a working tick with a summary at a waiting primary that is at block 1 or has 2f Commits of others in some view; the payload is empty for block 1 and otherwise a seal with that summary of exactly the Commits of the highest such view |
| `Requests.ViewChangesSent` | src/node.rs:719-741 | a view change is sent exactly if there is cause, in Normal mode, with exactly one seal stored for the round before, which it carries |
| `Requests.PrePreparesSent` | src/node.rs:493-505 | a PrePrepare is sent exactly for a welcome block of the round, by a waiting primary |
| `Requests.CommitsSent` | src/node.rs:572-601 | a Commit is sent exactly for the working block when it is found valid, by a node that has prepared |
| `Requests.BlocksBegun` | src/node.rs:555-564 | a block on a committed one is begun exactly if the step ends the round of that one and leaves a primary without a working block |
| `Requests.LeadershipTaken` | src/handlers.rs:185-205 | a block is ignored, and one begun with no predecessor named, exactly by a node that enters a view it leads, by rotation or by a view change |
| `Outcomes.PrePrepareReports` | src/handlers.rs:45-93 | a PrePrepare fails exactly if it is neither acceptable nor early, with the error of the first check it misses, and changes nothing then |
| `Outcomes.ViewChangeReports` | src/node.rs:201-225 | a view change fails exactly if the node has to join it and has not exactly one seal for the round before |
| `Outcomes.BlockNewReports` | src/node.rs:441-509 | a new block fails exactly if it is not welcome, or is the next one and does not end the round, or is the one of the round and a waiting primary finds its own PrePrepare refused |
| `Outcomes.LateBlockReports` | src/node.rs:362-433 | a block that cannot be caught up with is only logged, and the error says whether a working block, a fitting one or votes of a view not past are missing |
| `Ledger.NoProblemAdmits` | src/handlers.rs:50-81 | whichever PrePrepare the log yields first, one that is accepted conflicts with none logged and has its announcement |
| `Ledger.SendingPrepare` | src/node.rs:149-166 | a Prepare sent for an accepted PrePrepare contradicts no Prepare ever sent |
| `Ledger.LedgerGarbageCollect` | src/message_log.rs:292-305 | pruning drops a past PrePrepare only with its announcements, so what it forgets can never be pre-prepared again |
| `Ledger.LedgerStep` | src/node.rs:76-147 | every step keeps: announced blocks numbered right, PrePrepares announced and in agreement, a working block that is current and announced, Prepares unique per view and sequence number |
| `Quorums.ChecksMeanCertificates` | src/message_log.rs:97-123 | the checks hold, for every hash order, exactly if some block has its PrePrepare and 2f + 1 matching Prepares (and Commits), and it is the only block pre-prepared there |
| `Quorums.NewCertificateIsForTheVote` | src/message_log.rs:97-161 | a certificate that appears with one vote is for the block of that vote |
| `Quorums.GarbageCollectionIsInvisible` | src/message_log.rs:292-314 | at and above the previous sequence number no query on the log, prepared, committable or enough messages, changes with pruning |
| `Ladder.LadderOnCurrentPrepare` | src/node.rs:101-111 | a Prepare for the round takes a node that is prepared out of Preparing at once |
| `Ladder.LadderOnCommit` | src/node.rs:113-123 | a Commit leaves no node in Committing that is already committable |
| `Ladder.AddMessagesOfOneView` | src/node.rs:415-418 | the votes of a well-shaped seal are all logged or none is |
| `Ladder.LadderStep` | src/state.rs:203-219 | every step keeps the evidence for the phase, the node at rest, and timer and phase in step |
| `Provenance.EffectOfStep` | src/node.rs:775-814 | every message logged is the node's own, was delivered, or came with a block; a PrePrepare is sent only by a waiting primary for a new block of its number, a Prepare only for such a block or for an announced one pre-prepared by the primary of the view, a Commit only for the working block after Checking, a view change only from Normal mode with the seal found; nothing sent is taken back |
| `Commits.CommitOnVote` | src/handlers.rs:99-117 | the block of the vote that arrives is the certified one, since a node at rest in Committing is not yet committable |
| `Commits.CommitOnBlockValid` | src/node.rs:572-601 | the same where the node's own Commit completes the certificate |
| `Commits.AddMessagesSucceeds` | src/node.rs:415-418 | the votes of any seal are all logged exactly if each is of the view entered or a view change |
| `Commits.CatchupIsCorrect` | src/node.rs:362-433 | for every late block: catch-up goes through exactly if the seal verifies and fits the working block; then at least 2f distinct peers other than the signer voted for exactly the block committed, the sequence number rose by one, the phase is PrePreparing and the view did not fall; otherwise nothing was committed |
| `Commits.CommitOfStep` | src/node.rs:184-199 | every step commits nothing, one certified block, or one block on a verified seal |
| `Commits.ChainOfStep` | src/node.rs:517-535 | every step keeps the commits in order of sequence number without a gap, and Finished means committed here |
| `Views.ViewMovement` | src/handlers.rs:123-157 | a step lowers the view exactly if a node already changing views completes a change to a lower one; every change of view has 2f + 1 view changes logged for it, or is the rotation by one after a block, or comes from a verified seal |
| `Views.RoleOfStep` | src/handlers.rs:133-157 | a role that matches the view still does after a step exactly if the step is not a catch-up that carries the view onto or past the node's turn without a rotation |
| `Views.RoleRestored` | src/handlers.rs:135-140 | any other change of view sets the role right, whatever it was |
| `Views.CatchupAllOrNothing` | src/node.rs:362-433 | with a well-shaped seal a catch-up goes all the way or leaves the node as it was |
| `Views.VotesIgnoreTheMode` | src/node.rs:76-147 | a PrePrepare, Prepare or Commit does the same to a node that is changing views as to the same node in Normal mode, and leaves the mode as it is |
| `Views.ForcedRotationIgnoresPeers` | src/node.rs:545-548 | a commit keeps the peer list, whatever the chain says, exactly if the next number forces a view change |
| `Boundaries.CatchupCanLeaveRoleBehind` | src/node.rs:408-413 | a run of four peers, one of them faulty, in which the primary of a view catches up into a view that another peer leads and remains a primary |
| `Boundaries.ViewChangeCanLowerTheView` | src/handlers.rs:172-174 | a run of four peers, one of them faulty, in which a late view change takes a correct node from view 3 down to view 2 |
| `Seals.BuiltSealHolds` | src/message_log.rs:263-288 | a seal is built exactly if some view has 2f Commits of others for the previous block, and holds exactly those of the highest such view, each once |
| `Seals.SealRoundTrip` | src/node.rs:279-359 | a built seal, carried by its block to a node with the same fault bound, is accepted and returned as built exactly if its Commits are for that block, authentic, and from at least 2f peers other than the publisher |
| `Seals.DistinctVotersSuffice` | src/node.rs:605-640 | so a seal of authentic Commits from distinct peers is always accepted |
| `Seals.PublishedBlockVerifies` | src/node.rs:646-690 | what a node publishes, on whatever block, any node accepts without a seal as block 1, and from block 2 on exactly if the Commits it was built from name the block it is built on, are authentic, and come from enough peers other than the publisher |
| `Seals.SealReadyAfterBlockCommit` | src/node.rs:551-551 | the Commits that finished a block suffice for the next seal, pruning included, whenever the fault bound that the commit leaves is no larger |
| `Seals.SealReadyExactly` | src/node.rs:605-618 | in general the next seal can be built after a commit exactly if the Commits of others at hand suffice for the new fault bound |
| `SealBoundaries.GrowthCanWithholdTheSeal` | src/node.rs:744-770 | a run in which peers growing from four to seven leave a node that finished a block unable to build the next seal |
| `Retention.SealReadyStep` | src/node.rs:608-618 | within a round a seal that can be built stays so; a step that ends the round, by votes or by catch-up, leaves it buildable exactly if the Commits at hand suffice for the new fault bound, and always if that is no larger |
| `Seals.SealKeptAtCommit` | src/message_log.rs:307-313 | committing leaves exactly one seal for the round exactly if the block was delivered during it, and it is the seal in that block |
| `Retention.SealFoundAfterRound` | src/message_log.rs:194-211 | the same for every step that ends a round, by votes or by catch-up |
| `Retention.PastSealKept` | src/message_log.rs:194-211 | within a round the seal found for the previous one never changes |
| `Runs.NoPanicOverRuns` | src/state.rs:138-147 | no run ever leaves the range in which no arithmetic, indexing or unwrap of the engine can panic |
| `Course.FirstRoundFollowsHead` | src/state.rs:138-162 | the engine starts at the number after the head, in view 0, as primary and with a first block begun exactly if it is the first peer; and in every run the first block it commits is the one after the head |
| `Course.PeersOverRuns` | src/node.rs:744-770 | in every run, from a round that ends with no view change forced until the next such one, the peers are those on chain then: the list of the chain if they are others than before, the old list if they are the same, and the view moved on by one exactly in the first case |
| `Course.NextBlockOverRuns` | src/node.rs:537-543 | in every run, from the end of a round by votes or by catch-up until another block or view comes, there is a working block exactly if one is announced for the new number, and it is such a one |
| `Course.AnnouncementsOverRuns` | src/node.rs:457-491 | in every run an announcement is logged only if a step announced a welcome block by it, and stays logged at least through the round after its own |
| `Course.WorkingBlockIsWelcome` | src/node.rs:493-499 | in every run the block a node works on has the current number and was welcome when it was announced |
| `Course.PublishingOverRuns` | src/node.rs:646-690 | the exact condition and payload of a publication at every step of every run; the publisher is the primary of its view unless a catch-up left its role behind |
| `Course.TimerOverRuns` | src/timing.rs:74-94 | in every run, once started and until a PrePrepare of the round or a new round or view, the timer is out exactly if some working tick read the clock more than the duration past the reading at the start |
| `Course.TimeoutOverRuns` | src/engine.rs:91-98 | a working tick makes the node give up on its primary exactly if it or one before it found the timer out in this way |
| `Runs.PreparesUniqueOverRuns` | src/handlers.rs:59-83 | in no run does a node send Prepares for two blocks at one view and sequence number, across view changes, commits and pruning |
| `Runs.PhasesOverRuns` | src/node.rs:83-123 | in every reachable state: a PrePrepare is logged in Preparing, prepared in Checking and Committing, committable in Finished; a node in Preparing is not yet prepared and one in Committing not yet committable; and the timer runs exactly in PrePreparing |
| `Progress.NormalRound` | docs/source/algorithm-operation.rst:40-87 | for every fault bound: a secondary that waits, is given a block with its PrePrepare, hears 2f Prepares and 2f Commits of others in any order and finds the block valid, commits exactly that block, once, and waits for the next |
| `Lag.LagOfStep` | src/handlers.rs:83-90 | a node lags if it waits in PrePreparing for a PrePrepare it has: after a step that enters a round, by commit, catch-up or view change, exactly if the PrePrepare of that round was logged before; after any other step, exactly if it lagged and takes no PrePrepare for the round, delivered or its own |
| `Lag.LagOverRuns` | src/node.rs:517-565 | in every run a node lags exactly if it entered a round whose PrePrepare it had logged before and has since entered no other and taken no PrePrepare |
| `Lag.WaitingNodeIsMute` | src/node.rs:782-786 | a node in PrePreparing that takes no PrePrepare sends no Prepare and no Commit, whatever arrives |
| `Lag.LaggingNodeIsMute` | src/state.rs:203-219 | in every run a node sends no Prepare and no Commit over any stretch at every point of which it lags, also where it goes from one round into another |
| `Boundaries.CommitCanLeaveNodeLagging` | src/handlers.rs:85-90 | a run of four peers, one of them faulty, in which a PrePrepare taken in Finished for the next block leaves a correct node lagging after the commit |
| `Checks.CheckOnPrepare` | src/node.rs:168-181 | a Prepare makes the node ask its validator exactly if it is for the round, the round is prepared and the node is not asking; the block asked for is the prepared one exactly if it is the pre-prepared one |
| `Checks.ChecksOfStep` | src/node.rs:101-111 | a step asks for a block that is not prepared exactly if it is the arrival of a Prepare for another block |
| `Checks.ChecksOverRuns` | src/node.rs:101-111 | the same at every step of every run, and never from Preparing |
| `Boundaries.LatePrepareCanLeadAstray` | src/node.rs:173-178 | a run of four peers, one of them faulty, in which a late Prepare for another block makes a correct node in Committing ask for that block |
| `Runs.BookkeepingOverRuns` | src/node.rs:478-499 | in every reachable state the working block has the current number and its announcement, every PrePrepare has its announcement, and only PrePrepares are queued |
| `Runs.CommitsOverRuns` | src/node.rs:184-199 | in every run every commit is of the block with the full certificate at that view and sequence number, or of the working block on a verified seal |
| `Runs.CommitsChainOverRuns` | src/node.rs:517-535 | in every run the commits go from the first sequence number to the current one without a gap |
| `Runs.RoleOverRuns` | src/state.rs:181-199 | in every run without such a catch-up the node is primary exactly when the rotation says so, membership changes included |
| `Runs.SealBuiltAfterRound` | src/node.rs:605-618 | right after any round of any run `build_seal` succeeds, for every summary and hash order, exactly if the Commits at hand suffice for the new fault bound; and they do if that is no larger |
| `Runs.SealBuiltOverRuns` | src/message_log.rs:263-314 | from the end of any round on, `build_seal` succeeds at every point of the run, if the Commits at hand sufficed at the end of each round |
| `Runs.SealRetention` | src/node.rs:457-461 | a block delivered in its own round and then committed leaves exactly its seal to be found, at every point until the next commit |
| `Runs.FirstRoundSendsNoViewChange` | src/node.rs:719-741 | in the round it starts in a node never sends a view change, whatever happens |
| `Ledger.AcceptedExactlyIfAcceptable` | src/handlers.rs:45-93 | a PrePrepare is accepted, for every hash order, exactly if it is from the primary, of the current view, announced, and in conflict with none logged; otherwise the logged messages stay the same |
| `Backlog.QueueMovesUp` | src/message_log.rs:316-322 | whatever happens, a queued message moves up by exactly one place per retry |
| `Backlog.QueueOfStep` | src/node.rs:83-99 | after every step the queue is the one before, without its front on a retry, and with the message delivered at its end exactly if that is a PrePrepare from the primary of the view for a block not announced |
| `Backlog.EarlyIsServed` | src/node.rs:702-709 | in every run such a message is reached by the retry of its place, and then logged if acceptable, queued again if still early, and dropped otherwise |
| `Backlog.BacklogService` | src/node.rs:702-709 | a PrePrepare at place p is handled by the (p+1)-th retry, whatever is queued behind it, and accepted there exactly if it is acceptable then |
| `Network.QuorumsMeetSafely` | src/state.rs:140-140 | two quorums of 2f + 1 meet in at least 4f + 2 - n peers; this is always more than f exactly if n is 3f + 1 |
| `Network.QuorumsShareCorrect` | src/message_log.rs:97-104 | two quorums have a correct peer in common |
| `Network.EntriesHaveDistinctSigners` | src/message_log.rs:138-161 | with one copy of each vote delivered, counting log entries is counting signers |
| `Network.CertificateIsQuorum` | src/message_log.rs:97-104 | a prepared certificate in a correct node's log stands for 2f + 1 peers whose correct members have all sent that Prepare |
| `Network.QuorumBlockUnique` | src/handlers.rs:69-81 | one block at most is prepared by a quorum at one view and sequence number |
| `Network.SystemInvStep` | src/engine.rs:119-157 | every move of a correct node or of the faulty ones keeps the cluster in order, whatever the validators answer |
| `Network.AllBackedStep` | src/node.rs:572-601 | every move keeps every Commit sent and every block committed by correct nodes backed by a quorum of Prepares |
| `Agreement.PreparedAgreement` | src/message_log.rs:97-123 | in no run do two correct nodes, at whatever times, hold prepared or committable certificates for different blocks at one view and sequence number |
| `Agreement.CommitAgreement` | src/handlers.rs:99-117 | in no run do correct nodes commit different blocks at one view and sequence number, by votes or by catching up |
| `Boundaries.TwoHeadersBreakAgreement` | src/message_log.rs:138-161 | a run in which everything but the one copy of each vote holds, and one faulty peer among four makes two correct nodes commit different blocks at one view and sequence number |
| `Minds.PreparesOfStep` | src/node.rs:149-166 | a step sends exactly the Prepare that answers the PrePrepare it takes, delivered or the node's own, in the phases that allow an answer, and no other |
| `Minds.ChangeCrossesViews` | src/handlers.rs:69-81 | an answer to a PrePrepare for another block at a number already prepared comes in another view than the first |
| `Minds.OneMindOfStep` | src/handlers.rs:45-93 | a node that has prepared one block at most at a number still has after a step exactly if the step does not answer a PrePrepare for another block there |
| `Minds.MindsOverHistory` | src/handlers.rs:123-145 | in every run all correct nodes have prepared one block at most at a number exactly if no step of any of them was such an answer |
| `Agreement.AgreementAcrossViews` | docs/source/introduction-to-sawtooth-pbft.rst:18-25 | in every run correct nodes commit one block at a number, in whatever views, as long as each of them has prepared one block at most there |
| `Minds.ForkNeedsChangeOfMind` | docs/source/introduction-to-sawtooth-pbft.rst:18-25 | in every run, if correct nodes commit different blocks at one number, it is in different views, and a correct node had answered a PrePrepare for another block than the one it had prepared there |
| `Rift.ViewsCanCommitApart` | src/handlers.rs:123-145 | a run of four peers, one of them faulty, with one copy of each vote and honest validators, in which two correct nodes commit different blocks at one sequence number |
| `Agreement.CountedViewChanges` | src/handlers.rs:159-170 | of the view changes a correct node counts, all but f come from correct nodes that proposed that very view at that sequence number |
| `Agreement.CertifiedViewIsBacked` | src/handlers.rs:159-170 | 2f + 1 view changes in a correct node's log mean f + 1 correct proposers |
| `Agreement.AdoptedViewIsBacked` | src/handlers.rs:123-145 | in every run a view adopted from view changes was proposed by at least f + 1 correct nodes |
| `Agreement.ContentMove` | src/node.rs:201-225 | the first correct node to start a view change does so on its own timer, an invalid block or a bad seal |
| `Agreement.ViewChangesHaveHonestCause` | src/engine.rs:96-98 | in every run, if a correct node is or was changing views, a correct node had such a cause before: faulty peers alone start no view change |
| `Agreement.FirstPrimaryStays` | src/node.rs:735-735 | in every run all correct nodes stay in view 0 as long as they are in the round they started in, however long the first primary is silent |
| `Publication.SealAcceptance` | src/node.rs:605-640 | in every run the block that a correct node publishes, on whatever block, is accepted by every correct node exactly if the Commits its seal was built from are all signed, name one block, come from at least 2f signers, and name the block it is built on |
| `Publication.CommittedBlockIsNamed` | src/message_log.rs:263-288 | in every run such Commits, of the view picked, name the block that any correct node has committed in that view at the number before |
| `Publication.SealOnCommittedBlock` | src/node.rs:279-359 | so a block built on the one its publisher committed last, in the view picked, is accepted exactly if those Commits are signed, name one block, and come from at least 2f signers |
| `Publication.OtherNameIsRefused` | src/node.rs:313-321 | a seal from votes that do not all name a block is refused, by every node, on everything built on that block |
| `Publication.OneBlockIsPresentable` | src/message_log.rs:263-288 | in every run the Commits picked, if signed and for one and the same block, are fit for a seal, since no signer has two of them |
| `Publication.SpoiledSealIsRefused` | src/node.rs:620-637 | one unsigned vote, or votes for two blocks, in the view picked, and no node that refuses unsigned votes accepts anything published, on whatever block and in whatever hash order |
| `Publication.CatchupSpoilsTheSeal` | src/message_type.rs:76-84 | after every catch-up the votes of the view caught up with are unsigned, and if that view is picked nothing published, on whatever block, is accepted |
| `SealBoundaries.CatchupCanSpoilTheSeal` | src/node.rs:395-418 | a run of four peers, one of them faulty, in which a primary that caught up to its round publishes in vain |
| `SealBoundaries.OneStrayCommitSpoilsTheSeal` | src/message_log.rs:263-288 | a run of four peers in which one Commit of the faulty one for another block makes the next primary publish in vain |
| `Rift.SealCanNameAnotherBlock` | src/message_log.rs:263-288 | a run of four peers, one of them faulty, in which the Commits picked for the seal are fit for one but name another block than the one the publisher committed, and nothing it builds on that one is accepted |

## Left out

- Minds.ForkNeedsChangeOfMind: goes one way; a node may change its mind without a fork, so the exact condition is given for the change of mind (`Minds.MindsOverHistory`), not for the fork.
- Checkpointing, water marks and the NotStarted phase: they are in the documentation and not in the code.
- Signatures, hashing and protobuf parsing: an abstract predicate on votes, and messages already parsed; message bytes are identified with the message.
- Validator failures: service calls that return an error, and the answer of `finalize_block`, are not modelled; a call is recorded as made.
- Storage, restart and settings: the state file, and the reading of settings other than the peer list, are not modelled.
- Width of integers: views and sequence numbers are unbounded naturals, so 64-bit overflow is not modelled.
- Logging and display: message texts, and the slicing of block ids for them, are not modelled.
- Liveness: nothing is claimed about messages that are never delivered or timers that are never checked.
- Engine.EventLoop: the turns are a finite sequence, so a loop that never ends is modelled by all its beginnings.
- Handlers.CommitHandler: the error that a failing `commit_block` returns is not modelled.
- NodeInPlace.PbftNode.OnPeerMessage: the error that a failing `check_blocks` returns is not modelled.
- NodeInPlace.PbftNode.OnBlockNew: the error that a failing `fail_block` returns is not modelled.
- NodeInPlace.PbftNode.TryPublish: the answers of `finalize_block` are not modelled; the payload handed over is recorded.
