# Decentralised controller integrity monitoring, verified

This project models the integrity protocol of an SDN control plane and proves what it guarantees.
Each controller grows a SHA3-256 hash chain of its own state, signs the head and gossips it. Each
peer checks freshness, index regression and signature, keeps a clamped trust score per peer and runs
a quorum check. Around this sit a statistical flood detector, sliding rate windows, a shared
read-modify-write state file, an interleaved audit chain, an alert file with a polling dashboard, and
an L2 switch whose flow table caches the controller's MAC table.

`dafny verify dfyconfig.toml` checks everything.

## How it is built

| file | contents |
|---|---|
| `Prelude.dfy`, `Links.dfy` | options, insertion-ordered dictionaries; hash-linked sequences and what two of them can disagree on |
| `Chain.dfy` | the bounded hash chain, class `HashChain` |
| `Averages.dfy`, `Ewma.dfy` | exponentially weighted averages; the detector, classes `EWMADetector` and `AnomalyEngine` |
| `Trust.dfy`, `Quorum.dfy`, `Rates.dfy` | trust scores, the quorum test, one-second windows |
| `Agent.dfy`, `AgentObject.dfy` | the agent as functions on a value; the same as the class `IntegrityAgent` |
| `AgentLaws.dfy`, `AgentDecisions.dfy`, `AgentEffects.dfy` | the invariant every operation keeps; what operations decide; all that each of them puts out |
| `Gossip.dfy`, `GossipObject.dfy` | the gossip node, runs of one controller under any input; class `GossipNode` |
| `RunLaws.dfy` | what each event makes a controller put out, after any run, in terms of what happened before |
| `Protocol.dfy` | N controllers and a network that drops, duplicates, delays and reorders |
| `AuditLog.dfy`, `StateFile.dfy`, `AlertFeed.dfy` | the three shared files as interleavings, classes `Audit`, `AlertFile`, `Poller` |
| `Switch.dfy`, `Controller.dfy` | the learning switch with its flow cache, class `SecureController`; the agent beside it |

Objects that the program updates in place are classes. Each of their methods is proved to compute a
function of the same state as a value, and the theorems are about runs of those functions. Fields
named `log` or `history` record what was put out or seen; the program's own fields are the others.

Conventions. The hash and the canonical JSON text are arbitrary functions; nothing is assumed of
them, so tampering results say "equal, or here is a collision". Where a statement needs that no block
of the chain hashes to 64 zeros, or that an audit entry's text shows its `prev` field, it says so.
Signatures are ideal: a signature verifies exactly when it was made with the claimed sender's key on
that text. Trust is counted in hundredths and the quorum ratio in integers, the detector works on real
numbers and keeps the variance instead of its square root. Each step of the program is atomic and
reads the clock once.

## Where the program does not do what it says

- A chain of more than 1000 blocks fails its own verification although nobody touched it, because
  `verify_all` always restarts from GENESIS while `add` has dropped the first blocks.
  `Chain.UntamperedAcceptedIff` gives the exact condition. With a heartbeat block every 5 s this
  happens after less than 84 minutes; from then on every record is published as unhealthy
  (`AgentDecisions.LongChainUnhealthy`) and `reset_alerts` no longer restores health
  (`AgentDecisions.ResetRestoresHealthIff`). Every accepted gossip message then raises an alert about
  the controller itself (`RunLaws.AcceptedDelivery`).
- The quorum test needs all three of three nodes, although line 314 of the repository's README.md speaks of 2-of-3
  (`Quorum.ToleratedSilence`).
- Consensus runs started by gossip never see a silent peer, so their outcome is the local chain check
  and nothing else (`Gossip.EveryGossipConsensus`).
- `verify_peer` records a message's index before it checks the signature. One wrongly signed message with a
  large index makes a peer refuse all honest ones with smaller indices (`Gossip.ClaimedIndexLocksOut`; the
  exact condition for acceptance is `Gossip.AcceptanceLaw`).
- The dashboard loses alerts beyond the first 500 and then shows none at all (`AlertFeed.PollCompleteIff`,
  `AlertFeed.PollLoses`, `AlertFeed.FullFileSilencesPoller`).
- A cached flow outlives a host's move (`Switch.MovedHostMissed`; the exact condition is
  `Switch.RunAgreesIffHitsRight` for runs and `Switch.AgreesOnAllIffCoherent` for the next packet).

## Model

| member | source | states |
|---|---|---|
| Links.CompareIsGenuine | integrity/chain.py:33-42 | two hash-linked sequences with the same head are equal, or walking back from the head yields a genuine collision, preimage of GENESIS, or pair of records with one text and two predecessors |
| Chain.HashChain.Add | integrity/chain.py:20-31 | a new block links to the head, numbers itself by the height, and pushes the oldest block out beyond 1000; untampered chains stay untampered |
| Chain.HashChain.VerifyAll | integrity/chain.py:33-42 | true exactly when every block, from GENESIS on, points at its predecessor's hash and stores the hash of its own state and link |
| Chain.WindowRefinesHistory | integrity/chain.py:14-31 | after any additions the window is the last min(height, 1000) of all blocks, consecutively numbered and linked, with the states added there, and ends in the head |
| Chain.UntamperedAcceptedIff | integrity/chain.py:28-42 | an untampered chain verifies exactly while its height is at most 1000, or when the last evicted hash is GENESIS |
| Chain.LongUntamperedChainRejected | integrity/chain.py:28-42 | every chain of more than 1000 added blocks fails verification unless one of them has hashed to GENESIS |
| Chain.AcceptedIffRebuilt | integrity/chain.py:20-42 | a block list verifies exactly when its links are those that adding its states from GENESIS without eviction produces |
| Chain.TamperEvidence | integrity/chain.py:20-42 | two verifying block lists of any lengths with the same last hash agree on all canonical states and links, or an explicit collision or preimage of GENESIS is returned |
| Chain.EditedStateRejected | integrity/chain.py:33-42 | changing one block's canonical state and nothing else makes verification fail, or exhibits a collision |
| Averages.AverageIsWeighted | monitoring/anomaly.py:52-58 | the running average equals its closed form with weights alpha(1-alpha)^(n-1-i), for every start and every sequence |
| Averages.WeightsSumToOne | monitoring/anomaly.py:52-53 | the closed form of a constant sequence is that constant, so the weights add up to 1 |
| Ewma.ClosedForm | monitoring/anomaly.py:43-58 | after any stream the mean is the weighted sum of the samples, and the variance the weighted sum of squared deviations from the prior means |
| Ewma.StreamInBand | monitoring/anomaly.py:43-58 | if all samples lie in [lo, hi] the mean does too and the variance is at most (hi-lo)^2 |
| Ewma.NarrowStreamNoAlarm | monitoring/anomaly.py:60-72 | non-negative samples that vary by at most threshold*(1 + lo/100) never raise an alarm |
| Ewma.FarSampleAlarms | monitoring/anomaly.py:60-72 | after warm-up a sample above the band by more than the threshold times both the band's width and 1 + hi/100 is always an alarm |
| Ewma.FarBelowAlarms | monitoring/anomaly.py:60-72 | after warm-up a sample that far below the band is always an alarm too |
| Ewma.ScoreIsZTest | monitoring/anomaly.py:60-72 | for every state, sample and configuration: nothing before the warm-up ends; then an alarm exactly when the distance from the mean, on either side, divided by the larger of sigma and 1 + mean/100, is above the threshold; failure only when that divisor is zero |
| Ewma.DefaultDetector | monitoring/anomaly.py:25-72 | the same for the default detector, with its step from mean and variance to the next, in numbers |
| Ewma.VarianceStep | monitoring/anomaly.py:52-72 | with the defaults an alarm multiplies the variance by more than 1.8 and leaves it above 0.9; any other sample keeps at least 0.9 of it |
| Ewma.AlarmBudget | monitoring/anomaly.py:36-72 | any stretch of n samples that begins with an alarm and has a alarms satisfies 2^(a-1) 0.9^n < (hi-lo)^2 |
| Ewma.EWMADetector.FeedSample | monitoring/anomaly.py:36-72 | updates mean, variance and count and scores against the values held before the sample |
| Ewma.AnomalyEngine.CheckSample | monitoring/anomaly.py:93-97 | feeds the detector of that metric, created on first use, and leaves all others alone |
| Trust.ScoreInRange | integrity/agent.py:165-174 | scores stay between 0 and 1.0 under both clamps |
| Trust.LowScoreHasCause | integrity/agent.py:165-206 | a score below 0.30 implies a suffix of events with 30b + 25k - 2g > 70, so at least three penalties |
| Trust.PenaltiesAddUp | integrity/agent.py:165-192 | without boosts the score is exactly 1.0 minus the penalties, down to 0 |
| Quorum.ToleratedSilence | integrity/agent.py:182-200 | f silent nodes of N are tolerated exactly when 100f <= 33N: none of three, one of four |
| Quorum.Intersection | integrity/agent.py:199-200 | two active sets that pass the test share at least 34% of the nodes, more than a third |
| Rates.FilterRecent | integrity/agent.py:101-101 | the loop keeps exactly the times less than one second old, in order |
| Rates.RollingIsRecent | integrity/agent.py:99-103 | with a nondecreasing clock the incrementally filtered window is the filter of the whole history |
| Rates.RollingCounts | integrity/agent.py:99-103 | with a nondecreasing clock the window has one entry for each event of the last second |
| Rates.RateExceeds | integrity/agent.py:99-107 | the rate exceeds the limit exactly when the event that many positions earlier is less than one second old |
| AgentObject.IntegrityAgent.DoFlush | integrity/agent.py:232-252 | adds a block of the snapshot and hands over the signed record of it |
| AgentObject.IntegrityAgent.DoRaise | integrity/agent.py:275-302 | downgrades during boot grace, counts, records and flushes |
| AgentObject.IntegrityAgent.PacketInEvent | integrity/agent.py:96-115 | the whole effect of a packet-in, with both flood checks and the flush on every tenth packet |
| AgentObject.IntegrityAgent.FlowAddEvent | integrity/agent.py:117-130 | the whole effect of a flow addition |
| AgentObject.IntegrityAgent.Recover | integrity/agent.py:71-76 | clears the counter, restores trust and flushes |
| AgentObject.IntegrityAgent.GetSignedState | integrity/agent.py:134-143 | the signed head with the height and the time |
| AgentObject.IntegrityAgent.DoVerifyPeer | integrity/agent.py:145-174 | the whole effect of a peer message, and whether it is accepted |
| AgentObject.IntegrityAgent.DoConsensus | integrity/agent.py:176-214 | the effect and verdict of a consensus run: both loops in insertion order, with the early return on a bad chain |
| AgentLaws.FlushPublishes | integrity/agent.py:232-252 | keeps one signed, truthful record per block, healthy exactly when fewer than two alerts count and the window verifies |
| AgentLaws.RaiseSound | integrity/agent.py:275-302 | keeps the counter equal to the HIGH alerts about this controller since the last reset |
| AgentLaws.ConsensusSound | integrity/agent.py:176-214 | a consensus run with any peer table keeps the whole invariant |
| AgentDecisions.FlushReports | integrity/agent.py:218-252 | every flush adds a block of the agent's state at that time and publishes a record of its counters, trust, new head and height, properly signed; healthy exactly with fewer than two alerts and at most 1000 blocks, or GENESIS as last evicted hash |
| AgentDecisions.MacCountIsSum | integrity/agent.py:227-227 | the recorded table size is the sum of the sizes of the rows |
| AgentDecisions.UnhealthyStays | integrity/agent.py:237-240 | between resets, once a record is unhealthy all later ones are, if no block has hashed to GENESIS |
| AgentDecisions.LongChainUnhealthy | integrity/agent.py:237-240 | every record after the first 1000 is unhealthy, resets or not, if no block has hashed to GENESIS |
| AgentDecisions.ResetRestoresHealthIff | integrity/agent.py:71-76 | a reset publishes a healthy record exactly when its block is among the first 1000 or the last evicted hash is GENESIS |
| AgentDecisions.LowTrustHasCause | integrity/agent.py:165-206 | in every reachable state a critically low peer has a stretch of events since the last reset that explains it |
| AgentDecisions.TrustInRange | integrity/agent.py:165-192 | every stored score lies between 0 and 1.0 |
| AgentDecisions.PacketCountsIffFlood | integrity/agent.py:96-112 | a packet adds to the alert counter exactly when the packet 500 positions earlier is less than a second old; the statistical alarm never counts |
| AgentDecisions.FlowCountsIffBurst | integrity/agent.py:117-127 | likewise for flows and 50 positions, except during boot grace |
| AgentDecisions.PacketRateScored | integrity/agent.py:110-110 | the packet-rate detector never divides by zero |
| AgentDecisions.AcceptedMessageEffect | integrity/agent.py:163-174 | an accepted message raises no alert, adds no block, moves the sender's index and boosts its trust, and touches nobody else's |
| AgentDecisions.RejectedMessageEffect | integrity/agent.py:152-170 | any other message raises one alert about its sender, of the severity the program gives it, and adds one block; only a bad signature costs trust |
| AgentDecisions.ConsensusVerdict | integrity/agent.py:176-214 | a consensus run says ok exactly when the chain, after one more block per silent peer, still verifies (it has at most 1000 blocks or its last evicted hash is GENESIS) and at most 33% of the nodes are silent; healthy are the responsive peers, suspicious the silent and the critically low |
| AgentEffects.ConsensusGains | integrity/agent.py:176-206 | everything a consensus run puts out, in order: one MEDIUM alert per silent peer, with its penalty already in the record; then one alert about the controller itself if the polled chain does not verify, otherwise one per critically low peer that is not silent; one penalty per silent and one boost per responsive peer; counters, windows and detectors stay |
| AgentEffects.ResetGains | integrity/agent.py:71-76 | a reset publishes one recovery record, counts no alerts, gives everybody known full trust, and changes nothing else |
| AgentEffects.StartGains | integrity/agent.py:34-60 | a new agent has published its boot record and nothing else |
| GossipObject.GossipNode.OnReceive | gossip/node.py:35-48 | the whole effect of a delivery and its reply, which says whether the message was accepted and quotes the current head |
| GossipObject.GossipNode.PushToPeers | gossip/node.py:50-60 | one round pushes the same signed state to every configured peer, in order, once each |
| GossipObject.GossipNode.CheckPeers | gossip/node.py:67-79 | one alert, in order, for each peer silent for more than 30 s, after 75 s of grace |
| Gossip.HeartbeatReportsOverdue | gossip/node.py:67-79 | in every run a heartbeat check raises, in order, one alert, HIGH after boot grace, about exactly the peers heard once from which nothing arrived for more than 30 s, and none in the first 75 s; it changes nothing else |
| Gossip.RunSound | integrity/agent.py:71-302 | in every run of one controller under arbitrary input: truthful records, alert conservation, trust equal to its history, exact rate windows, sane detector |
| RunLaws.PacketLaw | integrity/agent.py:96-115 | after any run a packet raises a HIGH flood alert exactly when more than 500 packets came in the last second, and a MEDIUM one exactly when, more than 30 s after boot, that number is an alarm for a detector fed with the earlier ones; a record follows exactly every tenth packet |
| RunLaws.DetectorSawRates | integrity/agent.py:99-110 | in every run the packet-rate detector has been fed, for each packet more than 30 s after boot, the number of packets of the last second, and nothing else |
| RunLaws.SteadyTrafficIsNormal | integrity/agent.py:110-112 | traffic whose rates stay in a band no wider than 3 + 3% of its lower end never raises the statistical alarm |
| RunLaws.FlowLaw | integrity/agent.py:117-130 | after any run a flow addition raises an alert exactly when more than 50 flows were added in the last second, HIGH after boot grace, and is always recorded |
| RunLaws.AcceptedDelivery | gossip/node.py:35-48 | after any run an accepted message boosts its sender, then every peer heard so far once; it raises one alert about the controller itself if its chain does not verify, otherwise one about each peer below 0.30, and nothing else; one block per alert |
| RunLaws.RefusedDelivery | integrity/agent.py:145-170 | after any run a refused message raises exactly one alert about its claimed sender: MEDIUM if stale, else HIGH after boot grace; a replay if a larger index was ever claimed, else a bad signature, which alone costs trust; no hash is recorded |
| RunLaws.IncompleteDelivery | gossip/node.py:37-40 | a message with a missing field changes nothing |
| RunLaws.PeerTable | gossip/node.py:43-45 | in every run the table of peers holds the hash of each peer's last accepted message, in the order in which the peers were first heard |
| RunLaws.SwitchCounter | integrity/agent.py:83-94 | in every run the switch counter is the largest surplus of joins over leaves in any final stretch of the run |
| RunLaws.RoutineLaw | integrity/agent.py:83-94 | joining and leaving switches and heartbeats each publish one record and alarm nobody |
| Gossip.EveryGossipConsensus | gossip/node.py:43-48 | in every run an accepted message starts a consensus run, which counts every recorded peer as responsive and says ok exactly when the controller's own chain verifies, that is up to height 1000 or with GENESIS as last evicted hash |
| Gossip.HonestDelivery | gossip/node.py:35-48 | a delivery from an honest sender, late, duplicated or out of order, keeps full trust and accuses nobody |
| Gossip.IndexNeverDecreases | integrity/agent.py:157-163 | whatever arrives, no recorded index goes down |
| Gossip.IndexIsMaxClaimed | integrity/agent.py:152-163 | in every run the index held for a peer is the largest one in any complete and fresh message claiming to come from it, signed or not |
| Gossip.AcceptanceLaw | integrity/agent.py:145-174 | after every run a message is accepted exactly when it is fresh, properly signed, and its index is at least every index ever claimed for its sender |
| Gossip.ClaimedIndexLocksOut | integrity/agent.py:157-170 | one fresh message with a larger index, even with a bad signature, makes every later message of that peer with a smaller index be refused |
| Gossip.RecordedHashesWereSigned | gossip/node.py:43-45 | in every run each recorded peer hash was signed with that peer's key |
| Protocol.HonestRunsConsistent | gossip/node.py:35-60 | in every run of honest controllers each recorded hash is the peer's head at the recorded height, which the peer has reached; trust is full and nobody is accused |
| Protocol.HonestNodesAgree | gossip/node.py:43-48 | two nodes that recorded the same height of a third recorded the same hash, and trust it fully |
| Protocol.MessageWasSent | integrity/agent.py:134-143 | in every honest run each message on the network shows the head, height and time of the step in which its sender sent it |
| Protocol.TimelyMessageAccepted | integrity/agent.py:145-174 | in every honest run a delivered message is accepted exactly when it is at most 60 s old and its index is at least that of every message of its sender delivered there while fresh; the receiver then holds exactly that head and height |
| Protocol.NewestMessageAccepted | gossip/node.py:35-48 | whatever the network delivered before, a message that shows its sender's present height is accepted if it arrives within 60 s |
| Protocol.RecordedHashesAuthentic | integrity/agent.py:165-170 | with an intruder who cannot forge signatures, a recorded hash is still one the controller's chain had as its head |
| Protocol.IndicesGrow | integrity/agent.py:157-163 | over every run, honest or not, indices are nondecreasing |
| AuditLog.EveryControllerHasAChain | monitoring/audit.py:13-31 | however writes interleave, each controller's entries form a hash chain from 64 zeros ending in the hash it holds |
| AuditLog.EntriesAreTheWrites | monitoring/audit.py:21-31 | the file has one entry per write, in order, with the writer, time, type and data that were written |
| AuditLog.AuditTamperEvidence | monitoring/audit.py:21-31 | if texts show their `prev` field, two files in which a controller's chain ends in the same hash show the same entries of it, or exhibit a collision or a preimage of 64 zeros |
| AuditLog.OthersDoNotMatter | monitoring/audit.py:30-31 | other controllers' entries do not affect a controller's chain |
| AuditLog.Audit.WriteEntry | monitoring/audit.py:21-31 | appends one entry that is linked to the controller's previous one and advances the link |
| StateFile.EntriesGenuine | integrity/agent.py:253-271 | in every interleaving of reads and replaces each entry is a record its controller published |
| StateFile.OwnReplaceFresh | integrity/agent.py:264-271 | right after its own replace a controller's entry is its last published record |
| StateFile.OtherReplaceKeepsIff | integrity/agent.py:257-271 | another controller's replace keeps the entry fresh exactly when its read did not precede the last replace |
| StateFile.EntryStaysFresh | integrity/agent.py:253-271 | the entry stays the newest at all later times unless a straddling replace happens |
| AlertFeed.RunFaithful | integrity/agent.py:288-296 | in every interleaving the file is the last 500 alerts since the reset, the poller has been handed alerts of the history at increasing positions, and it has emitted the deduplication of these |
| AlertFeed.EmittedOnceEach | dashboard/app.py:91-95 | of what it was handed the dashboard shows an alert of every type and time, and no two of the same |
| AlertFeed.PollCompleteIff | dashboard/app.py:84-95 | after a poll every alert since the reset has been handed over exactly when there are at most 500; then the dashboard has shown the deduplication of all of them |
| AlertFeed.PollLoses | dashboard/app.py:84-98 | which alerts a poll hands over and which it loses: those since the last poll from one position on, and none of the earlier ones it had missed |
| AlertFeed.PollHandsOver | dashboard/app.py:84-90 | where that position is: nothing is lost up to 500 alerts, then all beyond 500 at the first poll to meet them, then everything |
| AlertFeed.SmallFeedIsComplete | dashboard/app.py:84-98 | up to 500 alerts since the reset, what was handed over is the history up to the last poll |
| AlertFeed.FullFileSilencesPoller | dashboard/app.py:84-95 | after a poll has seen 500 entries nothing more is emitted until a reset |
| AlertFeed.AlertFile.AppendAlert | integrity/agent.py:289-296 | the file becomes the last 500 of itself plus the alert |
| AlertFeed.Poller.PollAlerts | dashboard/app.py:84-97 | emits the entries beyond the cursor whose type and time are new, in order |
| AlertFeed.Poller.ResetAll | dashboard/app.py:134-158 | empties the alert file and the poller's memory, and rewrites the state file with the same controllers, each healthy, without alerts and otherwise unchanged |
| Switch.SecureController.HandlePacketIn | controller/ryu_controller.py:65-90 | learns, looks up, installs a flow for a known destination and outputs; ignores LLDP |
| Switch.TableIsLastSeen | controller/ryu_controller.py:77-78 | in every run the MAC table says where each address was last seen as a source by the controller |
| Switch.PacketLaw | controller/ryu_controller.py:65-90 | after any run a packet goes where its flow says; without a flow it goes to the port where its destination was last seen, and exactly that flow is installed, or it is flooded and none is; LLDP without a flow is dropped |
| Switch.AgreesOnAllIffCoherent | controller/ryu_controller.py:76-88 | the flow cache treats every next packet as the controller would exactly when the MAC table has the source and destination of each entry at the ports the entry names |
| Switch.RunAgreesIffHitsRight | controller/ryu_controller.py:76-97 | for every run, with flows expiring at any time: all packets are treated as the reference treats them exactly when at each packet matching an entry the MAC table still has its source and destination at the ports the entry names |
| Switch.LldpAgreesIff | controller/ryu_controller.py:73-74 | LLDP is treated as the controller would exactly when no flow matches it |
| Switch.CachedSwitchRefinesReference | controller/ryu_controller.py:53-97 | if hosts stay put, then with flows expiring at any time every packet of every run is treated as by the reference, the MAC tables are equal after it, and any next packet is treated alike |
| Switch.MovedHostMissed | controller/ryu_controller.py:81-83 | for any two hosts that talk, after one moves its peer's packets still go to the old port |
| Controller.AgentMirrorsController | controller/ryu_controller.py:43-91 | in every run of packets, gossip, consensus, heartbeats and resets in any order: the agent's MAC rows equal the controller's, and its counters are the packet-ins handled and flows installed |
| Controller.AgentSeesTraffic | controller/ryu_controller.py:53-91 | the agent inside the controller is in the state of a run in which it is told of each switch that comes up and each packet handled, first of the flow, with priority 1, if the destination had been seen; so the laws on runs hold of it |

## Left out

- HTTP, Flask, Socket.IO, Ryu and Prometheus plumbing, logging, browser events and the UI: no logic of their own.
- ECDSA, SHA3 and JSON text: ideal signatures, an arbitrary hash and an arbitrary canonical text stand for them. Blocks hold their state by value, so a caller that keeps and edits the state object is not modelled.
- Races between threads of one controller and the shared temporary file name: every step, and each write of the temporary file with its replace, is atomic. Failed file writes and an unreadable state file are not modelled. The result of the dashboard's rewrite of the state file is modelled, its interleaving with flushes is not.
- Several readings of the clock inside one step: they return one value. The `uptime` field is not rounded.
- Rounding of floating-point trust, averages and ratios.
- Restarts of a controller, and several controllers managing one switch.
- The counters and trust table in a gossip message: no receiver reads them.
- Alert texts, the detector's sample history (never read), statistics, snapshots to disk, sleeping and thread loops.
- The audit entries written by the agent's methods: `AuditLog` models the log for arbitrary entries.
- JSON messages whose fields have unexpected types; a missing `ts` or `idx` is the value 0.
- attacks/simulator.py, the Mininet scripts, shell scripts, Docker and configuration.
