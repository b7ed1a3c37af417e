# Verified models of a network-programming repository

This project models the algorithms of a collection of network programs and proves
what they are for. Code that changes state step by step is modelled as classes,
arrays and loops; each such method is proved to compute a function of the old
state, and the theorems are about those functions and about whole runs of
the systems built from them. Everything nondeterministic (packets lost or
reordered, timeouts, the order threads run in, how much a `read` returns) is an
event of a run or a parameter, and a theorem about runs covers all of them.

`dafny verify dfyconfig.toml` checks the whole project.

## What is proved

- **Distance-vector router** (`RoutingTable`, `RouterNode`, `RouterTimeouts`,
  `RouterInvariant`, `Walks`, `TableVectors`, `DvNetwork`, `DvRounds`, `ShortestCosts`, `DvTrace`,
  `DvRecovery`, `DvSilence`, `DvAsync`, `DvFairness`, `DvStale`, `DvListed`,
  `DvSurvivors`, `DvLostLink`, `PoisonedReverse`, `Forwarding`, `Delivery`). One router is a class with its two arrays. Networks
  of routers with messages in flight are a transition system: under any loss,
  duplication, reordering, timeouts and recoveries every finite cost is the cost of a
  real walk; without failures, the true shortest costs are reached, from a cold start
  and again after any run whatever, by rounds of vectors and by every fair asynchronous
  run, unless a link is thought dead at both ends with nothing in flight between them;
  when links in use are lost that way, stale costs rise until they are unreachable and
  the network still comes right, over the links that are left; next-hop chains are loop
  free and packets arrive after each kind of recovery. Poisoned reverse leaves no loop of
  two routers. The lookup is longest-prefix match.
- **IPv6 text** (`InetText`, `InetRoundTrip`, `InetForm`, `InetGap`, `InetQuadGrammar`,
  `InetGrammar`, `InetAddress`). Parsing what the printer prints gives back every
  address, in every form of section 2.2 of RFC 4291; the loops compute exactly the
  printed text and the parser's verdict; and the text of every address and the texts
  the parser accepts are exactly known, which are more than that section allows.
- **TFTP** (`TftpEnds`, `TftpTransfer`, `TftpLosses`). The two lock-step ends over a
  network that loses, duplicates and reorders (RFC 1350, sections 2, 5 and 6): what is
  written is always right, and losses do not keep a transfer from completing.
- **Hand-off between threads, processes and handlers** (`JobQueue`,
  `JobProgress`, `ChatFraming`, `Prefork`, `PreforkProgress`, `DatagramRing`,
  `RingProgress`, `BoundedBuffer`), as interleaved steps between lock or signal-mask
  boundaries: nothing goes wrong in any run, and from every run the work gets done.
- **Byte streams** (`NonblockCopy`, `CopyTurns`, `LineReader`), refined under any chunking.
- **A growing list and an accumulator** (`GaiPasses`, `GaiService`,
  `GaiList`, `Checksum`).

## Where the code and its comments disagree

The models follow the code.

- `unpv13e-master/libfree/inet_pton.c:134` says "::" in a full address is
  ignored. The shift at lines 213-216 clears the bytes after it.
  `InetGap.GapIsHarmlessExactlyBeforeZeros` says exactly when that is harmless.
- `hw1/tftp_server.c:332-334` says a wrong acknowledgement is ignored. The loop
  transmits the block again, without counting it as a retransmission
  (`TftpTransfer.EveryStaleAckSendsAgain`).
- `hw1/tftp_server.c:361-367` means to send a final empty block for a file that is
  a multiple of 512 bytes. `bytes_read` is 0 there, so only an empty file gets
  one. `TftpTransfer.CompletableExactlyWhen` is the exact condition.
- `hw1/tftp_server.c:408` prints "File transfer completed" after the empty block timed
  out as well, and at the end of a longer multiple of 512 bytes.
  `TftpTransfer.ReportIsReliableExactlyWhen` says for which files it can be relied on.
- `unpv13e-master/libfree/inet_ntop.c:101` does not count the terminator, unlike
  line 198; `InetAddress.Ntop4` says exactly when it is written past the size.
- `unpv13e-master/nonblock/strclinonb.c:73-74` calls it a normal termination when
  the server closes after standard input has ended; bytes still held for standard
  output are then never written (`NonblockCopy.AllWrittenExactlyWhenNoneHeld`).
- `hw3/starter/router.c:258` sends vectors only to neighbours thought alive, and only
  a vector revives one (line 486), so a link that timed out at both ends with nothing
  in flight between them is lost for good, and only such a link
  (`DvSilence.ComesBackExactlyUnlessSilent`).
- `unpv13e-master/lib/readline.c:48` returns `maxlen` when the buffer fills, with
  `maxlen - 1` bytes stored. `LineReader.ValueIsLengthExactlyUnless` says exactly when
  the value is not the number of bytes stored.
- `hw2/chatroom_server.c:414` searches for a newline past `inbuf_len`, in memory
  that was never cleared, and beyond the array if no NUL stops it, which the model
  takes for a fault. `ChatFraming.RightExactlyForSuchMemory` is the exact condition
  on that memory.
- `unpv13e-master/sigio/dgecho01.c:86` tests for a full ring before knowing that
  another datagram waits, so eight slots hold seven.
- `hw3/starter/common.h:202-209` starts from mask 0 and compares strictly, so a
  /0 route is never chosen; `RoutingTable.LookupIsLongestPrefix` says so.

## Model

| member | source | states |
|---|---|---|
| `RoutingTable.ApplyEntryAt` | hw3/starter/router.c:268-295 | Reading the table by key, one advertised entry is a Bellman-Ford relaxation of that key and leaves every other key alone; a key that does not fit in a full table is ignored. |
| `RoutingTable.UnchangedMeansSameRoutes` | hw3/starter/router.c:264-298 | An update that reports no change has left every route as it was (it may have appended unreachable ones). |
| `RoutingTable.ApplyEntryKeepsKeysUnique` | hw3/starter/common.h:178-194 | Looking up or appending a route never makes two routes share network and mask. |
| `RoutingTable.LookupInIsFirstGreatest` | hw3/starter/common.h:200-216 | The scan holds the first match of numerically greatest nonzero mask among the routes seen. |
| `RoutingTable.MaskOrderIsPrefixOrder` | hw3/starter/common.h:202-209 | Between contiguous masks, numeric order is the order of prefix lengths. |
| `RoutingTable.MatchesIsSamePrefix` | hw3/starter/common.h:204 | Under a contiguous mask, the masked comparison says exactly that the leading bits agree. |
| `RoutingTable.LookupIsLongestPrefix` | hw3/starter/common.h:200-216 | Lookup returns the first match of greatest prefix length, and nothing exactly when every match has a /0 mask. |
| `RouterNode.Router.constructor` | hw3/starter/common.h:139-153 | The arrays and counts hold the configured neighbours and routes. |
| `RouterNode.Router.RtFindOrAdd` | hw3/starter/common.h:178-194 | The scan and append on the array return the key's place in the table, past the end when it is full. |
| `RouterNode.Router.RtLookup` | hw3/starter/common.h:200-216 | The loop over the array computes the lookup whose meaning LookupIsLongestPrefix gives. |
| `RouterNode.Router.SendDv` | hw3/starter/router.c:221-254 | The message holds one entry a route: cost INF_COST exactly for the routes whose next hop is that neighbour, and the route's own cost for all others. |
| `RouterNode.Router.BroadcastDv` | hw3/starter/router.c:256-262 | Exactly the live neighbours are sent to, each its own vector. |
| `RouterNode.Router.DvUpdate` | hw3/starter/router.c:264-298 | All entries are applied in order, in place, and the flag says whether some relaxation changed a route. |
| `RouterNode.Router.ApplyOne` | hw3/starter/router.c:268-295 | One pass of the update loop: both branches (unreachable entry, finite entry) and their flag. |
| `RouterNode.Router.CheckTimeouts` | hw3/starter/router.c:444-462 | Every silent neighbour is marked dead and its routes poisoned before the broadcast it causes. |
| `RouterNode.Router.PoisonRoutes` | hw3/starter/router.c:449-455 | Exactly the finite routes through the dead neighbour become unreachable; the flag says if there was one. |
| `RouterNode.Router.HandleControl` | hw3/starter/router.c:473-495 | A vector from a known port revives its sender and is applied; from an unknown port it changes nothing. |
| `RouterNode.Router.ForwardData` | hw3/starter/router.c:300-395 | The checks in their order give the verdict of which VerdictIs says when it is which. |
| `RouterNode.VerdictIs` | hw3/starter/router.c:300-395 | Exactly when each verdict comes: connected delivery, own address, TTL 0, no finite route, dead next hop, or sent to the first neighbour with the next hop's address, at its data port, with one TTL less. |
| `RouterNode.DataPortIs` | hw3/starter/common.h:169-171 | The data port lies 1,000 above the control port, in 16 bits. |
| `RouterTimeouts.AliveAfterTimeouts` | hw3/starter/router.c:444-447 | The timeout pass pronounces dead exactly the neighbours not heard for the dead interval, and changes nothing else about a neighbour. |
| `RouterTimeouts.HeardLastsExactly` | hw3/starter/router.c:480-487 | A neighbour just heard, dead or alive before, is thought alive until exactly that long after; no other neighbour is affected, and a vector from an unknown port changes nothing. |
| `RouterTimeouts.OneTimeoutIs` | hw3/starter/router.c:444-462 | A neighbour that dies makes exactly the reachable routes through it unreachable, and the table is then broadcast exactly if there were any. |
| `RouterTimeouts.PassPoisons` | hw3/starter/router.c:444-462 | A whole pass makes unreachable exactly the reachable routes through neighbours that die in it. |
| `RouterTimeouts.LossesAreTold` | hw3/starter/router.c:455-460 | Every neighbour still alive after the pass has been sent a vector that shows each route so lost as unreachable. |
| `RouterTimeouts.NoLossNothingSent` | hw3/starter/router.c:455-460 | With no route lost nothing is sent. |
| `RouterInvariant.EntryKeepsInv` | hw3/starter/router.c:268-295 | An update from a live neighbour keeps the router invariant and the connected routes. |
| `RouterInvariant.VectorKeepsInv` | hw3/starter/router.c:264-298 | So does a whole vector. |
| `RouterInvariant.TimeoutsKeepInv` | hw3/starter/router.c:444-462 | So does the timeout pass: no finite route is left through a neighbour it declares dead. |
| `RouterInvariant.EventKeepsInv` | hw3/starter/router.c:428-496 | So does any one turn of the main loop. |
| `RouterInvariant.EveryReachableStateOk` | hw3/starter/router.c:428-496 | In every reachable state keys are unique, next hop 0 means cost 0 or unreachable, no finite route goes through a dead neighbour, and connected routes are as configured. Static routes are allowed. |
| `RouterInvariant.ForwardsOnlyToLiveNeighbors` | hw3/starter/router.c:333-384 | In every reachable state the dead-next-hop branch is never reached, and a packet is only sent to a live neighbour named by a finite matching route, with its TTL one less. |
| `Walks.ReachesOverLink` | hw3/starter/router.c:281-294 | A cost attained at a neighbour, plus the link, is attained here. |
| `Walks.ShortWalkSuffices` | hw3/starter/router.c:264-298 | Cutting cycles: whatever a walk costs, one through each router at most once costs no more. |
| `TableVectors.VectorAt` | hw3/starter/router.c:233-247 | Hearing a whole vector relaxes each key exactly once, with the cost advertised for it, whatever the order of the entries. |
| `TableVectors.RoomForMissingKey` | hw3/starter/common.h:186-188 | With at most 128 destinations in the network no table is full when a key is missing. |
| `DvNetwork.EntryIsSound` | hw3/starter/router.c:281-294 | A relaxation by a real neighbour's attained cost gives an attained cost. |
| `DvNetwork.ReceiveIsSound` | hw3/starter/router.c:264-298 | Applying a vector whose finite costs are attained at its sender keeps the table's costs attained. |
| `DvNetwork.BroadcastIsSound` | hw3/starter/router.c:221-262 | Whatever is sent from a sound table is sound. |
| `DvNetwork.TimeoutsAreSound` | hw3/starter/router.c:444-462 | The timeout pass and the broadcasts within it stay sound. |
| `DvNetwork.HearingIsSound` | hw3/starter/router.c:473-495 | Hearing any sound packet, old or repeated, stays sound. |
| `DvNetwork.StepIsSound` | hw3/starter/router.c:428-496 | Every step of the network keeps tables and packets in flight sound. |
| `DvNetwork.EveryRunIsSound` | hw3/starter/router.c:264-298 | From a cold start, under any loss, duplication, delay, reordering, timeouts and recoveries, every finite cost in a table or in flight is exactly the cost of a real walk to a router attached to that network. |
| `DvNetwork.NeverBelowShortest` | hw3/starter/router.c:264-298 | Hence no table ever shows less than the shortest distance. |
| `DvRounds.RelaxSettles` | hw3/starter/router.c:281-294 | Feasible costs stay feasible over one relaxation by a poisoned advertisement, which is also then no worse than going through that neighbour. |
| `DvRounds.VectorKeepsProgress` | hw3/starter/router.c:233-294 | The same for a whole vector, for every key at once. |
| `DvRounds.RoundIs` | hw3/starter/router.c:221-298 | After a round (all send, all hear every neighbour, in any order and repetition) no cost has risen, each is at most any neighbour's previous cost plus the link to it, and a finite one covers its next hop's previous cost. |
| `DvRounds.RoundKeepsGood` | hw3/starter/router.c:221-298 | A round keeps the invariant of the failure-free network. |
| `DvRounds.CostCoversNextHop` | hw3/starter/router.c:281-294 | After any rounds, a route's cost is at least the link plus the next hop's own cost. |
| `DvRounds.RoundIsRun` | hw3/starter/router.c:221-298 | A round is a run of announcements and hearings, one event after another, without timeouts. |
| `DvRounds.RoundsAreSound` | hw3/starter/router.c:221-298 | So the costs rounds leave are attained. |
| `DvRounds.RoundsBeatShortWalks` | hw3/starter/router.c:221-298 | After k rounds each cost is at most that of any walk of k hops or fewer. |
| `DvRounds.Converges` | hw3/starter/router.c:221-298 | After as many rounds as routers less one, each cost is the true shortest cost: no walk is cheaper, and if finite it is attained. |
| `ShortestCosts.FirstHop` | hw3/starter/router.c:281-294 | A router that reaches a network at all is attached to it, or reaches it best over a link to a router nearer to it. |
| `DvTrace.RelaxTraced` | hw3/starter/router.c:281-294 | A relaxation by a sound advertisement keeps every route traceable: learned from its next hop at a cost some walk from there has; connected routes stand. |
| `DvTrace.TimeoutsTraced` | hw3/starter/router.c:444-462 | So does the timeout pass, and what it broadcasts names known networks only. |
| `DvTrace.EveryRunIsRecoverable` | hw3/starter/router.c:264-298 | So every reachable state has only traceable routes and all its connected ones. |
| `DvRecovery.RoundIsFold` | hw3/starter/router.c:221-298 | A round takes each router, independently of the others, through the announcements of its order that were sent. |
| `DvRecovery.RoundRevives` | hw3/starter/router.c:256-262 | If every link is thought alive at one end at least, one round makes both ends of all think each other alive. |
| `DvRecovery.RightIsAdvertised` | hw3/starter/router.c:233-240 | Poisoned reverse never hides a router's true shortest cost from a router farther away. |
| `DvRecovery.RightStaysRight` | hw3/starter/router.c:281-294 | Once right, a cost is not raised by what any neighbour advertises, when all nearer routers are right. |
| `DvRecovery.BestMakesRight` | hw3/starter/router.c:281-294 | Hearing the best next hop makes the cost right, even if it was too high and learned elsewhere. |
| `DvRecovery.NearestFirst` | hw3/starter/router.c:221-298 | After as many rounds as there are nearer routers, a router's cost is the shortest one. |
| `DvRecovery.RecoversAfterAnyRun` | hw3/starter/router.c:221-298 | After any run whatever (losses, late vectors, timeouts), if every link is then thought alive at one end at least, as many failure-free rounds as there are routers bring every table to the true shortest costs. |
| `DvSilence.NeverHeardAgain` | hw3/starter/router.c:256-262 | Two neighbours that think each other dead, with nothing in flight between them, stay so in every later run. |
| `DvSilence.BothTimeOut` | hw3/starter/router.c:444-447 | That state can be reached without a loss: both ends time out before either announces anything. |
| `DvSilence.AnyLinkCanBeLost` | hw3/starter/router.c:444-447 | And it can be reached from any sound state, whatever the link has carried: both ends time out, and what is in flight between them is lost. |
| `DvSilence.ComesBackExactlyUnlessSilent` | hw3/starter/router.c:473-495 | From any sound state, some run makes both ends of a link think each other alive if and only if it is not in that state: one end thinking the other alive is enough, and so is one vector still in flight between them. |
| `DvSilence.RecoversExactlyUnlessSilent` | hw3/starter/router.c:473-495 | So from any sound state, whatever has been lost, the network can still get to where recovery starts if and only if no link is in that state. |
| `DvAsync.HearOld` | hw3/starter/router.c:281-294 | Hearing a neighbour's vector, whenever it was sent, keeps a right cost right if all nearer routers' costs were right then, and makes it right if the sender is the best next hop. |
| `DvAsync.EventKeepsRight` | hw3/starter/router.c:221-298 | So does every event of a fair run once the nearer routers have been right for an epoch. |
| `DvAsync.EpochMakesRight` | hw3/starter/router.c:221-298 | And the epoch after that makes the cost right. |
| `DvAsync.SettlesForGood` | hw3/starter/router.c:221-298 | From any reachable state, a router's cost is right for good after twice as many epochs as there are nearer routers, and two more. |
| `DvAsync.ConvergesAsynchronously` | hw3/starter/router.c:221-298 | Announcements and hearings interleaved in any way, with no neighbour left out of an epoch and no vector older than one: after twice as many epochs as there are routers every cost is the true shortest one, from any reachable state. |
| `DvFairness.FairRun` | hw3/starter/router.c:221-298 | While all neighbours think each other alive, there are fair runs of any length. |
| `DvFairness.SilentIsUnfair` | hw3/starter/router.c:256-262 | With a silent link there are none. |
| `DvFairness.FairRunsExactlyUnlessSilent` | hw3/starter/router.c:221-298 | From any sound state, whatever has been lost, the network can get to where fair runs of any length begin if and only if no link is silent. |
| `PoisonedReverse.HiddenExactlyFromNextHop` | hw3/starter/router.c:233-235 | An entry with a finite route hides it exactly from the route's own next hop, and shows its cost to everybody else. |
| `PoisonedReverse.EntryNotLearnedBack` | hw3/starter/router.c:233-294 | Hearing such an entry never leaves a reachable route to that network through its sender, whatever the table was. |
| `PoisonedReverse.VectorNotLearnedBack` | hw3/starter/router.c:233-294 | Nor does hearing the whole vector, for any network that its sender reaches through the receiver. |
| `PoisonedReverse.HearingLeavesNoTwoLoop` | hw3/starter/router.c:233-294 | In any recoverable network, with whatever tables, once a router has heard a neighbour's table as it is, the two do not route any network through each other. |
| `PoisonedReverse.AnnouncingBreaksTwoLoops` | hw3/starter/router.c:221-294 | So after every run, as soon as one announces and the other hears it. |
| `DvListed.VectorLists` | hw3/starter/router.c:268-295 | After a vector a reachable route is as before, or goes through the sender, which mentioned it. |
| `DvListed.TimeoutsOnlyPoison` | hw3/starter/router.c:444-462 | Timeouts forget no network; they leave a route alone or make it unreachable. |
| `DvListed.EveryRunIsListed` | hw3/starter/router.c:428-496 | In every reachable state of the network a reachable route goes through a neighbour thought alive, whose own table lists the same network. |
| `DvStale.RelaxAges` | hw3/starter/router.c:281-294 | Hearing the next hop renews a stale cost: it is the hop's own plus the link, or unreachable. |
| `DvStale.RoundRenews` | hw3/starter/router.c:221-298 | Whatever the costs in the tables were, after a round each finite cost is 0 for a connected route, or its next hop's previous cost plus the link. |
| `DvStale.RoundsAge` | hw3/starter/router.c:221-298 | After k rounds a finite cost is that of a real walk, or at least k. |
| `DvStale.StaleCostsDie` | hw3/starter/router.c:281-294 | So INF_COST rounds end every count to infinity. |
| `DvStale.StaleTablesComeRight` | hw3/starter/router.c:221-298 | As many more rounds as there are routers less one make every cost the shortest. |
| `DvSurvivors.StepIsSeen` | hw3/starter/router.c:256-262 | Without timeouts, what happens in the whole network is exactly what happens in the network without the neighbours thought dead, if every link is alive at both ends or silent. |
| `DvSurvivors.SurvivorsAreStale` | hw3/starter/router.c:428-496 | After any run whatever, the tables there are at worst stale. |
| `DvSurvivors.RecoversWithoutTheLost` | hw3/starter/router.c:221-298 | From any state with the invariants of runs in which every link is alive at both ends or silent, rounds over the links that are left bring every table of the whole network to the shortest costs over those links; what cannot be reached over them becomes unreachable. |
| `DvSurvivors.RecoversAfterLosses` | hw3/starter/router.c:221-298 | So it is after every run, in which packets may be lost as well as late and links that were in use may time out at both ends, that leaves such a state. |
| `DvSurvivors.CanSettle` | hw3/starter/router.c:473-495 | And every sound state can get there: all links that are not silent come back. |
| `DvLostLink.HistoryIs` | hw3/starter/router.c:428-496 | A run of three routers in a line, event by event: a cost is learned over two links, then what is on the second link is lost and both its ends time out. |
| `DvLostLink.UsedLinkLeavesStaleCost` | hw3/starter/router.c:444-462 | At its end the link that carried the vectors is silent for ever, every other link is alive at both ends, and the first router holds a finite cost that no walk over the links that are left has. |
| `DvLostLink.StaleCostDies` | hw3/starter/router.c:281-294 | Rounds over the links that are left make that cost unreachable. |
| `Forwarding.Carry` | hw3/starter/router.c:336-395 | A packet carried through routers in any state at all is forwarded at most TTL times, and stops being sent only where no router listens. |
| `Forwarding.CarryAmidChanges` | hw3/starter/router.c:336-395 | The same while tables change in any way between its hops. |
| `Forwarding.EachHopAsFound` | hw3/starter/router.c:336-395 | Each hop is decided by the router the packet has got to, in the state it then has, with the TTL left; the next router is whoever listens where it is sent, and the journey ends where it is not sent on or nobody listens. |
| `Forwarding.CarryIsUnchanging` | hw3/starter/router.c:336-395 | With tables that do not change it is the same journey. |
| `Forwarding.ChainFalls` | hw3/starter/router.c:281-294 | Along next hops costs strictly fall. |
| `Forwarding.ChainIsLoopFree` | hw3/starter/router.c:281-294 | Next-hop chains visit no router twice. |
| `Forwarding.LookupFinds` | hw3/starter/common.h:200-216 | With disjoint prefixes, lookup finds the one route that matches. |
| `Forwarding.ForwardsAlongChain` | hw3/starter/router.c:300-395 | A router either delivers, drops at TTL 0, or sends to its next hop in the chain. |
| `Forwarding.Arrives` | hw3/starter/router.c:300-395 | With TTL at least the chain's length the packet is delivered, having been forwarded only along the chain. |
| `Forwarding.UnreachableIsDropped` | hw3/starter/router.c:312-351 | With no finite route for it a packet goes nowhere: it is delivered if the address is the router's own, else dropped for its TTL exactly if that is 0, else reported as not matched. |
| `Forwarding.DeliversWhereverReachable` | hw3/starter/router.c:300-395 | After convergence a packet is delivered if some walk reaches its network at a finite cost, and never forwarded otherwise. |
| `Delivery.RightIsGood` | hw3/starter/router.c:281-294 | Where every cost is the shortest and every neighbour thought alive, each finite cost covers its next hop's, however the tables came about. |
| `Delivery.DeliversOnceRight` | hw3/starter/router.c:300-395 | So there too packets are delivered wherever their network is reachable, and never forwarded otherwise. |
| `Delivery.DeliversAfterAnyRun` | hw3/starter/router.c:300-395 | As after any run, once every link is alive at one end and rounds have gone by. |
| `Delivery.DeliversAfterFairRun` | hw3/starter/router.c:300-395 | And after every fair asynchronous run. |
| `Delivery.ForwardsSame` | hw3/starter/router.c:353-384 | A router forwards as if the neighbours it thinks dead were not there. |
| `Delivery.DeliversWithoutTheLost` | hw3/starter/router.c:300-395 | After links are lost for good, packets are delivered from wherever their network is reachable over the links that are left, and never forwarded from anywhere else. |
| `InetRoundTrip.QuadRoundTrip` | unpv13e-master/libfree/inet_ntop.c:91-107 | Parsing the dotted quad printed for four bytes gives them back. |
| `InetRoundTrip.ScanHex` | unpv13e-master/libfree/inet_pton.c:166-173 | The digit loop reads back the value printed in hexadecimal. |
| `InetRoundTrip.ScanQuad` | unpv13e-master/libfree/inet_pton.c:189-194 | The embedded dotted quad restarts at its first character and stores the four bytes. |
| `InetRoundTrip.ScanTail` | unpv13e-master/libfree/inet_pton.c:164-197 | Reading the groups printed after the compressed run stores their bytes. |
| `InetRoundTrip.ScanAfterRun` | unpv13e-master/libfree/inet_pton.c:174-187 | Reading on from the second colon of "::" stores what follows the run. |
| `InetRoundTrip.ScanBeforeRun` | unpv13e-master/libfree/inet_pton.c:164-197 | Reading the groups before the run stores them and notes where the run was. |
| `InetRoundTrip.GapIsRun` | unpv13e-master/libfree/inet_pton.c:205-218 | Opening the gap where "::" stood restores the bytes of the run. |
| `InetRoundTrip.GapInFullAddress` | unpv13e-master/libfree/inet_pton.c:205-218 | Of a state with all sixteen bytes stored and a gap noted, the shift clears what follows the gap: the bytes survive exactly when those were zero. InetGap says which texts get there. |
| `InetRoundTrip.ParseUndoesFormat` | unpv13e-master/libfree/inet_pton.c:87-224 | For every address and every run of at least two zero groups, or none, parsing the printed text returns the address. |
| `InetRoundTrip.TextIsShort` | unpv13e-master/libfree/inet_ntop.c:116-204 | The text has at most 45 characters. |
| `InetRoundTrip.BestRunIsUnique` | unpv13e-master/libfree/inet_ntop.c:141-162 | The leftmost longest run of two or more zero groups is unique, so the printed form is. |
| `InetForm.TextIs` | unpv13e-master/libfree/inet_ntop.c:164-192 | The text of every address: the groups before and after the best run with "::" between them, all groups if there is none, or "::" or "::ffff:" and a dotted quad of the last four bytes. |
| `InetForm.QuadExactlyWhen` | unpv13e-master/libfree/inet_ntop.c:180-186 | There is a quad exactly if the first five groups are zero and either the sixth is 0xffff, or it is zero and the seventh is not. |
| `InetForm.DotExactlyForQuad` | unpv13e-master/libfree/inet_ntop.c:180-186 | So the text holds a dot exactly for those addresses. |
| `InetForm.HexIs` | unpv13e-master/libfree/inet_ntop.c:188 | A group is printed in lower-case hexadecimal digits that spell it, without leading zeros. |
| `InetForm.DecIs` | unpv13e-master/libfree/inet_ntop.c:97 | An octet is printed in decimal digits that spell it, without leading zeros. |
| `InetForm.DigitValueIs` | unpv13e-master/libfree/inet_pton.c:145-169 | Reading takes digits of either case, each worth its place in its table, and no other character. |
| `InetQuadGrammar.ParsesAsExpected` | unpv13e-master/libfree/inet_pton.c:94-121 | At every point of the scan, the automaton's verdict is that of splitting the rest at its dots. |
| `InetQuadGrammar.AcceptsExactlyDottedQuads` | unpv13e-master/libfree/inet_pton.c:86-125 | The parser accepts exactly four parts between dots, each a decimal number up to 255, leading zeros allowed, and returns them. |
| `InetGap.KeepsGroupsBeforeGap` | unpv13e-master/libfree/inet_pton.c:205-218 | All eight groups with "::" before group i, for every i, parse to the groups before it and zeros. |
| `InetGap.GapIsHarmlessExactlyBeforeZeros` | unpv13e-master/libfree/inet_pton.c:134 | So "::" in a full address is without effect if and only if the groups after it are zero. |
| `InetGap.LastGroupIsLost` | unpv13e-master/libfree/inet_pton.c:213-216 | "1:2:3:4:5:6:7::8" parses to 1:2:3:4:5:6:7:0. |
| `InetGap.ScanGroups` | unpv13e-master/libfree/inet_pton.c:164-190 | Groups in hexadecimal with colons between are read back as their words. |
| `InetGrammar.ScansAsTaken` | unpv13e-master/libfree/inet_pton.c:162-198 | At every point of the scan, the loop does what reading the rest part by part between its colons does. |
| `InetGrammar.TakesAll` | unpv13e-master/libfree/inet_pton.c:162-203 | Reading part by part stores the bytes of all parts, and notes where the only empty one was. |
| `InetGrammar.AcceptsExactlyAddresses` | unpv13e-master/libfree/inet_pton.c:140-224 | The exact texts accepted: between colons, groups of any number of digits worth at most 0xffff, at most one of them empty, then a group, a quad or nothing; sixteen bytes in all, or at most sixteen with the empty group, which is filled with zeros. And the address each means. |
| `InetGrammar.TrailingColonIsIgnored` | unpv13e-master/libfree/inet_pton.c:175-190 | One colon more after a group that ends an accepted text changes nothing. |
| `InetAddress.Ntop4` | unpv13e-master/libfree/inet_ntop.c:91-107 | Refused exactly when the quad is longer than the size; else copied with its terminator, which is written past the size exactly when the quad is just as long as it, over the character that was there. |
| `InetAddress.SevenIsTooSmall` | unpv13e-master/libfree/inet_ntop.c:101 | 1.2.3.4 with room for seven characters is such a quad. |
| `InetAddress.TerminatorCanPassEndExactlyAt` | unpv13e-master/libfree/inet_ntop.c:101 | The sizes at which some quad puts its terminator past the end are 7 to 15. |
| `InetAddress.EmitQuad` | unpv13e-master/libfree/inet_ntop.c:180-186 | Within the IPv6 printer the quad and its terminator always fit. |
| `InetAddress.CopyWords` | unpv13e-master/libfree/inet_ntop.c:138-140 | The eight words of the address, most significant byte first. |
| `InetAddress.FindRun` | unpv13e-master/libfree/inet_ntop.c:141-162 | The loop finds the leftmost longest run of zero groups, dropping one of length one. |
| `InetAddress.FormatWords` | unpv13e-master/libfree/inet_ntop.c:164-192 | The loop over the words writes the text that InetForm.TextIs gives for that run into the 46-byte buffer, never overrunning it. |
| `InetAddress.Ntop6` | unpv13e-master/libfree/inet_ntop.c:115-204 | Copies that text and its terminator into the destination and nothing more, or refuses and copies nothing, exactly when they exceed the size. |
| `InetAddress.Pton4` | unpv13e-master/libfree/inet_pton.c:86-125 | Accepts exactly what the quad automaton accepts, and leaves the destination alone otherwise. |
| `InetAddress.OpenGap` | unpv13e-master/libfree/inet_pton.c:205-218 | The in-place backward shift moves the tail to the end and zeroes what it leaves, never reading a byte it has overwritten. |
| `InetAddress.Pton6` | unpv13e-master/libfree/inet_pton.c:140-224 | The loop over characters computes the scan; the destination is written only on success. |
| `InetAddress.FinishParse` | unpv13e-master/libfree/inet_pton.c:199-223 | The last group, the gap and the length check. |
| `InetAddress.PutWord` | unpv13e-master/libfree/inet_pton.c:185-186 | Stores a group in network order and moves on. |
| `InetAddress.PrintThenParse` | unpv13e-master/libfree/inet_ntop.c:115-204 | Running the printer, then the parser on its text, accepts and returns the same sixteen bytes. |
| `TftpEnds.RrqHandler.constructor` | hw1/tftp_server.c:292-304 | The sender starts with its first block, or the empty one for an empty file, on its way. |
| `TftpEnds.RrqHandler.ReadBlock` | hw1/tftp_server.c:304 | Up to 512 bytes from the current position, which moves past them. |
| `TftpEnds.RrqHandler.Wake` | hw1/tftp_server.c:311-404 | Acknowledgement, wrong packet, timeout and the tenth timeout, in both send loops. |
| `TftpEnds.WrqHandler.constructor` | hw1/tftp_server.c:167-179 | The receiver has acknowledged block 0 and waits for block 1. |
| `TftpEnds.WrqHandler.Wake` | hw1/tftp_server.c:188-266 | Expected, duplicate and future blocks, a packet that is not data, timeout and the tenth timeout. |
| `TftpTransfer.SenderNextIsOk` | hw1/tftp_server.c:354-405 | The next block sent is the next piece of the file, and none is sent past its end. |
| `TftpTransfer.SenderStepIsOk` | hw1/tftp_server.c:304-405 | Sender steps keep the invariant on both ends and the packets in flight. |
| `TftpTransfer.ReceiverStepIsOk` | hw1/tftp_server.c:188-266 | So do receiver steps. |
| `TftpTransfer.EveryRunIsOk` | hw1/tftp_server.c:188-359 | The invariant holds over every run with loss, duplication, reordering and any timeouts. |
| `TftpTransfer.WrittenIsAlwaysAPrefix` | hw1/tftp_server.c:237-265 | The file written is always the source's first block_number - 1 blocks, complete means equal, a timeout removes it, and the "Unexpected block number" branch is never reached. |
| `TftpTransfer.SentAtMostTenTimesAndForStrays` | hw1/tftp_server.c:311-346 | A block is sent at most ten times, and once more for each wrong packet and each interruption that ends a wait for its acknowledgement. |
| `TftpTransfer.EveryStaleAckSendsAgain` | hw1/tftp_server.c:331-334 | Those have no bound: n copies of the receiver's first acknowledgement make the sender send its first block 1 + n times with no alarm. |
| `TftpTransfer.SentAllMeansWritten` | hw1/tftp_server.c:354-358 | When the sender has had its last block acknowledged the whole file is on the receiver's disk, unless the receiver timed out and removed it. |
| `TftpTransfer.ReportIsReliableExactlyWhen` | hw1/tftp_server.c:361-408 | In every run that ends with the sender's report the receiver has completed, if and only if the file is not a multiple of 512 bytes: a longer multiple never ends for the receiver, and for an empty file the report follows ten timeouts too. |
| `TftpTransfer.ReceiverMayKnowAlone` | hw1/tftp_server.c:348-352 | The other way round, some run completes the receiver while the sender reports failure, every last acknowledgement being lost, if and only if the file is not a multiple of 512 bytes. |
| `TftpTransfer.OnlyFullBlocks` | hw1/tftp_server.c:248-251 | For a nonempty multiple of 512 bytes no run ever completes the receiver. |
| `TftpTransfer.AfterDeliveries` | hw1/tftp_server.c:188-359 | With a prompt network the two ends reach any block of the file together. |
| `TftpTransfer.CompletableExactlyWhen` | hw1/tftp_server.c:361-367 | Some run completes the receiver if and only if the file is empty or not a multiple of 512 bytes: the promised final empty block is otherwise never sent. |
| `TftpTransfer.MultipleOf512LeavesReceiverWaiting` | hw1/tftp_server.c:361-367 | For a multiple of 512, after every block has been delivered the sender has finished and the receiver, with all bytes written, still waits. |
| `TftpLosses.StartIs` | hw1/tftp_server.c:292-304 | At first both ends are at block 1, which has been sent, with nothing written and no alarm counted. |
| `TftpLosses.WakeSendsAwaited` | hw1/tftp_server.c:305-346 | Whatever wakes it, a sender that still waits afterwards has sent the block it then waits for, and nothing else. |
| `TftpLosses.WakeMovesOn` | hw1/tftp_server.c:326-346 | It moves on exactly when that block is acknowledged, counts exactly its alarms, and gives up at the tenth. |
| `TftpLosses.WakeAcknowledges` | hw1/tftp_server.c:188-266 | A receiver acknowledges exactly the block it is sent if it has it by then, a duplicate too, and on an alarm the last one it has. |
| `TftpLosses.WakeTakes` | hw1/tftp_server.c:188-266 | It takes in exactly the block it expects, fails exactly on other kinds of packet and on later blocks, and gives up exactly at the tenth alarm in a row. |
| `TftpLosses.AnyCanBeLost` | hw1/tftp_server.c:311-346 | After any run, any packets in flight can be lost without anything else changing. |
| `TftpLosses.AlarmSendsAgain` | hw1/tftp_server.c:336-341 | After any run, whatever it has lost, one alarm puts the awaited block in flight again. |
| `TftpLosses.BlockArrives` | hw1/tftp_server.c:237-262 | Once the block is in flight it gets its acknowledgement, even if it had arrived before and that was lost. |
| `TftpLosses.AckArrives` | hw1/tftp_server.c:326-359 | And then the next block is in flight, or the sender has finished. |
| `TftpLosses.CompletesAfterLosses` | hw1/tftp_server.c:305-359 | After every run, whatever it has lost, in which both ends still wait and the sender has an alarm left, the transfer can still be completed if and only if it could from the start. |
| `GaiPasses.TwoPassesInterleave` | unpv13e-master/libgai/ga_serv.c:23-31 | A stream pass then a datagram pass over n unused entries give 2n: each original with its stream port, followed at once by its copy with the datagram port; the counts sum to 2n. |
| `GaiPasses.EvenPlaces` | unpv13e-master/libgai/ga_port.c:37-47 | Two passes over unused entries take entry k to place 2k. |
| `GaiPasses.EveryPairOnce` | unpv13e-master/libgai/ga_port.c:8-20 | Every (address, socket type) pair occurs exactly once, with its port set. |
| `GaiPasses.UnspecifiedTypeMeansTwoPasses` | unpv13e-master/libgai/ga_serv.c:16-48 | With no socket type asked for, a port number, or a name known to both protocols, means those two passes. |
| `GaiPasses.OneBlock` | unpv13e-master/libgai/ga_port.c:16-26 | Passes with distinct types over one unused entry leave it with the first type, and behind it one copy for each other, the last type first. |
| `GaiPasses.EveryTypeOnce` | unpv13e-master/libgai/ga_port.c:23-26 | However many types there are, the same for every entry of a list, in order: m passes over n unused entries give m times n, each port set and counted once. |
| `GaiList.GaClone` | unpv13e-master/libgai/ga_clone.c:8-30 | Splices a new node right behind the original, with an equal address in storage of its own. |
| `GaiList.PassEntry` | unpv13e-master/libgai/ga_port.c:38-62 | What one entry becomes, and the node the walk goes on from: the copy when one was made. |
| `GaiList.WalkStep` | unpv13e-master/libgai/ga_port.c:37 | Each step leaves one list without sharing, passes exactly one old entry, which keeps its place as do those behind it, and touches nothing later. |
| `GaiList.GaPort` | unpv13e-master/libgai/ga_port.c:30-65 | The walk ends though the list grows; the new list holds the pass over the old values; every old node is still in it, where the pass takes its value, with its own address; all others are new, and no two share an address. |
| `GaiList.NumberPasses` | unpv13e-master/libgai/ga_serv.c:16-31 | For a port number, one pass for the socket type asked for or two for none: the list, the places of the old nodes and the count. |
| `GaiList.NamePasses` | unpv13e-master/libgai/ga_serv.c:32-47 | For a name, a pass for each protocol asked for that knows it: the same. |
| `GaiList.GaServ` | unpv13e-master/libgai/ga_serv.c:7-57 | The list after the passes the service asks for, old nodes at their places, and the result code from the total count. Both passes over n unused entries leave 2n: old node k at 2k, behind it a new node with a new address, and success unless n is 0. |
| `GaiList.SplicedIsList` | unpv13e-master/libgai/ga_clone.c:13-17 | Splicing one fresh node into a list gives a list. |
| `GaiService.PassesAre` | unpv13e-master/libgai/ga_serv.c:16-48 | The passes are for exactly the socket types that are wanted and that the service knows, each once with its own port. |
| `GaiService.PlainEntriesGetTheirPort` | unpv13e-master/libgai/ga_serv.c:16-57 | Over entries that have their socket types, the list keeps its length; exactly those wanted, in a known family and known to the service get the port for their type; the call succeeds if and only if there is one, and else says which of the two things was missing. |
| `GaiService.UnusedEntriesGetEveryType` | unpv13e-master/libgai/ga_serv.c:16-57 | With no type asked for, unused entries become one entry each for every type the service is known for, with the port for that type; known for none, the name is not found and nothing changes. |
| `GaiService.FoundOverPlain` | unpv13e-master/libgai/ga_serv.c:14-57 | Something is counted as found if and only if some entry gets a port. |
| `Checksum.InCksum` | unpv13e-master/libfree/in_cksum.c:3-32 | For up to 65,537 words the result is the complement of the exact one's-complement sum, an odd last byte padded with zero, in either byte order. |
| `Checksum.OcSumIsNorm` | unpv13e-master/libfree/in_cksum.c:16-31 | Adding with end-around carry word by word is the plain sum modulo 65,535, with zero only for a zero sum. |
| `Checksum.OcSumIgnoresOrder` | unpv13e-master/libfree/in_cksum.c:16-19 | The sum does not depend on the order of the words. |
| `Checksum.AccumulatorBoundIsExact` | unpv13e-master/libfree/in_cksum.c:7 | 65,537 words is exactly how many the 32-bit accumulator can always take. |
| `Checksum.FoldedIsNorm` | unpv13e-master/libfree/in_cksum.c:28-29 | Two folds are enough for any 32-bit sum. |
| `Checksum.OddIsPadded` | unpv13e-master/libfree/in_cksum.c:22-26 | An odd buffer has the words of the same buffer with a zero byte more. |
| `Checksum.StoredIs` | unpv13e-master/udpcksum/udpwrite.c:51-52 | In UDP the word stored is never 0, which would say that there is no checksum; it is always worth the same in the sum. |
| `Checksum.StoredChecksumVerifies` | unpv13e-master/udpcksum/udpwrite.c:51-52 | With the checksum stored in its zeroed word the whole sums to all ones, so checking it gives 0; also when UDP stores 0 as 0xffff. |
| `Checksum.StoreChecksum` | unpv13e-master/udpcksum/udpwrite.c:51-52 | Stores the checksum in its zeroed word at an even offset, nothing else changing; the packet then sums to all ones on a machine of either byte order, and in UDP the checksum is not 0. |
| `Checksum.SendThenCheck` | unpv13e-master/udpcksum/udpread.c:76 | Storing and then checking, on machines of the same or of different byte order, gives 0. |
| `Checksum.ByteOrderDoesNotMatter` | unpv13e-master/libfree/in_cksum.c:17 | On a machine of the other byte order the checksum has its bytes swapped, so the same bytes are stored. |
| `DatagramRing.DgEcho.constructor` | unpv13e-master/sigio/dgecho01.c:38-43 | The ring starts empty with its indices equal. |
| `DatagramRing.DgEcho.SigIo` | unpv13e-master/sigio/dgecho01.c:78-108 | The handler stores each datagram of the batch, and quits at the test for a full ring. |
| `DatagramRing.DgEcho.MainLoop` | unpv13e-master/sigio/dgecho01.c:56-73 | One step of the main loop between two points where the handler may run. |
| `DatagramRing.HandlerKeepsInv` | unpv13e-master/sigio/dgecho01.c:85-106 | The handler takes a whole batch in order without touching what waits, and quits exactly when queue and batch reach QSIZE: eight slots hold seven. |
| `DatagramRing.StepKeepsInv` | unpv13e-master/sigio/dgecho01.c:56-108 | Every step keeps the invariant, handlers only running where SIGIO is unmasked. |
| `DatagramRing.EchoesInOrder` | unpv13e-master/sigio/dgecho01.c:56-108 | While there is no overflow, datagrams are echoed once each, in order, to their own senders. |
| `DatagramRing.IndicesAgree` | unpv13e-master/sigio/dgecho01.c:57-73 | iput is iget plus nqueue modulo QSIZE, less one between the advance of iget and the decrement of nqueue. |
| `DatagramRing.SlotBeingSentIsSafe` | unpv13e-master/sigio/dgecho01.c:64-68 | A handler that interrupts the sending leaves the slot being sent as it was, holding the next datagram due. |
| `RingProgress.HandlerReads` | unpv13e-master/sigio/dgecho01.c:85-106 | The handler reads the first datagrams of a batch, as many as there is room for, and quits exactly if there is then no room. |
| `RingProgress.SignalIs` | unpv13e-master/sigio/dgecho01.c:56-70 | It runs exactly where the loop lets SIGIO through: waiting with nothing queued, and from then until the datagram is sent and the index moved. |
| `RingProgress.MainIs` | unpv13e-master/sigio/dgecho01.c:56-73 | The loop goes round its points in their order, leaves the first exactly when something is queued, and sends, moves on and counts out one datagram each time. |
| `RingProgress.EverythingIsEchoed` | unpv13e-master/sigio/dgecho01.c:56-73 | After any run that has not overflowed, the loop alone echoes all that has arrived, in a number of its steps that is known, and then waits. |
| `BoundedBuffer.Buf.constructor` | unpv13e-master/threads/example03.c:27-36 | The buffer starts empty. |
| `BoundedBuffer.Buf.Produce` | unpv13e-master/threads/example03.c:62-80 | Waits when full; otherwise stores, advances and wakes the consumer. |
| `BoundedBuffer.Buf.Consume` | unpv13e-master/threads/example03.c:82-104 | Waits when empty; otherwise fetches, advances and wakes the producer. |
| `BoundedBuffer.EveryRunIsSafe` | unpv13e-master/threads/example03.c:62-130 | The invariant holds under every interleaving of the two threads, spurious wakeups included. |
| `BoundedBuffer.ReceivedThenBuffered` | unpv13e-master/threads/example03.c:62-104 | Values consumed followed by the circular buffer's contents are the values produced, 0, 1, 2, ... |
| `BoundedBuffer.NeverBothAsleep` | unpv13e-master/threads/example03.c:67-68 | The two threads never both wait. |
| `BoundedBuffer.WakingUpIsHarmless` | unpv13e-master/threads/example03.c:67-68 | A wakeup that no signal caused does nothing to a thread that is not waiting; the woken thread finds its condition unchanged and waits again, which undoes it. |
| `BoundedBuffer.TurnsProgress` | unpv13e-master/threads/example03.c:62-104 | Until both loops are done some thread can take a turn, and every turn brings the end nearer. |
| `BoundedBuffer.TurnsAreBounded` | unpv13e-master/threads/example03.c:106-130 | In any run of possible events, turns taken and turns left are at most 4 NLOOP + 2 and one for each spurious wakeup. |
| `BoundedBuffer.FinishInBoundedTurns` | unpv13e-master/threads/example03.c:106-130 | So no run has more turns than that. |
| `BoundedBuffer.BothLoopsFinish` | unpv13e-master/threads/example03.c:106-130 | In every run, spurious wakeups included, when no thread can take a turn both loops have ended, with 0..NLOOP-1 transferred in order. |
| `Prefork.ChildTable.constructor` | unpv13e-master/server/serv05.c:30-39 | All children start free. |
| `Prefork.ChildTable.Assign` | unpv13e-master/server/serv05.c:54-62 | The first free child is marked busy and counted; with none free nothing changes. |
| `Prefork.ChildTable.Collect` | unpv13e-master/server/serv05.c:71-80 | The loop over the table does what turn after turn of the scan does. |
| `Prefork.AcceptIsOk` | unpv13e-master/server/serv05.c:50-67 | Accepting keeps the invariant and always finds a free child. |
| `Prefork.ScanIsOk` | unpv13e-master/server/serv05.c:70-80 | So does reading a ready byte; a child marked readable always has one. |
| `Prefork.ChildStepIsOk` | unpv13e-master/server/child05.c:40-50 | So do the child's own steps. |
| `Prefork.EveryRunIsOk` | unpv13e-master/server/serv05.c:43-81 | The invariant holds over every interleaving of the parent with any number of children. |
| `Prefork.TableIsRight` | unpv13e-master/server/serv05.c:45-80 | A child is marked free exactly when it is idle, navail counts those, and neither "no available children" nor "terminated unexpectedly" is reached. |
| `Prefork.EachConnectionHasOneChild` | unpv13e-master/server/serv05.c:64 | Every accepted connection is held by the one child it was given to until served, and by no other. |
| `Prefork.GivenOnlyToIdleChildren` | unpv13e-master/server/serv05.c:54-64 | A connection only ever goes to an idle child. |
| `Prefork.ScanReadsAll` | unpv13e-master/server/serv05.c:71-80 | The scan returns to select having read exactly the ready bytes select reported, each once. |
| `PreforkProgress.SelectIs` | unpv13e-master/server/serv05.c:43-50 | The parent asks for a new connection exactly while a child is marked free, and otherwise goes on exactly when a child has reported. |
| `PreforkProgress.AcceptIs` | unpv13e-master/server/serv05.c:50-67 | The connection goes to the first child marked free; with none, the parent gives up. |
| `PreforkProgress.ScanIs` | unpv13e-master/server/serv05.c:70-80 | The children are taken in order until as many as select reported have been read; one reported without a byte ends the parent. |
| `PreforkProgress.ChildIs` | unpv13e-master/server/child05.c:40-50 | A child takes its connection, serves it and reports, and touches nothing of the parent's. |
| `PreforkProgress.AtRestAllIsServed` | unpv13e-master/server/serv05.c:43-81 | When nobody has anything to do, all children are free and every connection accepted has been served. |
| `PreforkProgress.EverythingIsServed` | unpv13e-master/server/serv05.c:43-81 | After any run, if no more connections arrive, parent and children get there by their own turns. |
| `JobQueue.Queue.constructor` | hw2/chatroom_server.c:91-97 | The queue starts empty and open. |
| `JobQueue.Queue.Push` | hw2/chatroom_server.c:104-117 | The linked list gains the job at its end; tail is its last node, or null with head. |
| `JobQueue.Queue.TryPop` | hw2/chatroom_server.c:140-156 | Takes the first job, or null from an empty queue. |
| `JobQueue.Queue.Look` | hw2/chatroom_server.c:118-138 | Waits exactly when empty and open; null exactly when empty and closed; otherwise the first job. |
| `JobQueue.FirstInFirstOut` | hw2/chatroom_server.c:104-138 | Jobs popped followed by jobs queued are the jobs pushed, under any interleaving of any number of workers. |
| `JobQueue.NoLostWakeup` | hw2/chatroom_server.c:115-122 | While a job is queued and a worker asleep, some worker is awake and about to look. |
| `JobQueue.EveryRunIsOk` | hw2/chatroom_server.c:91-156 | The invariant holds over every run of pushes, wakeups, turns, close and shutdown. |
| `JobQueue.NobodySleepsWhenClosed` | hw2/chatroom_server.c:98-103 | Closing leaves no worker asleep, then or later. |
| `JobQueue.NoneExitsEarly` | hw2/chatroom_server.c:315-329 | No worker exits before close or shutdown. |
| `JobProgress.TurnIs` | hw2/chatroom_server.c:118-138 | A worker at its loop leaves exactly if told to stop; one that looks takes the first job, sleeps exactly if the queue is empty and open, and leaves exactly if it is empty and closed. |
| `JobProgress.PushIs` | hw2/chatroom_server.c:104-117 | A push adds its job at the end and wakes one sleeper exactly if there is one. |
| `JobProgress.CloseIs` | hw2/chatroom_server.c:98-103 | Closing wakes all sleepers and nobody else. |
| `JobProgress.TurnsRunOut` | hw2/chatroom_server.c:315-329 | After any run the workers' own turns come to an end, within a number known beforehand. |
| `JobProgress.WhenNoTurnIsLeft` | hw2/chatroom_server.c:315-329 | Then nothing is queued if anybody sleeps, and if nobody does all have left. |
| `JobProgress.EveryJobIsTaken` | hw2/chatroom_server.c:315-329 | While the server is up with at least one worker, the workers' own turns take every job pushed, in order, after which all of them sleep. |
| `JobProgress.EveryWorkerLeaves` | hw2/chatroom_server.c:98-103 | Once the queue is closed, their own turns make every worker leave. |
| `ChatFraming.ClientBuffer.constructor` | hw2/chatroom_server.c:372-376 | A new client's buffer is empty; its memory holds whatever was there. |
| `ChatFraming.ClientBuffer.Copy` | hw2/chatroom_server.c:402-404 | Copies bytes into the buffer and nothing else. |
| `ChatFraming.ClientBuffer.Terminate` | hw2/chatroom_server.c:415-420 | The newline, and a carriage return before it in the line, become NUL. |
| `ChatFraming.ClientBuffer.QueueLine` | hw2/chatroom_server.c:422-437 | The copying loop over the buffer queues the job of the C string that was terminated; TerminatedLine says which job that is. |
| `ChatFraming.TerminatedLine` | hw2/chatroom_server.c:415-437 | That job is the line's: without its carriage return, none if empty, cut to 1,023 bytes. |
| `ChatFraming.ClientBuffer.ExtractLines` | hw2/chatroom_server.c:411-441 | The loop over complete lines, in place, and whether its last search stayed inside the array. |
| `ChatFraming.ClientBuffer.HandleMessage` | hw2/chatroom_server.c:389-449 | Overflow test, append, extract, a fault if a search left the array, and else the move of the rest to the front. |
| `ChatFraming.TakesTheLines` | hw2/chatroom_server.c:411-441 | With no NUL received, no newline after what was received and a NUL at the array's end, the jobs are the CR-stripped lines received, the rest is the unfinished one, and no search leaves the array. |
| `ChatFraming.OutcomeIs` | hw2/chatroom_server.c:389-449 | Exactly when a client is dropped, in fault or served, with which jobs, and what its count of bytes then is. |
| `ChatFraming.HandlesOneChunk` | hw2/chatroom_server.c:389-449 | One call queues exactly the lines its bytes complete, without a fault; it drops the client exactly when the unfinished line and the new bytes do not fit. A NUL at the array's end, once there, stays. |
| `ChatFraming.SplitDoesNotMatter` | hw2/chatroom_server.c:389-449 | However recv splits the stream, no search leaves the array and the jobs queued are its lines in order, all of them unless the client is dropped. |
| `ChatFraming.ShortLinesAreNeverDropped` | hw2/chatroom_server.c:402-409 | A client whose lines have at most 1,024 bytes is never dropped. |
| `ChatFraming.StaleByteShows` | hw2/chatroom_server.c:414 | A newline left in memory past the next free byte, or a last byte that is not NUL, can be made to produce a job from a stream with no newline, or a search that leaves the array. |
| `ChatFraming.UnterminatedMemoryFails` | hw2/chatroom_server.c:414 | With no newline and no NUL in the allocated buffer, ten letters are enough for the search to leave it. |
| `ChatFraming.RightExactlyForSuchMemory` | hw2/chatroom_server.c:414 | Every stream is turned into its lines, with every search inside the array, if and only if the allocated buffer ends in NUL and holds no newline between its first byte and its last. |
| `NonblockCopy.LineBuffer.Read` | unpv13e-master/nonblock/strclinonb.c:43-57 | Fills at most the room there is. |
| `NonblockCopy.LineBuffer.Write` | unpv13e-master/nonblock/strclinonb.c:90-101 | Sends at most what is held, and rewinds when all is sent. |
| `NonblockCopy.StrCli.FromStdin` | unpv13e-master/nonblock/strclinonb.c:42-62 | Data, would-block, and end of file, which shuts down at once if nothing is held. |
| `NonblockCopy.StrCli.FromSock` | unpv13e-master/nonblock/strclinonb.c:64-86 | Data, would-block, and end of file, expected or premature. |
| `NonblockCopy.StrCli.ToStdout` | unpv13e-master/nonblock/strclinonb.c:89-103 | What is written to standard output is what the buffer held first. |
| `NonblockCopy.StrCli.ToSock` | unpv13e-master/nonblock/strclinonb.c:105-122 | The same for the socket, with the deferred shutdown. |
| `NonblockCopy.StrCli.Reads` | unpv13e-master/nonblock/strclinonb.c:42-86 | The two reading branches of a turn, each only if select was asked for it. |
| `NonblockCopy.StrCli.Writes` | unpv13e-master/nonblock/strclinonb.c:89-122 | The two writing branches, each also taken right after a read. |
| `NonblockCopy.StrCli.Iterate` | unpv13e-master/nonblock/strclinonb.c:27-123 | One whole turn of the loop. |
| `NonblockCopy.TurnKeepsInv` | unpv13e-master/nonblock/strclinonb.c:27-123 | Every turn keeps the invariant, whatever read and write return. |
| `NonblockCopy.EveryRunIsOk` | unpv13e-master/nonblock/strclinonb.c:27-123 | So does every run. |
| `NonblockCopy.NothingLostOrReordered` | unpv13e-master/nonblock/strclinonb.c:42-122 | In both directions bytes read are bytes written followed by bytes held, in order; an empty buffer has both indices at its start. |
| `NonblockCopy.NoReadOfNothing` | unpv13e-master/nonblock/strclinonb.c:32-37 | read is never called with length 0, so a return of 0 means end of file. |
| `NonblockCopy.FinExactlyWhenAllSent` | unpv13e-master/nonblock/strclinonb.c:54-120 | FIN is sent at most once, and has been sent exactly when standard input has ended and all of it is written. |
| `NonblockCopy.ClosingTurnLosesHeld` | unpv13e-master/nonblock/strclinonb.c:69-76 | The turn that reads the server's end of file writes none of what is held for standard output: all read has been written if and only if nothing was held when the turn began. |
| `NonblockCopy.AllWrittenExactlyWhenNoneHeld` | unpv13e-master/nonblock/strclinonb.c:64-103 | The same for whole runs, and what is lost is exactly what was held. |
| `NonblockCopy.ByteIsLost` | unpv13e-master/nonblock/strclinonb.c:73-74 | A run of two turns that returns normally with a byte from the server never written. |
| `NonblockCopy.NothingAfterFin` | unpv13e-master/nonblock/strclinonb.c:116-119 | After FIN nothing more is read from standard input or written to the socket. |
| `CopyTurns.ReadPhaseIs` | unpv13e-master/nonblock/strclinonb.c:42-86 | What the reads of a turn add, when each is made, and how end of file and errors leave the loop. |
| `CopyTurns.WhichWrites` | unpv13e-master/nonblock/strclinonb.c:89-122 | Each write is made exactly when something was held and select said so, or something has just been read, and the loop has not failed before. |
| `CopyTurns.WriteStdoutIs` | unpv13e-master/nonblock/strclinonb.c:89-103 | A write takes the first bytes held, as many as it will. |
| `CopyTurns.WriteSockIs` | unpv13e-master/nonblock/strclinonb.c:105-122 | The same, and FIN exactly when input has ended and nothing is left. |
| `CopyTurns.TurnIs` | unpv13e-master/nonblock/strclinonb.c:27-123 | A whole turn in terms of bytes alone: what is read, what is written of it and of what was held, FIN, and the result, for every environment. |
| `CopyTurns.AllGetsThrough` | unpv13e-master/nonblock/strclinonb.c:27-123 | After any run still going on, one turn in which everything may be written has written all that was read, and FIN if input has ended. |
| `LineReader.Reader.constructor` | unpv13e-master/lib/readline.c:4-6 | Nothing is buffered at first. |
| `LineReader.Reader.ReadOnce` | unpv13e-master/lib/readline.c:14-20 | A read's bytes become the unread bytes; its end of file or failure is consumed. |
| `LineReader.Reader.Refill` | unpv13e-master/lib/readline.c:12-21 | Interrupted reads are repeated without losing anything. |
| `LineReader.Reader.MyRead` | unpv13e-master/lib/readline.c:8-26 | Gives out exactly the next byte, end of file or error of the stream, whatever the chunks. |
| `LineReader.Reader.Readline` | unpv13e-master/lib/readline.c:28-49 | Stores and terminates the line cut from the stream, returns its value, and leaves the rest of the stream; for a maxlen of 0 too. |
| `LineReader.LineIs` | unpv13e-master/lib/readline.c:34-48 | A call's piece is the bytes it takes; a newline occurs only as a last byte; the value is the length stored at newline or end of file, one more than it on a full buffer, and -1 on an error. |
| `LineReader.PieceFits` | unpv13e-master/lib/readline.c:35-48 | A piece and its terminator fit in maxlen bytes and fill them exactly when the buffer is full; for a maxlen of 0 nothing is read. |
| `LineReader.ReadIs` | unpv13e-master/lib/readline.c:14 | A read gives what has come, up to the first 4,096 bytes. |
| `LineReader.ValueIsLengthExactlyUnless` | unpv13e-master/lib/readline.c:35-48 | The buffer fills exactly when the stream starts with as many bytes other than newline as there is room for, and a read fails exactly when it is met before that; just then the value is not the number of bytes stored. |
| `LineReader.PiecesAreTheStream` | unpv13e-master/lib/readline.c:28-49 | The pieces of successive calls of any sizes, followed by what is unread, are the bytes of the stream. |
| `LineReader.SameBytesSameLines` | unpv13e-master/lib/readline.c:8-49 | Two ways of chunking and interrupting the same bytes give the same pieces and values. |

## Left out

- DvRounds.Converges: assumes a cold start with connected routes only, distinct nonzero neighbour addresses and ports, positive fixed link costs, links listed at both ends, and at most 128 networks in all (the table's size); static routes are covered by RouterInvariant only.
- DvRecovery.RecoversAfterAnyRun: the same assumptions; during the rounds of recovery themselves nothing fails and no vector from before them arrives.
- DvAsync.ConvergesAsynchronously: the same assumptions; no timeouts meanwhile, each neighbour heard once an epoch at least, and no vector heard that is more than one epoch old.
- DvSurvivors.RecoversWithoutTheLost: the same assumptions, for rounds over the links that are left.
- DvNetwork.EveryRunIsSound: assumes a cold start with connected routes only and link costs that do not change.
- Forwarding.Arrives: needs one nonzero-mask prefix to match the destination, as with disjoint prefixes, and no data port that wraps to 0.
- RouterNode.Router.HandleControl: a message is its list of entries; header fields, byte order, and a count that disagrees with the length received are not modelled.
- TftpTransfer.EveryRunIsOk: files below 65,535 blocks, where 16-bit block numbers do not wrap.
- TftpEnds.WrqHandler.Wake: the text of error packets and failed system calls are not modelled.
- Checksum.InCksum: says nothing for more than 65,537 words, where the accumulator may wrap.
- ChatFraming.TakesTheLines: bytes received are not NUL. What a search finds beyond the array is not modelled: leaving it is a fault.
- ChatFraming.ClientBuffer.QueueLine: memory for a job is always found; sender and username are not part of a job.
- GaiList.GaPort: memory for a copy is always found; canonical names, flags other than the clone flag, and address lengths are not modelled.
- GaiList.GaServ: what getservbyname finds for the two protocols is a parameter.
- Prefork.EveryRunIsOk: no child exits, and system calls succeed.
- LineReader.Reader.Readline: the buffer has at least one byte, which the source needs even for a maxlen of 0; after a failed read nothing is promised about the bytes already stored, which the program cannot tell from the return value.
- Sockets, select, alarm, fork, files, printing and error exits: events, parameters and logs of what is sent or written stand for them.
- Configuration files, requests and modes parsed with library functions: they need those functions' own definitions.
- Interface names and last-update times of routes: nothing reads them.
- hw3/starter/starter/router.c: a superseded version.
- Chatroom users, broadcasts and the client list: check and change are separate steps there, so no such invariant holds.
- Errors of the thread library in the bounded buffer and the job queue: the code stops on them or ignores them.
- The other passes of getaddrinfo: they only add entries before the ones modelled here.
- Round-trip timing, socket-option wrappers, multicast, SCTP, XTI, and the many short example programs: easy members, or floating point.
