# UDP hole punching: a verified model

A rendezvous server introduces two clients that sit behind address translators, and the clients then
punch a path to each other. This Dafny project models the server, both kinds of client, the port
allocator and the port predictor they use, and the statistical runners, and proves what they guarantee
over all runs.

- `Wire`, `Receipts`: the protocol's messages, and what a client's waits on its socket yield.
- `PsTransactions`, `PsHistory`, `PsLaws`: the server's port-scan path, from one step to whole runs.
- `PlainRendezvous`: the server's plain path, with the map key as a parameter.
- `UdpServer`: the server as a class over its two maps.
- `P2pConnector`: the plain client's connect loop. `PunchNetwork`, `PunchTraffic`: clients, server and
  network together, what they agree on and what they send.
- `PortManager`, `PortLaws`, `PortBlocks`: the port allocator with atomic calls, and when its ports differ.
- `PortRace`, `RaceLaws`: the allocator split into atomic steps.
- `PortPrediction`, `ScanNat`: the predicted port, and two scans through address translators.
- `P2pPsConnector`, `PsReceipts`, `ReplySafety`: the port-scan client, what each receipt makes it do, and
  how it fits the server and the allocator.
- `StatisticalRunner`: worker threads that share a ticket counter.

`dafny verify dfyconfig.toml` checks everything.

## How the model reads the code

- The outside (sockets, clocks, random numbers) is a parameter: sequences of received datagrams,
  silences and errors, clock readings, and the results of sends and binds. Nothing is assumed of them
  except where a lemma says so: source addresses are not 0.0.0.0, and the clock does not run backwards.
- The server reads the clock twice on a port-scan request, once for the expiry test and once for the time
  stamp. The model keeps both readings. With a single reading the bound of 30000 ms on the expiry
  reading is also one on the stamp.
- A message's id is zeroed before the plain path reads it (lines 246 to 252 of the server), so every plain
  request falls on key 0. The results about the plain path hold for every key function; the ones that
  depend on the key say so.
- `send` returns a boolean, which the clients compare with -1. The failure branches of
  `try_connect_to_client` and `reply_to_bind_request` are therefore never taken, and the model has none.
- A port-scan client that is not symmetric sends both requests through its one socket, so that its target is
  the second server until a reply moves it. Sockets are numbered: 0 is the connection's own, 1 the helper
  and 2 on the scan sockets; the one that is answered becomes the own one.
- The first wait of a client accepts any datagram as the acknowledgement and discards it.
- The port-scan client never enters `waiting_for_client_reply`. After a server match without a peer it
  reports that there was no server match (`P2pPsConnector.OutcomeOfRun`).
- A successful scan sets the attempts to 2 and then decrements them, so that repeated server replies keep
  the loop going, and each of them draws another 50 ports (`DecrementsUnbounded`,
  `SecondScanLeavesBlock`).
- The predictor's distance is unsigned and never 0 where it is compared with 0, so the branch for descending ports
  is never taken (`NearPredictionIsAbove`).
- An address translator is an assumption: address-and-port-dependent mapping with sequential allocation
  (section 4.1 of RFC 4787) and address-and-port-dependent filtering (section 5 of RFC 4787), as in the
  technique of section 3.5 of RFC 5128.

## Model

| member | source | states |
|---|---|---|
| PsHistory.HistoryRefinement | P2P_PS/sources/server/src/udp_p2p_server.h:162-201 | After every run, each id has a pending record exactly if it has live requests, and the record's eight slots are those of a description by sender: client 1's first and latest request, the first other host's first and latest request, with their stamps |
| PsHistory.ExactCompletion | P2P_PS/sources/server/src/udp_p2p_server.h:157-238 | Every step sends one acknowledgement, and the crossed replies exactly if the request is in time, not from client 1's host, and both clients have sent at least two requests; the replies carry the other client's first and latest endpoint and stamps |
| PsHistory.LiveHasNotCompleted | P2P_PS/sources/server/src/udp_p2p_server.h:203-238 | No earlier prefix of a live history was complete, so a completion is always the first one possible |
| PsHistory.FullRecordWaits | P2P_PS/sources/server/src/udp_p2p_server.h:183-213 | A record with all four slots filled but not yet answered is answered by the next request in time exactly if that request does not come from client 1's host, even if it comes from a third host |
| PsLaws.RecordsWellFormed | P2P_PS/sources/server/src/udp_p2p_server.h:165-201 | In every reachable state each record has client 1 set, client 2 on another host, and each second endpoint unset or on its first endpoint's host |
| PsLaws.StartsOver | P2P_PS/sources/server/src/udp_p2p_server.h:171-181 | On every run, the next request for a pending id replaces the record by itself alone if and only if it comes more than 30000 ms after the record's first stamp; at 30000 ms it still joins it |
| PsLaws.ReplyTimes | P2P_PS/sources/server/src/udp_p2p_server.h:174-236 | Whenever a request completes its transaction, both clients' stamps are in order, none is older than the record's first stamp or newer than the request, and the expiry reading is within 30000 ms of the first stamp |
| PsLaws.EveryReplyIsSound | P2P_PS/sources/server/src/udp_p2p_server.h:174-236 | On every run every reply goes out through the first socket, names two endpoints of one host other than the receiver's, and carries T1 <= T2, with the expiry reading within 30000 ms of T1 |
| PsLaws.Projection | P2P_PS/sources/server/src/udp_p2p_server.h:162-238 | The record and the datagrams of one id are the same as if the server had received only that id's requests |
| PsLaws.SlotConservation | P2P_PS/sources/server/src/udp_p2p_server.h:162-238 | Requests handled are at least four times the completions plus the filled slots of all pending records |
| PsLaws.ReplyConservation | P2P_PS/sources/server/src/udp_p2p_server.h:157-238 | Replies sent are twice the completions, acknowledgements sent equal requests handled |
| PlainRendezvous.WaitingIsOddKeys | P2P_PS/sources/server/src/udp_p2p_server.h:252-261 | For any key function, a key has a waiting client exactly if an odd number of requests fell on it, and that client is the sender of the last of them |
| PlainRendezvous.StepPairsPartners | P2P_PS/sources/server/src/udp_p2p_server.h:246-292 | Every step acknowledges the request and, exactly if it has a partner on its key, tells each of the two the other's address |
| PlainRendezvous.PlainConservation | P2P_PS/sources/server/src/udp_p2p_server.h:252-292 | For any key function, requests handled equal twice the pairings plus the size of the waiting map |
| PlainRendezvous.PairingNeedsInjectiveKey | P2P_PS/sources/server/src/udp_p2p_server.h:246-253 | The server pairs only requests of the same transaction id, on all runs, if and only if the key function is injective |
| PlainRendezvous.ZeroedKeyPairsStrangers | P2P_PS/sources/server/src/udp_p2p_server.h:246-253 | With the key as written (the id is read after the message was zeroed) two requests with ids 1 and 2 are paired; with the request's own id as key only equal ids ever are |
| PlainRendezvous.ZeroedKeyPairsInTurn | P2P_PS/sources/server/src/udp_p2p_server.h:246-292 | The server as written introduces only requests of the same transaction id on a run if and only if every second request of the run carries the id of the one before it |
| UdpServer.AckConservation | P2P_PS/sources/server/src/udp_p2p_server.h:152-305 | Over any mixture of datagrams, acknowledgements sent equal port-scan requests plus plain requests plus heartbeats |
| UdpServer.ServerAnswers | P2P_PS/sources/server/src/udp_p2p_server.h:152-305 | On every datagram of any mixture the server sends exactly: for a port-scan request an acknowledgement through the socket it came in on, and the crossed replies if it completes its transaction; for a plain request an acknowledgement and the introductions to its partner; for a heartbeat an acknowledgement to its sender; for anything else nothing |
| UdpServer.Server.PsBindRequest | P2P_PS/sources/server/src/udp_p2p_server.h:154-242 | The in-place handling of a port-scan request, with its early exits, changes the map and sends what the specification of one step says |
| UdpServer.Server.BindRequest | P2P_PS/sources/server/src/udp_p2p_server.h:243-294 | The in-place handling of a plain request changes the map and sends what the specification of one step says |
| UdpServer.Server.Receive | P2P_PS/sources/server/src/udp_p2p_server.h:142-306 | One pass of the receive loop keeps both maps and the output equal to functions of the whole history |
| UdpServer.Server.Start | P2P_PS/sources/server/src/udp_p2p_server.h:118-308 | The receive loop does so for any sequence of datagrams |
| UdpServer.Server.PendingIsDescribed | P2P_PS/sources/server/src/udp_p2p_server.h:162-201 | The map the running server holds is, id by id, the description of the live requests |
| P2pConnector.ClosedForm | P2P_PS/sources/client/src/connection/p2p_connector.h:86-181 | Until the loop connects, its state, target and attempts left are given by the receipts alone: phase by whether the server replied, target by the latest reply, attempts by ten, or three from the latest reply, less the charged receipts since |
| P2pConnector.RequestsSent | P2P_PS/sources/client/src/connection/p2p_connector.h:100-141 | Until it connects the loop sends only requests with its own id, one per server reply and one per silence after the first reply, the last to the address named last |
| P2pConnector.SettlingReceipt | P2P_PS/sources/client/src/connection/p2p_connector.h:140-165 | On a request with the own id the loop connects, makes its sender the target and sends it one response; on a response from the target it connects, keeps the target and sends nothing |
| P2pConnector.AttemptBound | P2P_PS/sources/client/src/connection/p2p_connector.h:86-181 | Attempts left plus iterations never exceed 10 plus three per message received |
| P2pConnector.BoundIsTight | P2P_PS/sources/client/src/connection/p2p_connector.h:86-181 | For every n there is a script of n messages on which the loop makes exactly 10 + 3n iterations |
| P2pConnector.Connector.ReplyToBindRequest | P2P_PS/sources/client/src/connection/p2p_connector.h:215-236 | Accepts exactly requests with the own id, makes their sender the target and answers it |
| P2pConnector.Connector.Turn | P2P_PS/sources/client/src/connection/p2p_connector.h:96-180 | One iteration of the loop on the connector's fields equals the specification of one iteration |
| P2pConnector.Connector.AwaitPeer | P2P_PS/sources/client/src/connection/p2p_connector.h:86-181 | The loop ends within 10 + 3n iterations for n messages, in the state the receipts determine |
| P2pConnector.Connector.Connect | P2P_PS/sources/client/src/connection/p2p_connector.h:36-197 | For any receipts followed by silence: stops at the first receipt that settles the connection or uses up the attempts; successful exactly if an own-id request or a response from the address last named was received, no-server-match exactly if neither that nor a server reply, failed otherwise; error exactly if the first send or wait fails. What was sent is the request to the server, the requests of the loop and, after an own-id request, the response to it |
| PunchNetwork.Agreement | P2P_PS/sources/client/src/connection/p2p_connector.h:144-165 | In every run with any number of clients, loss, reordering and duplication, and a server that may send arbitrary replies, a connected client's target is a client with the same transaction id |
| PunchNetwork.ResponseMeansMutual | P2P_PS/sources/client/src/connection/p2p_connector.h:154-165 | In every such run, a client that connected on a response has a peer that is connected to it |
| PunchNetwork.ConnectionIsFinal | P2P_PS/sources/client/src/connection/p2p_connector.h:86-181 | A connected client stays connected to the same target in every continuation |
| PunchNetwork.MutualPairing | P2P_PS/sources/client/src/connection/p2p_connector.h:123-165 | For any key function and under any loss, reordering, duplication and server misbehaviour other than two steps, the duplication of a client's bind request and a reply that names a client to itself: if two clients are the only ones with their id and both are connected, they are connected to each other |
| PunchNetwork.DuplicationCanSelfConnect | P2P_PS/sources/server/src/udp_p2p_server.h:257-292 | The first of these steps has to be excluded: with one duplicated bind request a client can end up connected to itself, whatever the key function |
| PunchNetwork.MisdirectionCanSelfConnect | P2P_PS/sources/client/src/connection/p2p_connector.h:112-141 | So has the second: after one reply that names a client to itself that client can end up connected to itself |
| PunchTraffic.RequestIsAnswered | P2P_PS/sources/client/src/connection/p2p_connector.h:140-151 | In any state of the network, a request with its own id that reaches a client in its loop connects the client to the sender and puts exactly one response to it in flight |
| PunchTraffic.ResponseIsAccepted | P2P_PS/sources/client/src/connection/p2p_connector.h:154-165 | A response from its target connects a client in its loop on that response and puts nothing in flight |
| PunchTraffic.IntroductionIsFollowed | P2P_PS/sources/client/src/connection/p2p_connector.h:123-139 | An introduction by the server aims a client in its loop at the peer and puts one request to it in flight |
| PunchTraffic.ClientStages | P2P_PS/sources/client/src/connection/p2p_connector.h:60-95 | A client starts once, enters its loop with ten attempts on the first thing that arrives unless it has given up by then, and never leaves the loop, goes on after its end, or comes back from giving up |
| PunchTraffic.LoopFollowsReceipts | P2P_PS/sources/client/src/connection/p2p_connector.h:86-181 | In every run of the network each client's loop is in the state that its own receipts determine, so that all results about the connect loop hold of it |
| PunchTraffic.ClientTraffic | P2P_PS/sources/client/src/connection/p2p_connector.h:86-236 | Conservation, in every run: copies of a client's datagram in flight plus those delivered or lost equal those its request and its loop have sent plus those the network has added |
| PunchTraffic.ServerFollowsRequests | P2P_PS/sources/server/src/udp_p2p_server.h:246-292 | In every run of the network the server's map is the one its code makes of the requests that reached it |
| PunchTraffic.ServerTraffic | P2P_PS/sources/server/src/udp_p2p_server.h:246-292 | The same conservation for the server's datagrams, with the forged ones added |
| PunchTraffic.PairCanConnect | P2P_PS/sources/client/src/connection/p2p_connector.h:36-197 | Any two clients with the same id, among any others and for any key function, can find each other: a run with nothing but starts and deliveries connects both, one on a request and one on a response |
| PortManager.Manager.constructor | P2P_PS/sources/client/src/connection/port_manager.h:45-53 | The counter starts at the lowest port plus the random number modulo 65001 less the lowest port, hence between it and 65000, with no bases |
| PortManager.Manager.AssignNext | P2P_PS/sources/client/src/connection/port_manager.h:102-133 | Hands out a base port and resets its sub-counter, with 16-bit wrap-around and the reset branch, as specified |
| PortManager.Manager.AssignNextFromBase | P2P_PS/sources/client/src/connection/port_manager.h:67-100 | Hands out a port derived from a base, or 0 and no change for an unknown base, as specified |
| PortLaws.RestartCondition | P2P_PS/sources/client/src/connection/port_manager.h:108-117 | For every block size R and every lowest port the constructor admits: a wrap leads back to the lowest port from every position of the counter if and only if R <= 1, or 2R <= min + 1, or R <= min + 1 and min + 2R >= 131072 (the second fetch wraps as well) |
| PortLaws.RestartsOnRuns | P2P_PS/sources/client/src/connection/port_manager.h:45-133 | With the lowest port 5000, the only one the program uses, that condition is exact on runs: it holds if and only if on every run, from every first port the constructor may pick and with any calls in any order, each base port that wraps the counter is followed by the lowest port |
| PortLaws.SimulatedTrafficRestarts | P2P_PS/sources/client/src/main.cpp:200-204 | With the block size that the statistical runner sets for a rate of simulated allocations, that is so on every run exactly for blocks of at most 2500 ports, up to a rate of 490 as long as the block size itself does not wrap |
| PortLaws.WideReservationMisses | P2P_PS/sources/client/src/connection/port_manager.h:108-117 | With blocks of 5000 ports (990 simulated allocations a second) a wrap goes to port 9464 instead of 5000 |
| PortLaws.ClosedForm | P2P_PS/sources/client/src/connection/port_manager.h:102-133 | Under the condition of `RestartCondition`, and without it within the first pass, whatever else is called in between: the n-th base port is first + nR in the first pass and min + (n mod P)R in every later one, P being the ceiling of (65536 - min) / R |
| PortLaws.MapStaysBounded | P2P_PS/sources/client/src/connection/port_manager.h:118-129 | Under that condition the map never holds more entries than the two passes have ports, over unboundedly many calls |
| PortBlocks.GlobalDistinctness | P2P_PS/sources/client/src/connection/port_manager.h:67-133 | For every block size and lowest port: in any interleaving of calls in which the blocks of the base ports do not overlap and no base is advanced by its whole block or past port 65535, all ports handed out differ and every derived port lies strictly inside its own block |
| PortBlocks.DistinctnessCondition | P2P_PS/sources/client/src/connection/port_manager.h:67-133 | Exactly how many base ports that allows, for every block size and lowest port: every run with n base ports and room in every block hands out no port twice if and only if the blocks of the first n base ports do not overlap |
| PortLaws.BlocksApartForALap | P2P_PS/sources/client/src/connection/port_manager.h:102-133 | Where passes restart at the lowest port, on any run, whatever else is called in between, the blocks of all base ports handed out are disjoint if and only if there are at most a lap of them: the rest of the first pass and what then fits below the first port |
| PortBlocks.DistinctForALap | P2P_PS/sources/client/src/connection/port_manager.h:67-133 | There, every run with n base ports and room in every block hands out no port twice if and only if n is at most a lap |
| PortBlocks.FullBlockCollides | P2P_PS/sources/client/src/connection/port_manager.h:67-133 | The room in a block is needed: if a base is advanced by exactly its block, a run of three calls hands out the next base port twice |
| PortBlocks.CrossingBlockCollides | P2P_PS/sources/client/src/connection/port_manager.h:87-91 | If a base is advanced just past port 65535 but by less than its block, and the next pass restarts at the lowest port, a run of three calls hands out that port twice |
| PortLaws.DrawsAreConsecutive | P2P_PS/sources/client/src/connection/port_manager.h:67-100 | After a base is handed out, and whatever other threads do with other bases, the k-th draw from it is base + k modulo 65536, plus the lowest port if that is below it |
| PortLaws.DrawsInNumbers | P2P_PS/sources/client/src/connection/port_manager.h:87-91 | For lowest ports up to 32768: the k-th draw is base + k up to port 65535, from there base + k - 65536 plus the lowest port as long as base + k - 65536 is below it, and base + k - 65536 afterwards |
| PortLaws.DrawsDifferCondition | P2P_PS/sources/client/src/connection/port_manager.h:87-91 | The first n draws from a base are different ports if and only if n is at most 65536 - base + min - 1, or 65536 - min where 2 min > base + 1 |
| PortLaws.NotHandedOutAgain | P2P_PS/sources/client/src/connection/port_manager.h:102-133 | Under that condition, after a base port was handed out, fewer base ports than a pass has do not include it again |
| PortLaws.OwnDraws | P2P_PS/sources/client/src/connection/port_manager.h:67-133 | So whatever was called before, and whatever other threads call with fewer base ports than a pass has, the k-th draw from a base is that port, and there are as many as calls drawing from it |
| PortRace.RaceMatchesAtomicCalls | P2P_PS/sources/client/src/connection/port_manager.h:106-117 | For any number of threads such that, from where a pass leaves the counter when it wraps, one fetch of each of them does not carry it past the lowest port, and any schedule of the atomic steps of `assign_next`, over any number of wraps: the ports handed out are exactly those of the atomic calls if and only if no thread that had tested the counter before a wrap, and was yet to fetch, has fetched since |
| PortRace.OvertakenThreadGoesBelow | P2P_PS/sources/client/src/connection/port_manager.h:111-117 | From the wrap that overtakes such a thread until the thread moves nothing is handed out, and then the thread hands out a port below the lowest one |
| PortRace.StalledThreadGoesBelow | P2P_PS/sources/client/src/connection/port_manager.h:111-116 | Such a schedule exists: with two threads, one that stalls inside the reset branch for a whole pass hands out port 4464, below the lowest port 30000 |
| RaceLaws.MarginCondition | P2P_PS/sources/client/src/connection/port_manager.h:106-117 | That margin is exact: if no fetch finds the counter at the lowest port itself, it holds if and only if on every schedule the ports are those of the atomic calls exactly when no overtaken thread has moved |
| RaceLaws.JumpFails | P2P_PS/sources/client/src/connection/port_manager.h:106-117 | Whenever the counter can jump over the lowest port after the first or a later pass, a schedule in which no thread is ever overtaken hands out a wrong port |
| RaceLaws.RunnersMargin | P2P_PS/sources/client/src/main.cpp:198-204 | The runners' 16 threads keep the margin from every first port with the default blocks, and with 50 simulated allocations a second (blocks of 300) exactly if the first pass lands at most at port 200 |
| RaceLaws.RacingDistinctness | P2P_PS/sources/client/src/connection/port_manager.h:67-133 | If threads race within the margin for at most a lap of base ports, enter them into the map in any order and draw from them at any time, with room in every block, all ports handed out differ and every derived port lies inside its own block |
| PortPrediction.PredictionFormula | P2P_PS/sources/client/src/connection/p2p_ps_connector.h:404-438 | On all inputs: a port seen twice is predicted again whatever the times; ports 250 or more apart give 0; otherwise second + floor(elapsed * distance / allocation) + 25 with distance modulo 2^16, allocation = T2 - T1 + 1 and elapsed = now - T2 + 100 modulo 2^64, out of range if that is no 16-bit port or the divisor wraps to 0 |
| PortPrediction.PredictionIsExtrapolation | P2P_PS/sources/client/src/connection/p2p_ps_connector.h:409-421 | For ascending ports and ordered times nothing wraps and the prediction is the linear extrapolation plus half the scan range |
| PortPrediction.AscendingFormula | P2P_PS/sources/client/src/connection/p2p_ps_connector.h:409-421 | That is second + floor((now - T2 + 100)(second - first) / (T2 - T1 + 1)) + 25, whenever it is a 16-bit port |
| PortPrediction.ErrorBound | P2P_PS/sources/client/src/connection/p2p_ps_connector.h:409-421 | The prediction lies in the peer's window [s, s + 50) if and only if the extrapolation is in [s - 25, s + 25) |
| PortPrediction.MonotoneInTime | P2P_PS/sources/client/src/connection/p2p_ps_connector.h:412-421 | The prediction does not decrease with elapsed time |
| PortPrediction.SlopeBound | P2P_PS/sources/client/src/connection/p2p_ps_connector.h:409-421 | The prediction lies between second + 25 and second + 25 + (elapsed + 100) * 249 / (T2 - T1 + 1) |
| PortPrediction.NearPredictionIsAbove | P2P_PS/sources/client/src/connection/p2p_ps_connector.h:413-426 | Whatever the times, a prediction from two different close ports is at least second + 25, so descending ports are never followed downwards |
| PortPrediction.NotPredictableIffDistant | P2P_PS/sources/client/src/connection/p2p_ps_connector.h:407-438 | Apart from two zero ports, the result 0 comes out exactly if the ports are at least 250 apart |
| ScanNat.ScanMappings | P2P_PS/sources/client/src/connection/p2p_ps_connector.h:320-343 | Behind a sequential symmetric translator the scan loop's sockets get consecutive external ports to the one target and no other mappings |
| ScanNat.MutualHit | P2P_PS/sources/client/src/connection/p2p_ps_connector.h:302-366 | After both scans, two scan sockets reach each other exactly if each is the one whose external port the other side predicted |
| ScanNat.ScanSucceedsIfBothHit | P2P_PS/sources/client/src/connection/p2p_ps_connector.h:302-366 | Some pair of scan sockets reaches each other if and only if each prediction lies in the other's window of 50 ports |
| ScanNat.ScansMeetInEveryOrder | P2P_PS/sources/client/src/connection/p2p_ps_connector.h:320-366 | The same for scans that run at the same time: however their sends are interleaved and however long each datagram is under way, if none is lost, some datagram is let through to a scan socket if and only if each prediction lies in the other's window |
| ScanNat.ScanSucceedsIfOnCourse | P2P_PS/sources/client/src/connection/p2p_ps_connector.h:302-421 | Some pair reaches each other if and only if each side's true next port is, up to a wrap of the port space, within 25 ports of what the other side extrapolates |
| P2pPsConnector.AttemptBudget | P2P_PS/sources/client/src/connection/p2p_ps_connector.h:174-274 | On every stream the iterations that lower the attempts, plus the attempts left, are at most five, and every other iteration takes a message, so that n messages and silence end within 5 + n iterations |
| P2pPsConnector.OneAttemptAfterScan | P2P_PS/sources/client/src/connection/p2p_ps_connector.h:221-233 | While the loop goes on after an answered scan exactly one attempt is left |
| P2pPsConnector.DecrementsUnbounded | P2P_PS/sources/client/src/connection/p2p_ps_connector.h:221-273 | The number of executed decrements is not bounded: a stream of answered scans keeps the loop going for ever |
| P2pPsConnector.DecrementAccount | P2P_PS/sources/client/src/connection/p2p_ps_connector.h:174-274 | The executed decrements from the receipts alone: at most five without an answered scan; otherwise the charged receipts before the first answered scan (at most four), one per answered scan, and one more if the last receipt is charged. They exceed five exactly if that sum does |
| P2pPsConnector.SixDecrements | P2P_PS/sources/client/src/connection/p2p_ps_connector.h:174-274 | One server reply is enough for that: four silences, an answered scan and a silence make six decrements |
| P2pPsConnector.BudgetClosedForm | P2P_PS/sources/client/src/connection/p2p_ps_connector.h:174-274 | While the loop runs, the attempts left are five, or one from the latest answered scan, less the charged receipts since |
| P2pPsConnector.OutcomeOfRun | P2P_PS/sources/client/src/connection/p2p_ps_connector.h:276-289 | Successful exactly if the last receipt settled the connection, failed exactly if it was a server reply whose scan failed, and otherwise no-server-match, also when a server match was found |
| P2pPsConnector.ReservationSuffices | P2P_PS/sources/client/src/connection/p2p_ps_connector.h:130-136 | For any receipts, any base and any block size R, helper port and scan ports all lie strictly inside the connection's own block if and only if they are fewer than R and end by port 65535, and then the k-th is base + k |
| P2pPsConnector.OneFullScanFits | P2P_PS/sources/client/src/connection/p2p_ps_connector.h:130-136 | With the default block of 75 ports and full scans: if and only if at most one server reply is acted on and base + 1 + 50 per reply is at most 65535 |
| P2pPsConnector.SecondScanLeavesBlock | P2P_PS/sources/client/src/connection/p2p_ps_connector.h:212-235 | A symmetric client's loop does go on after two server replies with answered full scans; it has then drawn 100 scan ports, and the 75th port drawn is the next base port |
| P2pPsConnector.Connector.BindBase | P2P_PS/sources/client/src/connection/p2p_ps_connector.h:82-86 | Reserves a base; the base port is 0 if it cannot be bound |
| P2pPsConnector.Connector.DrawOne | P2P_PS/sources/client/src/connection/p2p_ps_connector.h:130-136 | Draws one port from the base, with any simulated traffic mixed in, or a new base if there is none; the calls made so far account for the allocator's state and for every port drawn |
| P2pPsConnector.Connector.AskServers | P2P_PS/sources/client/src/connection/p2p_ps_connector.h:80-166 | Sends the two requests to the two servers, the second through the helper socket if the client is symmetric, as far as sends, answers and the helper socket allow |
| P2pPsConnector.Connector.DrawScanPorts | P2P_PS/sources/client/src/connection/p2p_ps_connector.h:325-343 | The scan loop draws one port and sends one request per socket, 50 unless a socket cannot be set up |
| P2pPsConnector.Connector.TryStartPsConnection | P2P_PS/sources/client/src/connection/p2p_ps_connector.h:295-400 | In place: predicts, asks and reports whether something answered, as specified |
| P2pPsConnector.Connector.Turn | P2P_PS/sources/client/src/connection/p2p_ps_connector.h:184-273 | One iteration of the loop equals the specification of one iteration, sends what it says and draws the ports of its scan |
| P2pPsConnector.Connector.AwaitPeer | P2P_PS/sources/client/src/connection/p2p_ps_connector.h:174-274 | The loop ends within 5 + n iterations for n messages, in the state the receipts determine |
| P2pPsConnector.Connector.Connect | P2P_PS/sources/client/src/connection/p2p_ps_connector.h:51-290 | For any receipts followed by silence: stops at the first point that decides the connection or uses up the attempts; successful exactly if the last receipt settled it, failed exactly if it was a reply whose scan failed, no-server-match otherwise; sends one request to each server and what the loop's receipts call for; the ports drawn come from its own calls, one helper port and one per scan socket |
| PsReceipts.UnpredictableReply | P2P_PS/sources/client/src/connection/p2p_ps_connector.h:295-301 | A reply of either server from which no port is predicted ends the loop as failed; nothing is sent or drawn |
| PsReceipts.PlainReply | P2P_PS/sources/client/src/connection/p2p_ps_connector.h:368-396 | A client that is not symmetric sends one request from its own socket to the predicted address, aims there even if nothing answers, and goes on with one attempt exactly if something does |
| PsReceipts.SymmetricReply | P2P_PS/sources/client/src/connection/p2p_ps_connector.h:317-366 | A symmetric client sends one request to the predicted address from each of up to 50 scan sockets, draws a port for each, and goes on with one attempt, aiming there, exactly if all 50 could be set up and one of them was answered; otherwise it fails |
| PsReceipts.StablePortAims | P2P_PS/sources/client/src/connection/p2p_ps_connector.h:406-406 | After an answered reply about a peer that showed the same port twice the client aims at exactly that endpoint |
| PsReceipts.AscendingPortsAim | P2P_PS/sources/client/src/connection/p2p_ps_connector.h:297-421 | After an answered reply about ascending ports up to 249 apart the client aims at the peer's host and port second + floor((now - T2 + 100)(second - first) / (T2 - T1 + 1)) + 25, whenever that is a port |
| PsReceipts.SettlingReceipt | P2P_PS/sources/client/src/connection/p2p_ps_connector.h:236-262 | On a request with the own id the loop connects to the sender and sends it one response; on a response from its target it connects and sends nothing |
| PsReceipts.IdleReceipt | P2P_PS/sources/client/src/connection/p2p_ps_connector.h:192-273 | Every other receipt sends and draws nothing; replies of strangers, acknowledgements and foreign responses are free, everything else costs one attempt |
| PsReceipts.FiveSilences | P2P_PS/sources/client/src/connection/p2p_ps_connector.h:174-206 | Five silences end the loop and four do not; until then it aims at the server asked last through its socket |
| ReplySafety.PredictorIsSafe | P2P_PS/sources/client/src/connection/p2p_ps_connector.h:409-421 | A reply sent on any run of the server, evaluated later on a synchronised clock, never makes the predictor underflow or divide by zero, and for ascending ports stays under the steepest slope |
| ReplySafety.InterleavedReservation | P2P_PS/sources/client/src/connection/port_manager.h:67-133 | Interleaved in any way with threads that use other bases and reserve fewer base ports than a pass has, a connection's draws stay inside its block if and only if they are fewer than the block's ports and end by port 65535; so they do, as the consecutive ports above its base, whenever that holds of what its receipts call for |
| ReplySafety.LastBlockTooShort | P2P_PS/sources/client/src/connection/port_manager.h:67-133 | With the program's allocator every later pass ends at base 65525, followed by 5000. From that base one server reply with one answered full scan already leaves the block of a symmetric client, whose 11th port is 5000 |
| StatisticalRunner.NoRunTwice | P2P_PS/sources/client/src/main.cpp:85-119 | With runs plus threads at most 2^32, in every interleaving no run number is started twice and none outside the range |
| StatisticalRunner.ExactlyOnce | P2P_PS/sources/client/src/main.cpp:85-119 | Then, when all workers have finished, each run number was run by exactly one of them and the counter is the run count plus the number of workers, modulo 2^32 |
| StatisticalRunner.OutcomesAddUp | P2P_PS/sources/client/src/main.cpp:241-279 | Then every run has been counted exactly once, each counter holds the number of results of its own kinds, and without invalid results, which the connectors never return, succeeded, failed and errored add up to the run count |
| StatisticalRunner.CountersOfSchedule | P2P_PS/sources/client/src/main.cpp:255-275 | Under any schedule each counter is the number of results of its kinds that the schedule brings to a worker in a run |
| StatisticalRunner.NoRepeatCondition | P2P_PS/sources/client/src/main.cpp:85-119 | No schedule starts a run number twice if and only if runs plus threads are at most 2^32; beyond that a schedule is built in which the counter wraps and run 0 is started again |
| StatisticalRunner.Runner.Take | P2P_PS/sources/client/src/main.cpp:244-244 | Drawing a number advances the counter and starts that run or ends the worker |
| StatisticalRunner.Runner.Report | P2P_PS/sources/client/src/main.cpp:255-275 | Each result is counted in its counter |
| StatisticalRunner.Runner.RunAll | P2P_PS/sources/client/src/main.cpp:241-279 | All workers together, under any schedule, follow the specification |

## Left out

- RaceMatchesAtomicCalls: needs a margin. `MarginCondition` shows it exact except where the counter hits the
  lowest port itself on its way up from a wrap, with threads to spare; that case is not decided.
- RacingDistinctness: the lookup of a base in the map is taken together with its insertion.
- GlobalDistinctness: calls are atomic; `RacingDistinctness` covers calls that are not.
- MutualPairing: excludes two kinds of steps, for each of which it fails (`DuplicationCanSelfConnect`,
  `MisdirectionCanSelfConnect`).
- ScansMeetInEveryOrder: supposes that no datagram of the scans is lost.
- DetermineTargetPort: uses real arithmetic, so `float` rounding is not modelled, and a value that is not
  a 16-bit port is reported as out of range (the client then aims at an arbitrary port).
- Transaction: time stamps are unbounded integers; a wrap of the server's 64-bit clock is not modelled.
- Manager: the time stamps that drive simulated traffic; the skipped ports are an arbitrary 16-bit number.
- Sockets: creating, binding, selecting and closing them, and copying handles after a scan; the scan
  socket that was answered is an index.
- The byte layout of messages and their byte order: messages are values.
- The parts of the runners for a single connection, heartbeats' text, argument parsing, logging and the
  success percentage, which would only add easy members.
- Delivery over a lossy network: nothing is claimed about a connection coming about, only about what holds
  when it does, and that the loops end.
