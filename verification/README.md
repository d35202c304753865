# Elo: what the mesh guarantees

Elo is a peer-to-peer message mesh. This project models the protocol code of its Python node and the two codecs
of its Go port, and proves what they keep in every run. Each concurrent part is a state machine whose steps are
the code between two suspensions of a coroutine; steps of all connections, calls and loops interleave in any
order, and a run is any sequence of enabled steps. Code that updates fields in place is a class whose methods are
proved equal to the functions that the machine's steps use.

| module | part of the system |
|---|---|
| `QueryFlood` | the QUERY broadcast: ttl, origin mark, seen-cache, any topology and schedule |
| `RateLimiter` | the per-peer limiter, against a fixed-window rule |
| `InterestTable` | the routing table and its forwarding index, against the history of calls |
| `PeerTable` | the connection table, lookups by identity, replacement of stale connections |
| `Mesh` | connections, connection table, routing table and limiter together |
| `TaskDelivery`, `TaskEffects`, `TaskSteps`, `TaskGuarantees`, `Sender` | `send_task`, reply matching, queueing, flushing and retrying, and their guarantees |
| `Flush`, `PendingQueue`, `Lines` | the flush and the queue file |
| `LastPeers` | the ten-entry cache of peers |
| `Framing` | length-prefixed frames, Python and Go |
| `CanonicalJson` | the text that Go signs |
| `Heartbeat`, `Reconnect` | purging silent peers, reconnecting with backoff |
| `Spacing`, `Lists` | shared: spaced points in time, lists |

`dafny verify dfyconfig.toml` checks everything.

## Where the code is not what one might expect

The members that show it are named in brackets, with the exact condition where there is one.

- A query sent by `_query_capability` carries no origin and can be handled by the node that sent it
  (`UnmarkedQueryComesHome`, `InitiatorIsSparedIffMarked`).
- A node passes a query on only while nobody but the asker is registered with it; one registered peer is enough to
  stop the query (`QueryIsPassedOnIff`, `OneRegisteredPeerStopsQuery`, `RegisteredNodeForwardsToNobody`).
- A node that reconnects under the very same key is dropped from the table by the cleanup of its old connection
  (`SameAddressOrphansReplacement`); this is the only way to lose a live connection (`LoopEndKeepsListedIff`).
- `register_peer` never takes index entries away, so a capability dropped by a later HELLO stays in the index, even
  after the peer is gone (`StaleEntryIffDropped`, `RemovalCanLeaveARoute`, `DeadRouteIffDropped`,
  `ShrinkingPeerLeavesDeadRoute`).
- The comment on `query_peers` speaks of random peers as the last tier; the code returns all peers that are not
  excluded (`QueryPeers`).
- The first HELLO of a peer is refused while the monotonic clock is below 60 (`HelloRefusedIff`).
- The guard against a second connection to the same address never applies (`BareAddressNeverListed`).
- A reply that arrives before its future is registered is lost, so an answered task can be sent again
  (`EarlyReplyIsLost`, `AnsweredTaskCanBeQueued`); so is one that arrives between the timeout and the removal of its
  future (`LateReplyIsLost`, `ReplyCaughtIff`).
- A flush that neither starts nor expires a task does not store the new retry counts
  (`RetryCountsAreStoredIff`, `LoneTaskKeepsItsCount`).
- A started retry checks no age, so it can start for a task older than 600 s, by as much as it starts after the flush
  that took the task; the limit holds exactly for the retries that start at the instant of their flush
  (`LateRetryStartsOld`, `RetryAgeIsBounded`, `RetriesAreYoungIffImmediate`).
- A retry that is cancelled, before its first step or in the middle, loses its task, and only that task: the
  cancellation passes by the handler of the retry, which would not put the task back either
  (`GivenUpTaskIsLost`, `AbortedIffGaveUp`, `NothingIsLostUnlessGivenUp`).
- `sortedJSON` drops the errors of the encoder, so values it refuses print as nothing (`RefusedValuesCollide`).
- `splitlines` cuts at more characters than a file does, so a saved address with one of them comes back in pieces
  (`FormFeedSplitsAddress`, `JoinLoadsBackIff`).
- An unterminated last line of the queue file takes the next task with it, and its own, unless it is blank
  (`AppendAfterTornLineIff`, `TornTaskIsLost`).

## Assumptions

- Node ids are base64url text and contain no '@' (section 5 of RFC 4648).
- Clocks do not go back within a run. Generated message ids are fresh.
- Sends, replies, connections and their failures are arbitrary inputs; signing and signature checks are opaque, and
  a RESULT in the model is one that passed its check.
- The JSON library is a pair of functions that undo each other and write neither line breaks nor outer blanks
  (`Codec.Faithful`), and it does not read an object with other text in front of it; task times are whole microseconds.
- Storage works and messages are well formed.

## Model

| member | source | states |
|---|---|---|
| `QueryFlood.QueryNode.OnQuery` | py/elo/node.py:601-648 | The query handler, with its sweep of the seen-cache and its loop over the known peers, changes the cache and acts as the machine's step does |
| `QueryFlood.HandleDecides` | py/elo/node.py:607-648 | Ignored iff marked by this node or seen at most 60 s ago; answered iff fresh and the capability is offered or anybody but the asker is known, and who is named; forwarded iff fresh, neither of these and ttl > 1, and with which query |
| `QueryFlood.HandleRemembers` | py/elo/node.py:607-619 | What the seen-cache holds afterwards: entries up to 60 s old as they were, and a fresh query with the present time |
| `QueryFlood.BroadcastUsesEachLink` | py/elo/transport/tcp.py:314-324 | Every link that is up and not excluded gets exactly one copy |
| `QueryFlood.DeliveryEffect` | py/elo/node.py:601-648 | What a delivery does to the copies, the clock, the caches and the log |
| `QueryFlood.InitiationEffect` | py/elo/node.py:825 | A new query goes unchanged over every link that is up, and nothing else changes |
| `QueryFlood.DeliveryDecreases` | py/elo/node.py:640-648 | Every delivery strictly lowers the sum of 1 + D(1 + D(...)) over the copies in flight, for any tables, schedule and cache, D being a bound on the connections of a node |
| `QueryFlood.FloodTerminates` | py/elo/node.py:640-648 | A run has at most as many deliveries as its initial copies and its new queries bring in, so every flood ends |
| `QueryFlood.HopsWithinTtl` | py/elo/node.py:645-648 | No copy in flight has travelled more links than the ttl its query started with |
| `QueryFlood.MarkIsKept` | py/elo/node.py:646-648 | A query started with an origin keeps that origin in every copy of every run |
| `QueryFlood.MarkedQueryStaysAway` | py/elo/node.py:607-609 | A query marked with its initiator is handled by that node in no run |
| `QueryFlood.UnmarkedQueryComesHome` | py/elo/node.py:819-825 | A query of `_query_capability`, which sets no origin, can travel round a triangle and be handled by the node that asked |
| `QueryFlood.InitiatorIsSparedIffMarked` | py/elo/node.py:607-609 | For queries with a ttl of 3 or more: in all runs the initiator does not handle its query, exactly when the query carries its mark |
| `QueryFlood.FloodIsDeduplicated` | py/elo/node.py:611-619 | Over whole runs, from any caches, one node handles (answers, forwards or lets expire) one query id only at times more than 60 s apart |
| `QueryFlood.FloodCost` | py/elo/transport/tcp.py:314-324 | In a closed interval of length T > 0 a set of N nodes with at most D connections forwards at most N * D * ceil(T / 60) copies of one query id |
| `QueryFlood.MarkedFloodCost` | py/elo/node.py:433 | Within 60 s the first broadcast of an origin-marked query and all its relays put at most N * D copies on the wire |
| `QueryFlood.QueryIsPassedOnIff` | py/elo/node.py:607-648 | A delivered query puts a copy on the wire iff it is not marked by this node, its id was not handled in the last 60 s, nobody but the asker is registered, the node does not offer the capability, ttl > 1, and a link other than the asker's is up |
| `QueryFlood.OneRegisteredPeerStopsQuery` | py/elo/node.py:626-645 | One registered peer keeps a query with all its hops left from reaching an unregistered neighbour |
| `QueryFlood.RegisteredNodeForwardsToNobody` | py/elo/node.py:621-648 | A node whose connected peers are all registered puts no copy on the wire when it handles a query |
| `RateLimiter.Limiter.Admit` | py/elo/node.py:513-537 | The limiter in the dispatcher, on its two dictionaries, gives the verdict and the new state of the specification and leaves other peers alone |
| `RateLimiter.WindowsPartition` | py/elo/node.py:524-528 | The windows that the counter opens cut the counted messages as the fixed-window rule says |
| `RateLimiter.WindowsAreUnique` | py/elo/node.py:524-528 | There is only one way to cut the counted messages into such windows |
| `RateLimiter.CounterTracksWindows` | py/elo/node.py:523-537 | The stored count and start are those of the last window |
| `RateLimiter.LimiterRefinesFixedWindows` | py/elo/node.py:523-537 | Refinement: the messages that pass are the first 100 of each window, and every BYE |
| `RateLimiter.LimiterKeepsLastAccepted` | py/elo/node.py:516-521 | The stored time is that of the last accepted HELLO, and only a HELLO less than 60 s after it gets the HELLO refusal |
| `RateLimiter.PassesIff` | py/elo/node.py:516-537 | Message by message: dispatched iff no HELLO that comes too soon, and a BYE or one of the first 100 of its window |
| `RateLimiter.DispatchBound` | py/elo/node.py:523-537 | At most 100 * (ceil(T / 60) + 1) messages other than BYE of one peer are dispatched in any closed interval of length T > 0 |
| `RateLimiter.HelloRefusedIff` | py/elo/node.py:516-521 | A HELLO is refused exactly when one was accepted less than 60 s before, or the clock is still below 60 |
| `RateLimiter.AcceptedHellosAreSpaced` | py/elo/node.py:516-521 | Accepted HELLOs are at least 60 s apart in every run |
| `InterestTable.Table.RegisterPeer` | py/elo/transport/routing.py:59-75 | The three dictionaries change as the abstract registration says |
| `InterestTable.Table.RemovePeer` | py/elo/transport/routing.py:77-82 | The three dictionaries change as the abstract removal says |
| `InterestTable.Table.FindPeerFor` | py/elo/transport/routing.py:84-89 | Returns an indexed peer if there is one, and none otherwise |
| `InterestTable.Table.QueryPeers` | py/elo/transport/routing.py:95-125 | Returns, without duplicates, exactly the peers of the first tier that has a peer not excluded |
| `InterestTable.TableAgreesWithHistory` | py/elo/transport/routing.py:59-82 | After any history both peer maps hold the last registration not followed by a removal, so they have the same keys |
| `InterestTable.InterestsAgreeWithHistory` | py/elo/transport/routing.py:70-82 | The interests of a known peer are those of its last registration |
| `InterestTable.IndexAgreesWithHistory` | py/elo/transport/routing.py:73-81 | After any history a peer is in forwarding[c] iff it registered c and was not removed later while c was among its capabilities |
| `InterestTable.IndexCoversCaps` | py/elo/transport/routing.py:70-75 | Every present capability of a peer is indexed |
| `InterestTable.StaleEntryIffDropped` | py/elo/transport/routing.py:70-82 | A peer is indexed for a capability it no longer has exactly when a later registration dropped that capability |
| `InterestTable.IndexIsExactIffNothingDropped` | py/elo/transport/routing.py:70-82 | The index is the inverse of the capability map iff no such drop is outstanding |
| `InterestTable.NothingDroppedWithoutShrinking` | py/elo/transport/routing.py:70-75 | Without a re-registration that shrinks, nothing is dropped |
| `InterestTable.RemovalCanLeaveARoute` | py/elo/transport/routing.py:77-82 | Register {c}, register {}, remove: the peer is gone and still indexed for c |
| `InterestTable.UpdateKeepsIndex` | py/elo/node.py:659-664 | INTEREST_UPDATE changes neither the index nor any capabilities; it can only make its sender known |
| `InterestTable.HeadEndsAtColon` | py/elo/transport/routing.py:117 | What is matched of an interest is all of it or the part that ends before its first colon |
| `InterestTable.TiersInTurn` | py/elo/transport/routing.py:102-125 | Who is named: indexed peers; if none is left, peers with an interest whose head the capability begins with; if none is left, all known peers; never an excluded one |
| `InterestTable.NobodyIffAllExcluded` | py/elo/transport/routing.py:95-125 | `query_peers` is empty iff every peer known, or indexed for the capability, is excluded |
| `PeerTable.MatchesIffSameIdentity` | py/elo/transport/tcp.py:143-145 | For ids without '@' the prefix test of every lookup compares the 12-character identities |
| `PeerTable.KeyIsTwelveAtAddress` | py/elo/transport/tcp.py:184 | A key is the first 12 characters of the id, an @ and the socket address |
| `PeerTable.PutKeepsOrder` | py/elo/transport/tcp.py:192 | The table lists its keys in the order in which they came |
| `PeerTable.ReplacementCloses` | py/elo/transport/tcp.py:144-152 | A replacement closes the connection of the entry it removes and no other |
| `PeerTable.LookupIsUnambiguous` | py/elo/node.py:316-320 | In a table with one entry per identity two keys matched by the same id are the same key |
| `PeerTable.StaleIsGone` | py/elo/transport/tcp.py:143-153 | Although only the first match is removed, no entry of that identity is left |
| `PeerTable.InstallReplacesIdentity` | py/elo/transport/tcp.py:187-192 | Installing a connection keeps one entry per identity, makes the new connection the one its id finds and touches no other identity |
| `PeerTable.BareAddressNeverListed` | py/elo/transport/tcp.py:247-250 | The guard that looks up a bare "host:port" never finds an entry |
| `PeerTable.AtSignInIdIsAmbiguous` | py/elo/transport/tcp.py:143-145 | With '@' allowed in ids one prefix can find two entries |
| `PeerTable.TcpManager.FindByPrefix` | py/elo/node.py:316-320 | The loop over the addresses finds the oldest entry that matches, or none |
| `PeerTable.TcpManager.RemoveStalePeer` | py/elo/transport/tcp.py:133-153 | Removes and closes the first match, and reports its key |
| `PeerTable.TcpManager.AcceptHello` | py/elo/transport/tcp.py:178-192 | Refuses the own identity; otherwise replaces the stale entry by the new connection |
| `PeerTable.TcpManager.EndReadLoop` | py/elo/transport/tcp.py:220-222 | Afterwards nothing is listed under the key of the connection, every other entry is as before, and one entry per identity stays so |
| `PeerTable.TcpManager.Broadcast` | py/elo/transport/tcp.py:314-324 | Sends once to exactly the connected peers that are not excluded and whose send succeeds |
| `Mesh.RegistrationEffect` | py/elo/node.py:571-575 | HELLO and HELLO_ACK register the names of all three categories and the interests of their sender, and change nothing for others |
| `Mesh.UpdateEffect` | py/elo/node.py:659-664 | INTEREST_UPDATE replaces the interests of its sender; all capabilities and the index stay |
| `Mesh.ByeEffect` | py/elo/node.py:752-753 | BYE makes its sender unknown and takes it out of the index for its present capabilities |
| `Mesh.DispatchIff` | py/elo/node.py:513-537 | Which messages reach their handler, with the limits written out, and what the limiter keeps |
| `Mesh.SubjectEffect` | py/elo/transport/tcp.py:161-228 | What every step makes of the connection it is about |
| `Mesh.BystanderEffect` | py/elo/transport/tcp.py:144-152 | A step changes no other connection, except that a replacement closes the listed one of the same identity |
| `Mesh.TableEffect` | py/elo/transport/tcp.py:187-222 | What every step does to the connection table |
| `Mesh.StepDispatches` | py/elo/transport/tcp.py:195-226 | Which message every step hands to the dispatcher, and for which address |
| `Mesh.EveryRunKeepsInv` | py/elo/transport/tcp.py:161-228 | In every reachable state the table has one entry per identity and lists only open connections, and every known peer belongs to a connection whose final BYE is outstanding |
| `Mesh.NoDeadPeerOnceSettled` | py/elo/transport/tcp.py:220-227 | Once the loops of closed connections have ended every known peer has an open connection |
| `Mesh.DeadRouteIffDropped` | py/elo/transport/routing.py:73-81 | An address with no open connection left is found for a capability exactly when a shrinking re-registration left it in the index |
| `Mesh.ShrinkingPeerLeavesDeadRoute` | py/elo/transport/routing.py:73-81 | A run (HELLO with a capability, HELLO_ACK without, end of the loop) that leaves an address with no connection in the index |
| `Mesh.LoopEndRemovesOwnKeyOnly` | py/elo/transport/tcp.py:220-222 | The end of a read loop removes the entry of its own key and no other |
| `Mesh.OldLoopSparesReplacement` | py/elo/transport/tcp.py:187-222 | After a node came back under another address the cleanup of its old connection leaves the new entry in place |
| `Mesh.LoopEndKeepsListedIff` | py/elo/transport/tcp.py:222 | The end of a read loop keeps every live connection listed iff the entry under its key is its own or there is none |
| `Mesh.AlwaysListedIffNoForeignCleanup` | py/elo/transport/tcp.py:209-228 | Over whole runs: live connections are always listed iff no loop ever cleans up a key that another connection holds |
| `Mesh.NewAddressesAreSafe` | py/elo/transport/tcp.py:136-139 | When no two open connections ever share an address, no such cleanup happens |
| `Mesh.RoutesWithinTableOnceSettled` | py/elo/transport/tcp.py:209-228 | Without such cleanups, once settled, every known peer is in the connection table |
| `Mesh.SameAddressOrphansReplacement` | py/elo/transport/tcp.py:222 | A replacement under the same key is removed by the old loop: the live connection stays unlisted |
| `Mesh.ListedPeerCanBeUnknown` | py/elo/node.py:752-753 | A run in which a BYE from the wire makes a peer unknown and leaves its live connection in the table: the other inclusion fails |
| `Mesh.Dispatcher.HandleMessage` | py/elo/node.py:510-541 | For HELLO, HELLO_ACK, INTEREST_UPDATE and BYE: limiter entry of the sender and routing table change as the machine's step says; any other message changes only the limiter entry |
| `TaskDelivery.EveryRunKeepsInv` | py/elo/node.py:301-347 | The invariant of the whole machine (ids, futures, results, copies of tasks, places) holds after every run of calls, replies, timeouts, flushes and retries |
| `TaskSteps.StartedCall` | py/elo/node.py:308-331 | A call starts as asked, or as the stored task says, and sends under its own id to a peer, under the id of the relay message to a relay |
| `TaskSteps.MovedCall` | py/elo/node.py:333-347 | The phase, and at the end the answer with its code, that each step of a running call leads to |
| `TaskSteps.OtherCallsUntouched` | py/elo/node.py:301-347 | No step touches another call |
| `TaskSteps.RoutedCallUsesItsWire` | py/elo/node.py:777-801 | Over runs: a routed call sends and waits under the id it was routed to, and no other |
| `TaskSteps.RepliedCallReturnsIt` | py/elo/node.py:723-750 | Over runs, with anything in between: a routed call met by a success RESULT with the id of its route while its wait is open returns that success when it wakes up |
| `TaskSteps.EndedCallStoresTask` | py/elo/node.py:343-345 | A call without bypass that ends in an error appends its task, stamped with the time of the end; one that ends in success appends nothing |
| `TaskSteps.FailedRetryGoesBackOrExpires` | py/elo/node.py:906-915 | In every run a failed retry puts its task, counted, at the end of the queue, or lets it expire if it is more than 600 s old |
| `TaskSteps.SuccessfulRetryDelivers` | py/elo/node.py:916-917 | In every run a successful retry delivers its task and leaves the queue alone |
| `TaskGuarantees.StoredTaskIsInOnePlace` | py/elo/node.py:851-919 | Conservation: an id ever stored is in exactly one of queue, retries about to start, running retries, delivered, expired, aborted; any other id is in none |
| `TaskGuarantees.OneRetryAtATime` | py/elo/node.py:882-916 | At most one running retry per task |
| `TaskGuarantees.TasksNeverChange` | py/elo/node.py:866-916 | Between any two points of a run a stored task keeps target, capability, payload, ttl and creation time; a task stored in between is stamped in between and starts with no retries |
| `TaskGuarantees.CopiesAreFaithful` | py/elo/node.py:866-916 | Queue entries, started retries and running retries are the stored tasks but for the retry count, and a retry sends the stored task |
| `TaskGuarantees.CallOutcome` | py/elo/node.py:343-347 | A call stores its task iff it does not bypass the queue and ends with an error, and then answers QUEUED; a success is backed by a success RESULT to an id this call generated |
| `TaskGuarantees.CallEndsWithWhatItGot` | py/elo/node.py:321-347 | A call gets its result exactly when no peer or relay is found, the send fails, or its wait ends, and it is a success exactly when it wakes up with a success RESULT |
| `TaskGuarantees.DeliveredAtMostOnce` | py/elo/node.py:899-917 | A retry ended with success for a task iff it is the one recorded as having delivered it: no task is delivered by two retries |
| `TaskGuarantees.DeliveredMeansAnswered` | py/elo/node.py:899-917 | A task counts as delivered only after a success RESULT to the retry that delivered it |
| `TaskGuarantees.FlushLimitsAge` | py/elo/node.py:866-890 | A flush starts no retry of a task older than 600 s and leaves none in the queue |
| `TaskGuarantees.ExpiredAreOld` | py/elo/node.py:867-870 | Only tasks older than 600 s are ever given up |
| `TaskGuarantees.RetriesWereTaken` | py/elo/node.py:882-890 | For every retry that starts there is a flush that took its task last |
| `TaskGuarantees.TakenAtOneTime` | py/elo/node.py:882-890 | The time of the last flush that took a task is one time |
| `TaskGuarantees.RetryAgeIsBounded` | py/elo/node.py:867-905 | When a retry starts its task is older than 600 s by no more than the time since that flush |
| `TaskGuarantees.RetriesAreYoungIffImmediate` | py/elo/node.py:867-905 | For every delay d: in all runs the retries that start within d of the flush that took their task are of tasks at most 600 s old, iff d is 0 |
| `TaskGuarantees.LateRetryStartsOld` | py/elo/node.py:897-905 | The retry itself looks at no age: a run in which one starts a microsecond after its flush for a task older than 600 s |
| `TaskGuarantees.AbortedIffGaveUp` | py/elo/node.py:898-919 | A task is aborted iff in this run a retry of this task was cancelled before it ran, or ended by an exception or a cancellation |
| `TaskGuarantees.NothingIsLostUnlessGivenUp` | py/elo/node.py:851-919 | A stored task is queued, about to be retried, being retried, delivered or expired iff no retry of this task was given up; while it is at most 600 s old it is not expired |
| `TaskGuarantees.GivenUpTaskIsLost` | py/elo/node.py:883-919 | A run in which the started retry of a fresh task is cancelled before its first step, and the task is in none of these places |
| `TaskGuarantees.PendingResultsAreWaits` | py/elo/node.py:809-817 | In every reachable state the pending results are exactly the ids that calls wait on, one call for each |
| `TaskGuarantees.OnlyOwnReplyResolves` | py/elo/node.py:740-750 | A future changes only once, by a RESULT with its id or by the cancellation of its own wait, and disappears only when its own call stops waiting |
| `TaskGuarantees.ReplyCaughtIff` | py/elo/node.py:740-741 | A reply is caught iff a call is waiting on its id and the future of that wait is neither resolved nor cancelled |
| `TaskGuarantees.LateReplyIsLost` | py/elo/node.py:812-817 | Between the cancellation at the timeout and the removal of the entry a reply to the waiting call changes nothing |
| `TaskGuarantees.CompletesAtMostOnce` | py/elo/node.py:809-817 | Over a whole run each id hands out a result (reply or timeout) at most once |
| `TaskGuarantees.EarlyReplyIsLost` | py/elo/node.py:336-337 | A reply that arrives between the send and the registration of the future changes nothing in the node; it is gone |
| `TaskGuarantees.AnsweredTaskCanBeQueued` | py/elo/node.py:336-345 | A run in which the peer answers with success and the task is queued all the same: delivery is at least once |
| `Sender.Node.OnResult` | py/elo/node.py:740-750 | Resolves the unresolved future of that id and changes nothing else |
| `Sender.Node.WaitForResult` | py/elo/node.py:809-817 | Returns the first reply with its id that comes in time, else a TIMEOUT error, whatever comes late; its entry is gone either way and the others are as if it had not waited |
| `Sender.Node.Conclude` | py/elo/node.py:343-347 | Without bypass an error appends exactly the task of the call to the stored queue and turns into QUEUED; with bypass the queue is unchanged |
| `Flush.Outbox.FlushPending` | py/elo/node.py:851-895 | Reads the queue, starts the retries and rewrites the file exactly as the machine's flush does |
| `Flush.Outbox.SortOut` | py/elo/node.py:862-887 | The loop separates the tasks to start from those to keep, in order |
| `Flush.Outbox.RetryFailed` | py/elo/node.py:906-915 | A failed retry appends its task unless too old or already stored |
| `Flush.FlushSorts` | py/elo/node.py:866-890 | A flush puts every queued id into exactly one of kept, started, expired; started are the reachable ones that did not expire |
| `Flush.FlushOutcome` | py/elo/node.py:866-887 | What becomes of each task: expired iff more than 600 s old, else taken iff reachable, else kept with one more retry |
| `Flush.FlushKeepsOrder` | py/elo/node.py:866-887 | Tasks taken and tasks kept stay in the order of the queue |
| `Flush.RequeueAppends` | py/elo/node.py:911-915 | A failed retry goes to the end with one more retry, unless its id is stored already |
| `Flush.RetryCountsAreStoredIff` | py/elo/node.py:889-890 | The counted retries are stored iff the flush starts or expires a task, or the queue is empty |
| `Flush.LoneTaskKeepsItsCount` | py/elo/node.py:886-890 | A lone young task that nobody is found for keeps the count 0 although the flush counts 1 |
| `Flush.FlushEnforcesAge` | py/elo/node.py:867-890 | Started tasks and tasks left in the queue are at most 600 s old, also when the file is not rewritten |
| `PendingQueue.DictRoundTrip` | py/elo/pending_queue.py:24-45 | `from_dict` undoes `to_dict` |
| `PendingQueue.OldRowsLoad` | py/elo/pending_queue.py:43-44 | Rows without the two optional fields load with 0 retries and a ttl of 60 |
| `PendingQueue.Queue.Enqueue` | py/elo/pending_queue.py:66-82 | Appends one task to the abstract queue |
| `PendingQueue.Queue.LoadAll` | py/elo/pending_queue.py:84-100 | Returns the abstract queue, line by line |
| `PendingQueue.Queue.SaveAll` | py/elo/pending_queue.py:102-115 | Replaces the abstract queue |
| `PendingQueue.FileRefinesQueue` | py/elo/pending_queue.py:66-115 | For every interleaving of the two writers the file loads as exactly the abstract queue, in order |
| `PendingQueue.BadLineDropsOnlyItself` | py/elo/pending_queue.py:91-97 | A complete unparsable line drops only itself, wherever it is |
| `PendingQueue.TornLineIsShared` | py/elo/pending_queue.py:75-76 | An unterminated last line and the next task are read as one line |
| `PendingQueue.AppendAfterTornLineIff` | py/elo/pending_queue.py:75-97 | The next task is stored iff the unterminated line before it is blank; if it is not, both are lost and everything before loads |
| `PendingQueue.TornTaskIsLost` | py/elo/pending_queue.py:75-97 | A stored row without its line end loads, and is gone together with the next task once that is appended |
| `LastPeers.Cache.SaveLastPeers` | py/elo/node.py:50-59 | For any addresses: the file becomes the new peers before the loaded ones, without duplicates, ten at most, one line each; while only clean addresses are saved it loads as the cache of the specification |
| `LastPeers.Cache.LoadLastPeers` | py/elo/node.py:62-69 | Returns the stripped non-blank lines, cut as `splitlines` cuts them |
| `LastPeers.TruncationIsInvisible` | py/elo/node.py:56 | Cutting the stored list to m places does not show in the first n <= m places of a merge |
| `LastPeers.CacheIsRecentHistory` | py/elo/node.py:50-59 | After any run of saves the cache is the first ten of the de-duplicated full history, most recent first |
| `LastPeers.DedupIsDistinct` | py/elo/node.py:56 | De-duplication has each element once and no other elements |
| `LastPeers.DedupKeepsOrder` | py/elo/node.py:56 | De-duplication keeps first occurrences in their order |
| `LastPeers.TakeKeepsPlaces` | py/elo/node.py:56 | The cut keeps the first places |
| `LastPeers.JoinLoadsBackIff` | py/elo/node.py:57-66 | A list loads back as it was written iff each entry is one line, as `splitlines` sees it, without blanks at its ends |
| `LastPeers.FormFeedSplitsAddress` | py/elo/node.py:66 | An address with a form feed in it comes back as two |
| `Framing.LengthIsExact` | py/elo/transport/protocol.py:56 | The 4-byte big-endian length reads back as the number it was written for, over all of 32 bits |
| `Framing.EveryFieldIsALength` | go/transport/protocol.go:51 | Every 4-byte field is the encoding of exactly one number below 2^32 |
| `Framing.ReadOneIff` | py/elo/transport/protocol.py:60-67 | A reader refuses exactly a length above 2^20, waits exactly while header or payload is incomplete, and else takes exactly the announced bytes |
| `Framing.StreamRoundTrip` | py/elo/transport/protocol.py:51-67 | Framed payloads of at most 2^20 bytes decode to exactly those payloads, and what follows is decoded as if it stood alone |
| `Framing.TruncatedStream` | py/elo/transport/protocol.py:62-66 | A stream cut anywhere yields exactly its complete frames and then waits |
| `Framing.DecodeInTwo` | py/elo/transport/protocol.py:60-67 | Decoding two parts in turn is decoding the whole |
| `Framing.FrameReader.Feed` | py/elo/transport/tcp.py:48-56 | The reader always has delivered what the bytes received so far decode to |
| `Framing.ReceiveChunks` | py/elo/transport/protocol.py:60-67 | Framed payloads cut into any chunks come out as sent |
| `Framing.EncodeFrame` | py/elo/transport/protocol.py:51-57 | Refuses exactly the payloads above 2^20 bytes; a reader takes any other frame back whole, with nothing left over |
| `Framing.GoEncodeFrame` | go/transport/protocol.go:31-43 | The Go writer, filling its buffer in place, returns the same bytes and refuses the same payloads as the Python one |
| `Framing.Reader.ReadFull` | go/transport/protocol.go:47-50 | Fills the buffer from reads of any size, or fails when the data ends |
| `Framing.GoReadFrame` | go/transport/protocol.go:46-64 | The Go reader gives the same outcome as the frame decoder on the unread bytes, however they arrive |
| `CanonicalJson.SortedJson` | go/security.go:197-224 | The loop over the sorted keys with its recursion writes the canonical text, in whatever order the map yields its keys |
| `CanonicalJson.CollectAndSort` | go/security.go:198-202 | The collected and sorted keys are the keys of the map in increasing order |
| `CanonicalJson.SortedKeys` | go/security.go:198-202 | The key list is strictly increasing and has exactly the keys of the map |
| `CanonicalJson.LessIff` | go/security.go:202 | The order of the keys is the ascending one: a proper beginning first, else the smaller character at the first difference |
| `CanonicalJson.SortedKeysAscend` | go/security.go:202-206 | Any two neighbours of the sorted keys are in that order |
| `CanonicalJson.WrittenAsIs` | go/security.go:210-219 | Which characters of a string are written as they are |
| `CanonicalJson.ShortEscapes` | go/security.go:210-219 | The escapes of two characters |
| `CanonicalJson.LongEscapes` | go/security.go:210-219 | Escapes with four lower-case hexadecimal digits |
| `CanonicalJson.TextOf` | go/security.go:204-223 | The text of every kind of value, written forwards: braces, sorted keys, colons, commas, brackets, quotes |
| `CanonicalJson.IncreasingIsUnique` | go/security.go:202 | A strictly increasing key list is determined by its elements, so the text depends on the contents alone |
| `CanonicalJson.ValueRoundTrip` | go/security.go:197-224 | A parser recovers the normal form of a value from its text, whatever delimited text follows |
| `CanonicalJson.SameTextIffSameNormalForm` | go/security.go:197-224 | Two maps print to the same bytes iff they are equal up to values the encoder refuses |
| `CanonicalJson.CanonicalIsUnambiguous` | go/security.go:188-224 | Two maps without refused values print to the same bytes iff they are equal |
| `CanonicalJson.RefusedValuesCollide` | go/security.go:218-219 | Since the error of the encoder is dropped, a refused value and an array that holds one print alike |
| `Heartbeat.Monitor.Beat` | py/elo/transport/tcp.py:340-360 | An uninterrupted round leaves exactly the survivors, closes the others and hands the node's own handler one final BYE for each |
| `Heartbeat.Monitor.Probe` | py/elo/transport/tcp.py:343-351 | The loop marks exactly the peers whose send failed or that were idle too long |
| `Heartbeat.Monitor.Purge` | py/elo/transport/tcp.py:353-360 | Drops the marked keys that are still listed, once each |
| `Heartbeat.LastReadIsLastHeard` | py/elo/transport/tcp.py:48-56 | What is kept as the last read of a connection is the time it joined or was read last |
| `Heartbeat.SilentPeerIsDropped` | py/elo/transport/tcp.py:328-360 | With rounds at most G apart a listed peer was last heard at most 90 s + G ago (120 s for G = 30), and right after a round at most 90 s ago |
| `Heartbeat.RoundDropsExactlyTheDead` | py/elo/transport/tcp.py:343-354 | A round keeps an entry iff its send succeeded and it was idle for at most 90 s |
| `Reconnect.AtMostOneLoopPerAddress` | py/elo/node.py:938-980 | However calls, wake-ups, refusals, connections and exceptions interleave, an address is marked iff a loop serves it, and then exactly one does |
| `Reconnect.LoopStepEffect` | py/elo/node.py:944-980 | What each step does to its own loop: a head that meets the address connected ends it with the counter at 0, one on shutdown ends it with the counter kept, any other sleeps and counts |
| `Reconnect.OtherLoopsUndisturbed` | py/elo/node.py:938-980 | The loops, marks and counters of other addresses stay as they are |
| `Reconnect.SleepsDouble` | py/elo/node.py:957-959 | The n-th sleep for an address since it was last connected lasts min(2^n, 30) s, n from 0, across loops; the counter is the number of these sleeps |
| `Reconnect.SleepIsLatest` | py/elo/node.py:957-966 | A sleeping loop sleeps for the last of these times |
| `Reconnect.TotalWait` | py/elo/node.py:957-964 | n attempts have waited 2^n - 1 s for n up to 5, and 31 + 30(n - 5) s beyond |
| `Reconnect.SleepsAddUpUntilConnected` | py/elo/node.py:953-980 | Between any two points of a run without the address seen connected its sleeps only add up, however loops end and start again: the counter never falls |
| `Reconnect.Reconnector.RunLoop` | py/elo/node.py:938-980 | The whole coroutine: its i-th sleep is min(2^(n+i), 30) for the counter n it met; the counter ends at 0 if it connected and else counts all its sleeps; its mark is gone |
| `Reconnect.Reconnector.ScheduleReconnect` | py/elo/node.py:938-959 | Returns at once for an address already served; otherwise takes the turn of the loop head |
| `Reconnect.Reconnector.HeadOfLoop` | py/elo/node.py:944-961 | Leaves on shutdown, resets on connection, or sleeps for min(2^attempts, 30) s and counts the attempt |
| `Reconnect.Reconnector.AttemptDone` | py/elo/node.py:971-980 | A success resets the counter and ends the loop; a failure goes back to the loop head |

## Left out

- Answers over several hops: QUERY_RESP goes back one link only, and collecting the answers in `_query_capability`
  and `discover_peers_network` is not modelled; a found or missing peer is an input of the task machine.
- The order in which sets are iterated: `find_peer_for` and `query_peers` are stated up to order, and the choice of
  one peer among several is arbitrary.
- The search for a route in `send_task` as part of the task machine: whether the peer, a relay or nobody is found is
  an input, and so is the set of queued tasks that a flush finds reachable; the lookup itself is `PeerTable.TcpManager.FindByPrefix` and `InterestTable.Table.FindPeerFor`.
- `TCPManager.stop` and node shutdown, except in the reconnect loop; cancellation is the step that ends a call by an exception.
- Heartbeat.SilentPeerIsDropped: rounds take no time, and the gap between them is a parameter; the effect of
  other steps between probe and purge is in `Mesh`, where a purge can hit any listed key at any time.
- Mesh.Dispatcher.HandleMessage: connecting to the known peers of a HELLO_ACK and handling QUERY, TASK and RESULT are not
  part of it; `QueryFlood` and `Sender` model QUERY and RESULT.
- CanonicalJson.CanonicalIsUnambiguous: numbers are compared by the literal they print as, because the Go values 1 and
  1.0 print alike; strings are valid UTF-8, nil maps print as empty ones, and structs, typed maps and custom encoders are not modelled.
- Two processes that share a queue file, crashes in the middle of a write, and disk errors; what a torn line does to
  the next append is a fact about any text of the file.
- ed25519, X25519, HKDF and AES-GCM, key files and the public-key cache: library code.
- `on_task`, `_on_task`, events, metrics, tracker visibility and known-peers lists in HELLO_ACK: no invariant of the mesh rests on them.
- `py/elo/transport/discovery.py`, `py/elo/__main__.py`, `go/node.go`, `go/discovery.go` and `go/transport/tcp.go`: I/O, or a simpler copy of the modelled code.
- `examples/python/tracker.py`: relay choice is best effort, and a relay reports its failures inside a success.
