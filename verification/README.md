# Verified models of the message broker, the accounting application and the museum

The project models four programs of the repository and proves what they promise, or exactly when they keep the
promise. Check everything with `dafny verify dfyconfig.toml`.

## The distributed broker (`broker/`)

Clients talk to the broker node of their machine. The node translates its clients' process ids into global ids and
shares one socket to a broker server. The servers form a ring and use one central database of subscriptions.

| file | contents |
|---|---|
| `Options.dfy`, `Messages.dfy` | optional values; messages, limits, topic names |
| `GlobalIds.dfy`, `LocalIds.dfy` | the two id tables, as array-backed classes proved against lookups on sequences |
| `Db.dfy`, `DbHandler.dfy` | the two-way index of user and topic files, with a ghost trace of every single write, and the handler that serves it |
| `Routing.dfy`, `Worker.dfy` | the meaning of the worker's steps, and the worker itself |
| `Node.dfy` | the two processes of a broker node |
| `Ring.dfy` | a published message by itself: termination of its relays for any tables met on the way, and exact delivery counts for fixed tables |
| `Framing.dfy` | fixed-size messages over partial reads and writes |
| `Connection.dfy`, `Pipeline.dfy` | one node's connection as a pipeline of requests, replies and copies around the node's table |
| `System.dfy`, `SystemInvariant.dfy`, `ServerSteps.dfy`, `NodeSteps.dfy`, `Safety.dfy` | the whole system as a transition system, its invariant, and what the invariant means |
| `WorkerSteps.dfy`, `ServerConnection.dfy` | the worker's events, taken together, are the step of the worker's code; the two processes of a server for one connection |
| `NodeGrain.dfy` | the two processes of a node one access at a time, and the proof that they refine the transition system |
| `FailedCreates.dfy`, `FullTable.dfy`, `Replies.dfy`, `Registrations.dfy` | what a failed CREATE does to the clients behind it, and a run in which it happens; what kind of answer requests get; whom the ids in the database belong to |
| `Relays.dfy`, `RelayBound.dfy`, `Delivery.dfy` | weights of the relays under way, and with them the bound on relays and exact delivery for runs of the whole system |
| `Journal.dfy`, `Publications.dfy`, `Inbox.dfy` | what clients asked for, compared with what servers do and with what clients get: requests, published messages, and the messages that wait for a client |
| `Listings.dfy`, `Arrivals.dfy` | how many of the listed copies are sent; from the copies queued to the messages that wait for clients |

An event of the transition system is a step of a process that another one can observe, with one exception: a node
handles a request, or a reply, in one event, although its two processes make up to three separate accesses to the
table and the queues for it. `NodeGrain.dfy` has an event for each single access and shows that every interleaving of
them is a run of the coarser system (`FineRunsAreRuns`), so that what is proved of its runs holds there too. The reason
is that a lookup by one process is not invalidated by anything the other can do before the access that counts.

The main results about the transition system hold for all its runs, with any number of nodes, clients and servers,
including runs in which CREATEs find a table full:

- **Replies and copies reach their owner.** Two id translations, an address in between and the reuse of ids compose to
  the identity. The key is to replay the messages on their way down over a node's table: the invariant says that each
  of them, when its turn comes, finds the client it is for. Messages carry specification-only tags with the node
  and the client they belong to; no modelled handler goes by them.
- **Requests, answers and messages arrive as they were sent.** The journal of a run is the message that each client sent
  last, read off the events alone. Wherever a request is on its way it is that message but for its address
  (`RequestsAreAsAsked`), so a SUBSCRIBE adds its client to the topic that the client named and to no other
  (`SubscriptionIsAsAsked`), and every client gets an answer to what it asked (`AnswersAreToTheRequest`). Published
  messages keep their topic and text on every way (`NothingIsMadeUp`, `CopiesAreAsPublished`), and those put in for a
  client are handed out once each, in order (`EachIsHandedOutOnce`).
- **Relays are bounded.** With distinct broker ids, at most as many relays leave a server as there are servers for each
  PUBLISH taken up (`RelaysAreBounded`). `Ring.RunsTerminate` says the same of one message on its own, whatever tables
  and files it meets.
- **Delivery is exact while tables and files do not change.** However sends, relays and other requests interleave, the
  copies queued for a user are those that the closed form gives for each PUBLISH (`DeliveryIsExact`,
  `QuietRunsDeliverExactly`), provided that the servers form a ring when the stretch begins, as they do when they are
  connected and none is giving up an id (`ReachableServersFormARing`). `Ring.ExactDelivery` is the closed form itself,
  for a single message and fixed tables. From there on no copy is lost or made, in any run (`CopiesAreConserved`),
  and each arrives at the client that has the id (`ArrivalIsAtOwner`).
- **The file index** is linked after every single write, also in operations that fail half-way; this is about the
  methods of `Db`, not about the transition system, in which the database does not fail. Both sides record every
  subscription equally often in every run (`FilesStayBalanced`), and in `Db` as long as no file operation has failed.

Five facts differ from what one would expect. Each comes with the exact condition under which the expectation holds and
with an input on which it does not:

- `DISTRIBUTED_MOM.md` says that a publish goes on around the ring until some broker knows each subscriber. In the code
  (`broker/server/worker.c:102-114` and `146-152`) a relay carries the id of the first subscriber absent at the sender,
  and the receiver drops the message if it does not know that id. So a publish never gets further than two servers past
  its origin (`AtMostThreeServers`); the servers that are reached are characterised exactly, and in a ring of three the
  only subscriber may get nothing (`TwoPlacesOnStarves`).
- Even a ring of two serves the clients of the other server if and only if the first listed id that the origin does not
  know is registered there (`RingOfTwoServesIff`). An id left in a topic file by an earlier run breaks this
  (`StaleIdStarves`). In runs from empty topic files every listed id is registered, as long as no server is giving
  up an id (`ListedIdsAreRegistered`), and then two servers serve everybody whom they read.
- They do not read everybody: the database handler stops after fifty lines (`broker/db-server/db_handler.c:64`), and
  nothing keeps a client from subscribing twice. A user gets a copy for each line that lists it if and only if no line
  does, or relays reach its server and none of its lines is past the fiftieth (`DeliversAllListedIff` for one message,
  `QuietRunsDeliverAllIff` for runs). With two servers, after a run from empty topic files, it misses the copies of its
  lines past the fiftieth and no others (`TwoServersDeliverIffRead`). `FiftyFirstLineStarves` is an input: after fifty
  subscriptions of one client, a client that subscribes later gets nothing.
- An acknowledged CREATE is matched with the oldest pending client. When a CREATE fails at the server its client stays
  pending with nothing under way for it (`FailedClientIsStuck`), and later ids go to earlier clients
  (`AnswersAreShifted`; `FullTable.FailedCreateMisroutes` is a run). An acknowledgement is for the client that asked if
  and only if no earlier CREATE of that node failed (`AcknowledgementReturnsIffNoneFailed`). Everything else holds in
  all runs: the client that was given the id owns it.
- The database handler does not set the subscriber count when there is none. The server then reads the right list if
  and only if the value left in the request is not positive (`ReplyIsExactUnlessEmpty`, `EmptyTopicMisread`). The
  worker is modelled with 0.

## The accounting core (`tp-final/contabilidapp-backend`)

| file | contents |
|---|---|
| `Digits.dfy`, `Records.dfy` | zero-padded numerals and the two fixed-width line formats, parsed and printed |
| `Books.dfy` | the stored clients, periods and files, the data-access operations, and the meaning of the two queries |
| `Uploads.dfy`, `Aggregates.dfy` | uploads and the aggregated file |
| `Periods.dfy` | runs of data-access calls in any interleaving |
| `Control.dfy`, `Splits.dfy` | reconciliation with a control file, and the split into zip entries |
| `ModelImpl.dfy`, `Interleaving.dfy` | the application's operations and what a control guarantees; what uploads between two queries can change |

Amounts are whole cents; every amount in the program has scale 2, so the scale-sensitive comparison of two amounts is
equality of cents. The documentation comment of the line parser gives an older pattern (23 and 11 characters before and
in the amount); the model follows the pattern in the code (25 and 9). The order of grouped rows, of map values and of
set elements is left open: the methods choose any order and the theorems hold for each.

The main results: an upload adds to each client code exactly what its lines have for the code (`UploadAddsItsLines`); a
period is open until a call closes it (`ClosedExactlyByClosing`), and a closed one is immutable in every interleaving of
calls, and so are its aggregated files and the results of controlling it; printing and reading back an aggregate is exact
if and only if every sum is below 10^9 cents; a control partitions the client codes into matched ones, whose lines add
up to their control amounts, and reported ones; and a control whose two queries are separated by uploads conserves a
matched amount if and only if what was added to it in between totals zero, which an upload in between can break
(`UploadInBetween`).

## The map and the museum

`TreeMap.dfy` is the binary search tree of `broker/common/ds/implementation/map.c` on heap nodes, with the iterative
insertion. It refines a finite map. The place that the loop has reached is a tree with a hole, which separates the one
node that is changed from all others.

`Museum.dfy` and `Tour.dfy` are transition systems whose steps are single accesses to shared memory, queues and
semaphores. `MuseumDoors.dfy` has the doors' loop bodies as methods on shared memory and shows that the steps, taken
without interruption, are these bodies. As written, the guide's loop never advances its index, so a guide that finds
people waiting keeps the semaphore for ever; `GuideReleasesIffNobodyWaits` gives the exact condition. It is only woken
when somebody waits, so a tour once started never ends, in any run (`ToursNeverEnd`); `OneVisitorBlocksTheTour` is such
a run. Up to then five visitors can register, and one that comes later is turned away
(`TurnedAwayIffFiveRegistered`, `FiveRegisterTheSixthDoesNot`).

## Model

| member | source | states |
|---|---|---|
| `Safety.RunsAreSafe` | broker/server/worker.c:187-210 | in every run the invariant of all connections, servers and the database holds, also after CREATEs that found a table full |
| `Safety.StepKeepsInv` | broker/client/broker_resp_handler.c:51-89 | every step of every process keeps that invariant, whichever process moves next |
| `Safety.NodeTablesAreInjective` | broker/client/broker_id.c:35-101 | although ids are reused, a node never has one id for two clients, and its pending entries are, in order, the clients of the CREATE acknowledgements on their way down, the clients left behind by failed CREATEs, and the clients of the CREATE requests on their way up |
| `Safety.EverythingReachesItsClient` | broker/client/broker_resp_handler.c:51-89 | whatever a node receives is addressed to the client it belongs to: a reply to the client that asked, an acknowledged CREATE to the owner of the id, a copy to the client that held the id when the copy was queued, never to a later owner; only the error reply of a failed CREATE is addressed to nobody and changes nothing |
| `Safety.CopiesAreForTheHolder` | broker/server/worker.c:91-125 | a copy queued for a registered id goes to the connection of the node whose client created that id |
| `Safety.ExactlyOneAnswer` | broker/client/broker.c:56-188 | a client has exactly one request or reply in the whole system if it waits, its request was not ignored and it was not left behind by a failed CREATE, and otherwise none |
| `Safety.OnlyStrangersAreIgnored` | broker/client/broker_req_handler.c:110-119 | a request is dropped if and only if it is not a CREATE and its client is not in the node's table |
| `Journal.RequestsAreAsAsked` | broker/server/req_handler.c:53-65 | in every run each request, at its node, on the way up, in the queue of the worker or in its hand, has the kind, topic, text and everything else but the address of the message that its client sent last |
| `Journal.StepAgrees` | broker/server/worker.c:187-210 | every event keeps this, and that every answer on its way answers the request of its client |
| `Journal.AnswersAreToTheRequest` | broker/client/broker.c:56-188 | in every run what a client receives answers its last request: ACK_CREATE a CREATE, ACK_DESTROY a DESTROY, ACK_OK a SUBSCRIBE, ACK_OK or ACK_ERROR a PUBLISH, ACK_OK or ACK_NO_MSG a RECEIVE |
| `Journal.SubscriptionIsAsAsked` | broker/server/worker.c:64-80 | a SUBSCRIBE that is taken up adds the id of its client to the file of the topic that the client named, and that topic to the file of the client; no other line comes or goes |
| `Publications.NothingIsMadeUp` | broker/server/worker.c:82-163 | in every run each published message, on whatever queue, socket or inbox, has the topic and text of one that a client published before |
| `Publications.CopiesAreAsPublished` | broker/server/worker.c:91-125 | what a round of the send loop queues for a PUBLISH of a client, copy or relay, has the topic and text that this client published |
| `Inbox.EachIsHandedOutOnce` | broker/client/broker_req_handler.c:81-108 | in every run the messages put in for a client are, in order, those it got for its RECEIVEs, the one in an answer it has not read yet, and those still waiting |
| `Inbox.ReceiveTakesTheOldest` | broker/client/broker_req_handler.c:81-108 | a registered client's RECEIVE is answered with the oldest message that waits for it, which is taken out, or with ACK_NO_MSG if and only if none waits; nobody else's messages change |
| `Inbox.WhatIsGotWasPublished` | broker/client/broker.c:128-159 | every message that a client gets has the topic and text of one that a client published |
| `Safety.ServerTablesAreDisjoint` | broker/server/worker.c:165-183 | an id registered at a server is positive, a live database user and registered nowhere else, unless a server is between the database delete and the table removal of that id |
| `Safety.ReachableServersFormARing` | broker/server/worker.c:82-127 | in reachable states with the ring connected the tables satisfy what exact delivery assumes |
| `FailedCreates.AnswersAreShifted` | broker/client/broker_id.c:67-101 | in every run, when the worker answers a CREATE, the id goes to the client that registered as many places before the sender as CREATEs of that node have failed so far |
| `FailedCreates.FailuresAreCounted` | broker/server/worker.c:47-62 | a server's failures for a node are the events of the run that found the table full for that node |
| `FailedCreates.AcknowledgementReturnsIffNoneFailed` | broker/server/worker.c:47-62 | in every run a CREATE acknowledgement is for the client that asked if and only if no earlier CREATE of that node failed |
| `FullTable.FailedCreateMisroutes` | broker/server/worker.c:47-62 | there is a run from the initial state in which fifty clients fill the table, the CREATE of one client fails, and the id created for the next client of its node is acknowledged to it |
| `FullTable.TableFills` | broker/server/global_id.c:40-71 | fifty clients at five nodes can register one after the other, and then the table is full |
| `FailedCreates.OldestPendingGetsTheId` | broker/client/broker_id.c:67-101 | of two pending clients of a node the older one is given the next id, whoever it was created for |
| `FailedCreates.FailedClientIsStuck` | broker/client/broker_resp_handler.c:70-87 | after a CREATE fails its client waits, although no request and no reply of it is left anywhere in the system |
| `Replies.SubscribeIsAcknowledged` | broker/server/worker.c:64-80 | in every run a SUBSCRIBE is answered with ACK_OK to its sender as soon as the worker takes it up |
| `Replies.RequestsAreAcknowledged` | broker/server/worker.c:47-208 | in every run a server that is connected to the next from the start answers a PUBLISH with ACK_OK, a DESTROY with ACK_DESTROY and a CREATE with ACK_CREATE, or ACK_ERROR if and only if the table is full |
| `Replies.ConnectedServersSendFine` | broker/server/worker.c:91-125 | a connected server stays connected in every run, and no send of its worker fails |
| `Registrations.ListedIdsAreRegistered` | broker/server/worker.c:64-80 | after a run from empty topic files every id in a topic file is registered at some server that is not giving it up |
| `Registrations.EveryUserIsAccountedFor` | broker/db-server/db.c:148-184 | after a run from an empty database every user is claimed by a server or was left behind by a failed CREATE |
| `Registrations.FilesStayBalanced` | broker/db-server/db.c:186-234 | in every run from a database whose two sides agree, every user file has each topic as often as the topic file lists the user |
| `Registrations.TwoServersServeIffRead` | broker/server/worker.c:82-162 | in any state of a run from empty topic files, with two connected servers neither of which is giving up an id, the closed form gives every user as many copies of a publish as the first fifty lines of its topic list it, and so as many as the topic lists it if and only if none of its lines is past the fiftieth |
| `Listings.DeliversAllListedIff` | broker/db-server/db_handler.c:56-72 | in any ring a user gets at most a copy for each line of the topic file that lists it, and exactly that many if and only if there is no such line, or its server is reached and none of its lines is past the fiftieth |
| `Listings.FiftyFirstLineStarves` | broker/db-server/db_handler.c:63-66 | two servers on which every listed id is registered: one client subscribes fifty times, another once after it, and the other never gets a message |
| `Relays.StepLoad` | broker/server/resp_handler.c:26-37 | for any weight given to relays, each event changes the total weight under way in one known way: a worker that starts exchanges what it reads for what it will relay, a relay that leaves uses up a hop, and nothing else changes it |
| `RelayBound.RelaysAreBounded` | broker/server/worker.c:130-163 | in every run with distinct broker ids the relays that left a server, and those that still can, are at most as many as the servers for each PUBLISH of a client taken up |
| `RelayBound.StampsAreKnown` | broker/server/worker.c:134-144 | in every run every relay under way was stamped by a server of the ring |
| `RelayBound.AtMostOneRelay` | broker/server/worker.c:102-114 | of one message the send loop queues at most one relay, with the stamp and the text of that message |
| `Delivery.DeliveryIsExact` | broker/server/worker.c:82-162 | while tables and files stay as they are, in any interleaving, the copies queued for a user and those still to come are exactly those due for the PUBLISHes taken up, and those that were still to come before |
| `Delivery.QuietRunsDeliverExactly` | broker/server/worker.c:82-162 | from a state without published messages under way to another, tables and files unchanged, a user is queued exactly the copies due: for each PUBLISH as many as the first fifty lines of its topic list the user, if relays reach the user's server, and otherwise none |
| `Delivery.QuietRunsDeliverAllIff` | broker/server/worker.c:82-162 | over such a stretch a user is queued a copy for each time that a published topic lists it if and only if each PUBLISH taken up has no line for it, or none past the fiftieth and relays that reach its server; it never gets more |
| `Delivery.TwoServersDeliverIffRead` | broker/server/worker.c:82-162 | the same with two servers after a run from empty topic files: a user misses exactly the copies of its lines past the fiftieth, so it gets one for each time that a published topic lists it if and only if no PUBLISH taken up has it past line fifty |
| `Arrivals.CopiesAreConserved` | broker/server/resp_handler.c:26-37 | in every run, whatever happens to tables and files, each copy that a worker queues is taken in once by a node or is still on its way |
| `Arrivals.ArrivalIsAtOwner` | broker/client/broker_resp_handler.c:51-58 | a copy that a node takes in is put at the end of the messages that wait for the client that has the id there |
| `Arrivals.ArrivalsAreExact` | broker/client/broker_resp_handler.c:51-58 | between quiet states with nothing on its way, tables and files unchanged, the owner of an id gets exactly the copies due, and all listed copies under the same condition as above |
| `NodeGrain.FineStepRefines` | broker/client/broker_req_handler.c:110-137 | each single access of the two processes of a node to the table or a queue amounts to one step of the transition system in which a message is handled at once, or to none |
| `NodeGrain.FineRunsAreRuns` | broker/client/broker_resp_handler.c:62-89 | however the accesses of the two processes of all nodes interleave with everything else, the nodes, seen as wholes, go through a run of the transition system |
| `Delivery.StartIsStep` | broker/server/worker.c:130-163 | what the worker of the transition system will queue for a PUBLISH is one step of the closed form |
| `Pipeline.RegisteredKeeps` | broker/client/broker_req_handler.c:125-134 | registering one more client disturbs no message on its way |
| `Pipeline.ForwardedKeeps` | broker/client/broker_req_handler.c:130-134 | a forwarded request carries the id that the server has registered for its client |
| `Pipeline.CopiedKeeps` | broker/server/worker.c:91-125 | a copy for a registered id will find the client that created the id, after all earlier messages |
| `Pipeline.AnsweredKeeps` | broker/server/worker.c:64-80 | an answer will find the client that asked |
| `Pipeline.CreatedKeeps` | broker/server/worker.c:47-62 | the acknowledgement of a CREATE will find the oldest client that is still pending then |
| `Pipeline.FailedKeeps` | broker/server/worker.c:47-62 | a failed CREATE leaves its client stuck and every other message in order |
| `Pipeline.OwnerIsSenderIffNoneStuck` | broker/client/broker_id.c:67-101 | the oldest pending client is the one that asked if and only if no client is stuck |
| `Pipeline.DestroyedKeeps` | broker/server/worker.c:165-185 | giving up an id leaves every other client's id and answers alone |
| `Pipeline.DeliveredKeeps` | broker/client/broker_resp_handler.c:62-89 | handling the oldest message addresses it to its client and keeps all the others in order |
| `ServerSteps.StartKeepsNode` | broker/server/worker.c:187-199 | the worker taking a request keeps every connection of its server in order |
| `ServerSteps.SendKeepsNode` | broker/server/worker.c:91-125 | one round of the send loop keeps every connection in order |
| `ServerSteps.FinishKeepsNode` | broker/server/worker.c:202-208 | finishing a request keeps every connection in order |
| `ServerSteps.FinishKeepsClaims` | broker/server/worker.c:47-62 | finishing a request claims no new id |
| `ServerSteps.StartKeepsClaims` | broker/db-server/db.c:128-184 | a new id is claimed by no other server and a deleted one by none |
| `NodeSteps.HandlesRequestKeepsNode` | broker/client/broker_req_handler.c:110-137 | a node handling a request keeps its connection in order |
| `NodeSteps.HandlesReplyKeepsNode` | broker/client/broker_resp_handler.c:62-89 | a node handling a reply keeps its connection in order |
| `NodeSteps.ArrivesKeepsNode` | broker/server/req_handler.c:53-65 | the server's request handler, which puts its own address on a CREATE, keeps every connection in order |
| `NodeSteps.LeavesKeepsNode` | broker/server/resp_handler.c:26-37 | the response handler, which restores the global id, keeps every connection in order |
| `Connection.PendingSplit` | broker/client/broker_id.c:67-101 | pending entries are the acknowledgements on their way followed by what stays pending |
| `Ring.RunsTerminate` | broker/server/worker.c:130-163 | whatever each server's table and topic file hold at the time, a fresh publish visits the servers in ring order, at most once each, and the origin queues nothing for the returning copy |
| `Ring.StampedRunsTerminate` | broker/server/worker.c:134-144 | a message stamped by a server is forwarded at most as many times as it is places away from it |
| `Ring.RelaysAreNotAcknowledged` | broker/server/worker.c:141-144 | handling a relayed message never produces an acknowledgement |
| `Ring.ExactDelivery` | broker/server/worker.c:82-162 | a user gets as many copies as the list of subscribers that the servers read has it, if its server is reached by relays that each carry an id the receiver knows, and otherwise none |
| `Ring.RingOfTwoServesIff` | broker/server/worker.c:82-162 | in a ring of two, a client of the other server that is on the list read gets its copies if and only if the first listed id that the origin does not know is registered at the other server, and otherwise nothing |
| `Ring.RingOfTwoDeliversToAll` | broker/server/worker.c:82-162 | in a ring of two in which every id of the list read is registered every user gets a copy for each time that the list has it |
| `Ring.StaleIdStarves` | broker/server/worker.c:146-152 | two servers, and a listed id that no server has registered: a registered subscriber gets nothing |
| `Ring.TwoPlacesOnStarves` | broker/server/worker.c:146-152 | three servers, and the only subscriber registered two places after the origin: it gets nothing |
| `Ring.AtMostThreeServers` | broker/server/worker.c:102-114 | in a ring of any size a publish gets at most two servers past its origin, and two exactly when the first line of the topic file names a client of the next server and the first subscriber absent there is registered one further |
| `Ring.FarSubscribersGetNothing` | broker/server/worker.c:146-152 | a subscriber three or more places after the origin never gets a message |
| `Ring.StepMeaning` | broker/server/worker.c:82-162 | one worker step gives local subscribers a copy per line and the next server one message carrying the first absent subscriber |
| `WorkerProcess.Worker.ProcessCreate` | broker/server/worker.c:47-62 | creates a clean new user, registers it under the connection, and fails if the table is full although the user then exists |
| `WorkerProcess.Worker.ProcessSubscribe` | broker/server/worker.c:64-80 | succeeds exactly for a registered sender that is a live user, and then both index sides get a line |
| `WorkerProcess.Worker.GetSubscribed` | broker/server/db-connection.c:78-110 | reads the first 50 subscribers |
| `WorkerProcess.Worker.SendToSubs` | broker/server/worker.c:82-127 | queues exactly the copies and the one relay that the routing function gives |
| `WorkerProcess.Worker.SendLoop` | broker/server/worker.c:91-127 | the flag loop computes the recursive routing of the subscriber list |
| `WorkerProcess.Worker.ProcessPublish` | broker/server/worker.c:130-163 | queues what `Published` says: nothing for a returning or unknown message, copies, and an acknowledgement only for a local sender |
| `WorkerProcess.Worker.ProcessDestroy` | broker/server/worker.c:165-185 | removes the user from the database and then the id from the table, answering with what was looked up before |
| `WorkerProcess.Worker.ProcessMsg` | broker/server/worker.c:187-210 | one request, whatever its kind, is exactly one `Handled` step on table, files and queue when the database does not fail |
| `WorkerSteps.ServeIsHandled` | broker/server/worker.c:187-210 | the worker's events of the transition system, uninterrupted, are exactly one step of the worker's code on table, files and queue, for every request and in every server state |
| `WorkerSteps.PublishIsHandled` | broker/server/worker.c:130-163 | the rounds of the send loop and the acknowledgement after them queue what the worker's code queues for a PUBLISH |
| `WorkerSteps.SendAllMeaning` | broker/server/worker.c:91-127 | the rounds of the send loop queue the copies that the routing function lists, in order |
| `WorkerSteps.DepositFor` | broker/server/resp_handler.c:51-58 | each response handler finds the messages addressed to it in the order in which they were queued |
| `ServerConnection.Handlers.ProcessRequest` | broker/server/req_handler.c:53-65 | queues exactly the requests that the transition system accepts, as it accepts them; what that leaves of a request is `Journal.RequestsAreAsAsked` |
| `ServerConnection.Handlers.ProcessReply` | broker/server/resp_handler.c:26-37 | writes exactly the kinds of messages that the transition system sends down, addressed by global id |
| `Db.Database.GetNextId` | broker/db-server/db.c:128-146 | one more than the largest id in use, or a failure |
| `Db.Database.LargestId` | broker/db-server/db.c:134-142 | the running maximum over a directory listed in any order |
| `Db.Database.AddUser` | broker/db-server/db.c:148-184 | adds an empty user file for the next id, or changes nothing |
| `Db.Database.EnsureTopic` | broker/db-server/db.c:39-47 | creates the topic file only if there is none |
| `Db.Database.Subscribe` | broker/db-server/db.c:186-234 | adds one line on both sides, which keeps them in balance; failing half-way leaves every topic file's subscribers as they were |
| `Db.Database.GetSubscribed` | broker/db-server/db.c:237-282 | the lines of the topic file in order; none for a missing file |
| `Db.Database.Unsubscribe` | broker/db-server/db.c:284-337 | rewrites the topic file without the user, or leaves it |
| `Db.Database.UnsubscribeAll` | broker/db-server/db.c:353-385 | empties exactly the listed topic files of the user, stopping at the first failure |
| `Db.Database.Delete` | broker/db-server/db.c:339-395 | after success no topic file mentions the user, nobody else's lines change and both sides stay in balance; after failure each topic file is either untouched or without the user |
| `Db.Database.Write` | broker/db-server/db.c:98-126 | a write of one file puts the new state at the end of the trace, and the caller has to show that an id in a topic file still has a user file that lists the topic |
| `Db.NewIdIsClean` | broker/db-server/db.c:128-184 | a new id is positive, unused by any live user and in no topic file even if the number was used before |
| `Db.ListedUserIsLive` | broker/db-server/db.c:186-234 | an id in a topic file belongs to a live user whose file lists the topic |
| `Db.SubscribeKeepsIndex` | broker/db-server/db.c:186-234 | a completed subscription keeps the two sides linked and their multiplicities equal |
| `Db.DeleteKeepsIndex` | broker/db-server/db.c:339-395 | a completed deletion removes exactly the user's lines and keeps the multiplicities equal |
| `Db.UnsubscribeKeepsIndex` | broker/db-server/db.c:284-337 | the index stays linked after each rewritten topic file of a deletion |
| `Db.UserLineKeepsIndex` | broker/db-server/db.c:212-232 | the index is linked between the two writes of a subscription |
| `DbHandler.Handler.ProcessCreate` | broker/db-server/db_handler.c:34-44 | replies with a clean new id, or with an error after which nothing has changed |
| `DbHandler.Handler.ProcessSubscribe` | broker/db-server/db_handler.c:46-54 | succeeds exactly for a live user when no file operation fails |
| `DbHandler.Handler.ProcessGetSubscribed` | broker/db-server/db_handler.c:56-72 | fills in the first 50 ids and leaves the count untouched when there is none |
| `DbHandler.Handler.ProcessDelete` | broker/db-server/db_handler.c:74-82 | succeeds exactly for a live user when no file operation fails |
| `DbHandler.ReplyIsExactUnlessEmpty` | broker/server/db-connection.c:81-107 | whatever count the request left unset, the server reads the first 50 subscribers if and only if there is a subscriber or that count is not positive, and reads past the array if and only if there is none and it exceeds 50 |
| `DbHandler.EmptyTopicMisread` | broker/server/db-connection.c:81-107 | with an unset count of 2, a topic without subscribers yields two of them |
| `GlobalIds.GlobalIdTable.AddGlobalId` | broker/server/global_id.c:40-71 | appends an entry unless the table has 50 |
| `GlobalIds.GlobalIdTable.GetMtype` | broker/server/global_id.c:73-105 | the address of the first entry with the id, or the code for none |
| `GlobalIds.GlobalIdTable.RemoveGlobalId` | broker/server/global_id.c:107-140 | the shift loop removes the first entry with the id and keeps the order of the others |
| `GlobalIds.AppendLookup` | broker/server/global_id.c:58-62 | adding an id changes the lookup of no other |
| `GlobalIds.RemoveLookup` | broker/server/global_id.c:130-133 | removing an id changes the lookup of no other |
| `GlobalIds.RemoveKeepsInjective` | broker/server/global_id.c:107-140 | removal keeps the table injective and forgets the id |
| `LocalIds.LocalIdTable.AddLocalId` | broker/client/broker_id.c:35-63 | appends a pending entry; on a full table it fails and never releases the semaphore |
| `LocalIds.LocalIdTable.SetGlobalId` | broker/client/broker_id.c:67-101 | gives the id to the oldest pending client and returns that client |
| `LocalIds.LocalIdTable.GetGlobalId` | broker/client/broker_id.c:104-136 | the id of the client's first entry, or -1 |
| `LocalIds.LocalIdTable.GetLocalId` | broker/client/broker_id.c:139-170 | the client of the first entry with the id, or -1 |
| `LocalIds.LocalIdTable.LocalIdExists` | broker/client/broker_id.c:173-204 | whether the client has an entry |
| `LocalIds.LocalIdTable.RemoveId` | broker/client/broker_id.c:206-239 | the shift loop removes the client's first entry and keeps the order of the others |
| `LocalIds.AssignKeepsInjective` | broker/client/broker_id.c:79-86 | a fresh id keeps the table injective and shortens the pending list by its oldest client |
| `LocalIds.AssignLookup` | broker/client/broker_id.c:79-86 | assigning an id gives it to the oldest pending client and changes the id of no other client, pending or not |
| `LocalIds.RemoveEffect` | broker/client/broker_id.c:225-232 | removal keeps the table injective and every pending client pending |
| `LocalIds.RemoveLookupGlobal` | broker/client/broker_id.c:206-239 | removing a client changes the owner of no other id |
| `LocalIds.RoundTrip` | broker/client/broker_id.c:104-170 | the id of a client leads back to that client |
| `Node.BrokerNode.ProcessReceive` | broker/client/broker_req_handler.c:81-108 | takes the oldest message that waits for the client, or answers that there is none |
| `Node.BrokerNode.ProcessRequest` | broker/client/broker_req_handler.c:110-137 | ignores, answers or forwards exactly as `Request` says, and gets stuck on a full table |
| `Node.BrokerNode.ProcessResponse` | broker/client/broker_resp_handler.c:51-89 | updates the table and readdresses the message exactly as `Respond` says |
| `Framing.Stream.SocketSend` | broker/common/ipc/socket.c:84-101 | whatever the sizes of the partial writes, success puts the whole message on the wire and failure a proper prefix of it; the writes are steps of the channel below |
| `Framing.Stream.SocketReceive` | broker/common/ipc/socket.c:103-119 | success takes exactly the next message off the wire and failure fewer bytes than a message; the reads are steps of the channel below |
| `Framing.FlattenPrefix` | broker/common/ipc/socket.c:103-119 | fixed-size frames can be read back from a byte string in one way only |
| `Framing.ReceivedIsPrefix` | broker/common/ipc/socket.c:84-119 | in every interleaving of partial reads and writes the messages received are a prefix of those sent, and the bytes in between are exactly the rest |
| `Framing.RefinesQueue` | broker/common/ipc/socket.c:84-119 | each step appends the message sent to a FIFO queue, hands over its first message, or leaves it alone |
| `Framing.QuietIffAllReceived` | broker/common/ipc/socket.c:84-119 | nothing is left under way if and only if everything sent was received |
| `Digits.PadThenValue` | tp-final/contabilidapp-backend/src/main/java/ar/uba/fi/contabilidapp/model/ModelImpl.java:86-87 | a zero-padded numeral denotes its number and is longer than its field exactly when the number does not fit |
| `Digits.ValueThenPad` | tp-final/contabilidapp-backend/src/main/java/ar/uba/fi/contabilidapp/model/ModelImpl.java:300-301 | a digit field is what its number is written as |
| `Digits.ValueIsDecimal` | tp-final/contabilidapp-backend/src/main/java/ar/uba/fi/contabilidapp/model/ModelImpl.java:300-301 | a digit field denotes the sum of its digits weighted with powers of ten |
| `Records.FormatThenParseInput` | tp-final/contabilidapp-backend/src/main/java/ar/uba/fi/contabilidapp/model/ModelImpl.java:292-315 | an aggregated line reads back as its client and amount if the amount is below 10^9 cents, and is rejected otherwise |
| `Records.ParseThenFormatInput` | tp-final/contabilidapp-backend/src/main/java/ar/uba/fi/contabilidapp/model/ModelImpl.java:292-315 | reading an input line loses nothing |
| `Records.InputLineLayout` | tp-final/contabilidapp-backend/src/main/java/ar/uba/fi/contabilidapp/model/ModelImpl.java:292-315 | an input line has 81 characters without a line break and digits at 25 to 33, which are its amount in cents; its client code is at 6 to 14 |
| `Records.FormatThenParseControl` | tp-final/contabilidapp-backend/src/main/java/ar/uba/fi/contabilidapp/model/ModelImpl.java:232-238 | a split line is a valid control line with the control fields and the amount of one transaction |
| `Records.ParseThenFormatControl` | tp-final/contabilidapp-backend/src/main/java/ar/uba/fi/contabilidapp/model/ModelImpl.java:265-281 | reading a control line loses nothing |
| `Records.ControlLineLayout` | tp-final/contabilidapp-backend/src/main/java/ar/uba/fi/contabilidapp/model/ModelImpl.java:263-281 | a control line has 67 characters without a line break and an amount with a point before the cents at 46 to 55; its client code is at 0 to 8 |
| `Books.ApplyKeepsConsistent` | tp-final/contabilidapp-backend/src/main/java/ar/uba/fi/contabilidapp/dao/ClientDao.java:44-68 | every data-access call keeps client codes unique and every reference valid |
| `Books.Database.AddUploadPeriod` | tp-final/contabilidapp-backend/src/main/java/ar/uba/fi/contabilidapp/model/ModelImpl.java:54-59 | a new period is open and empty |
| `Books.Database.CloseUploadPeriod` | tp-final/contabilidapp-backend/src/main/java/ar/uba/fi/contabilidapp/dao/UploadDao.java:55-73 | closes an existing period and reports a missing one |
| `Books.Database.FindByCode` | tp-final/contabilidapp-backend/src/main/java/ar/uba/fi/contabilidapp/dao/ClientDao.java:49-53 | finds the one client with the code, or none |
| `Books.Database.AddIfNotPresent` | tp-final/contabilidapp-backend/src/main/java/ar/uba/fi/contabilidapp/dao/ClientDao.java:44-68 | the stored client of the code if there is one, else the new one; never the answer for duplicates |
| `Books.Database.AddInputFile` | tp-final/contabilidapp-backend/src/main/java/ar/uba/fi/contabilidapp/dao/InputFileDao.java:25-40 | adds the file exactly if its period exists and is open |
| `Books.Database.GetAggregatedInputData` | tp-final/contabilidapp-backend/src/main/java/ar/uba/fi/contabilidapp/dao/DaoManager.java:38-59 | one row for each client of the period with the sum of its amounts, in some order |
| `Books.GroupByClient` | tp-final/contabilidapp-backend/src/main/java/ar/uba/fi/contabilidapp/dao/DaoManager.java:40-45 | grouping in one pass gives the sums by client |
| `Books.ItemsAreSorted` | tp-final/contabilidapp-backend/src/main/java/ar/uba/fi/contabilidapp/dao/DaoManager.java:61-83 | the transactions of a period come sorted by file and refer to stored clients |
| `Books.ItemsIgnoreNewClients` | tp-final/contabilidapp-backend/src/main/java/ar/uba/fi/contabilidapp/dao/ClientDao.java:56-59 | storing a new client changes no period |
| `Books.ItemsWithNewFile` | tp-final/contabilidapp-backend/src/main/java/ar/uba/fi/contabilidapp/dao/InputFileDao.java:34-37 | a new file changes its own period only, at the end |
| `Uploads.ParsedAreOk` | tp-final/contabilidapp-backend/src/main/java/ar/uba/fi/contabilidapp/model/ModelImpl.java:66-72 | an upload parses if and only if every nonempty line has the input format |
| `Uploads.EmptyLinesAreSkipped` | tp-final/contabilidapp-backend/src/main/java/ar/uba/fi/contabilidapp/model/ModelImpl.java:66-72 | an upload has the same outcome and effect with its empty lines left out |
| `Uploads.TransactionsAreLines` | tp-final/contabilidapp-backend/src/main/java/ar/uba/fi/contabilidapp/model/ModelImpl.java:66-72 | without empty lines transaction k is what line k says |
| `Uploads.UploadAddsItsLines` | tp-final/contabilidapp-backend/src/main/java/ar/uba/fi/contabilidapp/model/ModelImpl.java:62-75 | an accepted upload adds to each client code of its period the cents that its lines have for the code, and changes no other period |
| `Uploads.RegisterEffect` | tp-final/contabilidapp-backend/src/main/java/ar/uba/fi/contabilidapp/model/ModelImpl.java:254-258 | stored clients are kept, a new code gets the fields of the first line that has it, and every row refers to the client with its line's code |
| `Uploads.UploadEffect` | tp-final/contabilidapp-backend/src/main/java/ar/uba/fi/contabilidapp/model/ModelImpl.java:62-75 | a malformed line refuses the upload and stores nothing; otherwise the clients are stored even when the period is missing or closed, and the rows exactly when it is open |
| `Periods.RunKeepsConsistent` | tp-final/contabilidapp-backend/src/main/java/ar/uba/fi/contabilidapp/dao/ClientDao.java:44-68 | client codes stay unique in every run of interleaved calls |
| `Periods.ClosedPeriodsAreImmutable` | tp-final/contabilidapp-backend/src/main/java/ar/uba/fi/contabilidapp/dao/InputFileDao.java:30-33 | a closed period stays closed and keeps all its transactions and their clients in every run |
| `Periods.ClosedExactlyByClosing` | tp-final/contabilidapp-backend/src/main/java/ar/uba/fi/contabilidapp/dao/UploadDao.java:55-73 | in every run an open period ends up closed if and only if a call closed this very period |
| `Interleaving.ClosedPeriodAnswersStay` | tp-final/contabilidapp-backend/src/main/java/ar/uba/fi/contabilidapp/model/ModelImpl.java:78-205 | whatever runs afterwards, a closed period has the same aggregated files and the same results of any control |
| `Periods.PeriodsOnlyGrow` | tp-final/contabilidapp-backend/src/main/java/ar/uba/fi/contabilidapp/dao/InputFileDao.java:25-40 | transactions are only ever appended to a period, and stored clients never change |
| `Periods.UploadIsRun` | tp-final/contabilidapp-backend/src/main/java/ar/uba/fi/contabilidapp/model/ModelImpl.java:251-262 | an upload is a run of data-access calls, so the run theorems hold of interleaved uploads |
| `ModelImpl.Model.StartUploadPeriod` | tp-final/contabilidapp-backend/src/main/java/ar/uba/fi/contabilidapp/model/ModelImpl.java:54-59 | gives the id of a new open and empty period |
| `ModelImpl.Model.ClosePeriod` | tp-final/contabilidapp-backend/src/main/java/ar/uba/fi/contabilidapp/model/ModelImpl.java:112-114 | closes the period or reports that it is missing |
| `ModelImpl.Model.HandleFileUpload` | tp-final/contabilidapp-backend/src/main/java/ar/uba/fi/contabilidapp/model/ModelImpl.java:62-75 | the loops over lines and transactions compute `Upload`, which skips empty lines |
| `ModelImpl.Model.PersistInputFile` | tp-final/contabilidapp-backend/src/main/java/ar/uba/fi/contabilidapp/model/ModelImpl.java:251-262 | registers the clients one by one before the open check |
| `ModelImpl.Model.GetAggregatedDataFile` | tp-final/contabilidapp-backend/src/main/java/ar/uba/fi/contabilidapp/model/ModelImpl.java:78-99 | an aggregated file of the period: one line for each client, in some order |
| `ModelImpl.Model.ControlPeriod` | tp-final/contabilidapp-backend/src/main/java/ar/uba/fi/contabilidapp/model/ModelImpl.java:168-205 | refuses a malformed control file; otherwise gives an exact error report, its file, and the grouped split of the matched transactions |
| `Aggregates.AggregateConserves` | tp-final/contabilidapp-backend/src/main/java/ar/uba/fi/contabilidapp/dao/DaoManager.java:38-59 | the sums of the aggregated query add up to all the amounts of the period |
| `Aggregates.AggregatedFileParses` | tp-final/contabilidapp-backend/src/main/java/ar/uba/fi/contabilidapp/model/ModelImpl.java:78-99 | the aggregated file is a valid input file exactly when every sum is below 10^9 cents, with one transaction per client |
| `Aggregates.AggregatedFileIsAcceptedIffAmountsFit` | tp-final/contabilidapp-backend/src/main/java/ar/uba/fi/contabilidapp/model/ModelImpl.java:37-40 | uploading a period's aggregated file to an open period succeeds if and only if every client's amount is below 10^9 cents, and otherwise changes nothing |
| `Aggregates.AggregatedFileRoundTrip` | tp-final/contabilidapp-backend/src/main/java/ar/uba/fi/contabilidapp/model/ModelImpl.java:78-99 | accepted into an empty period it gives every client the same amount there, is again an aggregated file of that period, and changes no client and no other period |
| `Aggregates.GroupsDetermineAmounts` | tp-final/contabilidapp-backend/src/main/java/ar/uba/fi/contabilidapp/dao/DaoManager.java:40-45 | the rows of the query, in any order, determine every client's amount |
| `Control.ParseControlFile` | tp-final/contabilidapp-backend/src/main/java/ar/uba/fi/contabilidapp/model/ModelImpl.java:116-132 | computes the records by client code, or refuses a malformed line |
| `Control.RefusedIffMalformed` | tp-final/contabilidapp-backend/src/main/java/ar/uba/fi/contabilidapp/model/ModelImpl.java:116-132 | a control file is refused if and only if a nonempty line of it is malformed |
| `Control.LastLineWins` | tp-final/contabilidapp-backend/src/main/java/ar/uba/fi/contabilidapp/model/ModelImpl.java:121-127 | of the control lines with one code the last is the one kept |
| `Control.RecordHasLine` | tp-final/contabilidapp-backend/src/main/java/ar/uba/fi/contabilidapp/model/ModelImpl.java:121-127 | a code has a record only if a line has it |
| `Control.CollectAmounts` | tp-final/contabilidapp-backend/src/main/java/ar/uba/fi/contabilidapp/model/ModelImpl.java:171-179 | the map holds exactly the period's amount for each code |
| `Control.CompareRecords` | tp-final/contabilidapp-backend/src/main/java/ar/uba/fi/contabilidapp/model/ModelImpl.java:183-195 | every control record, in any order, is filled in and reported once if the amounts differ; what is left are the clients without a record |
| `Control.AddMissing` | tp-final/contabilidapp-backend/src/main/java/ar/uba/fi/contabilidapp/model/ModelImpl.java:197-200 | each client without a record is reported once |
| `Control.ReportsAreErrorReport` | tp-final/contabilidapp-backend/src/main/java/ar/uba/fi/contabilidapp/model/ModelImpl.java:181-200 | a code has an error if and only if the two sides differ on it, and then one, with both amounts |
| `Control.GenerateErrorFile` | tp-final/contabilidapp-backend/src/main/java/ar/uba/fi/contabilidapp/model/ModelImpl.java:134-165 | nothing without errors, else a header and a line for each error in order |
| `Control.ErrorLineReadsBack` | tp-final/contabilidapp-backend/src/main/java/ar/uba/fi/contabilidapp/model/ModelImpl.java:141-161 | a line of the error file reads back as its error: both amounts in the columns of the header, missing or not, whatever their size |
| `Splits.GetSplitFiles` | tp-final/contabilidapp-backend/src/main/java/ar/uba/fi/contabilidapp/model/ModelImpl.java:207-249 | the loop groups the matched transactions by input file, in entries named file1.txt, file2.txt and so on |
| `Splits.EntriesAreInputFiles` | tp-final/contabilidapp-backend/src/main/java/ar/uba/fi/contabilidapp/model/ModelImpl.java:215-244 | each entry holds all lines of one input file, no file is in two entries, and only file1 can be empty, exactly when the period's first input file matches nothing |
| `Splits.NamesAreDistinct` | tp-final/contabilidapp-backend/src/main/java/ar/uba/fi/contabilidapp/model/ModelImpl.java:44-44 | entries with different numbers have different names |
| `Splits.NamesAreNumbered` | tp-final/contabilidapp-backend/src/main/java/ar/uba/fi/contabilidapp/model/ModelImpl.java:216-245 | the entries of the zip are named file1.txt, file2.txt and so on, in order, without leading zeros |
| `Splits.EntryLinesAreTransactions` | tp-final/contabilidapp-backend/src/main/java/ar/uba/fi/contabilidapp/model/ModelImpl.java:222-239 | each entry has, for each matched client, the amounts of its transactions in that input file, in order, and nothing for any other client |
| `Splits.LinesAreRecords` | tp-final/contabilidapp-backend/src/main/java/ar/uba/fi/contabilidapp/model/ModelImpl.java:232-238 | each line of the split has the client code and the other fields of its control record |
| `Splits.SplitIdsMeaning` | tp-final/contabilidapp-backend/src/main/java/ar/uba/fi/contabilidapp/model/ModelImpl.java:224-231 | the files with an entry are the first one and each one with a matched transaction |
| `Splits.SplitIsUnique` | tp-final/contabilidapp-backend/src/main/java/ar/uba/fi/contabilidapp/model/ModelImpl.java:215-244 | the split is determined by the transactions and the records |
| `Splits.LinesAreTransactions` | tp-final/contabilidapp-backend/src/main/java/ar/uba/fi/contabilidapp/model/ModelImpl.java:222-239 | the lines of a matched client are its transactions, amount for amount; no other client has a line |
| `Splits.SplitConserves` | tp-final/contabilidapp-backend/src/main/java/ar/uba/fi/contabilidapp/model/ModelImpl.java:202-249 | the lines of a matched client add up to its control amount |
| `ModelImpl.ControlPartition` | tp-final/contabilidapp-backend/src/main/java/ar/uba/fi/contabilidapp/model/ModelImpl.java:168-205 | each code is either matched, without error and with lines adding up, or differs, with one error carrying the right amounts and no line |
| `ModelImpl.SplitConservesIffNothingAdded` | tp-final/contabilidapp-backend/src/main/java/ar/uba/fi/contabilidapp/model/ModelImpl.java:173-209 | when uploads run between the two queries, a matched client's lines add up if and only if the amounts added to it total zero; in a closed period nothing is added |
| `Interleaving.UploadInBetween` | tp-final/contabilidapp-backend/src/main/java/ar/uba/fi/contabilidapp/model/ModelImpl.java:173-209 | a second upload between the two queries makes a matched client's lines add up to too much, by the amount that it brings |
| `TreeMap.CompareTransitive` | broker/common/ds/implementation/map.c:31-34 | the key comparison is transitive |
| `TreeMap.FindNode` | broker/common/ds/implementation/map.c:25-35 | the recursive search finds the node that the abstract search gives |
| `TreeMap.FindIsLookup` | broker/common/ds/implementation/map.c:25-35 | a search finds a key exactly when the map has it, with its value |
| `TreeMap.InsertNode` | broker/common/ds/implementation/map.c:37-57 | the loop ends and hangs the new node where the search falls off, changing nothing else |
| `TreeMap.InsertedContents` | broker/common/ds/implementation/map.c:37-57 | inserting adds its key and changes no other, and keeps greater keys left |
| `TreeMap.Overwrite` | broker/common/ds/implementation/map.c:86-88 | writes the value of one node in place |
| `TreeMap.UpdatedContents` | broker/common/ds/implementation/map.c:85-89 | replacing a value changes what one key stands for |
| `TreeMap.PlugLinked` | broker/common/ds/implementation/map.c:37-57 | the linked nodes are the whole tree exactly when its parts are linked |
| `TreeMap.InOrderDescends` | broker/common/ds/implementation/map.c:51-56 | read from left to right the keys strictly descend |
| `TreeMap.SizeIsNumberOfKeys` | broker/common/ds/implementation/map.c:97-97 | the number of nodes is the number of distinct keys |
| `TreeMap.Map.Set` | broker/common/ds/implementation/map.c:81-106 | the map becomes the old one with one key set |
| `TreeMap.Map.Get` | broker/common/ds/implementation/map.c:108-114 | gives the value last set for a key that the map has |
| `TreeMap.Map.ContainsKey` | broker/common/ds/implementation/map.c:75-79 | whether the key was set |
| `TreeMap.Map.Count` | broker/common/ds/implementation/map.c:116-119 | the number of distinct keys |
| `Museum.EntranceStepEffect` | museum/src/entranceDoor.c:65-88 | an entrance door keeps places and semaphore in balance and changes the counter only while it holds the semaphore |
| `Museum.ExitStepEffect` | museum/src/exitDoor.c:56-73 | the exit door keeps places and semaphore in balance |
| `Museum.StepKeepsInv` | museum/src/entranceDoor.c:65-88 | every step of a door, a visitor or the administrator keeps the invariant |
| `Museum.PlacesAreConserved` | museum/src/entranceDoor.c:75-87 | in every interleaving the free places and the visitors accepted and not yet counted out are 20, so the counter stays in 0..20 and at most 20 visitors are inside |
| `Museum.ExactlyOneReply` | museum/src/person.c:31-65 | a waiting visitor has exactly one request or reply, at the door it chose |
| `MuseumDoors.Memory.ProcessEntrance` | museum/src/entranceDoor.c:76-86 | lets a visitor in exactly if there is a place and the museum is open, and then takes one place |
| `MuseumDoors.Memory.ProcessExit` | museum/src/exitDoor.c:65-70 | always lets a visitor out and gives one place back |
| `MuseumDoors.EntranceUninterrupted` | museum/src/entranceDoor.c:71-87 | the steps of the entrance door, uninterrupted, are the body of its loop |
| `MuseumDoors.ExitUninterrupted` | museum/src/exitDoor.c:62-72 | the steps of the exit door, uninterrupted, are the body of its loop |
| `Tour.StepKeepsInv` | museum/src/museumApi.h:46-69 | every step of visitors, guide and timer keeps mutual exclusion and the counter's meaning |
| `Tour.CounterIsQueueLength` | museum/src/museumApi.h:46-69 | whenever the counter's semaphore is free, the counter is the number of queued requests, from 0 to 5 |
| `Tour.TurnedAwayIffFiveRegistered` | museum/src/museumApi.h:46-69 | in every run a visitor that looks at the counter is turned away if and only if five are registered |
| `Tour.FiveRegisterTheSixthDoesNot` | museum/src/museumApi.h:46-69 | a run from the initial state in which five visitors register, the fifth wakes the guide, and a sixth is turned away |
| `Tour.GuideIsWokenIff` | museum/src/museumApi.h:55-57 | the guide is woken by the visitor that registers fifth, by the timer when anybody is registered, and by nothing else |
| `Tour.ExactlyOneMessage` | museum/src/museumApi.h:52-60 | a visitor that has sent its request and not got its answer has exactly one message in the system, and any other visitor none |
| `Tour.ToursNeverEnd` | museum/src/guide.c:75-102 | in every run from the initial state a guide that has entered its loop never gets out of it |
| `Tour.NeverReleased` | museum/src/guide.c:82-95 | a guide that finds people waiting never leaves its loop, in any run, and the semaphore is never free again |
| `Tour.GuideReleasesIffNobodyWaits` | museum/src/guide.c:75-102 | a guide that has entered releases the semaphore in some run if and only if nobody is registered |
| `Tour.OneVisitorBlocksTheTour` | museum/src/guide.c:75-102 | from the initial state a single visitor and the timer lead to a guide that never releases the semaphore again |

## Left out

- Process plumbing: forking, signals, shutdown, creation and deletion of queues, semaphores and shared memory, sleeps and logs.
- System V queues: FIFO per address, never full, and a send fails only for an address that is not positive.
- A full local table: its semaphore stays held in `LocalIds`; in the transition system the node's step for that CREATE is not enabled.
- Reuse of client process ids: a client id stands for one process throughout a run, and a client passes its own id to the library.
- Crashes and lost connections of nodes and servers in the transition system; framing covers failed reads and writes.
- Database failures in the transition system, and with them the ACK_ERROR answers to SUBSCRIBE, PUBLISH and DESTROY that they cause; the class methods of `Db`, `DbHandler` and `WorkerProcess` cover them, with a ghost count of failed file operations.
- A file operation that fails leaves its file unchanged; an append cut off in the middle of a line is not modelled.
- Topic names that are empty, contain a newline, a slash or NUL, are `.` or `..`, or equal the temporary file's name; names beyond the length limit.
- Overflow of 32-bit ids, counters and sums.
- WorkerProcess.Worker.GetSubscribed: takes the count that the request leaves unset as 0, because its value is undefined; the lemma `ReplyIsExactUnlessEmpty` gives the condition for every value, also those that lead past the array.
- Ring.ExactDelivery: holds the tables and the topic file fixed during the publish, because copies for users that come and go meanwhile depend on the moment; the bounds on relays need no such assumption.
- Delivery.DeliveryIsExact: holds tables and files fixed between two states of a run, for the same reason; what happens before and after is not restricted.
- Tour.CounterIsQueueLength: the queue holds process ids only, because every message in it is a tour request; the guide's branch for other messages is not modelled.
- Museum.PlacesAreConserved: visitors do not die inside the museum.
- Several workers per server, which the configuration rules out.
- The tour's and the visitors' loops as methods: they are step relations, since what matters is the interleaving.
- The client library as methods: a call is the two events of sending its request and receiving its answer.
- Java library details: the pattern engine, zip bytes, locales, sessions and transaction isolation; each data-access call is atomic.
- The text of files as bytes and line separators: a file is a sequence of lines.
- The raw bytes kept with an uploaded file, and the listings of open and closed periods, which only read the open flag.
- Freeing the map's memory, failed allocation, and the size argument of its constructor.
- `vector_insert_at`, which the broker does not call, and the other containers, which would add only easy members.
- The web front end, its copy of the model classes, and the exercises in `rpc`, `rmi`, `sockets`, `java-ee` and `ejercicioDebug`.
