# EasyCab, verified

A model of the EasyCab taxi dispatcher and proofs about it. Taxis drive on a 20 by 20 map whose edges are joined;
a central server keeps customers, locations and taxis in a database and talks to taxis and customers over two Kafka
topics, `requests` and `responses`; a sensor beside each taxi can make it wait; a socket link with its own frames
connects taxis to their sensors and to the authentication server.

The code that works in place is modelled in place: the server with its database, its topic and the one `response`
object it reuses (`KafkaServer.Server`), the taxi process (`TaxiEngine.Taxi`), the sensor, the authentication server,
the socket handler with its two byte arrays, the map message, the menu cursor, and the loops of the customer, of
`splitLines` and of the codecs. Each of those methods is proved equal to a function of its inputs and its old state,
and the theorems below are about those functions, over every input and every run.

How the parts build on each other:

- `Wrappers`, `Bytes`, `Protocol`: optional values, little-endian integers, the message and the view each reader has of it.
- `Navigation`: the grid, its distance, the taxi's step, and why the greedy walk is optimal.
- `TaxiEngine`: orders, waits, stops and steps of one taxi, and what a trip reports.
- `Database`, `Dispatcher`: the tables with their foreign keys, and every branch of the server's request loop as a
  function from a call to new tables, replies and how the call ends.
- `DispatcherRuns`, `Queueing`, `Mishaps`: invariants and conservation over runs of the server, what becomes of an
  assignment over any run, and runs from empty tables that go wrong.
- `Replies`, `KafkaServer`: the imperative server, whose reused response object does not show.
- `Columns`, `Hearing`, `Headings`: from the messages themselves, what each column holds after any run, who hears what
  of a request, and how the tables and the taxis agree about stops and destinations.
- `Customer`: the handshake and the wait for a service.
- `Service`: server, taxi and both topics together, one service from request to completion under every schedule.
- `Deployment`: the server and taxi objects and the topics of messages, step by step equal to that system.
- `Authentication`, `Announcements`: petitions for one table of taxis, alone and together with the server.
- `LineWrapping`, `Codec`, `MapCodec`, `MessageCodec`, `Framing`, `Sensor`, `Menu`: the other parts.

## Results that are not what one would expect

These follow the code as it is; most of them have the exact condition and a concrete run.

- The queue is never emptied by serving it: the only calls that take a customer out of it are its deletion and the
  order that should give it priority (`Queueing.StaysQueuedIff`), so two taxis can end up carrying the same customer
  (`Mishaps.TwoTaxisCarryOneCustomer`).
- A queued customer's destination is not stored, so it is driven to the one of its previous request
  (`Queueing.QueuedServiceIsHonouredIff`) or refused at its pick-up (`Mishaps.QueuedServiceIsDenied`).
- A taxi counts as free while it carries somebody and while it is on its way to somebody; a customer that is given one
  is fetched exactly when it carries nobody any more and this customer is the last it was given
  (`Queueing.RequesterIsFetchedIff`, `Queueing.BusyTaxiDropsItsPassenger`, `Mishaps.PromisedTaxiIsStolen`).
- An operator's order to drive clears `onboard` of the customer whose id is the taxi's number
  (`DispatcherRuns.CallKeepsCarryingIff`, `Mishaps.RedirectLosesCarrying`).
- An order that names the cell the taxi is passing is answered but not obeyed (`TaxiEngine.RedirectedIff`,
  `TaxiEngine.MidTripOrderIsLost`).
- Some calls end the server by an exception (`Dispatcher.CrashesIff`, `Dispatcher.OrderedTaxiCrashesServer`); the one
  that would reach what C++ leaves undefined cannot come from the authentication server
  (`Announcements.NothingUndefined`).
- A taxi can be acknowledged although it is connected already (`Authentication.AdmitsConnectedIff`,
  `Authentication.BothAcknowledged`).
- A taxi's row does not say where it takes its passenger: it keeps the destination that it came for
  (`Headings.RowHeadsElsewhereIff`).
- The acceptance of a service is published twice when the request is given a taxi at once, and once from the queue
  (`Service.ServiceIsCarriedOut`).

Where a comment in `mysql/initialize.sql` says that the column `service` holds a service, the code stores a customer
id there, and where the name of an operator's order says that a customer gets priority, the code takes it out of the
queue. The model follows the code.

## Model

| member | source | states |
|---|---|---|
| `Navigation.DistanceIsLeastOverWraps` | src/EC_DE/EC_DE.cpp:379-385 | On the grid, the distance is the least L1 distance over all integer wraps of the map, and one wrap attains it. |
| `Navigation.DistanceIsMetric` | src/EC_DE/EC_DE.cpp:381-385 | On the grid, the distance is zero exactly on equal cells, symmetric, and satisfies the triangle inequality. |
| `Navigation.WrapAroundEdge` | src/EC_DE/EC_DE.cpp:411-418 | The truncating remainder and the correction of negatives wrap a step over either edge to the opposite one and change nothing inside. |
| `Navigation.NearestIsFirstMinimum` | src/EC_DE/EC_DE.cpp:406-425 | The scan keeps a cell that no other beats, and the earliest such cell. |
| `Navigation.StepIsBestMove` | src/EC_DE/EC_DE.cpp:387-428 | A step is one of the eight moves, and none of the eight ends nearer to the destination. |
| `Navigation.StepGoes` | src/EC_DE/EC_DE.cpp:387-428 | The step in closed form, for every side of the map: towards the destination on both axes at once, the shorter way round; between two equally long ways it goes up the axis, except along x when it goes down along y. |
| `Navigation.StepStaysInGrid` | src/EC_DE/EC_DE.cpp:410-418 | A step ends on the grid, even from off the grid. |
| `Navigation.StepShrinksBothAxes` | src/EC_DE/EC_DE.cpp:387-428 | The greedy L1 choice shortens each axis distance that is not zero by exactly one, both at once. |
| `Navigation.StepApproaches` | src/EC_DE/EC_DE.cpp:419-427 | Away from the destination a step strictly decreases the distance, and the king-move distance by exactly one. |
| `Navigation.WalksAreLong` | src/EC_DE/EC_DE.cpp:388-397 | No walk of eight-direction wrapped moves, by any strategy, is shorter than the torus Chebyshev distance of its ends. |
| `Navigation.GreedyWalkIsOptimal` | src/EC_DE/EC_DE.cpp:387-428 | For every even side: iterating the step is at the destination after n steps if and only if n is at least the Chebyshev distance, that path is a walk of eight-direction moves, and no such walk is shorter. |
| `Navigation.ArrivesIffDestinationInGrid` | src/EC_DE/EC_DE.cpp:379-428 | A taxi on the map ever arrives if and only if its destination is on the map. |
| `TaxiEngine.Taxi.StepOnce` | src/EC_DE/EC_DE.cpp:387-428 | The loop over the table of directions moves the taxi to the earliest nearest neighbour, with side 20. |
| `TaxiEngine.Taxi.Listen` | src/EC_DE/EC_DE.cpp:101-142 | A response not addressed to the taxi changes nothing; one that is has the effect of its order, and an arrival is published with the taxi's session. |
| `TaxiEngine.Taxi.Attend` | src/EC_DE/EC_DE.cpp:190-212 | A sensor round publishes the reduced wait time, or steps and reports a move or an arrival, or does nothing; and what the sensor is told. |
| `TaxiEngine.RunIsFreeWalk` | src/EC_DE/EC_DE.cpp:120-128 | Whatever waits, stops and continues interleave, position and reports depend only on the number of rounds that nothing blocks. |
| `TaxiEngine.ReportsOfTrip` | src/EC_DE/EC_DE.cpp:200-209 | The reports of a trip of length d are the d-1 cells of the greedy walk in order and then the arrival. |
| `TaxiEngine.OrderedLeg` | src/EC_DE/EC_DE.cpp:106-118 | An order to an idle taxi with enough free rounds ends at the ordered cell, after max(d-1, 0) moves and exactly one arrival carrying that cell. |
| `TaxiEngine.EveryOrderIsReportedOnce` | src/EC_DE/EC_DE.cpp:86-222 | Over any run in which orders to drive find the taxi idle, with waits, stops and continues anywhere: first what is left of the trip it was on, then exactly one trip per order, each whole but for the last, which is reported as far as its free rounds bring it. |
| `TaxiEngine.RedirectedIff` | src/EC_DE/EC_DE.cpp:107-118 | An order takes effect unless it names the current cell while the taxi is on its way elsewhere. |
| `TaxiEngine.MidTripOrderIsLost` | src/EC_DE/EC_DE.cpp:109-117 | A concrete run in which such an order is acknowledged as reached and the taxi then drives on to the old destination. |
| `TaxiEngine.StoppedAsOrdered` | src/EC_DE/EC_DE.cpp:120-128 | After any events, the taxi is stopped exactly as the last order to stop or to continue that it read says. |
| `TaxiEngine.StoppedTaxiStays` | src/EC_DE/EC_DE.cpp:200-209 | A stopped taxi stays where it is until it reads an order to continue, whatever else it is ordered and whatever the sensor sends. |
| `TaxiEngine.DrivingMeansMoving` | src/EC_DE/EC_DE.cpp:212 | What the sensor is told is true if and only if the taxi moves in its next round without a wait time. |
| `TaxiEngine.BaseIsReached` | src/EC_DE/EC_DE.cpp:130-133 | After an order to return to base, enough free rounds bring the taxi to the corner of the map, whatever stops and continues come between. |
| `TaxiEngine.EndsIffDisconnected` | src/EC_DE/EC_DE.cpp:135-138 | After any events, the taxi has been told to end if and only if it was so before or read a disconnection. |
| `Dispatcher.CrashesIff` | src/EC_Central/KafkaServer.cpp:538-559 | A call is not served if and only if a stated condition on the tables before it fails; it reaches an access behind the end of an empty row, which C++ leaves undefined, if and only if a customer waits when a taxi without a row announces itself, and ends in an exception otherwise. |
| `Dispatcher.OrderedTaxiCrashesServer` | src/EC_Central/KafkaServer.cpp:156-161 | Ordering a taxi that never had a customer somewhere ends the server when the taxi arrives. |
| `Announcements.ViewsAgree` | src/EC_Central/AuthServer.cpp:91-139 | Over every run of petitions and served calls from an empty table of taxis, the connected column is what the petitions take it to be, and they behave as they do alone. |
| `Announcements.NothingUndefined` | src/EC_Central/KafkaServer.cpp:67-80 | As long as taxis are announced by the authentication server, no call ever reaches the access to an empty row. |
| `DispatcherRuns.PickUpKeepsCarryingIff` | src/EC_Central/KafkaServer.cpp:616-625 | Taking a customer aboard keeps the carrying invariant if and only if nobody carries it and it stands where the taxi does. |
| `DispatcherRuns.RedirectKeepsCarryingIff` | src/EC_Central/KafkaServer.cpp:251-270 | An operator's order keeps the invariant if and only if no other taxi carries a customer whose id is this taxi's number. |
| `DispatcherRuns.CallKeepsCarryingIff` | src/EC_Central/KafkaServer.cpp:66-326 | For every request, the carrying invariant (a carried customer exists, is onboard, shares its taxi's cell, and has one taxi) survives if and only if the request is safe in a sense checkable before it. |
| `DispatcherRuns.AlwaysCarryingIffSafe` | src/EC_Central/KafkaServer.cpp:43-331 | Over every run, including the authentication server's writes, the invariant holds throughout if and only if every event is safe. |
| `DispatcherRuns.EventBalance` | src/EC_Central/KafkaServer.cpp:82-93 | Each event changes the number of rows for an id by the acceptances it publishes less the deletions it performs. |
| `DispatcherRuns.AdmissionsAreConserved` | src/EC_Central/KafkaServer.cpp:447-472 | After any run, the rows for an id are those before it plus the acceptances published for it less its deletions: from empty tables, that balance is one if the row exists and zero if not, in every reachable state. |
| `DispatcherRuns.FirstTaggedIsVerdict` | src/EC_Central/KafkaServer.cpp:447-472 | The first response that carries a fresh uuid is the verdict on that uuid's own request: an acceptance exactly when the id was free, and then its row is there. |
| `Queueing.StaysQueuedIff` | src/EC_Central/KafkaServer.cpp:492-516 | A queued customer stays queued after a request if and only if the request is neither its priority order nor its deletion. |
| `Queueing.QueuedThroughout` | src/EC_Central/KafkaServer.cpp:492-507 | A run without those two leaves it queued, however often it is served. |
| `Queueing.LongestWaitingIsServed` | src/EC_Central/KafkaServer.cpp:492-507 | A taxi that becomes available, new, back again or at the end of a service, which it completes first, is sent to a customer that has waited longest, who is told so; to nobody if nobody waits. |
| `Queueing.QueuedServiceIsHonouredIff` | src/EC_Central/KafkaServer.cpp:213-230 | Over any run between a queued request and the arrival of an empty taxi assigned to the customer, the two are told by the destination stored last, before the request or by an event since: the customer is driven where it asked if and only if that destination is at the same place. |
| `Queueing.RequesterIsFetchedIff` | src/EC_Central/KafkaServer.cpp:139-178 | Over any run between a request that is given a taxi and that taxi's next arrival: the customer is taken aboard if and only if the taxi carried nobody at the request or was redirected since, was given to this customer last, and the customer still has a row; it is told so if and only if that row still stores a destination, and refused otherwise; a passenger's service is declared complete instead. |
| `Queueing.RunStores` | src/EC_Central/KafkaServer.cpp:527-535 | Over every run, a customer's row and its stored destination are what its admissions, its deletions and its requests that were given a taxi leave, in turn. |
| `Queueing.RunReassigns` | src/EC_Central/KafkaServer.cpp:538-559 | Over every run without an arrival of a taxi, whom it comes for is whom it was given last, and it still carries its passenger unless an operator's order redirected it. |
| `Queueing.BusyTaxiDropsItsPassenger` | src/EC_Central/KafkaServer.cpp:474-490 | The failing case: a request is given a taxi that is carrying somebody, who is then told that the service is complete at the new customer's cell. |
| `Mishaps.PromisedTaxiIsStolen` | src/EC_Central/KafkaServer.cpp:474-490 | A run from empty tables, with answers the database would give, in which an empty taxi is promised to one customer, given to another before it comes, and fetches the other: the first is neither aboard nor queued. |
| `Mishaps.RedirectLosesCarrying` | src/EC_Central/KafkaServer.cpp:257-260 | A run from empty tables, with answers the database would give, after which taxi 2 carries a customer that an order to taxi 1 marked as not onboard. |
| `Mishaps.QueuedServiceIsDenied` | src/EC_Central/KafkaServer.cpp:218-220 | A run in which a customer that asked for an existing location is refused at its pick-up. |
| `Mishaps.TwoTaxisCarryOneCustomer` | src/EC_Central/KafkaServer.cpp:492-507 | A run in which two taxis are assigned to the same queued customer and both end up carrying it. |
| `Replies.RepresentationsLookAlike` | src/EC_Central/KafkaServer.h:26 | Two topics whose messages hold the same subjects and relevant fields give every taxi the same orders and every customer the same notices, whatever stale fields they carry. |
| `KafkaServer.Server.AssignTo` | src/EC_Central/KafkaServer.cpp:538-559 | The assignment's new tables, its two messages in order with their fields set in this step, and the exception when no destination can be read back. |
| `KafkaServer.Server.OnReached` | src/EC_Central/KafkaServer.cpp:122-181 | Drop-off with the next assignment from the queue, pick-up with the onward order or the refusal, or the exception, with the exact messages of each. |
| `KafkaServer.Server.OnServiceRequest` | src/EC_Central/KafkaServer.cpp:213-230 | Enqueued, refused for an unknown location, or assigned, with the exact tables and messages, including the second acceptance. |
| `KafkaServer.Server.OnNewCustomer` | src/EC_Central/KafkaServer.cpp:447-472 | Accepted with the server's session in the data, or denied, always tagged with the request's session. |
| `KafkaServer.Server.OnRedirect` | src/EC_Central/KafkaServer.cpp:251-270 | Both statements of an operator's order, and the order sent to the taxi. |
| `KafkaServer.Server.OnPlainRequest` | src/EC_Central/KafkaServer.cpp:183-321 | The remaining branches change exactly their column and send exactly their message. |
| `KafkaServer.Server.Process` | src/EC_Central/KafkaServer.cpp:52-326 | One round of the loop: a filtered message changes nothing; any other has the tables, replies and exception of its call, whatever the response object held before, and every message sent carries the session of the last admission request. |
| `KafkaServer.Server.Start` | src/EC_Central/KafkaServer.cpp:43-331 | The whole loop, interleaved with the authentication server's writes: tables and topic are those of the run of its events, up to the first call that is not served, which ends it in its own way; without one, every turn is taken. |
| `KafkaServer.Server.ReuseIsInvisible` | src/EC_Central/KafkaServer.h:26 | At any time, no taxi and no customer can tell the topic from one in which every reply was built from a new message. |
| `KafkaServer.Server.ReuseIsInvisibleToHandshakes` | src/EC_Central/KafkaServer.cpp:447-472 | At any point of the loop, a customer that shakes hands with a new session takes the same verdict and the same text from the topic as from one built with a new message per reply. |
| `Protocol.PassesWithoutSessionIff` | src/EC_Central/KafkaServer.cpp:16-26 | A message with another session is acted on if and only if its subject is one of the nine requests, which are named one by one. |
| `Hearing.ForeignMessageIsSkipped` | src/EC_Central/KafkaServer.cpp:59-61 | Any other message with another session leaves the tables as they are and is answered by nothing. |
| `Hearing.StrayTaxiIsDisconnected` | src/EC_Central/KafkaServer.cpp:426-431 | What the check for strays sends for a taxi, written without a session and read back whatever memory follows it, leaves the taxi's row disconnected, and exactly that taxi hears of it. |
| `Hearing.StrayCustomerIsDisconnected` | src/EC_Central/KafkaServer.cpp:435-441 | The same for a customer, whose row is deleted if and only if no taxi carries it, and who hears of it either way. |
| `Hearing.NoTaxiMeansQueued` | src/EC_Central/KafkaServer.cpp:218-220 | A request for a service without a free taxi: whatever stale fields the message has, its customer hears exactly that it is queued, nobody else hears anything, a row that exists is queued at that time and nothing else changes. |
| `Hearing.UnknownPlaceMeansDenied` | src/EC_Central/KafkaServer.cpp:222-223 | One with a free taxi, a row and no such location: its customer hears exactly that it is refused, nobody else hears anything, and the tables are unchanged. |
| `Hearing.FreeTaxiMeansAccepted` | src/EC_Central/KafkaServer.cpp:538-559 | One with a free taxi, a row and a known location: exactly that taxi is sent to the customer's cell, exactly that customer hears, twice, that this taxi comes. |
| `Hearing.QueuedCustomerKeepsWaiting` | src/EC_Customer/EC_Customer.cpp:168-170 | Over every run after it was queued, the customer waits on exactly until a disconnection, a completion or a refusal is published for it, and the wait ends as it would have without the queue. |
| `Hearing.TaxiOrdersAreHeard` | src/EC_Central/KafkaServer.cpp:251-296 | An operator's order to a taxi is heard by that taxi alone, as the order that it is. |
| `Hearing.CustomerOrdersAreHeard` | src/EC_Central/KafkaServer.cpp:82-93 | A deletion and a priority order are heard by that customer alone, as what they are. |
| `Hearing.ReportsAreSilent` | src/EC_Central/KafkaServer.cpp:183-249 | A ping, a move, a change of ready, wait time or next request, and a location's move are answered by nothing and always served. |
| `Hearing.StopsAgree` | src/EC_Central/KafkaServer.cpp:272-296 | Over every run of the server and of a taxi that has read all its orders: the row is stopped if and only if the taxi is, and both exactly if the last order to stop or to continue served for it was one to stop. |
| `Columns.StatusIsLast` | src/EC_Central/KafkaServer.cpp:95-296 | After every run of messages and of the authentication server's writes: a taxi's position, connected, stopped, ready and wait time are what the last message that says so left, its own reports counting only with the server's session. |
| `Columns.CustomerIsLast` | src/EC_Central/KafkaServer.cpp:82-321 | After every run: a customer has a row, is queued since, and is due for its next request as the last message that says so left it. |
| `Columns.PlaceIsLast` | src/EC_Central/KafkaServer.cpp:298-307 | After every run, a location is where the last order moved it, and no location comes or goes. |
| `Headings.RowHeadsWhereTold` | src/EC_Central/KafkaServer.cpp:251-270 | Over every run in which a taxi takes nobody aboard, the destination in its row is the cell of the last order to drive that the taxi is sent. |
| `Headings.RowHeadsElsewhereIff` | src/EC_Central/KafkaServer.cpp:164-178 | At a pick-up the row keeps its destination while the taxi is sent on: the two agree if and only if the customer's destination is that cell, or there is none. |
| `Customer.Handshake` | src/EC_Customer/EC_Customer.cpp:77-97 | The polling loop is accepted if and only if the first message with its uuid, before five polls have timed out, is an acceptance; it gives up if and only if that message is something else, or five polls time out without one; otherwise it polls on. |
| `Customer.HandshakeEndsIff` | src/EC_Customer/EC_Customer.cpp:77-97 | An accepted handshake takes the session from the data of that first message, and the three ends are told apart for every sequence of polls. |
| `Customer.HandshakeIsOwnAdmission` | src/EC_Customer/EC_Customer.cpp:70-97 | A handshake succeeds only after its own insertion, at its coordinate, and with the server's session; and it does succeed when its request inserted the row and the verdict comes in time. |
| `Customer.AskService` | src/EC_Customer/EC_Customer.cpp:121-177 | The loop returns false when the first disconnection, completion or refusal addressed to the customer is a disconnection, true when it is one of the other two, and waits on when there is none. |
| `Customer.WaitEndsIff` | src/EC_Customer/EC_Customer.cpp:134-177 | For every topic: the wait goes on if and only if no disconnection, completion or refusal is addressed to the customer; the first of them ends it, with false for a disconnection and true for the other two. |
| `Customer.Ask` | src/EC_Customer/EC_Customer.cpp:117-119 | The server takes the request that is sent for a request of this customer for exactly the service asked for. |
| `Service.ServiceIsCarriedOut` | src/EC_Central/KafkaServer.cpp:122-230 | Under every schedule of server, taxi, sensor and everybody else's calls (other taxis' moves and arrivals, other customers' admissions, requests and deletions, other locations' moves, reports and orders to others), a service is finished exactly when a fixed number of active events has happened: customer and taxi at the location, the taxi having made exactly the two Chebyshev distances of moves, and the notices accepted, accepted, picked up, completed; and before that never anything but a prefix of them. |
| `Service.CustomerWaitsUntilFinished` | src/EC_Customer/EC_Customer.cpp:42-45 | In every stage of a service the customer's wait goes on until the service is finished, and then ends with true. |
| `Service.StagesInOrder` | src/EC_Customer/EC_Customer.cpp:138-170 | In every stage the customer has heard a prefix of those notices, and the taxi has not driven further than it must. |
| `Service.EventStep` | src/EC_DE/EC_DE.cpp:106-118 | Every possible event keeps the service in one of its stages and uses up exactly the work it should. |
| `Service.ServiceNeverSticks` | src/EC_Central/KafkaServer.cpp:43-331 | After any schedule there is one that finishes the service, as long as no other taxi's arrival and no other customer's request is waiting to be served. |
| `Service.HarmlessServed` | src/EC_Central/KafkaServer.cpp:66-326 | A call about other taxis, customers and locations leaves the rows of the service as they are, and every message that it sends is for somebody else. |
| `Deployment.World.Play` | src/EC_DE/EC_DE.cpp:86-222 | Any schedule of the server object, the taxi object and permitted publishers over topics of messages is a run of the typed system; so when it starts a service, the customer hears the stages in order, waits until the service is finished and goes on then, and the service is finished exactly when its active events have happened. |
| `Deployment.World.Finish` | src/EC_DE/EC_DE.cpp:86-222 | Left to themselves, the server and taxi objects bring a service to its end from every stage it can be in. |
| `Deployment.World.TakeServerTurn` | src/EC_Central/KafkaServer.cpp:43-61 | Consuming a message that the server skips changes nothing; one that it acts on is the typed system's dispatch, with the taxi reading exactly the new orders. |
| `Deployment.World.ListenToServer` | src/EC_DE/EC_DE.cpp:91-142 | Consuming a response for somebody else changes nothing; one for the taxi is the typed system's delivery, and what it publishes passes the server's session check. |
| `LineWrapping.SplitLines` | src/Common/Common.cpp:207-221 | The loop's lines are those of the greedy rule, and no more than those of any layout that fits. |
| `LineWrapping.WrappingKeepsText` | src/Common/Common.cpp:207-221 | Joining the lines with spaces gives the text less one trailing space, and a line too long is a single word. |
| `LineWrapping.StaysAhead` | src/Common/Common.cpp:213-217 | Wrapping the words of any fitting layout uses at most as many lines as the layout. |
| `LineWrapping.GreedyIsLineMinimal` | src/Common/Common.cpp:207-221 | Among all layouts of a text's words into lines where every line of two or more words fits, none has fewer lines. |
| `LineWrapping.GreedyIsLayout` | src/Common/Common.cpp:207-221 | The greedy lines are such a layout themselves, so the minimum is attained. |
| `Codec.Writer.StoreValue` | src/Common/Protocols.cpp:15-22 | Storing at the end of the buffer appends the value, leaves the rest alone and keeps the offset at the end. |
| `Codec.Reader.ExtractValue` | src/Common/Protocols.cpp:35-42 | Extracting takes the next bytes and moves past them. |
| `Bytes.DigitAt` | src/Common/Protocols.cpp:15-22 | The i-th byte of a written integer is its i-th digit to the base 256, from the lowest, for either sign. |
| `MapCodec.CutFlat` | src/Common/Protocols.cpp:149-162 | Records laid end to end and cut at their width are the same records, and the cut stops right behind them. |
| `MapCodec.TaxiRoundTrip` | src/Common/Protocols.h:170-179 | A taxi record with fields of the C++ widths survives its 32 bytes. |
| `MapCodec.MapRoundTrip` | src/Common/Protocols.cpp:116-163 | Reading a written map gives its three lists back in order and uses the buffer up exactly. |
| `MapCodec.Map.Serialize` | src/Common/Protocols.cpp:116-135 | The three store loops write the counts and the records, with the offset at the buffer's end throughout. |
| `MapCodec.Map.Deserialize` | src/Common/Protocols.cpp:137-163 | The extract loops append what the buffer holds to whatever the map held before. |
| `MessageCodec.HeaderSurvives` | src/Common/Protocols.cpp:165-188 | Subject, id, taxi and coordinate read back whatever the session's length and whatever follows. |
| `MessageCodec.MessageRoundTripIff` | src/Common/Protocols.cpp:165-188 | A message survives the wire if and only if its session has 36 characters, whatever memory follows it. |
| `MessageCodec.OrdersSurviveAnySession` | src/EC_Central/KafkaServer.cpp:426-441 | The server acts on an operator's order or a stray check's order all the same when it carries no session. |
| `Framing.CorruptedFrameAcceptedIff` | src/Common/Socket/SocketHandler.cpp:141-193 | For every data frame and every error pattern: with the first byte intact, the frame is accepted if and only if the end mark is intact and the errors cancel out; otherwise, if and only if it reads as a control frame. |
| `Framing.SingleErrorsAreCaught` | src/Common/Socket/SocketHandler.cpp:179-189 | Every error in one byte behind the first is rejected. |
| `Framing.DoubleErrorsPassIff` | src/Common/Socket/SocketHandler.cpp:179-189 | Two errors behind the first byte pass if and only if they are equal and spare the end mark. |
| `Framing.LinkDelivers` | src/Common/Socket/SocketHandler.cpp:195-220 | Over any sequence of writes and control characters, with the buffer filled in between, the receiver sees exactly the sent payloads and characters, in order. |
| `Framing.CodesDecode` | src/Common/Protocols.h:76-87 | Every control character is decoded as itself and as no other, and only their codes pass the check. |
| `Framing.ReadShowsOneIffAccepted` | src/Common/Socket/SocketHandler.cpp:222-228 | A read shows neither data nor a control character if and only if the frame was rejected. |
| `Framing.SocketHandler.WriteToSocket` | src/Common/Socket/SocketHandler.cpp:195-214 | The buffer becomes the sealed data frame and is what is written; on a closed socket nothing is. |
| `Framing.SocketHandler.SendControlChar` | src/Common/Socket/SocketHandler.cpp:216-220 | The same for a control frame, which overwrites the first byte of the payload. |
| `Framing.SocketHandler.ReadFromSocket` | src/Common/Socket/SocketHandler.cpp:158-228 | A read succeeds exactly when a frame arrives and passes the checks, and the data then shows it; otherwise it shows neither kind. |
| `Sensor.NeverNegative` | src/EC_SE/EC_SE.cpp:155-158 | Under every interleaving with the menu, the counter and every wait time sent stay nonnegative, though check and decrement lock separately. |
| `Sensor.CountdownAfterSetting` | src/EC_SE/EC_SE.cpp:145-177 | After the last setting of n the reports count down by one from n or n-1, exactly that many of them are positive, and which of the two depends only on where the setting fell. |
| `Sensor.ReportsKeepComing` | src/EC_SE/EC_SE.cpp:145-159 | A report comes at least every third step, so the countdown ends. |
| `Sensor.WaitTimesDelayTheTaxi` | src/EC_DE/EC_DE.cpp:193-200 | Each positive wait time makes a driving taxi skip exactly one step of its walk. |
| `Sensor.WaitTimeIsForecast` | src/EC_DE/EC_DE.cpp:196-199 | While the menu is quiet, the wait time that the taxi passes on to the server is the one that the sensor sends next. |
| `Authentication.RunKeeps` | src/EC_Central/AuthServer.cpp:91-139 | Every interleaving of petitions keeps: a row was announced once, or one petition is about to announce it; and reconnections are of known rows. |
| `Authentication.AnnouncedOnce` | src/EC_Central/AuthServer.cpp:114-139 | From an empty table, under every interleaving, a taxi is announced as new at most once, exactly once when its row exists and no announcement is pending, and a reconnection is of a known row. |
| `Authentication.AdmitsConnectedIff` | src/EC_Central/AuthServer.cpp:91-125 | From an empty table, under every interleaving, a write that is let in finds its taxi connected already if and only if it is a reconnection and, since its petition's check, another write let the taxi in with no disconnection after it. |
| `Authentication.AcknowledgedOnce` | src/EC_Central/AuthServer.cpp:114-139 | From an empty table, under every interleaving, a taxi that is never disconnected is acknowledged at most once. |
| `Authentication.AcknowledgedIsAnnounced` | src/EC_Central/AuthServer.cpp:127-138 | From an empty table, under every interleaving, the announcements of a taxi, as new or as reconnected, are as many as its acknowledgements. |
| `Authentication.BothAcknowledged` | src/EC_Central/AuthServer.cpp:59-69 | A run from an empty table in which the second of two petitions is let in although the taxi is connected, and both are acknowledged. |
| `Authentication.AuthServer.AttendPetition` | src/EC_Central/AuthServer.cpp:59-69 | When nobody interrupts, an acknowledgement means that the taxi was not connected before and is after, and was announced as what it was. |
| `Menu.Cursor.HoverNext` | src/Common/Ncurses/Window.cpp:151-161 | With at least one entry, the cursor lands on the first entry below, around the end. |
| `Menu.Cursor.HoverPrevious` | src/Common/Ncurses/Window.cpp:163-173 | With at least one entry, the cursor lands on the first entry above, around the end. |
| `Menu.KeysUndoEachOther` | src/Common/Ncurses/Window.cpp:151-173 | On an entry, each key undoes the other. |
| `Menu.KeyVisitsEveryEntry` | src/Common/Ncurses/Window.cpp:151-161 | As many presses as there are entries visit each entry exactly once and return to the start. |

## Left out

- The foreign key of the column `service` (`mysql/initialize.sql:54`): the code stores a customer id there (`src/EC_Central/KafkaServer.cpp:541`) while the schema points it at locations, so an assignment would fail under the schema unless a location had the customer's id. The model keeps the customer id and drops that key; the keys of the carried customer and of the destination are modelled.
- MySQL itself: a statement fails only on a key or a foreign key of the model. Ids compare exactly, without the case folding of MySQL's default collation.
- The clock: `NOW()` and what the queries without a total order return are parameters, constrained by what the query asks (`Database.Answers`). The comparison of `wait_time` with a time in the search for a free taxi is taken as true for every row.
- `last_update`, pings' effect on it and the timing of the stray checks: their disconnect orders are arbitrary calls.
- Kafka: topics are sequences read from their start in order; nothing is lost or repeated. Sockets deliver whole frames in order, and a write to an open socket succeeds.
- The dangling span that `getData` returns without data: the wait time that the taxi reads is a parameter of each round.
- Reads past the end of a message shorter than 95 bytes: what lies there is the parameter `beyond` of the message theorems. A map that announces more records than it holds is excluded by `MapCodec.Readable`, which the code does not check either.
- Struct padding and the layout of `std::variant`: records have their usual sizes with zero padding.
- Service.ServiceIsCarriedOut: the query for a free taxi answers this service's request with this service's taxi and everybody else's with another one, and nobody else's call ends the server; what happens when the taxi is given away is `Queueing.RequesterIsFetchedIff`. The customer's own second request and orders to the taxi are not among the schedules. The last two notices come once each and the acceptance twice, because the code publishes it twice.
- Service.ServiceNeverSticks: another taxi's arrival or another customer's request can be one that ends the server or finds no other taxi, so none may be waiting; `Service.QuietRun` says that only somebody else can put one there.
- Deployment.World.Play: the customer is in it by the messages it publishes; its own loop is `Customer.AskService`.
- TaxiEngine.EveryOrderIsReportedOnce: orders come to an idle taxi; what an order in mid-trip does is stated by `TaxiEngine.RedirectedIff` for one order only.
- DispatcherRuns.AlwaysCarryingIffSafe: a call that ends the server is followed by the run as if the process had been started again on the same tables; `KafkaServer.Server.Start` says where the loop ends.
- Sensor.CountdownAfterSetting: the menu may set any positive time at any moment, which includes the three times it offers while the taxi moves.
- Authentication.AnnouncedOnce: a petition's database error other than a key failure is not modelled.
- Integer widths outside the codecs: ids and coordinates are unbounded, so overflow of a coordinate near the end of its range is not modelled. `short` and `int` matter where they are serialised, and there they are explicit.
- The end of the taxi's and the sensor's threads after an order to stop for good: their runs may go on, which includes the runs that end.
- The cursor over query results (`DbResults`), `refreshMap`, and the log codec: loops that copy rows or fields in order would only add easy members.
- The client side of authentication in `EC_DE.cpp`, the graphical interfaces, drawing of windows and tables, the weather client and the registry: input, output and user interface.
- `Menu::setOptions` with a cursor beyond the new options: the keys require the cursor to be on an option.
