# Verified model of the SCADA core

This project models the parts of the SCADA client/server core that have the hardest properties, and
proves those properties for every input, every run or every reachable state. It has three groups.

**The subscription and request protocol.** A client (`SessionProxy`, its `SubscriptionProxy` and the
`MonitoredItemProxy` objects) talks to a server (`SessionStub`, `SubscriptionStub`) over two ordered
channels that are dropped when the connection is lost. `SubscriptionClient` gives each client handler as
a function, `SubscriptionProtocol` joins client, server and channels to a step relation, and
`SubscriptionAgreement` proves what holds in every run. `SubscriptionDelivery` proves over whole runs that
every request is answered, every report sent and nobody left waiting, and `SubscriptionMeaning` says what
each message and each end of a session does to the items. `SubscriptionProxies` and `SubscriptionStubs`
write the handlers with fields and loops; those that an event reaches carry the invariant and say what
they mean for their caller. `Requests` is the table of pending requests, with ids that wrap and handlers
that issue new requests while the table is torn down. `SendBuffer` is what a session does with messages
while it has no connection.

**Server session ownership.** `Sessions` is the session map of `RemoteSessionManager` and the raw
pointers `ServerConnection` and `SessionStub` hold to each other, under racing logons and teardowns;
`SessionServer` writes its handlers with fields, each with the invariant and with what it means for the
logons.

**Self-contained algorithms.** CSV writing and reading (`CsvFormat`, `CsvFiles`, `CsvRoundTrip`,
`StringUtil`), interval sets (`Intervals`), length-prefixed framing (`Framing`), observer lists that
change while they are iterated (`Observers`), the completion gate (`Completion`), the asynchronous cache
(`Cache`), the word-at-a-time ASCII check (`AsciiCheck`), event coalescing (`EventQueue`) and
percent-escaping (`Uri`). `DataValues` and `Collections` hold what several modules share.

A failed `base::Check` ends the process. Where a property says that no check fails, the model records a
failed check in a flag (`panicked`, `crashed`) and the property says that the flag is never set; elsewhere
a check is a precondition. User callbacks, clocks and the answers of authentication and of the monitored
services are parameters or steps of the environment. All handlers of one side run on one executor, so a
handler is one atomic step; authentication is the one point where a server handler is suspended.

Some properties do not hold for all inputs. For each of these there is an exact condition and a lemma or
method with an input that fails:

- A run fails a check exactly when it loses a session in which an item is alive and the subscription is not
  created (`SubscriptionAgreement.PanicCondition`, `SubscriptionAgreement.ClosingWhileCreatingPanics`).
- A single message fails a check of the client exactly when it announces an id that is registered already or
  is a notification for an item of the other kind (`SubscriptionProtocol.DispatchFailsIff`); none of these is
  ever sent by the server (`SubscriptionAgreement.MessagesAreAcceptable`).
- A registered event item is held or its end is on the way exactly when its end was not muted, that is,
  exactly when no bad status without a convertible event was raised for it in this session
  (`SubscriptionAgreement.EventAgreement`, `SubscriptionAgreement.MutedIff`,
  `SubscriptionAgreement.MutedItemStays`).
- Server ownership holds all along a run exactly when no logon ends on a connection that already has a
  session, other than one which that logon takes out of the map and which dies at once
  (`Sessions.OwnershipCondition`, `Sessions.SecondLogonCrashes`). A peer that sends one CreateSession per
  connection never gets there (`Sessions.OneLogonEach`).
- Every request handler waits or has been called exactly once, exactly when no handler was stored a multiple
  of INT_MAX requests after one still pending (`Requests.HandlersFireOnce`, `Requests.HandlerIsLost`).
  Responses reach only their own handlers exactly when none was read while a handler a multiple of INT_MAX
  requests away was pending (`Requests.ResponsesFindTheirHandler`, `Requests.ResponseIsMisdirected`). Fewer
  than INT_MAX requests since any pending or unanswered one is enough for both (`Requests.RoomIsEnough`).
- A table survives CSV exactly when no row is without cells and the last is not a single empty cell
  (`CsvRoundTrip.TableRoundTrip`, `CsvRoundTrip.BlankRowFails`); a delimiter works for every such table
  exactly when it is not quote, CR, LF or NUL (`CsvRoundTrip.DelimitersThatWork`, `CsvRoundTrip.NulFails`).
- A signature equal to the first cell finds the delimiter exactly when that cell is not empty and needs no
  quotes, or the delimiter is the comma and the cell is not made of quotes alone
  (`CsvRoundTrip.SignatureFindsDelimiter`, `CsvRoundTrip.QuoteSignatureFails`,
  `CsvRoundTrip.QuotedSignatureFails`).
- Interval lookup is right for every query exactly when neighbours have a gap or end together
  (`Intervals.LookupCondition`, `Intervals.TouchingMissed`).
- A valid interval list can be searched for every bound exactly when its ends are in order
  (`Intervals.SearchCondition`). Union on any valid list that can be searched for the new start keeps every
  point exactly when the rest of the list reaches, without a gap, as far as the merged intervals did
  (`Intervals.UnionIntervals`, `Intervals.MergeCondition`, `Intervals.NestedLoses`).
- A read loop gets every payload exactly when none is empty or larger than the buffer
  (`Framing.AllReceived`, `Framing.BadPayloadHides`).
- The null count of an observer list equals its empty slots, plus one for every removal of the null
  pointer itself that found an empty slot (`Observers.ObserverList.RemoveNull`,
  `Observers.NullCountedTwice`).
- Percent-escaping is inverted on a text exactly when the rules allow every escape in it to be undone
  (`Uri.RoundTrip`), and on all texts exactly under the condition of `Uri.WhichCharmapsWork`
  (`Uri.BarePercentFails`, `Uri.ForbiddenFails`).

`Uri.QueryCharmap` and `Uri.PathCharmap` prove that the two bit tables of `base/uri.cpp` hold exactly the
bytes their comments name.

## Model

| member | source | states |
|---|---|---|
| SubscriptionAgreement.EveryRun | remote/session_proxy.cpp:192-483 | in every run of client, server and channels in which each session that is lost has its subscription created or no item alive, the whole protocol invariant holds and no check has failed |
| SubscriptionAgreement.PanicCondition | remote/session_proxy.cpp:192-483 | a run fails a check if and only if it loses a session in which an item is alive and the subscription is not CREATED |
| SubscriptionAgreement.ClientRegistration | remote/monitored_item_proxy.cpp:34-248 | in every such run the observer map sends id k to item x exactly when x is alive and CREATED with id k, and a live item's channel is open exactly when the subscription is CREATED |
| SubscriptionAgreement.CloseIsCheckFree | remote/subscription_proxy.cpp:105-120 | after every such run a disconnect fails a check if and only if some item is alive and the subscription is not CREATED |
| SubscriptionAgreement.ClosingWhileCreatingPanics | remote/subscription_proxy.cpp:105-120 | the run "create item, connect, disconnect" fails a check |
| SubscriptionAgreement.ItemBeforeSubscription | remote/subscription_proxy.cpp:31-48 | an item made before the connection is closed while the subscription is being created, so that a disconnect would fail a check |
| SubscriptionAgreement.AnItemIsRegistered | remote/monitored_item_proxy.cpp:39-187 | for either kind of item, a run of connect, create, subscribe and answer registers it at the client while the server holds it, so the theorems about registered items speak of reachable states |
| SubscriptionAgreement.ValueAgreement | remote/subscription_stub.cpp:63-162 | in every such run a value item id registered at the client was issued by the server in this session, and is held there, or its bad value is on the way, or the client's cached value is that bad value |
| SubscriptionAgreement.NotificationsAreRouted | remote/session_proxy.cpp:438-472 | a notification that arrives finds its item registered, or the client has dropped that id for good, and never both |
| SubscriptionAgreement.EventAgreement | remote/subscription_stub.cpp:164-222 | in every such run an event item id registered at the client was issued in this session, and is held by the server or its bad event is on the way, if and only if its end was not muted |
| SubscriptionAgreement.MutedIff | remote/subscription_stub.cpp:164-222 | an item is muted if and only if the run raised, in this session, a bad status for it while it was held, with no event or one that is screened out |
| SubscriptionAgreement.MutedItemStays | remote/session_proxy.cpp:456-472 | a run after which the client still has an event item registered while the server holds nothing and nothing is on the way |
| SubscriptionAgreement.MessagesAreAcceptable | remote/session_proxy.cpp:410-472 | in every such run the next message the client reads brings a fresh id or fits the kind of its item |
| SubscriptionAgreement.StepKeeps | remote/subscription_stub.cpp:30-222 | every step of either side keeps the protocol invariant |
| SubscriptionDelivery.EveryRequestAnswered | remote/subscription_stub.cpp:30-126 | in every run the replies the server has sent on a connection answer the requests it has handled, each exactly once and in the order in which they were asked |
| SubscriptionDelivery.NobodyWaitsInVain | remote/monitored_item_proxy.cpp:61-187 | in every run, once a connected client has read the answers to all it asked, no request is pending, the subscription is CREATED, and every live item is open and either registered or without a stub |
| SubscriptionDelivery.EveryReportSent | remote/subscription_stub.cpp:128-222 | in every run the notifications sent about an item are, in order, the samples and events reported for it while it was held, failed samples that are not bad and events that are screened out excepted |
| SubscriptionDelivery.DeletedIsGone | remote/subscription_stub.cpp:110-126 | in every run an item whose deletion the server has handled is not held, and never again on that connection |
| SubscriptionDelivery.CreationServed | remote/subscription_stub.cpp:30-88 | a creation request gets one reply, granted exactly if the service accepts it, and then the next id is held with the requested kind |
| SubscriptionMeaning.DataArrives | remote/monitored_item_proxy.cpp:189-222 | in every reachable state a data notification shows its value if no source time was shown or its source and server times are not before those shown, and leaves the shown value otherwise; a bad value that is news ends the routing; nothing else changes |
| SubscriptionMeaning.EventArrives | remote/monitored_item_proxy.cpp:224-248 | a good event changes nothing; a bad one that carries an event ends the routing of exactly its item |
| SubscriptionMeaning.ReplyArrives | remote/monitored_item_proxy.cpp:161-187 | a good reply registers the item under its id; a refused one leaves it DELETED and its value unchanged but for a bad status and the FAILED flag; no other item changes |
| SubscriptionMeaning.SubscriptionArrives | remote/monitored_item_proxy.cpp:111-136 | when the subscription is created every live item is opened, and each subscribed one is CREATING and, if a value, shown OFFLINE at the current time |
| SubscriptionMeaning.SessionEnds | remote/monitored_item_proxy.cpp:138-159 | a session that ends cleanly leaves every item closed and DELETED; a registered value is shown OFFLINE, one being created FAILED with Bad_Disconnected, and every other as it was |
| SubscriptionClientInvariant.CreatingIff | remote/monitored_item_proxy.cpp:61-88 | a live item is CREATING if and only if a request for it is pending |
| SubscriptionProtocol.DispatchKeeps | remote/session_proxy.cpp:410-472 | every acceptable message keeps the client invariant, so no check fails |
| SubscriptionProtocol.DispatchFailsIff | remote/session_proxy.cpp:410-472 | any message whatever fails a check if and only if it is a good reply to a live item with an id registered already, or a notification for a registered item of the other kind |
| SubscriptionClientInvariant.CreateMonitoredItemKeeps | remote/subscription_proxy.cpp:31-48 | creating an item keeps the client invariant and only adds creation requests |
| SubscriptionClientInvariant.SubscribeKeeps | remote/monitored_item_proxy.cpp:39-59 | subscribing an item once keeps the client invariant and only adds creation requests |
| SubscriptionClientInvariant.DestroyKeeps | remote/monitored_item_proxy.cpp:34-37 | destroying an item keeps the client invariant |
| SubscriptionClientInvariant.ItemCreatedKeeps | remote/monitored_item_proxy.cpp:161-187 | a creation result with a fresh id keeps the client invariant |
| SubscriptionClientInvariant.ItemDataKeeps | remote/monitored_item_proxy.cpp:189-222 | a data notification for a registered value item keeps the client invariant |
| SubscriptionClientInvariant.ItemEventKeeps | remote/monitored_item_proxy.cpp:224-248 | an event notification for a registered event item keeps the client invariant |
| SubscriptionClientInvariant.OpenAllKeeps | remote/subscription_proxy.cpp:122-137 | opening every live item one after the other keeps the client invariant |
| SubscriptionClientInvariant.SubscriptionCreatedKeeps | remote/subscription_proxy.cpp:130-137 | the good creation result of the subscription opens every live item and keeps the client invariant |
| SubscriptionClientInvariant.RefusedCloses | remote/subscription_proxy.cpp:122-137 | after a refused creation, losing the connection fails a check if and only if some item is alive |
| SubscriptionClientInvariant.SessionCreatedKeeps | remote/session_proxy.cpp:192-207 | a new session keeps the client invariant |
| SubscriptionClientInvariant.CloseAllCloses | remote/subscription_proxy.cpp:105-120 | closing the open items one after the other empties the observer map, closes exactly those items and changes nothing else |
| SubscriptionClientInvariant.SessionLostKeeps | remote/session_proxy.cpp:228-292 | a lost session keeps the client invariant if the subscription is created or no item is alive |
| SubscriptionClientInvariant.SessionLostPanics | remote/monitored_item_proxy.cpp:138-159 | otherwise it fails a check |
| SubscriptionProxies.Proxies.Subscribe | remote/monitored_item_proxy.cpp:39-59 | keeps the client invariant, and asks the server for the item if and only if the subscription is created |
| SubscriptionProxies.Proxies.DestroyItem | remote/monitored_item_proxy.cpp:34-37 | keeps the client invariant; nothing routes to the item any more, and a deletion is asked for exactly the id the server gave it |
| SubscriptionProxies.Proxies.CollectMonitoredItems | remote/subscription_proxy.cpp:139-155 | the loop returns the live items in order, and the list keeps exactly those |
| SubscriptionProxies.Proxies.CreateMonitoredItem | remote/subscription_proxy.cpp:31-48 | keeps the client invariant; the new item is open if and only if the subscription is created |
| SubscriptionProxies.Proxies.OnSubscriptionChannelClosed | remote/subscription_proxy.cpp:105-120 | refines the closing of the subscription's channel, with its loop over the live items |
| SubscriptionProxies.Proxies.OnCreateSubscriptionResult | remote/subscription_proxy.cpp:122-137 | refines the subscription's creation result, with its loop over the live items |
| SubscriptionProxies.Proxies.OnSessionCreated | remote/session_proxy.cpp:192-207 | keeps the client invariant and starts with a subscription being created and nothing registered |
| SubscriptionProxies.Proxies.FailRequests | remote/session_proxy.cpp:256-276 | calling the moved handlers one after the other, in any order, has the effect of failing them all at once |
| SubscriptionProxies.Proxies.OnSessionError | remote/session_proxy.cpp:228-292 | with or without a session, fails a check if and only if there is one, its subscription is not created and an item is alive; otherwise keeps the client invariant with nothing pending or registered and every item closed |
| SubscriptionProxies.Proxies.OnMessageReceived | remote/session_proxy.cpp:410-483 | a message whose parts are acceptable in turn, or end the session when it can be closed, keeps the client invariant; a single part of any content fails a check if and only if it repeats a registered id or is for an item of the other kind; a first part that ends the session does so, with a failed check exactly if an item is alive and the subscription is not created |
| SubscriptionProxies.NothingAfterTheEnd | remote/session_proxy.cpp:438-483 | what follows the end of the session in a message is not read |
| SubscriptionProxies.HandleAllConcat | remote/session_proxy.cpp:410-483 | the parts of a message are handled one after the other |
| SubscriptionProxies.FailOneMore | remote/session_proxy.cpp:264-276 | handlers failed one after the other do not disturb each other |
| SubscriptionProxies.DispatchKeepsAlive | remote/subscription_proxy.cpp:67-80 | handling any message at all keeps the observer map free of destroyed items |
| SubscriptionStubs.SubscriptionStub.OnCreateMonitoredItem | remote/subscription_stub.cpp:30-108 | the id of a new item was never announced before and is announced now; ids stay unique, reports announced and ends final in everything sent |
| SubscriptionStubs.SubscriptionStub.OnDeleteMonitoredItem | remote/subscription_stub.cpp:110-126 | removes the item and keeps the same order in everything sent |
| SubscriptionStubs.SubscriptionStub.OnDataChange | remote/subscription_stub.cpp:128-162 | a value is sent exactly if the item is held, after its announcement, and nothing is ever reported under the id after a bad one |
| SubscriptionStubs.SubscriptionStub.OnEvent | remote/subscription_stub.cpp:164-222 | the same for events; a bad status ends the item even if its event is screened out |
| Requests.HandlersFireAtMostOnce | remote/session_proxy.cpp:256-508 | in every run, with any number of requests, a handler is called at most once and never while it waits, and a response that calls it has its id and was read in the session in which the request it answers was sent |
| Requests.HandlersFireOnce | remote/session_proxy.cpp:485-508 | every handler waits or has been called exactly once, if and only if no step of the run stored a handler a multiple of INT_MAX requests after a pending one |
| Requests.ResponsesFindTheirHandler | remote/session_proxy.cpp:416-436 | every handler called with a response was called with its own, if and only if no response of the run was read while another handler a multiple of INT_MAX requests away was pending |
| Requests.ReceiveMeans | remote/session_proxy.cpp:416-436 | the response to request n calls and removes exactly the pending handlers of requests that n is a multiple of INT_MAX away from |
| Requests.ResponseIsMisdirected | remote/session_proxy.cpp:416-436 | the late response to a request without a handler calls the handler of the request INT_MAX after it |
| Requests.RoomIsEnough | remote/session_proxy.cpp:485-508 | if fewer than INT_MAX requests are issued since any pending or unanswered one, no handler is lost and no response is misdirected |
| Requests.TeardownCallsEveryHandler | remote/session_proxy.cpp:256-276 | once a teardown has finished its calls, whatever requests the handlers and later steps issued, every handler given before it has been called exactly once, if and only if none was lost before it |
| Requests.NeverStoredAgain | remote/session_proxy.cpp:416-436 | a handler that left the table never enters it again |
| Requests.LostHandler | remote/session_proxy.cpp:485-494 | in every reachable state a new handler replaces a pending one if and only if the number of requests between them is a multiple of INT_MAX |
| Requests.HandlerIsLost | remote/session_proxy.cpp:485-494 | a run that loses nothing until its INT_MAX-th request after the first replaces the first handler, which is then never called whatever follows |
| Requests.RequestTable.Request | remote/session_proxy.cpp:485-508 | the handler joins the pending ones, exactly those a multiple of INT_MAX requests before it are displaced, and the invariant stays |
| Requests.RequestTable.OnResponse | remote/session_proxy.cpp:416-436 | a response calls and removes the pending handler that has its id, whichever it is, calls no other, and keeps the invariant |
| Requests.RequestTable.OnSessionDeleted | remote/session_proxy.cpp:256-276 | with or without a transport, the pending handlers and no others are called once each, in any order, while they issue requests as they like; what is pending afterwards was issued meanwhile, and the invariant stays |
| SendBuffer.Session.SetConnection | remote/session_stub.cpp:79-86 | attaching hands the buffered message to that connection; what was handed over followed by what is buffered stays all that was sent |
| SendBuffer.Session.Send | remote/session_stub.cpp:179-190 | a message goes to the connection, or its responses and notifications are appended to those buffered; all that was sent is what was handed over followed by what is buffered |
| SendBuffer.Session.NothingLost | remote/session_stub.cpp:79-190 | at any time the connections have been handed, in order, the first of the responses and of the notifications that were sent, and all of them while one is attached |
| Sessions.EveryRun | remote/remote_connection.cpp:45-352 | in every run in which no logon ends on a connection that has, and keeps alive, a session, the ownership invariant holds and no destroyed object was followed |
| Sessions.OwnershipCondition | remote/remote_connection.cpp:265-313 | whether displaced sessions die at once or later, the ownership invariant holds all along a run if and only if no logon of it ends on a connection that has a session, other than one that this logon takes out of the map and that dies at once |
| Sessions.OneLogonEach | remote/remote_connection.cpp:254-313 | a run with at most one CreateSession per connection meets that condition |
| Sessions.LogonCondition | remote/remote_connection.cpp:265-313 | ending a logon, with whatever answer, keeps the pointers right if and only if its connection has no session, or has the one that the logon takes out of the map and that dies at once |
| Sessions.Ownership | remote/session_stub.cpp:43-86 | in every run a connection points to a session exactly when that session points back, and every logged-on user is served by an open connection |
| Sessions.LogonRefused | remote/remote_session_manager.cpp:133-237 | in every run a granted logon opens no session if and only if the account is single-session, displacing was not asked for, and an open connection serves the account |
| Sessions.LogonMeans | remote/remote_session_manager.cpp:133-275 | a logon that is not refused ends served by its connection or, if that has closed, leaves the account unlocked |
| Sessions.TeardownMeans | remote/remote_connection.cpp:177-206 | closing a connection, or a delete request on it, ends exactly the logon it serves |
| Sessions.LogonConservation | remote/remote_session_manager.cpp:239-296 | in every run opened signals minus closed signals are the logons plus the entries that multi-session logons replaced; each session closes at most once, after it opened, and never while it is logged on |
| Sessions.SingleSessionConservation | remote/remote_session_manager.cpp:194-296 | with single-session accounts only, opened signals minus closed signals are exactly the logons |
| Sessions.LateDeleteKeepsNewerLogon | remote/remote_session_manager.cpp:277-296 | no teardown of a connection removes a logon that another connection serves |
| Sessions.ReleasedKeeps | remote/remote_connection.cpp:265-283 | a session created for a connection that closed during authentication is released at once and keeps the invariant |
| Sessions.SecondLogonOrphans | remote/remote_connection.cpp:307-312 | any other logon that ends on a connection with a session, with whatever answer, leaves that session pointing at a connection that no longer points back |
| Sessions.VacateKeeps | remote/remote_session_manager.cpp:194-263 | taking a user's entry out of the map, displaced or replaced, keeps the invariant, and the session with the pointer to it goes exactly if it dies |
| Sessions.SecondLogonCrashes | remote/remote_connection.cpp:307-312 | a run of two accounts on one connection that ends by following a pointer to the destroyed connection |
| Sessions.StepKeeps | remote/remote_connection.cpp:177-352 | every step but such a logon keeps the ownership invariant |
| SessionServer.Server.DestroySession | remote/session_stub.cpp:43-48 | keeps the invariant, and no connection points to the session afterwards |
| SessionServer.Server.CheckExistingSession | remote/remote_session_manager.cpp:194-237 | answers no exactly when an attached session blocks the logon, and otherwise displaces what it finds |
| SessionServer.Server.OnAccepted | remote/remote_session_manager.cpp:324-363 | keeps the invariant and adds one fresh open connection without a session |
| SessionServer.Server.OnCreateSession | remote/remote_connection.cpp:254-268 | keeps the invariant; only a fresh logon waits for authentication |
| SessionServer.Server.CloseUserSessions | remote/remote_session_manager.cpp:308-317 | keeps the invariant and ends exactly the logon of this user |
| SessionServer.Server.OnConnectionClosed | remote/remote_session_manager.cpp:365-369 | the loop removes exactly this connection from the list and keeps the order of the others |
| SessionServer.Server.Close | remote/remote_connection.cpp:177-206 | keeps the invariant and ends exactly the logon this connection serves; a second close changes nothing |
| SessionServer.Server.OnAuthenticated | remote/remote_connection.cpp:265-313 | keeps the invariant; a refused logon changes no logon and no signal, any other ends served by this connection or, if the peer is gone, leaves the account unlocked |
| SessionServer.Server.OnDeleteSession | remote/remote_connection.cpp:326-352 | keeps the invariant, ends exactly the logon this connection serves, and answers whether there was a session |
| SessionServer.Server.OnPush | remote/session_stub.cpp:179-190 | a message of any live session finds its connection alive |
| SessionServer.Server.DestroyConnection | remote/remote_connection.cpp:45-48 | keeps the invariant, and no session points to the connection afterwards |
| StringUtil.ReplaceSubstringsAfterOffset | base/string_util.cpp:161-172 | the search loop replaces every non-overlapping occurrence from the offset on, left to right |
| CsvFiles.StringToCsv | base/csv_writer.cpp:15-36 | a cell as it is, or quoted with its quotes doubled if it holds one of the escape units |
| CsvFiles.Writer.WriteBom | base/csv_writer.cpp:79-84 | the mark is written once |
| CsvFiles.Writer.StartRow | base/csv_writer.cpp:86-98 | a line break before every row but the first |
| CsvFiles.Writer.WriteCell | base/csv_writer.cpp:104-117 | the delimiter before every cell of a row but the first, then the cell's text |
| CsvFiles.Writer.WriteTable | base/csv_writer.cpp:79-117 | the calls for a table write exactly the table's text, after the mark |
| CsvFiles.Reader.ReadPhysicalLine | base/csv_reader.cpp:9-22 | the next line without its line feed and one carriage return, and the stream behind it |
| CsvFiles.Reader.NextRow | base/csv_reader.cpp:24-40 | moves to the next record; the first one decides on the separator if there is a signature |
| CsvFiles.Reader.NextCell | base/csv_reader.cpp:42-108 | the next cell of the record, quoted over line breaks or plain, as the recursive reading of the text says |
| CsvFiles.Reader.ReadQuoted | base/csv_reader.cpp:50-75 | the loop over quotes and lines collects the body of a quoted cell, or finds the end of input |
| CsvFiles.ReadFile | base/csv_reader_unittest.cpp:13-27 | the usual loops over rows and cells return the recursive reading of the whole text |
| CsvRoundTrip.QuotedRoundTrip | base/csv_reader.cpp:50-75 | a quoted cell reads back as its text with each CR LF turned into LF, for every text |
| CsvRoundTrip.CellRoundTrip | base/csv_writer.cpp:15-36 | every cell, quoted or plain, reads back up to the delimiter or the end of the record |
| CsvRoundTrip.WrittenCell | base/csv_writer.cpp:15-39 | a cell is written as it is if it has no delimiter, quote or line break, and otherwise between quotes with its quotes doubled |
| CsvRoundTrip.TextAfterQuotes | base/csv_reader.cpp:77-94 | text between a closing quote and the next separator belongs to the cell |
| CsvRoundTrip.UnterminatedCell | base/csv_reader.cpp:51-68 | a quoted cell that is never closed consumes the rest of the text and gives no cell |
| CsvRoundTrip.RowRoundTrip | base/csv_writer.cpp:104-117 | every row with cells reads back and leaves the rest of the text |
| CsvRoundTrip.TableReads | base/csv_writer.cpp:86-117 | every table whatever reads back as the rows its text shows |
| CsvRoundTrip.TableRoundTrip | base/csv_reader.cpp:24-108 | a table reads back, with CR LF turned into LF, if and only if every row has cells and the last is not a single empty cell |
| CsvRoundTrip.BlankRowFails | base/csv_writer.cpp:86-117 | a table of one empty cell does not read back |
| CsvRoundTrip.SeparatorMatters | base/csv_reader.cpp:42-108 | a table with two cells in its first row reads back if and only if the reader uses the delimiter of the writer |
| CsvRoundTrip.SignatureFindsDelimiter | base/csv_reader.cpp:33-38 | a signature equal to the first cell of a row of two or more finds the delimiter if and only if that cell is non-empty and needs no quotes, or the delimiter is the comma and the cell is not made of quotes alone |
| CsvRoundTrip.QuoteSignatureFails | base/csv_reader.cpp:33-38 | a comma file whose first cell is one quote is misread with its signature |
| CsvRoundTrip.QuotedSignatureFails | base/csv_reader.cpp:33-38 | a semicolon file whose first cell is a semicolon is misread with its signature |
| CsvRoundTrip.RoundTrip | base/csv_reader.cpp:9-108 | such a table reads back without a signature if and only if the delimiter is the comma, and with its first cell as signature if and only if that signature finds the delimiter |
| CsvRoundTrip.WriteAndRead | base/csv_writer.cpp:79-117 | the same three exact conditions for a table written by the writer object and read by the reader object |
| CsvRoundTrip.DelimitersThatWork | base/csv_writer.cpp:15-36 | an ASCII delimiter works for every such table if and only if it is none of quote, CR, LF and NUL |
| CsvRoundTrip.QuoteFails | base/csv_writer.cpp:15-36 | the quote as delimiter fails |
| CsvRoundTrip.CrFails | base/csv_reader.cpp:14-16 | the carriage return as delimiter fails |
| CsvRoundTrip.LfFails | base/csv_reader.cpp:10-11 | the line feed as delimiter fails |
| CsvRoundTrip.NulFails | base/csv_writer.cpp:24-25 | the zero unit as delimiter fails, because it ends the array of escape units |
| Intervals.UnionIsExact | base/interval_util.h:36-80 | the simple union of a canonical list and an interval is canonical and covers exactly the points of both |
| Intervals.UniqueForm | base/interval_util.h:12-16 | two canonical lists that cover the same points are equal |
| Intervals.UnionIntervals | base/interval_util.h:36-80 | on every valid list that can be searched for the new start, the result is valid, a change is reported if and only if the list changed, no point is gained, and the union is exact if and only if the rest of the list reaches as far as what is merged; so it is on every list with starts and ends in order, which stays so; on a canonical list it is the simple union and stays canonical |
| Intervals.SearchCondition | base/interval_util.h:18-80 | a valid list meets the precondition of the binary search for every bound if and only if its ends are in order too |
| Intervals.MergeCondition | base/interval_util.h:52-80 | merging the touching intervals of a valid list is exact if and only if a walk through the rest of the list, from the end of the span on, gets to the largest merged end without a gap |
| Intervals.ReachesIff | base/interval_util.h:52-80 | the walk succeeds if and only if every point up to the largest end is covered by the rest |
| Intervals.NestedLoses | base/interval_util.h:36-80 | on a valid list that can be searched but fails that condition the merge loses points |
| Intervals.ChangeAddsPoints | base/interval_util.h:36-80 | the list changes if and only if the new interval has a point that was not covered |
| Intervals.IntervalsContain | base/interval_util.h:18-34 | on every valid list that can be searched for the query's start, true only if every point of the interval is covered, and if and only if that is so when neighbours have a gap or end together |
| Intervals.LookupCondition | base/interval_util.h:18-34 | lookup answers every query right if and only if neighbours have a gap or end together |
| Intervals.TouchingMissed | base/interval_util.h:18-34 | two touching intervals cover a query that lookup does not find |
| Intervals.UnionAllIsExact | base/interval_util.h:36-80 | a list built by unions from empty covers exactly the points of everything added |
| Intervals.OrderDoesNotMatter | base/interval_util.h:36-80 | the list is the same for every order of insertion, and whenever the points are the same |
| Intervals.ContainsAfter | base/interval_util.h:18-80 | after any unions from empty a lookup answers for the union of everything added |
| Framing.HeaderRoundTrip | remote/protocol_buffer.h:26-56 | a size read back from its header is the size modulo 2^32 |
| Framing.LowByteFirst | remote/protocol_buffer.h:26-56 | on a little-endian machine the size travels with its low byte first |
| Framing.TruncatedPayload | remote/protocol_message_transport.cpp:21-137 | a stream that ends inside a payload gives the part there is |
| Framing.TruncatedHeader | remote/protocol_message_transport.cpp:21-137 | a stream that ends inside a header gives no payload |
| Framing.Write | remote/protocol_message_transport.cpp:138-159 | a payload is written as its frame |
| Framing.FrameReads | remote/protocol_message_transport.cpp:83-136 | one read of a frame gives the payload and leaves what follows; an empty payload looks like the end, an oversized one fails |
| Framing.MessagesOfFrames | remote/protocol_message_transport.cpp:83-136 | for every list of payloads of 32-bit size a read loop gets them in order up to the first that is empty or too large |
| Framing.AllReceived | remote/protocol_message_transport.cpp:83-159 | for every list of payloads and every buffer of 32-bit size, a read loop gets exactly the payloads written if and only if none is empty or larger than the buffer |
| Framing.BadPayloadHides | remote/protocol_message_transport.cpp:105-121 | a payload that is empty or too large hides itself and all that follow |
| Framing.ReadExact | remote/protocol_message_transport.cpp:21-43 | whatever the pieces, success fills the buffer as far as the stream allows and has met deliveries only; failure is the first failure met |
| Framing.ReadPayloadSize | remote/protocol_message_transport.cpp:45-57 | success is the header's size, with zeros for bytes the stream lacks; failure is the first failure met |
| Framing.MessageTransport.Read | remote/protocol_message_transport.cpp:80-137 | whatever the transport does, a read that succeeds gives exactly the next frame's payload and leaves the rest, and a read that fails gives the code of the failure it met, the abort of an owner that is gone, or the error of a frame that does not fit; a second read meanwhile is refused |
| Framing.ReceiveAll | remote/protocol_message_transport.cpp:83-136 | a read loop over any split gets exactly the messages of the stream |
| Framing.SendAndReceive | remote/protocol_message_transport.cpp:83-159 | payloads written one after the other are received in order for any split |
| Observers.ObserverList.AddObserver | base/observer_list.h:20-24 | appends to the registered observers and keeps every live iteration right |
| Observers.ObserverList.RemoveObserver | base/observer_list.h:26-37 | removes exactly this observer, whether its slot is cleared or erased, and keeps every live iteration right |
| Observers.ObserverList.RemoveNull | base/observer_list.h:26-37 | removing the null pointer changes no slot and counts one more null exactly when a slot is empty |
| Observers.NullCountedTwice | base/observer_list.h:26-37 | a run after which two nulls are counted and one slot is empty |
| Observers.ObserverList.HasObserver | base/observer_list.h:39-42 | true exactly for a registered observer, and for the null pointer exactly when a slot is empty |
| Observers.ObserverList.BeginIteration | base/observer_list.h:49-51 | starts an iteration that owes a return to everyone registered now |
| Observers.ObserverList.GetNext | base/observer_list.h:58-65 | returns only registered observers; when it returns null, everyone registered for the whole iteration was returned exactly once |
| Observers.ObserverList.EndIteration | base/observer_list.h:52-56 | keeps the registered observers and their order; the last iteration to end leaves no empty slot |
| Observers.ObserverList.Compact | base/observer_list.h:204-209 | removes the empty slots and keeps the registered observers in order |
| Observers.ExactlyOnce | base/observer_list.h:58-65 | an iteration at the end has returned each observer registered all along exactly once |
| Completion.Gate.Wait | base/async_completion.h:131-166 | an open gate lists the waiter, a settled one completes it at once with the stored error |
| Completion.Gate.Cancel | base/async_completion.h:157-164 | a waiter not completed yet leaves the list, where it is found, and is completed as cancelled; otherwise nothing happens; the gate never changes |
| Completion.Gate.Finish | base/async_completion.h:201-215 | everyone still waiting is completed with the error, once, in the order of joining, and the list stays empty |
| Completion.Gate.Complete | base/async_completion.h:79 | settles an open gate without an error |
| Completion.Gate.Fail | base/async_completion.h:81-84 | settles an open gate with an error |
| Completion.Gate.TryComplete | base/async_completion.h:95-101 | settles an open gate and reports it, and changes nothing at a settled one |
| Completion.Gate.AllAnswered | base/async_completion.h:168-199 | at a settled gate everyone who ever waited was completed exactly once, and whoever was not cancelled gets the gate's own result |
| Completion.OnlySettledReturns | base/async_completion.h:168-199 | a wait returns if and only if the gate was settled without an error; a cancelled one is aborted or reports its deadline, an error is rethrown |
| Cache.AsyncCache.Wait | base/async_cache.h:49-70 | the wait is given the cached value at once and nothing else happens, or it joins the entry and then every action of the miss callback is done, in order, whatever that asks for, starts, prefetches or completes |
| Cache.AsyncCache.WaitAndStart | base/async_cache.h:49-91 | of all who wait for a key with a callback that tries to start it only the first succeeds |
| Cache.AsyncCache.PendingKeys | base/async_cache.h:72-81 | exactly the keys for which `TryStart` would succeed, ascending and without repetition |
| Cache.AsyncCache.TryStart | base/async_cache.h:83-91 | succeeds if and only if someone waits and nothing was started or completed, and then never before for this key |
| Cache.AsyncCache.TryStartPrefetch | base/async_cache.h:102-110 | succeeds if and only if the key was never started nor completed |
| Cache.AsyncCache.Complete | base/async_cache.h:112-127 | stores the value and gives it to exactly those waiting for the key |
| Cache.AsyncCache.StartedOnce | base/async_cache.h:83-110 | in every reachable state at most one start of a key has succeeded |
| Cache.AsyncCache.WaitersCanBeServed | base/async_cache.h:49-127 | an entry with waiters has no value, and is in progress or startable |
| Cache.AsyncCache.GivenWhatIsOwed | base/async_cache.h:49-127 | every wait has been given the value cached when it came, or that of the first later completion, exactly once, or nothing if there was neither |
| AsciiCheck.IsStringAscii | base/string_util.cpp:65-113 | true if and only if every byte is below 0x80, for every length, content, start address, byte order and kind of `char` |
| AsciiCheck.LoadWord | base/string_util.cpp:91-106 | words are only loaded from inside the text and from aligned addresses, and are clean exactly when their eight bytes are ASCII |
| AsciiCheck.ScanBytes | base/string_util.cpp:82-86 | the byte loops gather exactly the high bits of what they pass |
| AsciiCheck.ScanBatches | base/string_util.cpp:88-99 | the batch loop stops at the first batch that is not ASCII |
| AsciiCheck.ScanWords | base/string_util.cpp:101-106 | the word loop gathers exactly the high bits of what it passes |
| EventQueue.ViewEventQueue.AddModelChange | remote/view_event_queue.h:36-53 | the queue stays a summary of everything received: one change per node, one entry per semantic change |
| EventQueue.ViewEventQueue.AddNodeSemanticChange | remote/view_event_queue.h:55-66 | the same for a semantic change |
| EventQueue.ViewEventQueue.GetEvents | remote/view_event_queue.h:68-72 | hands over the summary and empties the queue; if all events received were valid, so is every model change handed over |
| EventQueue.CoalescedRepresents | remote/view_event_queue.h:36-66 | for every sequence of events, valid or not, the queue holds exactly one summary per node and per semantic change: all verbs together, deletion alone if it is among two or more, and the first type that is not null |
| EventQueue.ValidVerb | remote/view_event_queue.h:44-46 | for valid events a node's verb is deletion alone if any event was one, and otherwise the union of all verbs |
| EventQueue.DequeuedValid | remote/protocol_utils.cpp:709-751 | the wire conversion's check cannot fail on a dequeued change if every event received was valid |
| EventQueue.WhatIsRejected | remote/protocol_utils.cpp:706-727 | a model change without a node, without a verb, adding a node without a type, or deleting along with another verb is rejected; others pass |
| EventQueue.FirstTypeIs | remote/view_event_queue.h:36-53 | the type of a summary is that of the first change that has one |
| EventQueue.OrderDoesNotMatter | remote/view_event_queue.h:36-66 | events received in any other order give the same semantic changes and the same verb for every node |
| Uri.QueryCharmap | base/uri.cpp:56-60 | the query table holds exactly the bytes that are neither alphanumeric nor one of the nine marks |
| Uri.PathCharmap | base/uri.cpp:62-65 | the path table holds exactly the non-printable, non-7-bit and listed bytes |
| Uri.Escape | base/uri.cpp:32-54 | the loop computes the recursive escaping, with both options |
| Uri.UnescapeURLComponent | base/uri.cpp:91-116 | the loop equals the recursive unescaping |
| Uri.ForeignEscape | base/uri.cpp:77-116 | `%` followed by the digits i and j, each in upper or lower case, becomes the byte 16 i + j, unless that is a space, slash or backslash which the rules do not mention, and then the `%` stays |
| Uri.NoEscape | base/uri.cpp:91-116 | a byte that does not begin a complete escape stays |
| Uri.WrittenEscape | base/uri.cpp:32-54 | escaping writes `+` for a space if asked to, keeps a `%` before two digits if asked to, writes `%` and two upper-case digits for a byte of the table, and any other byte as it is |
| Uri.RoundTrip | base/uri.cpp:32-116 | for every table with `%`, unescaping restores a text if and only if the rules allow every escape in it to be undone |
| Uri.QueryRoundTrip | base/uri.cpp:67-69 | with both rules, unescaping inverts query escaping without plus on every byte string |
| Uri.PathRoundTrip | base/uri.cpp:71-73 | unescaping inverts path escaping if and only if the rules cover the spaces and backslashes in the text |
| Uri.WhichCharmapsWork | base/uri.cpp:32-116 | a table is inverted on every text if and only if every escape may be undone and `%`, or else every hexadecimal digit, is escaped |
| Uri.BarePercentFails | base/uri.cpp:91-116 | a `%` and a digit left as they are make a text that does not come back |
| Uri.ForbiddenFails | base/uri.cpp:102-105 | a byte whose escape the rules do not undo makes a text that does not come back |
| Uri.EscapedForm | base/uri.cpp:32-54 | escaped text is at most three times as long, and every `%` in it begins a complete escape |
| Uri.PlusRoundTrip | base/uri.cpp:40-41 | a query value escaped with plus comes back with `+` for every space |
| Uri.EscapingTwice | base/uri.cpp:42-44 | escaping once more while keeping escapes changes nothing |

## Left out

- Boost.Asio executors, coroutine frames, timers, `weak_ptr` plumbing and the write queue: replaced by atomic steps, channels and names.
- Object identity: the proxies, stubs, connections and sessions are entries of maps named by numbers, because a pointer to a destroyed object has to be expressible.
- Re-entry: a user's data or event callback does not call back into the client; a response handler may issue requests (`Requests`).
- Request ids in the subscription modules are unbounded; the wrap at INT_MAX is in `Requests`.
- The create-session request, its response and authentication are one `Connect` step of the subscription protocol; server logon is in `Sessions`.
- SubscriptionAgreement.ValueAgreement: one direction only, since an item destroyed while it is being created stays at the server.
- SubscriptionAgreement.EveryRun: only runs in which every session that is lost can be closed, which is the exact condition (`SubscriptionAgreement.PanicCondition`).
- SubscriptionStubs.SubscriptionStub.OnDataChange: requires that a sample flagged failed has a bad status, which is the source's own check, and that the item is of the kind its handler was made for.
- SubscriptionStubs.SubscriptionStub.OnEvent: requires that the item is of the kind its handler was made for.
- SubscriptionProxies.Proxies.OnMessageReceived: keeps the invariant only if the parts are acceptable, which `SubscriptionAgreement.MessagesAreAcceptable` proves of everything the server sends.
- Which changes of a cached value are announced to the user's handler.
- Sessions.EveryRun: only runs in which no logon ends on a connection that has, and keeps alive, a session, which is the exact condition (`Sessions.OwnershipCondition`); nothing after `ShutdownAsync`.
- SessionServer.Server.OnAuthenticated: requires that condition of its connection.
- "Every request gets a response": false for an unknown subscription id.
- Delete-subscription, read, write, call, browse, history and node-management requests: dispatch without shared state.
- Protobuf conversion other than `IsValid`, serialization failures and the idle timer.
- CsvRoundTrip.DelimitersThatWork: only ASCII delimiters; the source's delimiter is one byte, and a byte above 0x7F is not the same unit after decoding.
- CSV text encodings: cells and lines are sequences of 16-bit units; the reader does not skip a mark; the row and cell counters and stream errors are not modelled.
- Intervals.UnionIntervals: returns the new list instead of editing the vector, and requires what `std::lower_bound` demands for the new start.
- Intervals.IntervalsContain: requires what `std::lower_bound` demands for the start of the query.
- StringUtil.ReplaceSubstringsAfterOffset: returns the new text instead of editing it in place.
- Observers.ObserverList: the range-for iterators, whose end index is fixed at the start, and the 32-bit counters.
- Cache.AsyncCache.Wait: a wait that the miss callback begins has no miss callback of its own.
- Completion.Gate.Wait: the deadline of `WaitFor` is a cancellation at an arbitrary time.
- AsciiCheck.IsStringAscii: 64-bit words and one-byte characters, the only instance the source uses.
- Uri.Escape: the 32-bit loop counter, which would not end on texts of 4 GiB and more.
- The thread executor, authorization tables, metrics, logging, path service and JSON, base64 and MD5 helpers: input/output, thin wrappers or easy members.
