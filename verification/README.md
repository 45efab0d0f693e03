# MOQT relay: verified model

A Dafny 4.11 model of a Media-over-QUIC relay (draft-ietf-moq-transport-04): its publishers,
subscribers and wire formats. It models what the Go code does, including where that differs from
what it seems meant to do, and proves properties over all inputs, all interleavings and all
reachable states. `dafny verify dfyconfig.toml` checks everything.

| file | part of the system |
|---|---|
| `Varint.dfy`, `Reader.dfy` | QUIC varints (section 16 of RFC 9000), length-prefixed strings, the reader |
| `Parameters.dfy`, `Messages.dfy` | parameter maps, control messages, the control-stream decoder |
| `Layout.dfy` | every format as a flat list of fields with numeric tags |
| `Streams.dfy` | object streams, their headers, and what a relay makes of them |
| `ObjectLog.dfy`, `FanOut.dfy` | the shared object log, the WaitGroup barrier and the Pipe loops |
| `Cache.dfy`, `Replay.dfy` | the relay's object cache and its replay to late subscribers |
| `Reorder.dfy` | the reorder buffer of the ffmpeg subscribers |
| `Relay.dfy`, `Routing.dfy` | subscription tables and routing across publishers, relay and subscribers |
| `Membership.dfy`, `Closing.dfy`, `Upstream.dfy`, `Delivery.dfy` | who is listed and forwarded to, closing a session, how often and whom the relay asks upstream, and what subscribers can get |
| `Handshake.dfy` | the setup handshake over a byte-level control stream |
| `Sessions.dfy` | the session manager's announce fan-out |
| `Settings.dfy` | the HTTP/3 SETTINGS frame and its length counter |

## How the code is modelled

- Parsers are functions from the unread bytes to a value and the rest, or to an error and the place
  where the reader then stands. Loops that fill or walk something are methods proved against them.
- Objects that the source updates in place are classes: the object log, the cache, the relay's
  tables, the control session, the session manager. Each method's postcondition gives the whole new
  state as a function of the old one, and the theorems are about those functions.
- Concurrent and distributed parts are transition systems with one step per lock region or message;
  a run is any sequence of enabled steps. In `Routing` the handlers of all sessions interleave freely:
  serving a SUBSCRIBE takes up to five steps (find the publisher, look for a stream to share, file a
  new one, AddSubscriber, AddStream) and HandleClose one per subscription it visits; only the
  messages of one session are handled one after the other, as its single ServeCS goroutine does.
  Nothing stops a handler after its session was closed. Where ForwardStream holds the read lock of a
  subscriber set until all goroutines have called WgDone, steps that need the write lock (Join and
  Leave in `FanOut`, List, Unsubscribe and CloseVisit in `Routing`) are not enabled.
- Go map iteration, scheduling, message order between sessions and random subscription IDs are free
  choices (IDs are fresh within their session, group IDs and other varint fields are below 2^62,
  where quicvarint would otherwise panic).
- A QUIC stream is an append-only byte string whose writes may fail part way.

## Results that hold only under a condition

Each condition is exact: both directions are proved.

- A control message survives the wire exactly when it is `Faithful`. SUBSCRIBE_OK.Parse stores both
  positions in the object ID, so a SUBSCRIBE_OK survives only with both positions zero.
- Re-encoding a stream reproduces its bytes exactly when every varint was minimal and the stream
  ended on an object boundary.
- Pipe reads IsEOF after it released the lock. A subscriber that leaves on IsEOF has everything
  exactly when nothing was logged between its last snapshot and that read (`LateObjectLost` is a run
  where it has not). Pipe also waits unconditionally: `SubscriberCanHang` gives, for every upstream,
  a schedule after which a subscriber holds its header only, for good.
- The subscription lookup of a forwarding goroutine fails exactly when the session is between
  AddSubscriber and AddStream and no earlier request of it for the same stream ID was filed;
  `LookupCanFail` gives, for every track, a run in which the subscriber that made the relay subscribe
  never gets the first data stream.
- A close that begins can leave its session on some stream's list, without the session taking up a
  further request, exactly when a request of the session is under way: a handler of it can still get
  to AddSubscriber (it has its stream, or can share one, or the publisher has a subscription ID to
  spare), or is between AddSubscriber and AddStream with no subscription of the session filed on that
  stream. `ClosedButListed` is such a run. HandleClose ranges over the subscription map without its
  lock: an entry added meanwhile may or may not be visited.
- A publisher is asked once per stream ID, apart from catalog and mp4 names, exactly when no two
  handlers overlap between looking for a stream and filing one; taking turns ensures it,
  `RaceAsksTwice` is a run without.
- Every delivery is of the right track exactly when no two tracks in use share a stream ID;
  namespaces without underscores guarantee it, `SomeRunMisroutes` shows a mix-up.
- The reorder buffer plays 0, 1, 2, ... exactly when at no time 25 groups have overtaken a missing
  one. It conserves groups exactly when none arrives while its ID is still held.
- The SETTINGS loop ends exactly when the bytes that its counter cannot account for are even in
  number (`SomeBodyNeverEnds` is a three-byte body on which it does not), and it yields what was
  sent only when there are none.
- A relayed group stream is cached under group 0 because GroupStream.ReadObject leaves the object's
  group ID unset; a replay therefore keeps the groups of track streams and collapses those of group
  streams.

Where code and comments disagree the code is followed: the stream ID has no alias in it
(moqt/wire/subscribe.go:146-149), and SUBSCRIBE_OK writes the object ID before the group ID
(moqt/wire/subscribeok.go:9-16 against 65-68).

## Model

| member | source | states |
|---|---|---|
| `Varint.ReadEncode` | moqt/wire/object.go:15-45 | a varint written by Append reads back as its value and leaves what followed it |
| `Varint.VarintBytes` | moqt/wire/object.go:40-41 | the bytes of every varint in numbers: the length bits, the thresholds and the big-endian value of section 16 of RFC 9000 |
| `Varint.ReadInverse` | moqt/wire/object.go:19-27 | whatever Read accepts is an encoding of its value in the width the first byte announces |
| `Varint.Rewrite` | moqt/wire/object.go:35-45 | writing a read varint back gives the same bytes exactly when it was minimal |
| `Reader.TextRoundTrip` | moqt/wire/stringparameter.go:15-40 | a length-prefixed string reads back as itself, leaving the rest |
| `Reader.ByteReader.ReadText` | moqt/wire/stringparameter.go:15-32 | the reader's string parse, with its error and position |
| `Parameters.Parse` | moqt/wire/parameter.go:95-140 | the parse loop returns the partly filled map, position and error of the functional parser on any input |
| `Parameters.GetBytes` | moqt/wire/parameter.go:153-163 | the written bytes are the entries in some ordering of the map, each once, behind their number |
| `Parameters.GetParameter` | moqt/wire/parameter.go:142-151 | finds an entry of the type if there is one; agrees with key lookup on every map parsing can build |
| `Parameters.ParameterRoundTrip` | moqt/wire/intparameter.go:28-54 | one entry of a known kind reads back as itself |
| `Parameters.ParameterLength` | moqt/wire/intparameter.go:47-54 | for every entry the length in front of the value is that of the value, so a reader that does not know the type steps over exactly this entry |
| `Parameters.ParamsRoundTrip` | moqt/wire/parameter.go:95-163 | for every map of known entries, every write order and every suffix, parsing returns that map and leaves that suffix |
| `Parameters.UnknownEntryStops` | moqt/wire/parameter.go:117-128 | an entry of a type other than 0 and 1 is stepped over and ends the loop with an error; the entries before it are kept, what follows is left |
| `Parameters.ParseCanonical` | moqt/wire/parameter.go:112-136 | parsing any input only ever builds maps whose entries carry their own key as type |
| `Messages.ClientSetupGetBytes` | moqt/wire/clientsetup.go:29-50 | the two write loops produce an encoding of the message |
| `Messages.ClientSetupParse` | moqt/wire/clientsetup.go:52-78 | the version loop, the versions kept when it breaks off, and the ignored parameter error, on any input |
| `Messages.VersionsKept` | moqt/wire/clientsetup.go:62-70 | when fewer versions arrive than announced, parsing fails and those that did are kept |
| `Messages.SubscribeTailRoundTrip` | moqt/wire/subscribe.go:66-144 | the positions the filter type carries come back, the others come back as zero |
| `Messages.SubscribeTrip` | moqt/wire/subscribe.go:48-144 | what any SUBSCRIBE turns into: filter 3 carries the start, filter 4 start and end, others neither |
| `Messages.SubscribeRoundTrip` | moqt/wire/subscribe.go:48-144 | SUBSCRIBE round trip for every filter type |
| `Messages.SubscribeOkTrip` | moqt/wire/subscribeok.go:30-71 | what any SUBSCRIBE_OK turns into: the group ID is lost, and with content it lands in the object ID |
| `Messages.ClientSetupRoundTrip` | moqt/wire/clientsetup.go:29-78 | CLIENT_SETUP round trip for any version list and parameters |
| `Messages.ServerSetupRoundTrip` | moqt/wire/serversetup.go:34-66 | SERVER_SETUP round trip |
| `Messages.AnnounceRoundTrip` | moqt/wire/announce.go:18-47 | ANNOUNCE round trip |
| `Messages.BodyRoundTrip` | moqt/wire/message.go:84-107 | every faithful message body, AnnounceOk and Unsubscribe included, is parsed by its own type's parser |
| `Messages.ParsedIsFaithful` | moqt/wire/message.go:84-109 | no parser, SUBSCRIBE_OK's and SUBSCRIBE_DONE's included, sets a field that the wire did not carry |
| `Messages.UnknownParameter` | moqt/wire/clientsetup.go:72-77 | the setup messages keep what came before an unknown parameter and drop the error, ANNOUNCE fails on it |
| `Messages.MessageRoundTrip` | moqt/wire/message.go:76-110 | a message comes back unchanged, leaving the rest unread, if and only if it is faithful |
| `Messages.ControlStreamRoundTrip` | moqt/controlstream.go:41-63 | a stream of faithful messages decodes to exactly that sequence, whatever follows it |
| `Messages.ControlStreamComplete` | moqt/controlstream.go:41-63 | with nothing after them the decoder stops at the clean end of the stream |
| `Layout.MessageLayout` | moqt/wire/message.go:84-107 | every message is written as the fields of its format, tags by number, parameters in the map's order |
| `Layout.KnownTypes` | moqt/wire/message.go:86-105 | the decoder knows exactly eight types, by number, and refuses any other after its type |
| `Layout.StreamLayout` | moqt/wire/groupstream.go:93-115 | a stream is written as its header's fields, type 0x51 or 0x50, and each object's |
| `Layout.KnownHeaders` | moqt/wire/stream.go:26-59 | the header dispatch knows exactly 0x51 and 0x50 |
| `Layout.FrameLayout` | h3/settingsframe.go:122-140 | a SETTINGS frame is type 4, the number of bytes that follow, then each key and value |
| `Streams.ObjectRoundTrip` | moqt/wire/object.go:15-45 | an object reads back with its ID and payload, its group ID zero |
| `Streams.ItemsRoundTrip` | moqt/wire/trackstream.go:137-174 | the objects of a stream read back in order; a track stream keeps their group IDs |
| `Streams.HeaderRoundTrip` | moqt/wire/stream.go:26-59 | the header dispatch recovers kind and fields |
| `Streams.StreamCut` | moqt/wire/object.go:15-33 | any stream cut after any number of bytes is refused if and only if its header is cut, and else parses to its first objects and at most one more with a zero-padded payload |
| `Streams.RelayTransparent` | moqt/wire/groupstream.go:105-169 | for every upstream byte string with a header, the relayed stream parses to the same stream with only the subscription ID replaced |
| `Streams.RelayChainTransparent` | moqt/relayhandler.go:73-111 | the same through any number of relays |
| `Streams.ReencodeIdentity` | moqt/wire/trackstream.go:109-174 | re-encoding what was read gives the same bytes if and only if they were minimal and complete |
| `Streams.RelayBytesIdentical` | moqt/wire/groupstream.go:42-115 | after the subscription ID the relayed bytes equal the upstream bytes if and only if those were minimal and complete |
| `ObjectLog.ObjectStream.ReadObject` | moqt/wire/groupstream.go:145-169 | one object is parsed and appended; or the input has ended and the log is closed; or the connection broke and the log stays open |
| `ObjectLog.ObjectStream.WriteObject` | moqt/wire/groupstream.go:171-176 | appends one object |
| `ObjectLog.ObjectStream.Close` | moqt/wire/groupstream.go:178-183 | sets the end flag only |
| `ObjectLog.ObjectStream.Collect` | moqt/wire/groupstream.go:122-130 | the copy loop returns the encodings of the log from the cursor on, and the new cursor |
| `FanOut.HeaderBeforeObjects` | moqt/relaystream.go:96-106 | in every interleaving the WaitGroup counter is the number of goroutines owing a WgDone, each calls it once, and nothing is logged before all headers are issued or dropped |
| `FanOut.SubscribersFixedWhileForwarding` | moqt/relaystream.go:73-106 | over any run of steps the read lock keeps the subscriber set as it is from the start of ForwardStream to the end of its wait |
| `FanOut.LeftBeforeForward` | moqt/relaystream.go:80-106 | over every run a subscriber that leaves before ForwardStream starts gets no goroutine unless it joins again |
| `FanOut.OutputIsPrefix` | moqt/wire/groupstream.go:117-143 | in every interleaving, with writes that may fail, a subscriber's bytes are a prefix of its header and the log in order; without a failure exactly the header and the first cursor objects |
| `FanOut.OutputParses` | moqt/wire/groupstream.go:117-143 | in every interleaving, with writes that may fail, a subscriber's bytes parse under its own ID to the first logged objects and at most one more with a zero-padded payload, once the header is there |
| `FanOut.CompleteUnlessLate` | moqt/relayhandler.go:95-108 | at an exit on IsEOF the bytes parse to a prefix of the upstream objects under the subscriber's own ID, and to all of them if and only if nothing was logged late |
| `FanOut.SubscriberCanStillGetAll` | moqt/relayhandler.go:95-111 | from every reachable state with the reader at work, any goroutine that has neither ended nor failed to write can be continued until it ends with all upstream objects under its own ID |
| `FanOut.SubscriberCanGetAll` | moqt/relayhandler.go:73-111 | for every upstream some schedule delivers all of it |
| `FanOut.StuckOnceReaderStops` | moqt/wire/groupstream.go:119-120 | a goroutine that waits after the reader has stopped, at the end of the input or on a read error, never moves again |
| `FanOut.NoEndAfterAbort` | moqt/relaystream.go:207-211 | after a read error nothing is logged and no goroutine ends normally any more |
| `FanOut.SubscriberCanHang` | moqt/wire/groupstream.go:117-183 | for every upstream some schedule leaves a subscriber with its header only, forever |
| `FanOut.LateObjectLost` | moqt/wire/groupstream.go:132-140 | for any two objects a schedule in which a goroutine ends normally, both are logged and its stream parses to the first alone |
| `Cache.EvictLongest` | moqt/relaystream.go:116-123 | the eviction loop stops at the longest admissible suffix |
| `Cache.CacheIsWindow` | moqt/relaystream.go:108-134 | after any pushes and clears there is one longest admissible suffix of the history, and the cache is that suffix, then the newest object |
| `Cache.CacheBounds` | moqt/relaystream.go:116-133 | the count and byte bounds in every reachable state, for any limits |
| `Cache.DefaultCacheBounds` | moqt/relaystream.go:13-17 | with the default limits at most 1000 objects, and less than 50 MB without the newest |
| `Cache.CachedWasPushed` | moqt/relaystream.go:108-134 | nothing is cached that was not pushed since the last clear |
| `Cache.RelayCache.MakeRoom` | moqt/relaystream.go:116-123 | the loop on the object itself, with the byte counter kept exact |
| `Cache.RelayCache.CacheObject` | moqt/relaystream.go:108-134 | the cache stays the one its operations define, its byte counter is the sum of payload lengths, and each new payload is a fresh copy |
| `Cache.RelayCache.CacheAndReuse` | moqt/relaystream.go:125-130 | overwriting the whole source buffer afterwards does not change the cache, which does not share it |
| `Cache.RelayCache.ClearCache` | moqt/relaystream.go:217-223 | empties the cache and its counter |
| `Cache.RelayCache.GetCacheStats` | moqt/relaystream.go:145-149 | count and bytes of the contents, within the count bound |
| `Replay.Regroup` | moqt/relaystream.go:163-166 | the grouping loop gives each group ID its objects in cache order |
| `Replay.SendCachedObjects` | moqt/relaystream.go:151-195 | whatever the map order, distinct groups, each written to a stream of its own up to where that stream breaks; all of them unless an open failed, and then as many as opens succeeded |
| `Replay.ReplayParses` | moqt/relaystream.go:168-192 | each stream parses under the given subscription ID to its group's objects in cache order |
| `Replay.ReplayIsPartition` | moqt/relaystream.go:151-195 | if no write failed, what a subscriber rebuilds from the bytes of all streams together is every snapshot object exactly as often; after a failed open, exactly those of the groups sent |
| `Replay.BrokenReplayParses` | moqt/relaystream.go:180-192 | a replay stream whose writes failed parses, once its header is there, to the group's first objects in cache order and at most one more with a zero-padded payload |
| `Replay.GroupStreamsCollapse` | moqt/relaystream.go:201-214 | whatever group streams were relayed, the cache holds group 0 only |
| `Replay.TrackStreamsKeepGroups` | moqt/wire/trackstream.go:137-174 | a track stream's objects are cached under the group IDs they were sent with |
| `Reorder.SortedKeys` | examples/ffmpeg-udp/sub/sub.go:81-88 | the keys in ascending order, each once |
| `Reorder.Drain` | examples/ffmpeg-udp/sub/sub.go:92-106 | the sort-and-break loop plays the run from the smallest key and keeps the rest |
| `Reorder.RunAt` | examples/ffmpeg/sub/sub.go:91-103 | the run has consecutive IDs in ascending order |
| `Reorder.RunIsMaximal` | examples/ffmpeg/sub/sub.go:91-103 | the run ends at the first gap and everything else stays buffered |
| `Reorder.PlayRun` | examples/ffmpeg-udp/sub/sub.go:134-139 | the GROUPID check and its counter |
| `Reorder.HandleStream` | examples/ffmpeg-udp/sub/sub.go:71-109 | the receive loop, with the number of order errors reported |
| `Reorder.BufferBounded` | examples/ffmpeg/sub/sub.go:70-105 | between arrivals at most 24 groups are held, and every received ID was played or is held |
| `Reorder.Conservation` | examples/ffmpeg/sub/sub.go:70-105 | played plus held is received, group for group, if and only if no group overwrites a held one; distinct IDs ensure it |
| `Reorder.WarningsAreJumps` | examples/ffmpeg-udp/sub/sub.go:134-139 | the number of reports is the number of groups that are not the one after their predecessor |
| `Reorder.SilentIfInOrder` | examples/ffmpeg-udp/sub/sub.go:134-139 | the order check stays silent if and only if the IDs are consecutive |
| `Reorder.ReorderWindow` | examples/ffmpeg-udp/sub/sub.go:71-139 | for distinct arrivals the order check never fires if and only if no missing group is ever overtaken by 25 others |
| `Reorder.LastGroupsNeverPlayed` | examples/ffmpeg-udp/sub/sub.go:75-109 | all but at most 24 groups are played, and nothing is when fewer than 25 arrive |
| `Relay.RelayServer.FindIncoming` | moqt/streamsmap.go:41-53 | finds an incoming stream with the stream ID if there is one |
| `Relay.RelayServer.GetSubID` | moqt/streamsmap.go:28-39 | finds a subscription on the stream ID if there is one |
| `Relay.ContainsAnywhere` | moqt/relayhandler.go:66 | the name test finds its part anywhere in the name |
| `Relay.UnsharedNames` | moqt/relayhandler.go:66 | exactly the names with .catalog or .mp4 somewhere in them are not shared |
| `Relay.RelayServer.HandleSubscribe` | moqt/relayhandler.go:198-238 | run alone: a name with .catalog or .mp4 in it, or without a stream to share, adds one upstream request and stream, any other name none; the session is listed and its subscription filed; without a publisher nothing changes |
| `Relay.RelayServer.HandleClose` | moqt/relayhandler.go:33-37 | the loop takes the session off every stream it subscribed to, and nobody else |
| `Routing.ChainedRun` | moqt/relayhandler.go:46-92 | over every run the publisher, incoming, subscribed and subscriber tables agree on stream IDs |
| `Routing.RoutingIntegrity` | moqt/relayhandler.go:46-238 | every run over a set of tracks delivers only data published for the track asked for, if and only if no two tracks of the set share a stream ID |
| `Routing.StreamIdCollision` | moqt/wire/subscribe.go:147-149 | exactly which pairs of tracks share a stream ID |
| `Routing.UnderscoreFreeRouted` | moqt/wire/subscribe.go:146-149 | namespaces without an underscore are always routed right |
| `Routing.CollisionMisroutes` | moqt/streamsmap.go:28-39 | for every colliding pair a run that delivers one track's data as the other |
| `Routing.SomeRunMisroutes` | moqt/wire/subscribe.go:147-149 | namespace a with track b_c and namespace a_b with track c can be mixed up |
| `Routing.ServeAtOnce` | moqt/relayhandler.go:198-238 | a handler's separate steps, with nothing in between and the stream's lock free, do together what HandleSubscribe does alone |
| `Membership.ListedIsSubscribed` | moqt/relayhandler.go:225-231 | in every reachable state a listed session has a subscription on the stream or is about to file one; one about to file its only one is listed |
| `Membership.LookupFailsIfHalfServed` | moqt/relayhandler.go:75-83 | in every reachable state the lookup for a forwarded stream fails if and only if the session is between AddSubscriber and AddStream there and nothing else it asked for under that stream ID is filed |
| `Membership.LookupCanFail` | moqt/relayhandler.go:79-83 | for every track a run in which the lookup fails and the subscription never gets that data stream, whatever follows |
| `Membership.LostForGood` | moqt/relayhandler.go:73-111 | a data stream already forwarded never reaches a subscription with neither a goroutine nor a replay under way |
| `Membership.ForwardedToListed` | moqt/relaystream.go:96-106 | over every run each data stream is forwarded at one moment, once to each session listed at that moment and to nobody else |
| `Membership.NothingForwardedUnlisted` | moqt/relaystream.go:96-106 | over any run, a session that a stream does not list is in the audience of no data stream forwarded on it until a handler lists it again |
| `Membership.UnsubscribedGetsNothing` | moqt/relayhandler.go:244-253 | over any run after UNSUBSCRIBE, no data stream of that RelayStream is forwarded to the session, for this or any other of its subscriptions, until a handler lists it again; others keep their place |
| `Closing.ListedOnlyIfLate` | moqt/moqtsession.go:74-83 | over every run a session listed after its close was half served when the close began or was listed by a handler since |
| `Closing.CleanClose` | moqt/relayhandler.go:33-37 | a close with no request of the session under way and none served later leaves it listed nowhere |
| `Closing.CloseMissesIfUnderWay` | moqt/relayhandler.go:33-37 | in every reachable state some schedule of a close in which the session takes up no further request leaves it on a stream, if and only if a request of the session is under way at any stage: able to get to AddSubscriber, or listed by it with no subscription on that stream filed |
| `Closing.CloseMissesIfInHand` | moqt/relayhandler.go:222-231 | the same for one stream, over schedules in which the session's handler looks up and opens no further stream: if and only if the handler has that stream and has yet to list the session, or has listed it with no subscription filed on the stream |
| `Closing.ClosedButListed` | moqt/relayhandler.go:225-231 | for every track a run that ends with a closed session listed |
| `Upstream.UpstreamOncePerStream` | moqt/relayhandler.go:46-71 | in every reachable state a publisher session was asked once per stream ID, apart from catalog and mp4 names, if and only if no two handlers overlapped between lookup and add; every incoming key is its stream's subscription ID; sharing is only broken by such names or overlaps |
| `Upstream.CatalogNeverShared` | moqt/relayhandler.go:66-70 | in every reachable state no handler joins another's stream, and no replay is started, for a track with .catalog or .mp4 in its name |
| `Upstream.OnceIfTakingTurns` | moqt/relayhandler.go:62-71 | over every run in which no handler looks while another is opening the same stream, a publisher is asked once per stream ID |
| `Upstream.RaceAsksTwice` | moqt/relayhandler.go:62-71 | for every shared name a run in which two subscribers make the relay ask twice |
| `Upstream.PublisherIsLatest` | moqt/sessionmanager.go:78-83 | over every run the publisher found for a namespace is the session whose announcement of it the relay handled last, or nobody |
| `Upstream.AskedOfAnnouncer` | moqt/relayhandler.go:172-182 | in every reachable state each upstream SUBSCRIBE went to a session that announced the namespace, and what is published belongs to an announcement the publisher recorded |
| `Delivery.LateSubscriberGetsAll` | moqt/relayhandler.go:230-237 | from every reachable state with a replay under way, some continuation hands the late subscriber every data stream forwarded before on that RelayStream |
| `Delivery.SharedIsReplayed` | moqt/relayhandler.go:230-237 | a subscription filed on a shared stream has a replay under way |
| `Delivery.ListedGetsNext` | moqt/relayhandler.go:73-92 | from every reachable state a listed session with a subscription can be handed the next data stream its publisher opens, under a subscription for that stream ID |
| `Delivery.DeliveredIsFiled` | moqt/subhandler.go:119-120 | in every reachable state a substream was only given what the relay sent under a filed subscription, for the stream ID it asked for |
| `Handshake.ControlSession.SetRemoteRole` | moqt/moqtsession.go:130-149 | the role is recorded and judged |
| `Handshake.ControlSession.CheckDraftSupport` | moqt/wire/clientsetup.go:103-112 | true if and only if draft 04 is offered |
| `Handshake.ControlSession.Finish` | moqt/controlstream.go:82-93 | role lookup, role check, then completion or close |
| `Handshake.ControlSession.ServeMessage` | moqt/controlstream.go:57-149 | the session's new state and reply for every message |
| `Handshake.ServeCS` | moqt/controlstream.go:41-63 | the serve loop's new state and replies on any input; at most one reply, the server setup, and only when the handshake is done |
| `Handshake.ServesWhatIsDecoded` | moqt/controlstream.go:45-62 | on any input the loop handles exactly the decoded messages, in order, up to the first that closes the session |
| `Handshake.ServesAfterHandshake` | moqt/controlstream.go:57-149 | for compatible roles, a client setup followed by any control messages leaves the session done, signalled once and open, its handler given exactly those messages, and one server setup sent |
| `Handshake.SetupRefused` | moqt/controlstream.go:65-131 | a setup without draft 04 or a role, or with a clashing role, closes the session unfinished; a compatible one finishes it |
| `Handshake.TakeFaultless` | moqt/controlstream.go:43-46 | what is parsed off the channel bytes is the oldest message sent |
| `Handshake.InvariantRun` | moqt/controlstream.go:41-131 | every reachable state is in one of five handshake phases |
| `Handshake.HandshakeAgreement` | moqt/moqtsession.go:108-149 | in every run: a finished client faces a finished server, roles agree and do not clash, each side signals once, no handler sees a message early, the server's handler gets the client's messages in order without loss, the client's gets the server's in order except exactly those sent before SERVER_SETUP, and only a role clash closes |
| `Handshake.HandshakeCompletes` | moqt/controlstream.go:65-131 | with compatible roles every reachable state can be continued until both sides are done |
| `Sessions.AnnouncementsFindStreams` | moqt/sessionmanager.go:50-69 | over every run of session creations, stream accepts, messages, closes and announcements: a session that knows its peer's role has a control stream, so no announcement goes to one without; no refused session is registered; a namespace leads to its latest announcer |
| `Sessions.SessionManager.AddSession` | moqt/sessionmanager.go:33-40 | registers the session, which hears no announcement until its peer's role is known; the others hear what they heard |
| `Sessions.SessionManager.AcceptStream` | moqt/controlstream.go:168-174 | the first stream becomes the control stream, a second closes the session |
| `Sessions.SessionManager.RemoveSession` | moqt/sessionmanager.go:42-48 | that session only hears no further announcement; namespaces stay |
| `Sessions.SessionManager.AddPublisher` | moqt/sessionmanager.go:50-69 | the announcement goes to exactly the registered peers of role 2 or 3 other than the announcer, all of which have a control stream |
| `Sessions.SessionManager.GetPublisher` | moqt/sessionmanager.go:78-83 | the latest announcer of the namespace, or nobody |
| `Relay.TableIsLatest` | moqt/sessionmanager.go:50-53 | the namespace table maps each announced namespace to its latest announcer |
| `Settings.GetBytes` | h3/settingsframe.go:122-140 | the two loops write the frame |
| `Settings.DeclaredIsEmitted` | h3/settingsframe.go:82-86 | the declared length is the number of bytes emitted |
| `Settings.CounterIsUnread` | h3/settingsframe.go:107-117 | on what GetBytes writes, the counter is the unread bytes at every iteration |
| `Settings.FrameRoundTrip` | h3/settingsframe.go:92-140 | what GetBytes writes reads back: the frame type, then length, body and loop give the original list and leave what follows, the counter ending at zero |
| `Settings.LoopStopsIfEven` | h3/settingsframe.go:110-117 | on every body the loop ends if and only if its residue is even, and what it has then appended |
| `Settings.NoResidueIfMinimal` | h3/settingsframe.go:53-86 | the residue is zero if and only if the body is minimally encoded settings |
| `Settings.SomeBodyNeverEnds` | h3/settingsframe.go:110-117 | a body on which the loop does not end |
| `Settings.Parse` | h3/settingsframe.go:92-120 | the method where it returns, with the counter as termination measure |

## Left out

- QUIC, TLS, WebTransport, the listener and the dialer: calls into libraries that are not part of this model.
- QPACK headers, the data frame, the response writer and the WebTransport stream header: short codecs that would only add easy round trips.
- SUBSCRIBE_DONE's encoder: it omits the message type, and the dispatch never delivers the message; its parser is modelled.
- Messages.ParseMessage: the fields that a body parser had filled before it failed are not kept; such a message is `Broken` with its type, which is all the dispatch looks at for a setup message.
- SubscribeOk forwarding (ForwardSubscribeOk, SendSubscribeOk): it uses the same lookup as stream forwarding and adds no new table.
- The cache check before a replay is started: in `Routing` every shared stream starts one, which may send nothing.
- Liveness under fair scheduling: the unconditional Wait rules it out, as `SubscriberCanHang` shows.
- Delivery to a late subscriber across cache and live stream together: the snapshot is taken in a separate goroutine, so the code decides neither duplication nor omission.
- Several relays in one routing model: `Routing` has one relay; stream contents across relays are covered by `RelayChainTransparent`.
- Collisions of random subscription IDs within a session, and of session IDs: taken as fresh.
- Sessions: recording a peer's role and closing the session when it is refused are one step.
- Settings.Parse: requires an even residue, because on other bodies the source does not return.
- Cache.RelayCache.CacheObject: the byte counter is an unbounded integer; int64 overflow is not modelled.
- Allocation of the length a peer declares, and the panic on a track stream in the reorder buffer's type assertion.
- Retry loops with sleeps, logging, string formatters, rate limiting, example programs, scripts and certificates.
