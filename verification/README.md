# Verification of the RTSP stack

A Dafny model of the RTSP 1.0 client and server, and proofs about it. To check it, run
`dafny verify dfyconfig.toml` here (the include list is `**/*.dfy`).

The code is modelled in its own form. What works by changing things step by step is a class or a
method with loops (`Md5.MD5`, `H264Packer.H264RtpPacker`, `AnnexB.MediaSource`,
`ServerObject.ServerHandle`, `ClientObject.Client`, the base 64 coder, the transport reader, the
string helpers). Each such method is proved against a function on values, and the properties of
whole streams and whole runs are lemmas about those functions.

## What is modelled, and the main results

- **Stream demultiplexing** (`Stream`, `ClientStream`, `Framing`, `Interleaved`, `Fragmentation`).
  One connection mixes `$`-framed packets (section 10.12 of RFC 2326) with RTSP messages. The HTTP
  parser is any function whose lengths lie within the buffer and whose answers later octets do not
  change; a text parser (header up to an empty line, then as many octets as the header says) is
  shown to be one. The server gives the same handler calls, replies, session and deferred queue
  however the stream is cut. The client stops after each message, so it lags, but what it has
  delivered followed by the parse of its cache is always the parse of the whole stream.
  The flag `needMoreRtspMessage_` is redundant after every call, failed ones included.
- **Server** (`ServerSpec`, `ServerObject`, `ServerRuns`, `ServerAnswers`). Authentication, session
  rules, SETUP, deferral. In every run the session is written once, handlers run only for entitled
  requests, and deferred requests leave in order; the requests received are exactly those answered
  and those still deferred, unless one comes that the server cannot read, which is characterised.
  `ServerAnswers` says of every request in every reachable state which reply it gets, status and
  headers, from whom, and what is remembered: 401 with the challenge, 454 exactly when it is not
  entitled to the session, 461, the handler's reply with what the stack writes over it, or a
  deferral.
- **Client** (`ClientSpec`, `ClientObject`, `ClientPipelines`, `ClientRuns`, `ClientAnswers`).
  Requests, sequential and pipelined SETUP, replies, re-authentication. In every run, against any
  peer, pending requests keep increasing numbers, no number is answered twice on a pipeline, a
  duplicate reply is an error however late it comes, sent is answered plus pending, and the client
  retransmits at most once. `ClientAnswers` says of every call which requests it sends, header by
  header, and of every reply which callback, error or further request it leads to.
- **The two together** (`Exchange`, `Pipelining`, `Conversation`, `Wire`, `Handshake`). Client and
  server are joined by two FIFO channels; the applications are parameters of every theorem.
  `Conversation` covers any number of requests pipelined under one number, of any kind but DESCRIBE
  and ANNOUNCE, deferred and answered in any order, SETUPs granted or refused, with a server that
  asks for no credentials or one with which a handshake has been made; it can always be brought to
  its end. `Pipelining` covers several SETUPs and an aggregate PLAY (section 18.33 of RFC 7826) and
  shows that the pipelined mode does what the sequential one does. `Wire` puts the same parties on
  two octet channels cut in any way and shows that they refine those that pass whole messages.
  `Handshake` composes challenge and response. `Pipelining.PremisesMet` and
  `Conversation.PremisesMet` show that there are servers, clients and starts to which the theorems
  apply; for the latter the server that overrides no handler.
- **Packets** (`Interleaved`, `Delivery`). Datagrams framed by one side and fed to the other in any
  chunks are handed over in order: at the server each of them, at the client each whose channel some
  track uses, under that track's name, as RTP or RTCP.
- **Codecs** (`Md5Spec`, `Md5Vector`, `Md5`, `Base64`, `Authentication`, `DigestSpec`, `Digest`,
  `Transport`, `TransportReading`, `H264Packer`, `AnnexB`, `Decimal`, `Text`). The streaming MD5
  object against RFC 1321, the Digest response against section 3.2.2 of RFC 2617 and what it binds
  its maker to, base 64 against section 4 of RFC 4648, the credential and Transport printers against
  their parsers, any Transport header against what its parameters say, RTP packets as section 5.1 of
  RFC 3550 reads them, FU-A fragmentation (section 5.8 of RFC 6184) and start-code splitting.

Sequences and callbacks are recorded in a `log` field of the model, in order: it stands for what the
application and the peer can see.

## Where the code departs from its intent

Each departure is kept, and a lemma says exactly when the code does meet the property.

- MD5 writes no `0x80` when the length is 56 modulo 64, and takes the top length octet from bit 52:
  `Md5.PaddingAgreesExactly`, `Md5.PaddingOfShortMessages`, `Md5.TopOctetDiffers`.
- A NAL unit of 1401 octets becomes a single start fragment without end bit or marker:
  `H264Packer.CompleteExactly`, `H264Packer.ReassemblyExactly`. Units of type 0 and 24 to 31 that
  fit one packet are sent as they are, which a receiver takes for something else: the same lemma.
- `MulticastParam::toString` omits `=` after `destination`: `Transport.RoundTripExactly`.
- The Transport parser reads words into buffers of 16, 32 and 64 octets without a limit
  (src/Rtsp2Transport.cpp:69-70, 94-95, 100-101) and numbers into an `int`: `Transport.DecodeOverrunsExactly`
  says which headers overrun, and a server or client given one has no defined outcome in the model.
- An Authorization value of another scheme, shorter than seven characters, makes `substr(7)` throw
  out of the server's `input` (src/Rtsp2Authenticate.cpp:24): `ServerRuns.FailsExactly`.
- The server checks the signature over the URI that the credentials name, never over the URL of the request
  itself: `Digest.UrlNotChecked`.
- Base 64 indexes its table with a plain `char`; where that is signed, octets above 127 index outside it:
  `Base64.Base64Encode`.
- The answer to a 401 repeats the client's latest request, not the refused one:
  `Handshake.AnswerRepeatsExactly`, `Handshake.TwoUnderWay`.
- Only sixteen bits of a packet's length are written: `Interleaved.FrameDeliveredExactly`.
- A comma inside nonce or uri is lost in Digest credentials, one inside realm or nonce in a challenge, and
  one inside opaque begins a new field: `Authentication.DigestReadExactly`,
  `Authentication.ChallengeAgreesExactly`.
- A pipelined SETUP reply without Transport raises an exception: `ClientRuns.SetupReplyFailsExactly`.
- A pipelined DESCRIBE is never removed: `ClientRuns.DescribeStaysPending`.
- `mediaStep_` is never reset: `ClientRuns.ControlUndefinedExactly`.
- `prePipeRequest_` is never filled: part of `ServerRuns.ConnectionConserves`.
- The client's automatic retransmission carries its number as one character; it is treated as an
  opaque text, and `Handshake.HandshakeComplete` does not depend on it.

## Model

| member | source | states |
|---|---|---|
| Conversation.ConversationIsSafe | src/Rtsp2Client.cpp:499-688 | In every interleaving of a conversation under one pipeline number (calls to anything but DESCRIBE and ANNOUNCE; any request, SETUP included, answered at once or deferred, SETUP granted or refused, replies in any order; with or without authentication; every reply made to a SETUP carries a Transport that can be read) no call fails, no request read by the server is turned away, the client's session is none or the server's, each request has had exactly one callback of its own method and number or is pending, and the pending ones are exactly those under way or deferred |
| Conversation.ConversationEnds | src/Rtsp2Client.cpp:647-688 | Once nothing is under way the pipeline is empty and callbacks match requests one to one |
| Conversation.CanEnd | src/Rtsp2Server.cpp:95-275 | From every state of a conversation with a server whose replies are always proper, a bounded number of deliveries and deferred replies leads to one with nothing under way or deferred |
| Conversation.EveryConversationCanEnd | src/Rtsp2Client.cpp:647-688 | However a conversation has gone, deliveries and deferred replies alone bring it to an end where every request has had its callback |
| Conversation.DefaultsAreCivil | include/Rtsp2Server.h:43-52 | A server that overrides no handler, and so grants every transport as it was asked for, and whose session identifier the client can take over meets what is asked of the server, in every state and for every request |
| Conversation.PremisesMet | include/Rtsp2Server.h:43-71 | With that server and a new client the premises of these theorems hold |
| Wire.WireRefines | src/Rtsp2Server.cpp:11-75 | Client and server over octet channels, each call getting any number of octets and the client stopping after each message, go through states that passing whole messages leads to, with the same application calls and replies in the same order, and fail where whole messages make them fail; for parsers that read back what is printed |
| Wire.ConversationOverOctets | src/Rtsp2Client.cpp:58-166 | A conversation under the rules of `Conversation` is safe octet by octet, for every cutting of both streams, and complete once no octet is cached or under way and nothing is deferred |
| Wire.AlwaysCivilTo | src/Rtsp2Server.cpp:22-62 | A server whose replies are always proper meets what is asked of it for whatever octets it is given |
| Wire.ServerDrains | src/Rtsp2Server.cpp:22-62 | One call of the server's `input` takes the whole requests among the octets there are, until one fails, and leaves the beginning of the next |
| Wire.ClientTakesOne | src/Rtsp2Client.cpp:68-152 | One call of the client's `input` takes the reply at the front, if all of it is there, and no other |
| Conversation.ServerTakesKeeps | src/Rtsp2Server.cpp:185-275 | The server's reading of a request, whatever its application does within the rules of the conversation, keeps the balance between pending requests and messages under way, the matching of methods, and the order of session labels on the reply channel |
| Conversation.SetupHandled | src/Rtsp2Server.cpp:278-300 | A SETUP whose Transport can be read and whose handler's reply can be read is deferred, refused or granted without an error; the session is created at most once, and only by a reply |
| Conversation.ServerRepliesKeeps | src/Rtsp2Server.cpp:95-115 | So does a deferred reply, whatever it overtakes or is overtaken by |
| Conversation.ClientTakesKeeps | src/Rtsp2Client.cpp:499-522 | The client finds the request of every reply by its number, makes one callback and forgets that request only |
| Conversation.ClientCallsKeeps | src/Rtsp2Client.cpp:11-24 | New requests get numbers that nothing under way carries |
| Conversation.SetupReplyTaken | src/Rtsp2Client.cpp:669-687 | A pipelined SETUP reply, granting or refusing, makes one callback with the number of its request, adopts the session, and removes that request only |
| Conversation.UsualReplyTaken | src/Rtsp2Client.cpp:647-668 | The same for the other methods |
| Conversation.BurstSends | src/Rtsp2Client.cpp:186-200 | A burst of SETUPs records every request it sends, in order, with fresh numbers |
| Conversation.ServerKeepsTrust | src/Rtsp2Server.cpp:130-205 | Every request of an agreeing client passes authentication inside the conversation, and the two still agree |
| Conversation.CallKeepsTrust | src/Rtsp2Client.cpp:11-14 | Every request such a client sends is signed, whatever it has sent before |
| Conversation.CallSendsOnce | src/Rtsp2Client.cpp:11-24 | No call sends a method and number that has been sent before |
| Pipelining.EveryRunIsSafe | src/Rtsp2Client.cpp:186-224 | For several SETUPs and an aggregate PLAY, pipelined or not, with any server that grants these SETUPs, in every interleaving: no error, no 454, no unknown pipeline; session none or the server's; callbacks so far are the first of one per track, with what was granted, then one for PLAY; without pipelining `setupIter_` points at the track being set up |
| Pipelining.QuietMeansDone | src/Rtsp2Client.cpp:547-572 | Once everything is delivered: no request pending, every track and PLAY called back exactly once, in order, sessions equal |
| Pipelining.PipelinedRefinesSequential | src/Rtsp2Client.cpp:186-224 | Both modes send the same URL and Transport lines in the same order and make the same callbacks, whatever the servers, applications and interleavings |
| Pipelining.CanFinish | src/Rtsp2Server.cpp:185-275 | No deadlock: from every reachable state a bounded number of deliveries reaches one with nothing under way |
| Pipelining.GrantedAsAsked | src/Rtsp2Transport.cpp:152-191 | When the server grants the track as asked, the callback carries the requested transport itself, if that is canonical, its ssrc within the buffer included |
| Pipelining.ServerSetsUp | src/Rtsp2Server.cpp:278-300 | A planned SETUP is admitted and answered at once with 200, the granted transport, the session and the pipeline number |
| Pipelining.ServerPlays | src/Rtsp2Server.cpp:244-274 | PLAY is admitted, and answered in the session or deferred, whatever the server does with SETUPs |
| Pipelining.ServerRepliesLater | src/Rtsp2Server.cpp:95-115 | A deferred PLAY is answered with its own number, session and pipeline |
| Pipelining.PipelinedSetupReply | src/Rtsp2Client.cpp:647-688 | With distinct media URLs the reply causes one callback, for the right track |
| Pipelining.SequentialSetupReply | src/Rtsp2Client.cpp:547-572 | The reply causes the track's callback and the SETUP of the next track, which carries the server's session |
| Pipelining.Burst | src/Rtsp2Client.cpp:193-199 | The pipelined SETUPs go out in the order of the tracks, numbered in turn, none with a session |
| Pipelining.PlaySent | src/Rtsp2Client.cpp:231-242 | The aggregate PLAY goes to the presentation's URL in the session the client knows |
| Exchange.Admits | src/Rtsp2Server.cpp:198-242 | A request within the authentication and session rules is handled, and nothing but the verified parameters changes before |
| Exchange.SetupGranted | src/Rtsp2Server.cpp:278-300 | A SETUP that its handler grants creates the session if there is none and prints the granted transport |
| Exchange.OneCall | src/Rtsp2Client.cpp:676-683 | With distinct control URLs a pipelined SETUP reply makes exactly one callback |
| Exchange.Adopted | src/Rtsp2HeadField.cpp:62-76 | The client takes over the server's session identifier as it is, once |
| Handshake.HandshakeComplete | src/Rtsp2Client.cpp:484-512 | An unsigned request is challenged, the client answers by itself, its answer passes, the server challenges none of the client's later requests, and the client retransmits no more |
| Handshake.HandshakeAgrees | src/Rtsp2Client.cpp:484-512 | After the refusal and the automatic answer the two sides agree, which is what a signed conversation starts from |
| Handshake.ChallengeAnswered | src/Rtsp2Client.cpp:484-496 | A challenge the client can meet is answered once, signed, for the client's latest method and URL |
| Handshake.AnswerRepeatsExactly | src/Rtsp2Client.cpp:484-497 | The answer repeats the refused request if and only if that is the one the client has last aimed at |
| Handshake.CallAims | src/Rtsp2Client.cpp:168-282 | After a call that sends, the request last sent is the one last aimed at |
| Handshake.TwoUnderWay | src/Rtsp2Client.cpp:499-512 | With two unsigned requests under way the refusal of the first makes the client repeat the second, and the refusal of the second calls the authentication callback |
| Handshake.UnsignedRefused | src/Rtsp2Server.cpp:198-205 | An unsigned request gets 401 with the challenge of fresh parameters, and nothing else changes |
| Handshake.SignedPasses | src/Rtsp2Server.cpp:130-156 | A request signed by an agreeing client passes, and the two still agree |
| Handshake.SignedRunUnchallenged | src/Rtsp2Server.cpp:185-205 | In a run of signed requests the server challenges none |
| Handshake.RetransmitsNoMore | src/Rtsp2Client.cpp:499-512 | A client that authenticates never retransmits, in any run |
| Fragmentation.ServerFragmentation | src/Rtsp2Server.cpp:11-75 | For every stream and every way of cutting it into calls: the same handler calls, replies, session, deferred queue and error as one call, and the same cache when there is no error |
| Fragmentation.ServerItemsAreOps | src/Rtsp2Server.cpp:22-61 | A parsed stream is a run of the server, so the theorems on runs hold of octets |
| Fragmentation.ClientNeverLoses | src/Rtsp2Client.cpp:58-166 | After calls that succeed, the items acted on followed by the parse of the cache are the parse of all octets received |
| Fragmentation.ClientCatchesUp | src/Rtsp2Client.cpp:58-166 | Empty calls, one more than the messages waiting, bring the client to the end of the reference parse |
| Fragmentation.ClientItemsAreOps | src/Rtsp2Client.cpp:68-152 | A parsed stream is a run of the client |
| Stream.FragmentationIndependent | src/Rtsp2Server.cpp:11-75 | Fragmentation independence for any parser within the laws and any handling of items |
| Stream.FeedTwice | src/Rtsp2Server.cpp:63-73 | Two calls are one call with both pieces, errors and cache included |
| Stream.ParseAppend | src/Rtsp2Server.cpp:22-62 | What was parsed stays when octets arrive, and the parse goes on from the rest |
| Stream.PacketStable | src/Rtsp2Utility.cpp:281-299 | A complete packet is read the same with more octets behind it |
| Stream.PacketLength | src/Rtsp2Utility.cpp:291 | The 16-bit length is the big-endian number |
| ClientStream.NothingLost | src/Rtsp2Client.cpp:58-166 | Nothing is lost, repeated or reordered, for any parser within the laws and any handling of items |
| ClientStream.Drains | src/Rtsp2Client.cpp:68-165 | Empty calls drain the cache to the result of the server's loop |
| ClientStream.TakeCases | src/Rtsp2Client.cpp:114 | A call takes all there is, or stops after exactly one message |
| Framing.ReadersLawful | src/Rtsp2Server.cpp:43-47 | Trying request then response, or response then request, keeps the parser laws |
| Framing.TextFramerLawful | src/Rtsp2Server.cpp:185-192 | A header-and-body text parser satisfies the laws asked of the HTTP parser |
| Interleaved.ServerReceivesFramed | src/Rtsp2Client.cpp:450-460 | Any datagrams framed by the client and fed in any chunks give exactly those packets and an empty cache |
| Interleaved.ClientReceivesFramed | src/Rtsp2Server.cpp:117-128 | The same from server to client |
| Interleaved.FrameDeliveredExactly | src/Rtsp2Client.cpp:450-460 | One frame arrives as sent if and only if its length fits in sixteen bits |
| Interleaved.FrameRead | src/Rtsp2Utility.cpp:281-299 | The receiver takes as many octets as the sixteen bits say |
| Interleaved.ReadsInterleaved | src/Rtsp2Utility.cpp:281-299 | The receiver takes exactly what section 10.12 of RFC 2326 says is there |
| Interleaved.FrameIsInterleaved | src/Rtsp2Client.cpp:450-460 | A frame is what that section says if and only if its length fits in sixteen bits |
| Delivery.ClientDelivers | src/Rtsp2Client.cpp:85-96 | Datagrams framed by the server and fed in any chunks make one callback each whose channel some track uses, in order, with the name of the first such track, as RTP if and only if the channel is its first, and none for the others; nothing else changes |
| Delivery.ServerDelivers | src/Rtsp2Server.cpp:24-40 | Datagrams framed by the client and fed in any chunks are all handed to the application, in order; nothing else changes |
| ServerObject.ServerHandle.Input | src/Rtsp2Server.cpp:11-75 | The buffer loop with the flag computes the flagless specification, cache and error included; the flag implies an unfinished message at the front of the cache, after failed calls too |
| ServerObject.ServerHandle.Gather | src/Rtsp2Server.cpp:13-20 | The octets looked at are those cached and the new ones, in order |
| ServerObject.ServerHandle.ProcessBuffer | src/Rtsp2Server.cpp:22-62 | The loop ends and leaves exactly the unprocessed octets |
| ServerObject.ServerHandle.Turn | src/Rtsp2Server.cpp:24-56 | One turn acts on the item at the front, or marks it unfinished, or fails |
| ServerObject.ServerHandle.KeepRest | src/Rtsp2Server.cpp:63-73 | The two ways of keeping the rest agree |
| ServerObject.ServerHandle.RunHandleRequest | src/Rtsp2Server.cpp:185-275 | Authentication, challenge, or admission, as specified |
| ServerObject.ServerHandle.RunAdmit | src/Rtsp2Server.cpp:207-242 | The session and pipelining rules; 454 otherwise |
| ServerObject.ServerHandle.RunHandle | src/Rtsp2Server.cpp:244-274 | The handler's reply, labelled with session and pipeline, or the deferral |
| ServerObject.ServerHandle.RunReplaySetup | src/Rtsp2Server.cpp:278-300 | 461 without Transport; otherwise the handler, its transport printed, the session created once |
| ServerObject.ServerHandle.RunHandleResponse | src/Rtsp2Server.cpp:158-183 | A reply goes to the handler of the last request's method, if it has one |
| ServerObject.ServerHandle.VerifyAuthParams | src/Rtsp2Server.cpp:130-156 | The verdict, and what the check overwrites in the parameters |
| ServerObject.ServerHandle.RunSendResponse | src/Rtsp2Server.cpp:95-115 | The oldest deferred request is answered with its number and pipeline; an error when there is none |
| ServerObject.ServerHandle.RunSendRtspMessage | src/Rtsp2Server.cpp:86-93 | A request of the server's own carries the session and becomes the current one |
| ServerObject.ServerHandle.SendRtpRtcp | src/Rtsp2Server.cpp:117-128 | The framed packet, channel and length truncated as the code does |
| ServerRuns.SessionWrittenOnce | src/Rtsp2Server.cpp:278-300 | In every run a session, once there, never changes, and the pipelining memory stays empty |
| ServerRuns.HandlersRunForEntitled | src/Rtsp2Server.cpp:224-254 | In every run a handler runs only for the session's own requests, for pipelined ones without a Session, or before there is a session |
| ServerRuns.FailsExactly | src/Rtsp2Server.cpp:185-300 | A request throws if and only if authentication is asked for and the trimmed Authorization value neither starts with Basic nor has seven characters; its handling is undefined if and only if it is an admitted SETUP whose Transport overruns; otherwise it ends without an error |
| ServerRuns.WholesomeIsRead | src/Rtsp2Server.cpp:185-300 | Requests with long enough Authorization values and readable Transports are read to the end in every state |
| ServerRuns.RequestsConservedExactly | src/Rtsp2Server.cpp:185-275 | After every run the numbers received are, as a multiset, those answered plus those deferred, if and only if the server could read every request when it came; otherwise the run ends there; deferred requests leave first in, first out in any case |
| ServerRuns.ConnectionConserves | src/Rtsp2Server.cpp:95-115 | All of this from the start of a connection, for requests without short Authorization values and overrunning Transports |
| ServerRuns.DoBooked | src/Rtsp2Server.cpp:95-275 | Each single step books exactly the request it receives, or fails and books nothing |
| ServerAnswers.RefusedExactly | src/Rtsp2Server.cpp:224-242 | After every run of a connection, a request that passes authentication gets a 454 of the stack's own, with its own number and without any other effect, if and only if it is not entitled to the session |
| ServerAnswers.ChallengedWith | src/Rtsp2Server.cpp:198-205 | A request that fails authentication gets 401 with the challenge of fresh parameters, its own number and nothing else |
| ServerAnswers.OrdinaryAnswered | src/Rtsp2Server.cpp:244-274 | A request within the session rules reaches its handler with a 200 that carries its number; the handler's reply goes out with session and pipeline written over it, or the request is deferred; a method without handler is answered 200 |
| ServerAnswers.SetupAnswered | src/Rtsp2Server.cpp:278-300 | SETUP: 461 without Transport; the handler gets what is asked for; a 200 of its goes out with what is granted printed and creates the session if there was none; any other reply goes out as it is |
| ServerAnswers.AnsweredLaterWith | src/Rtsp2Server.cpp:95-115 | The oldest deferred request gets the application's reply with its own number, its pipeline and the session; without one there is an error |
| ServerAnswers.ReplyToldAs | src/Rtsp2Server.cpp:158-183 | In every run a reply from the client goes to the handler of the method the server last sent, if that method has one, and changes nothing else |
| ServerAnswers.SentOfItsOwn | src/Rtsp2Server.cpp:86-93 | A request of the server's own carries the session and the number drawn for it |
| ClientObject.Client.Input | src/Rtsp2Client.cpp:58-166 | The client's loop with the flag computes the flagless specification that stops after one message |
| ClientObject.Client.Gather | src/Rtsp2Client.cpp:60-67 | The octets looked at are those cached and the new ones, in order |
| ClientObject.Client.ProcessBuffer | src/Rtsp2Client.cpp:68-152 | The loop ends, after at most one message |
| ClientObject.Client.Turn | src/Rtsp2Client.cpp:70-151 | One turn: a packet, a reply, a request, unfinished, or an error |
| ClientObject.Client.RunMakeRequest | src/Rtsp2Client.cpp:11-24 | The request's headers, its number, and its record on the pipeline |
| ClientObject.Client.RunSetupAll | src/Rtsp2Client.cpp:186-200 | The first SETUP, and all of them in pipelined mode |
| ClientObject.Client.RunSendSetup | src/Rtsp2Client.cpp:202-224 | One SETUP, to the last media description of that name |
| ClientObject.Client.RunPlay | src/Rtsp2Client.cpp:231-251 | The aggregate PLAY, or one per media description |
| ClientObject.Client.RunSendForNext | src/Rtsp2Client.cpp:258-282 | The next media description's request, an error for an unknown name |
| ClientObject.Client.RunHandleResponse | src/Rtsp2Client.cpp:499-536 | 401, session check, pipelined reply, or dispatch on the last method |
| ClientObject.Client.RunHandleUnAuth | src/Rtsp2Client.cpp:484-497 | The challenge is parsed and answered with credentials |
| ClientObject.Client.RunHandleDescribe | src/Rtsp2Client.cpp:539-545 | Base URL, session description, callback |
| ClientObject.Client.RunHandleSetup | src/Rtsp2Client.cpp:547-572 | The sequential SETUP reply and the next SETUP |
| ClientObject.Client.RunHandleControl | src/Rtsp2Client.cpp:574-645 | The callback, or the request for the next media description |
| ClientObject.Client.RunHandlePipelined | src/Rtsp2Client.cpp:647-688 | The pending request is found by number, called back and erased; an error when there is none |
| ClientObject.Client.FindPending | src/Rtsp2Client.cpp:650-654 | The first pending request with that number |
| ClientObject.Client.RunPipelinedSetup | src/Rtsp2Client.cpp:669-684 | One callback for every media description with the request's URL |
| ClientObject.Client.RunAdopt | src/Rtsp2Client.cpp:559-562 | The session of the first reply that carries one |
| ClientObject.Client.RunHandleAsked | src/Rtsp2Client.cpp:127-140 | A request of the server's is answered, 501 without a callback |
| ClientObject.Client.RunHandlePacket | src/Rtsp2Client.cpp:85-96 | A packet goes to the first track with its channel |
| ClientObject.Client.PushInterleavedBinaryData | src/Rtsp2Client.cpp:450-460 | The framed packet |
| ClientRuns.RunKeepsBooks | src/Rtsp2Client.cpp:11-24 | In every run pending numbers increase strictly, the requests sent on a pipeline are those answered by a reply plus those pending, and retransmissions are counted by the change of `needAuth_` |
| ClientRuns.NewClientBooks | src/Rtsp2Client.cpp:484-512 | From a new client: at most one automatic retransmission in any run |
| ClientPipelines.OpCases | src/Rtsp2Client.cpp:647-688 | Every operation either is a reply that passes the session check and names a pending request other than DESCRIBE, which is then called back and erased, and nothing else; or takes nothing from any pipeline and adds only requests with new numbers |
| ClientPipelines.ShorterExactly | src/Rtsp2Client.cpp:655-662 | A pipeline gets shorter if and only if the operation is a reply that answers one of its requests |
| ClientPipelines.AnsweredAtMostOnce | src/Rtsp2Client.cpp:647-662 | In any run, whatever the peer sends and the application calls, a number is answered at most once on a pipeline |
| ClientPipelines.NewClientAnswersOnce | src/Rtsp2Client.cpp:647-662 | The same from a new client, whose pending numbers stay in order |
| ClientPipelines.RunKeepsSpent | src/Rtsp2Client.cpp:11-24 | A used number that is not pending never becomes pending again |
| ClientRuns.RunSigns | src/Rtsp2Client.cpp:11-14 | An authenticating client signs every later request with the same secret and challenge |
| ClientRuns.ReplySelects | src/Rtsp2Client.cpp:649-653 | Whatever the order of replies, a number selects its one request, and none once it is removed |
| ClientPipelines.DuplicateRejected | src/Rtsp2Client.cpp:654-657 | After a reply has answered a request, whatever the client is then asked to do and whatever it receives, every further reply with that pipeline and number is `rtsp2_pipeline_not_found`, or fails the session check before |
| ClientRuns.DescribeStaysPending | src/Rtsp2Client.cpp:660 | A pipelined DESCRIBE stays pending and is called back at every reply |
| ClientRuns.SetupReplyFailsExactly | src/Rtsp2Client.cpp:669-675 | A pipelined SETUP reply raises an exception if and only if it has no Transport, or a readable one and a session it must take and cannot read; it is undefined if and only if its Transport overruns |
| ClientRuns.ControlUndefinedExactly | src/Rtsp2Client.cpp:243-250 | A request per media description reads past the list if and only if there is no aggregate control and the list was used up before |
| ClientPipelines.NextNumber | src/Rtsp2Client.cpp:11-24 | The next request's number, pipeline and credentials, as a reader of the headers finds them |
| ClientAnswers.OwnHeadersAre | src/Rtsp2Client.cpp:8-24 | Every header the stack gives a request: agent, number, credentials when it authenticates, session when there is one, pipeline when it pipelines |
| ClientAnswers.SimpleAsks | src/Rtsp2Client.cpp:168-184 | A simple call sends one request of its method to the URL the client is at, with its body |
| ClientAnswers.FirstRequest | src/Rtsp2Client.cpp:8-24 | The first request of a client carries number 0 and nothing but its agent |
| ClientAnswers.SetupAsks | src/Rtsp2Client.cpp:202-224 | SETUP goes to the URL of its track with the printed transport; without a list of tracks this one becomes the list |
| ClientAnswers.SetupAllAsks | src/Rtsp2Client.cpp:186-200 | Without pipelining only the first track is asked for; without tracks there is an error |
| ClientAnswers.PipelinedTracksAsk | src/Rtsp2Client.cpp:186-200 | Pipelined, every track is asked for, in order |
| ClientAnswers.LastUrl | src/Rtsp2Client.cpp:205-211 | The URL of SETUP is that of the last media description with the name |
| ClientAnswers.MediaAsks | src/Rtsp2Client.cpp:258-282 | A request for one media description goes to the first one with the name; an unknown name is an error |
| ClientAnswers.AggregateAsks | src/Rtsp2Client.cpp:231-242 | With aggregate control one request goes to the presentation, and added headers give way to the stack's own |
| ClientAnswers.OneByOneAsks | src/Rtsp2Client.cpp:243-251 | Without aggregate control the next media description is asked for, or, pipelined and but for TEARDOWN, all that are left, in order |
| ClientAnswers.OthersAskNothing | src/Rtsp2Client.cpp:462-470 | Starting or stopping a pipeline and changing the user send nothing |
| ClientAnswers.UnauthorizedAnswered | src/Rtsp2Client.cpp:484-512 | A 401 calls the authentication callback or is answered once with the challenge read, credentials and a number of one character; without a challenge it throws |
| ClientAnswers.SessionMissed | src/Rtsp2Client.cpp:514-517 | In a session, a reply without one is an error and changes nothing |
| ClientAnswers.SimplyCalledBack | src/Rtsp2Client.cpp:524-536 | Other replies go to the callback of the method last aimed at, if it has one |
| ClientAnswers.ControlAnswered | src/Rtsp2Client.cpp:574-645 | Replies to PLAY, RECORD, PAUSE and TEARDOWN: the callback when nothing is left to ask for or a PLAY or RECORD has failed, otherwise the request for the next media description |
| ClientAnswers.DescribedAs | src/Rtsp2Client.cpp:539-545 | A description is read against Content-Base, else Content-Location, else the client's URL, and called back; aggregate control, once there, stays |
| ClientAnswers.SetupRefused | src/Rtsp2Client.cpp:547-556 | A refused SETUP makes the callback with the track as it was asked for, and ends the sequence |
| ClientAnswers.SetupContinued | src/Rtsp2Client.cpp:558-572 | A granted SETUP replaces the transport, adopts the session, makes the callback and asks for the next track |
| ClientAnswers.PipelinedCalledBack | src/Rtsp2Client.cpp:647-688 | A pipelined reply makes the callback of its own request's method, if it has one, and erases that request only |
| ClientAnswers.AskedAnswered | src/Rtsp2Client.cpp:127-140 | A request of the server's gets the callback's answer, which starts as a 200 with its number, or 501 |
| ClientAnswers.SessionRead | src/Rtsp2HeadField.cpp:62-76 | The identifier is the whole trimmed text; the timeout is the number behind the first `timeout=`, or 60 |
| Md5.MD5.Sum | src/Rtsp2Utility.cpp:429-458 | After any calls the octets folded into the registers, a multiple of 64, followed by the cache are all octets fed, though only as many as the last call brought are scanned |
| Md5.MD5.ProcessChunk | src/Rtsp2Utility.cpp:459-507 | The register-rotating loop computes the four in-place rounds of section 3.4 of RFC 1321 |
| Md5.MD5.LoadWords | src/Rtsp2Utility.cpp:465-472 | Sixteen little-endian words |
| Md5.MD5.Consume | src/Rtsp2Utility.cpp:442-446 | All whole blocks among the first `length` octets are folded in |
| Md5.MD5.Final | src/Rtsp2Utility.cpp:508-541 | Feeding the buffer to itself compresses it exactly once; the digest is that of RFC 1321 under the condition of `PaddingAgreesExactly` |
| Md5.MD5.Extend | src/Rtsp2Utility.cpp:510-533 | What is appended before the last blocks |
| Md5.MD5.Reset | src/Rtsp2Utility.cpp:543-551 | A new start |
| Md5.MD5.constructor | src/Rtsp2Utility.cpp:543-551 | The initial registers of section 3.3 of RFC 1321, nothing fed |
| Md5.PaddingAgreesExactly | src/Rtsp2Utility.cpp:510-533 | The appended octets are those of sections 3.1 and 3.2 of RFC 1321 if and only if the length is not 56 modulo 64 and the three highest hexadecimal digits of the 64-bit bit length are equal |
| Md5.PaddingOfShortMessages | src/Rtsp2Utility.cpp:533 | Below a bit length of 2^52 only the residue 56 is padded otherwise |
| Md5.TopOctetDiffers | src/Rtsp2Utility.cpp:533 | At that bit length the padding differs, though the residue is not 56 |
| Md5.BodyComputesOperation | src/Rtsp2Utility.cpp:474-502 | The loop body is one operation of section 3.4 of RFC 1321, selection, index, constant and shift included |
| Md5.RotationStep | src/Rtsp2Utility.cpp:498-501 | Rotating the four names is writing the registers in turn |
| Md5.AllConsumed | src/Rtsp2Utility.cpp:534 | The doubled buffer is consumed by exactly one copy |
| Md5.EncodeHex | src/Rtsp2Utility.cpp:396-409 | The hexadecimal text of a word, low-order octet first |
| Md5Vector.EmptyDigest | src/Rtsp2Utility.cpp:410-541 | The digest of the empty message is the one in the test suite of appendix A.5 of RFC 1321: sine table, initial registers, shifts and functions each have their part in it |
| Md5Vector.OctetsOfDigest | src/Rtsp2Utility.cpp:396-409 | Its registers are written low-order octet first |
| Base64.Base64Encode | src/Rtsp2Utility.cpp:184-228 | The buffer-filling encoder computes the encoding of section 4 of RFC 4648, unless `char` is signed and an octet is above 127: then, and only then, it indexes outside its table |
| Base64.Base64Decode | src/Rtsp2Utility.cpp:230-279 | The decoder's result for every text, malformed ones included |
| Base64.DecodeEncode | src/Rtsp2Utility.cpp:184-279 | Decoding undoes encoding for all octet strings |
| Base64.EncodeInjective | src/Rtsp2Utility.cpp:184-228 | Distinct octet strings have distinct encodings |
| Base64.EncodeIsCanonical | src/Rtsp2Utility.cpp:184-228 | Encodings are whole groups, padded only at the end, without stray bits |
| Base64.EncodeDecodeExactly | src/Rtsp2Utility.cpp:230-279 | Encoding undoes decoding if and only if the text is canonical |
| Base64.GroupIndices | src/Rtsp2Utility.cpp:193-200 | The shifts and masks give the four 6-bit numbers of the group |
| Base64.AlphabetAgrees | src/Rtsp2Utility.cpp:173-182 | The table is that of section 4 of RFC 4648 |
| Base64.DecodeStops | src/Rtsp2Utility.cpp:230-279 | Decoding ends at the first group with a third or fourth character outside the alphabet; later groups leave zeros |
| Authentication.RunParser | src/Rtsp2Authenticate.cpp:14-48 | The parser with its loop and its exception |
| Authentication.RunMakeResponse | src/Rtsp2Authenticate.cpp:110-121 | One MD5 object, reset twice, computes the request-digest of section 3.2.2 of RFC 2617 over the hash the code computes |
| Authentication.DigestParsed | src/Rtsp2Authenticate.cpp:96-107 | The server reads nonce, uri and response of printed Digest credentials, whatever the user name holds |
| Authentication.DigestReadExactly | src/Rtsp2Authenticate.cpp:14-48 | Nonce and uri are read back if and only if neither holds a comma and no field inside the opaque value, whose commas begin new fields, replaces them |
| Authentication.AgreementPasses | src/Rtsp2Server.cpp:130-156 | Credentials of an agreeing client verify, and verification keeps the agreement |
| Authentication.ChallengeBringsAgreement | src/Rtsp2Authenticate.cpp:50-64 | Reading the printed challenge brings the client to agreement with the server |
| Authentication.ChallengeAgreesExactly | src/Rtsp2Authenticate.cpp:14-64 | A challenge brings agreement if and only if user and password are the same and, for Digest, realm and nonce hold no comma, no field inside the opaque value replaces realm, nonce or user name, and no opaque value with a comma is left over |
| Authentication.BasicExactly | src/Rtsp2Server.cpp:142-145 | Where both sides can encode their texts, Basic verification accepts if and only if user name and password texts are equal |
| Authentication.BasicSays | src/Rtsp2Authenticate.cpp:89-94 | Basic credentials decode to user name, colon and password |
| Authentication.ResponseIsRequestDigest | src/Rtsp2Authenticate.cpp:110-121 | The response is the request-digest of section 3.2.2 of RFC 2617 without `qop`, over the hash the code computes |
| Digest.ResponseIsStandard | src/Rtsp2Authenticate.cpp:110-121 | It is that with MD5 as RFC 1321 has it, unless one of the three texts has a length the code pads otherwise |
| Digest.EqualResponses | src/Rtsp2Authenticate.cpp:110-121 | Equal responses come from the same user name, realm, password, nonce, method and URI, or two messages are exhibited that the hash confuses |
| Digest.AcceptedBinds | src/Rtsp2Server.cpp:130-156 | Whoever printed Digest credentials the server accepts knew its user name, realm, password and nonce and signed the method, or two such messages are exhibited |
| Digest.AcceptedExactly | src/Rtsp2Server.cpp:130-156 | Digest credentials pass if and only if they carry the server's nonce and the request-digest of its own secret for the method and the URI they name |
| Digest.UrlNotChecked | src/Rtsp2Server.cpp:130-156 | The URL of the request itself plays no part |
| Transport.DecodeTransportV1 | src/Rtsp2Transport.cpp:38-110 | The parameter loop computes the fold over the pieces, or stops at the one that overruns a buffer of 16, 32 or 64 octets or an `int` |
| Transport.DecodePrinted | src/Rtsp2Transport.cpp:152-191 | What is left of any transport after printing and parsing; nothing defined if and only if a number, word or the ssrc does not fit |
| Transport.RoundTripExactly | src/Rtsp2Transport.cpp:38-191 | Parsing undoes printing if and only if the transport is canonical: an ssrc of less than 32 octets without blank, semicolon or NUL, no destination, 32-bit numbers, and no parameter of the other protocol or cast |
| Transport.PrintedIsJoined | src/Rtsp2Transport.cpp:112-191 | What is printed is the profile and then the parameters of protocol, cast, mode and ssrc, in this order |
| TransportReading.ReadAsSaid | src/Rtsp2Transport.cpp:38-110 | Of every header that is read, whoever wrote it, each field is what the last parameter that speaks of it says, and is unset without one |
| TransportReading.ProtoExactly | src/Rtsp2Transport.cpp:44-54 | The protocol is TCP if and only if the last profile is `RTP/AVP/TCP`; any other profile is UDP |
| TransportReading.LastIs | src/Rtsp2Transport.cpp:42-108 | The last parameter that speaks of a field is the one no other such follows |
| TransportReading.WordIs | src/Rtsp2Transport.cpp:92-103 | A word is read behind white space up to a NUL or white space, whatever its characters |
| Transport.DecodeOverrunsExactly | src/Rtsp2Transport.cpp:38-110 | The parser overruns if and only if some parameter holds a word, up to a blank or NUL, too long for its buffer or a number beyond 32 bits, whatever stands around it |
| Transport.LegibleIsRead | src/Rtsp2Transport.cpp:38-110 | Headers without such a parameter are read, and only those |
| Transport.DecodedIsLegible | src/Rtsp2Transport.cpp:38-191 | Whatever transport was read from a header can be printed and read again |
| Transport.PairScanned | src/Rtsp2Transport.cpp:80-91 | A printed pair of numbers is scanned back |
| Transport.ApplyDestination | src/Rtsp2Transport.cpp:98-103 | Of a printed destination the word after its first character is read, as the missing `=` has it, up to a blank or NUL, if it has less than 64 octets |
| Transport.ApplySsrc | src/Rtsp2Transport.cpp:92-97 | A word without blanks and NUL is read back whole if it has less than 32 octets; a longer one overruns |
| H264Packer.H264RtpPacker.Pack | example/rtp_h264_packer.cpp:26-88 | The loop over one 1500-octet buffer, never written past its end, emits exactly the packets of the closed form, none for a mere start code, and advances the sequence number by their count, modulo 2^16 |
| H264Packer.H264RtpPacker.WriteHeader | example/rtp_h264_packer.cpp:36-52 | The twelve header octets |
| H264Packer.PacketsReadAsRtp | example/rtp_h264_packer.cpp:36-86 | A receiver after section 5.1 of RFC 3550 reads of every packet, single or fragment: version 2, no padding, extension or CSRC, the packer's payload type and source, the time of the call, consecutive numbers, and the marker on the last packet but for 1401 octets |
| H264Packer.StartCodeRemoved | example/rtp_h264_packer.cpp:8-24 | A frame of the splitter loses exactly its start code |
| H264Packer.ReassemblyExactly | example/rtp_h264_packer.cpp:26-88 | Reassembly gives the NAL unit back if and only if there is one, not of 1401 octets, and not an unfragmented unit of a type other than 1 to 23 |
| H264Packer.CompleteExactly | example/rtp_h264_packer.cpp:69-86 | Start bit first, end bit and marker last, numbers consecutive, if and only if the unit is not of 1401 octets |
| H264Packer.FragmentsCarryNal | example/rtp_h264_packer.cpp:70-86 | The fragments always carry all octets, in order |
| H264Packer.CountIsCeiling | example/rtp_h264_packer.cpp:33-87 | Above 1400 octets there are ceil((n - 1) / 1400) packets |
| H264Packer.FragmentReads | example/rtp_h264_packer.cpp:69-84 | Every field of fragment `i`, as a receiver reads it |
| AnnexB.FindStartCode | example/h264meidasource.h:9-26 | The first start code the scan can see, or none |
| AnnexB.ScannedExactly | example/h264meidasource.h:9-26 | The scan sees the three and the four octet code, wherever more than four octets are left |
| AnnexB.MediaSource.GetNextFrame | example/h264meidasource.h:59-86 | The next frame of the partition, progress at each frame, none exactly when none is left |
| AnnexB.MediaSource.AllFrames | example/h264meidasource.h:59-86 | Repeated calls end and give the whole partition |
| AnnexB.FramesPartition | example/h264meidasource.h:59-86 | The frames are the buffer from its first start code to its end; each begins with a start code and none is scanned inside one from its third octet on |
| AnnexB.GreedyIsUnique | example/h264meidasource.h:59-86 | There is only one such cutting |
| Decimal.ScanPrinted | src/Rtsp2Transport.cpp:80-91 | A printed integer is scanned back, up to the first non-digit |
| Decimal.StoiPrinted | src/Rtsp2Client.cpp:649 | `std::stoi` undoes `std::to_string` for 32-bit integers |
| Decimal.ScanReads | src/Rtsp2Transport.cpp:80-91 | A number is read behind blanks and a sign, up to the first character that is no digit, and nothing without a digit |
| Decimal.Notation | src/Rtsp2Client.cpp:14 | Numbers are in base ten, the most significant digit first |
| Decimal.DigitsAre | src/Rtsp2Transport.cpp:80-91 | The ten digits |
| Text.TrimSpace | src/Rtsp2Utility.cpp:106-127 | The two index loops trim both ends |
| Text.TrimIsTight | src/Rtsp2Utility.cpp:106-127 | What is left neither begins nor ends with white space |
| Text.TrimTakesSpace | src/Rtsp2Utility.cpp:106-127 | Trimming takes off white space and nothing else |
| Text.SpacesAre | src/Rtsp2Utility.cpp:106-127 | White space is octet 32 and octets 9 to 13 |
| Text.SplitString | src/Rtsp2Utility.cpp:18-38 | The iterator loop gives the nonempty pieces |
| Text.SplitConcat | src/Rtsp2Utility.cpp:18-38 | A separator cuts the text: the pieces of both sides, in order |
| Text.InTwoParts | src/Rtsp2Utility.cpp:62-81 | Key and value of a pair come apart as they were joined |
| Text.InTwoSpaced | src/Rtsp2Utility.cpp:62-81 | Blanks around the separator are dropped; without a separator all is the first part |
| Text.OctetsAreCodes | src/Rtsp2Utility.cpp:413 | A string is hashed as its octets |
| Messages.NamesApart | src/Rtsp2Request.cpp:16-27 | Methods have distinct names |

## Left out

- The HTTP parser, URL and SDP parsing and the text of messages (`RtspRequest::read`,
  `RtspResponse::read`, `toString`): messages are records with a header map, the parser a parameter
  with laws, the session description a value.
- Sockets, threads, locks, `std::cout`, the wall clock and the Date header, reason phrases.
- Random numbers: pipeline number, nonce, session identifier and the server's own sequence numbers
  are inputs.
- Callbacks that call back into the same object during `input`; handlers and callbacks are
  functions of their arguments and the application's state. Unset `std::function` callbacks.
- NPT and UTC ranges (src/Rtsp2Utility.cpp:301-374) and example/RtpPacket.cpp.
- `Client::announce`, whose SDP reader cuts the client's URL in place; `MD5::sumFile` and `splitString`
  with several separators, the same steps again.
- Overflow of the client's request counter and of buffer sizes held in `int`.
- What a failed `input` call leaves for later calls, apart from the flag: the cache is then untrimmed.
- The parties of `Exchange` pass whole messages, and those of `Wire` octets; packets between the messages
  are in `Fragmentation` and `Interleaved` only.
- Wire.WireRefines: the text form of messages is not modelled, so that the parser reads back what was
  printed is asked of every message sent.
- ClientObject.Client.RunHandleUnAuth: the CSeq header of the retransmission is the one character the
  assignment of an integer gives; how such a character prints is not modelled.
- Handshake.HandshakeComplete: states that later signed requests pass for URLs without a comma, which
  `Authentication.DigestReadExactly` shows to be needed.
- Pipelining.EveryRunIsSafe: for aggregate control and servers that grant the SETUPs of the plan at once, because
  otherwise `ClientRuns.SetupReplyFailsExactly` and `ClientRuns.ControlUndefinedExactly` apply.
- Conversation.ConversationIsSafe: leaves out DESCRIBE, because it stays pending; `announce`;
  `startPipeline`, `stopPipeline` and `setUserInfo` on the way; a 401 of the application's own, which the
  client answers outside its pipeline; and replies to a SETUP whose Transport is missing or cannot be read,
  which `ClientRuns.SetupReplyFailsExactly` shows to fail.
- Conversation.ConversationEnds: the same.
- Transport.DecodeTransportV1: says that a word or number overruns, not what the overrun does.
- Md5.MD5.Sum: for pieces below 2^32 - 64 octets, where the 32-bit loop counter cannot wrap.
- Md5.MD5.Final: likewise for the cache and its tail. The table of sine values is taken as RFC 1321
  prints it, not computed; `Md5Vector.EmptyDigest` checks it against the digest that RFC gives.
- Authentication.RunMakeResponse: for fields of less than 2^28 octets together, for the same reason.
- Authentication.BasicExactly: where `char` is signed, for texts of octets below 128 on both sides.
  `Handshake.HandshakeComplete` asks for the same; `Authentication.AgreementPasses` takes Basic credentials
  as the unsigned encoding.
- H264Packer.H264RtpPacker.Pack: for frames whose start-code test reads only octets that are there; the
  octet it reads behind a mere start code is any octet.
- AnnexB.FindStartCode: positions are numbers; the address `end - 4` in a buffer shorter than four
  octets is not modelled.
- Framing.TextFramerLawful: the body length is any function of the header; reading Content-Length is not
  modelled.
