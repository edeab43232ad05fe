# Thunder client: wire codec and multiplexed client, verified

A Dafny model of two linked parts of the Thunder Go client and proofs about them:

- the wire codec (`wire/`): values as externally tagged MessagePack, a tolerant
  decoder, and length-prefixed frames;
- the multiplexed client (`client/`): any number of concurrent calls over one
  connection at a time, one reader per connection, lazy re-dial, an in-flight
  gate, and Close.

They meet in the reader loop, which splits frames off the socket, decodes them,
and hands each response to the waiter registered under its id.

`dafny verify dfyconfig.toml` checks the whole project.

## How it is laid out

| files | what they hold |
|---|---|
| `Wrappers`, `MsgPack`, `MsgPackFormats`, `MsgPackObject`, `Values` | MessagePack at byte level, its format table byte by byte (MessagePack specification, section "Formats"), whole objects and Skip, the eight-variant Value |
| `Codec`, `CodecRoundTrip`, `CodecLocality`, `Legacy` | the codec as functions on byte sequences, and its laws |
| `CodecMeaning`, `WireBytes` | the codec against references of their own: what a MessagePack object means, and what every message looks like in plain bytes |
| `CodecMachine` | encoder and decoder as the code has them: a buffer written step by step, a cursor that advances, loops that append; proved against `Codec` |
| `Frame` | frames, the byte stream they make, chunking |
| `Endpoint`, `EndpointGrammar` | the endpoint parser and its inverse, and the grammar of the texts it accepts |
| `ClientTypes`, `Ids`, `Gate`, `ConnTable`, `Handshake` | the id counter, the operations of the gate, the pending table and the handshake as code, proved against the functions the steps of the transition system use |
| `CallLoop`, `Reader` | the two loops of the client as code: one call with its re-dials, against a world of its own, and the reader of one connection, which shares its decision on a body with the transition system |
| `Client` | the client as a transition system |
| `ClientControl`, `ClientHistory` | every step field by field; what only grows |
| `ClientWaiters`, `ClientErrors`, `ClientIds`, `ClientRoles`, `ClientLife`, `ClientOpening`, `ClientCounts` (over `ClientTotals`), `ClientRetry`, `ClientOnce`, `ClientRouting`, `ClientAnswers`, `ClientGreeting`, `ClientAccounts` | one group of invariants each, and that every step keeps it |
| `ClientInvariant`, `ClientRuns`, `ClientBegins`, `ClientStops` | the invariants together, and what holds along whole runs: history, the one step that begins each call, the calls that get no further and how Connect fails |
| `ClientOrigins`, `ClientCauses`, `ClientBlame` | where things come from along a run: every response from a body read on its connection, every error of a connection from an event that broke it, every error of a call from its cause |
| `ClientTheorems`, `ClientProgress` | the main results |
| `ClientBarren`, `ClientRevival`, `ClientFinality`, `CloseRace` | exactly when Close is final, and one run in which it is not |

## The transition system

A state holds the client's fields (`nextID`, permits and closed flag of the gate,
`closed`, the current connection, the holder of the re-dial lock, the handshake
info, the drop counter), every connection with its liveness flag and pending
table, every waiter with its one-slot channel, and every thread with its place in
the code. History fields record what was written and sent, which connections
a call dispatched on, and the order of allocations and installations; no step
reads them. A step is one critical section, channel operation or network
operation of one thread. Taking a waiter out of a table and sending on its channel
are separate steps, as in the code.

| steps | source |
|---|---|
| `BeginCall`, `AcqTake`, `AcqClosed`, `AcqCancel`, `AcqDecide`, `AcqGiveBack`, `ReleasePermit` | client/gate.go:31-60, client/client.go:158-165 |
| `BeginClose`, `ShutGate`, `TakeConn` | client/client.go:205-215 |
| `CheckClosed`, `LoadConn`, `DecideAlive`, `Lock`, `CheckClosedAgain`, `LoadConnAgain`, `DecideAliveAgain`, `SpendBudget`, `InstallConn`, `UnlockRedial` | client/client.go:292-341 |
| `DialFails`, `DialSucceeds`, `GreetNext`, `StoreInfo` | client/client.go:345-368, client/handshake.go:19-91 |
| `AllocId`, `RegisterWaiter`, `WriteSucceeds`, `WriteFails`, `RemoveAfterWrite`, `Receive`, `ContextEnds`, `RemoveOnLeave` | client/client.go:373-426 |
| `PoisonSwap`, `PoisonSend`, `PoisonDone` | client/client.go:72-88 |
| `ReadFrame`, `ReadFails`, `DeliverResponse`, `CountDrop` | client/client.go:431-487 |

The network, the server and the contexts of the callers choose freely: any bytes
in any order, any failure, any deadline. A run starts when `Connect` has been
called; until it returns nobody else can reach the client, which the model
expresses by letting it hold the re-dial lock.

## Assumptions

- The MessagePack library is not in the repository. Its primitives are written
  from the specification: no nil read as zero or as an empty string, no `bin`
  read as a string, an out-of-range integer is an error.
- Strings are byte sequences and floats 64-bit patterns. The conversions from
  int64 and from float32 patterns to float64 patterns are parameters: any total functions.
- `int` is 64 bits wide, so a u32 length never turns negative.
- Lowercasing a scheme is a parameter of the endpoint parser.
- Bytes after a complete body are ignored, as by the code's decoders.
- A secret exists for a token or API key: the code indexes it unchecked
  (client/handshake.go:78).

## Where code and comments differ

- The re-dial backoff is described as doubling up to a cap
  (client/client.go:18-23). With two attempts in a call's budget at most one sleep happens, of the base
  length (`CallLoop.World.CallWithTimeout`); doubling and cap are never observed.
- Close is described as an explicit, final shutdown (client/client.go:203-205). A re-dial that is
  past the second look at the closed flag still installs its connection
  (`CloseRace.AliveAfterClose`). From the moment Close is called, a live connection
  can outlive it exactly when some re-dial past that look can still succeed
  (`ClientFinality.CloseStaysFinalIff`, and `ClientRevival.CloseIsFinalIff` once every
  Close has returned); a Close that starts while nobody is past it always leaves
  nothing alive (`ClientRuns.CloseShutsEverything`).

## Model

| member | source | states |
|---|---|---|
| `CodecRoundTrip.ParseEncodedValue` | wire/codec.go:91-155 | Every Value whose lengths fit 32 bits, nested at will and before any tail, is read back exactly and leaves exactly the tail |
| `CodecRoundTrip.ParseEncodedValues` | wire/codec.go:320-341 | The same for a written list of values: as many as announced, in order |
| `CodecRoundTrip.ParseEncodedEntries` | wire/codec.go:461-500 | The same for the pair list of a Map: any keys, duplicates and order kept |
| `CodecRoundTrip.ParseEncodedRequest` | wire/codec.go:46-66 | An encoded Request before any tail decodes to itself and leaves the tail |
| `CodecRoundTrip.ParseEncodedResponse` | wire/codec.go:68-89 | An encoded Response before any tail decodes to itself and leaves the tail |
| `CodecLocality.RoundTripIffFits` | wire/codec.go:343-374 | The round trip holds exactly for the Values whose lengths fit 32 bits |
| `CodecRoundTrip.EncodingsArePrefixFree` | wire/codec.go:91-164 | If two encodings with tails agree, the Values and the tails agree: no encoding is a proper prefix of another |
| `CodecRoundTrip.EqualIffSameBytes` | wire/value.go:211-259 | Two Values are Equal exactly when their encodings are the same bytes |
| `Values.EqualIsIdentity` | wire/value.go:211-259 | Equal, as the source computes it arm by arm, is identity of the Value with floats compared by bits |
| `Values.EqualIsEquivalence` | wire/value.go:211-259 | Equal is reflexive, symmetric and transitive |
| `Values.LookupIsFirstMatch` | wire/value.go:194-204 | MapGet finds the first pair whose key is that Str, and nothing when there is none |
| `CodecRoundTrip.FrameIdIffU32` | wire/codec.go:502-511 | The id decoder succeeds exactly on the integer formats holding 0..2^32-1, and returns that number |
| `MsgPack.ReadWriteInt` | wire/codec.go:100-104 | Every int64 is read back exactly from its shortest form |
| `MsgPack.WriteIntIsShortest` | wire/codec.go:100-104 | No integer encoding that reads as that int64 is shorter than the one written |
| `MsgPack.WriteUintIsShortest` | wire/codec.go:51-53 | No integer encoding that reads as that id is shorter than the one written |
| `MsgPackFormats.FixFormats` | wire/codec.go:513-532 | What each one-byte format announces: the small integers of either sign, and the short strings, arrays and maps with the length in the code |
| `MsgPackFormats.LoneFormats` | wire/codec.go:376-427 | nil, true and false are one byte, the unused code announces nothing, and the fixed extensions announce their lengths |
| `MsgPackFormats.FormatsOfOne` | wire/codec.go:376-459 | The formats with a one-byte field, and the number or length it gives them |
| `MsgPackFormats.FormatsOfTwo` | wire/codec.go:376-459 | The formats with a two-byte field, most significant byte first, signed ones in two's complement |
| `MsgPackFormats.FormatsOfFour` | wire/codec.go:376-459 | The same for four-byte fields, the 32-bit float included |
| `MsgPackFormats.FormatsOfEight` | wire/codec.go:376-459 | The same for eight-byte fields, the 64-bit float included |
| `CodecMeaning.ParseValueIff` | wire/codec.go:343-500 | Bytes decode to a Value exactly when they start with a MessagePack object, in whatever formats, that means it at face value: a bare Null, or a one-key map of a tag and a payload of its sort, Bytes also an array of byte-sized integers, Float also an integer or a 32-bit float; what follows is left |
| `CodecMeaning.ParseRequestIff` | wire/codec.go:183-263 | The same for Requests: an array of an id in u32 range, a string and an array of objects that mean values, or a map whose last id, command and args are these, unknown keys carrying anything |
| `CodecMeaning.ParseResponseIff` | wire/codec.go:265-318 | The same for Responses: an array of an id and a one-key map, Ok with an object that means a value or Err with a string |
| `CodecMeaning.DecodeRequestIff` | wire/codec.go:170-173 | A body decodes to a Request exactly when it starts with an object that means it, whatever follows |
| `CodecMeaning.DecodeResponseIff` | wire/codec.go:178-181 | A body decodes to a Response exactly when it starts with an object that means it, whatever follows |
| `WireBytes.NamesAreSpelled` | wire/codec.go:68-155 | The tags, arms and keys are these ASCII texts |
| `WireBytes.UintBytes` | wire/codec.go:51-53 | An id is written in one byte up to 0x7f, then as 0xcc, 0xcd or 0xce with its bytes, most significant first |
| `WireBytes.NegativeBytes` | wire/codec.go:100-104 | A negative Int is one byte from -32 on, then 0xd0, 0xd1 or 0xd2 with its two's complement |
| `WireBytes.LongNegativeBytes` | wire/codec.go:100-104 | Below -2^31 it is 0xd3 with eight bytes |
| `WireBytes.ShortCountBytes` | wire/codec.go:91-164 | The headers of strings, bins, arrays and maps with a one-byte length |
| `WireBytes.LongCountBytes` | wire/codec.go:91-164 | The headers with two- and four-byte lengths |
| `WireBytes.ValueBytes` | wire/codec.go:91-155 | What each of the eight variants is in bytes: the tag spelled out behind 0x81, then its payload |
| `WireBytes.RequestBytes` | wire/codec.go:46-66 | A Request is 0x93, the id, the command and the arguments |
| `WireBytes.ResponseBytes` | wire/codec.go:68-89 | A Response is 0x92, the id, and Ok or Err spelled out behind 0x81 with its value or text |
| `WireBytes.PingFrame` | wire/wire_test.go:25-44 | Request 1, PING, without arguments is the twelve bytes the test pins |
| `WireBytes.PongFrame` | wire/wire_test.go:46-55 | Response 1, Ok PONG, is the twenty bytes the test pins |
| `WireBytes.PinnedValues` | wire/wire_test.go:57-75 | Null, Int 42 and a bin are the bytes the tests pin |
| `MsgPackObject.SkipTakes` | wire/codec.go:253-256 | Behind each head Skip takes nothing, the announced bytes, a type byte and the announced bytes for an extension, or as many objects as announced, twice as many for a map |
| `MsgPackObject.SkipIffWellFormed` | wire/codec.go:253-256 | Skip passes exactly one well-formed MessagePack object of any kind and depth, and fails on everything else |
| `MsgPackObject.SkipObject` | wire/codec.go:253-256 | Skipping a well-formed object leaves what stands behind it |
| `MsgPackObject.OneReading` | wire/codec.go:253-256 | Bytes have one reading as a MessagePack object: no object's bytes are a prefix of another's |
| `Legacy.UnknownFieldIff` | wire/codec.go:253-256 | A field with an unknown key is accepted exactly when its payload is one well-formed object |
| `Legacy.LastDecides` | wire/codec.go:218-263 | Among the fields of a map-shaped Request the last id, command and args decide, whatever else stands around them |
| `Legacy.FieldSays` | wire/codec.go:233-257 | What is taken as a field is a string key with one whole payload of its sort; an id payload is one integer in u32 range, in any format, and that number is learned; a command payload is one string, and its bytes are learned; an args payload is one array of objects, and what they mean is learned |
| `Legacy.WrittenFieldsSay` | wire/codec.go:233-257 | The payloads an encoder writes for an id, a command and arguments say just these |
| `Legacy.MapShapedAgrees` | wire/codec.go:183-263 | A map-shaped Request, fields in any order, mixed with unknown keys and repeated, decodes to the Request its last id, command and args payloads say, the one its array form decodes to |
| `Legacy.NumbersAreBytes` | wire/codec.go:431-459 | A Bytes tag over an array of integers decodes to those bytes |
| `Legacy.NumbersAreFloats` | wire/codec.go:390-407 | A Float tag over an integer decodes to that integer converted, and over a 32-bit float to that float converted |
| `Legacy.MapShapedIff` | wire/codec.go:218-263 | A map-shaped body decodes to a Request exactly when it is a header and that many whole fields whose last id, command and args payloads read as that id, command and arguments |
| `Legacy.MapShapedMissingField` | wire/codec.go:259-262 | Without id, command or args there is no Request |
| `Legacy.MapShapedIsNeverReproduced` | wire/codec.go:46-66 | Re-encoding what a map-shaped Request decoded to never gives those bytes back |
| `Legacy.ToleratedFormsAreNeverWritten` | wire/codec.go:91-155 | Read as a MessagePack object in any way, an encoded Value nowhere holds a Bytes tag over an array or a Float tag over an integer |
| `Legacy.ToleratedRequestIsNeverReproduced` | wire/codec.go:46-66 | A Request body with a Bytes tag over an array or a Float tag over an integer anywhere in it decodes to a Request whose encoding is never that body |
| `Legacy.ToleratedResponseIsNeverReproduced` | wire/codec.go:68-89 | The same for a Response body |
| `CodecLocality.LocalRequest` | wire/codec.go:170-216 | Decoding a Request depends only on the bytes it consumes: any extension decodes alike and leaves the extension |
| `CodecLocality.LocalResponse` | wire/codec.go:178-318 | Decoding a Response depends only on the bytes it consumes |
| `CodecLocality.LocalValue` | wire/codec.go:343-374 | Decoding a Value depends only on the bytes it consumes |
| `CodecLocality.ConsumedBytesSuffice` | wire/codec.go:343-374 | The bytes a success consumed decode to the same Value on their own |
| `CodecLocality.ParsedValue` | wire/codec.go:343-500 | A decoded Value with k nodes took at least 5k bytes, and its lengths fit the encoder |
| `CodecLocality.RequestCanonicalises` | wire/codec.go:170-263 | For every accepted body, re-encoding the Request and decoding again gives the same Request |
| `CodecLocality.ResponseCanonicalises` | wire/codec.go:178-318 | For every accepted body, re-encoding the Response and decoding again gives the same Response |
| `CodecMachine.Encoder.Value` | wire/codec.go:91-155 | The step-by-step encoder appends exactly the encoding of the Value |
| `CodecMachine.Encoder.Items` | wire/codec.go:127-131 | The loop over array items appends their encodings in order |
| `CodecMachine.Encoder.Pairs` | wire/codec.go:140-150 | The loop over pairs appends two-element arrays of key and value in order |
| `CodecMachine.Encoder.Request` | wire/codec.go:46-66 | Appends the array form of the Request |
| `CodecMachine.Encoder.Response` | wire/codec.go:68-89 | Appends the array form of the Response with its single-key result map |
| `CodecMachine.EncodeBody` | wire/codec.go:19-44 | Gives the body of a Request or Response and refuses any other message |
| `CodecMachine.Decoder.FrameId` | wire/codec.go:502-511 | The cursor yields the id and stops behind it, or fails, exactly as specified |
| `CodecMachine.Decoder.BytesTolerant` | wire/codec.go:431-459 | Reads bin, or an array of byte-sized integers, to the same Bytes; fails otherwise |
| `CodecMachine.Decoder.ValueArray` | wire/codec.go:320-341 | Appends exactly the announced number of Values, or fails |
| `CodecMachine.Decoder.Items` | wire/codec.go:332-340 | The item loop keeps what it has appended and what is left to read in step with the specification |
| `CodecMachine.Decoder.Value` | wire/codec.go:343-374 | The cursor yields the Value and stops behind it, or fails, exactly as specified; it ends on every input |
| `CodecMachine.Decoder.Tagged` | wire/codec.go:376-427 | Each tag reads its own payload form; an unknown tag fails |
| `CodecMachine.Decoder.Pairs` | wire/codec.go:474-499 | The pair loop keeps key, value, order and duplicates |
| `CodecMachine.Decoder.Request` | wire/codec.go:183-216 | Chooses the map or array form from the first byte |
| `CodecMachine.Decoder.MapShapedRequest` | wire/codec.go:218-263 | The field loop with its three have-flags computes the specified fold over the fields, whose meaning is `Legacy.MapShapedIff` and `CodecMeaning.ParseRequestIff` |
| `CodecMachine.Decoder.Response` | wire/codec.go:265-318 | Reads id and result map as specified, or fails |
| `CodecMachine.RunDecodeRequestBody` | wire/codec.go:170-173 | Computes the specified decoding of a Request body |
| `CodecMachine.RunDecodeResponseBody` | wire/codec.go:178-181 | Computes the specified decoding of a Response body |
| `Frame.EncodeFrame` | wire/frame.go:50-59 | The fresh buffer holds the little-endian length of the body and then the body; other messages are refused |
| `Frame.CopyInto` | wire/frame.go:56-57 | Overwrites that stretch of the buffer and nothing else |
| `Frame.LE32RoundTrip` | wire/frame.go:56-56 | The length prefix and its reading are inverse to each other |
| `Frame.LE32Bytes` | wire/frame.go:56-56 | The prefix is four bytes, least significant first |
| `Frame.SplitDecides` | wire/frame.go:66-79 | Every outcome: more is needed without four bytes; a declared length over the cap is refused as soon as the prefix is there, whatever stands behind it; otherwise more is needed until the body is whole, and then it is split off |
| `Frame.OverCapIsRefused` | wire/frame.go:71-73 | Four bytes declaring more than the cap are refused alone and before anything else |
| `Frame.SplitFrame` | wire/frame.go:66-79 | A frame within the cap, before any tail, splits into its body and consumes exactly its bytes |
| `Frame.StrictPrefixNeedsMore` | wire/frame.go:66-79 | Every strict prefix of a frame within the cap asks for more |
| `Frame.RequestFrameRoundTrip` | wire/frame.go:83-96 | A framed Request decodes to itself and consumes exactly its frame |
| `Frame.ResponseFrameRoundTrip` | wire/frame.go:100-113 | A framed Response decodes to itself and consumes exactly its frame |
| `Frame.SplitFrames` | wire/frame.go:66-79 | The frames of any bodies within the cap come back in order, and what follows is split as if they were not there |
| `Frame.SplitFramesExactly` | wire/frame.go:66-79 | Complete frames are consumed without remainder while a partial last frame stays buffered |
| `Frame.SplitConserves` | wire/frame.go:66-79 | Framing the split bodies again gives back the bytes consumed, for every stream |
| `Frame.FeedContinues` | wire/frame.go:66-79 | Splitting a stream in two portions continues where the first stopped |
| `Frame.ChunkingIsIrrelevant` | wire/frame.go:66-79 | The bodies do not depend on how the bytes are cut into chunks |
| `Reader.ReadFrame` | client/client.go:436-458 | Reading header and body off the socket gives the body TrySplitFrame would split off, and the matching failure otherwise; the too-large error comes exactly when four bytes declare more than the cap, and then exactly those four were read |
| `Reader.OutcomeSteps` | client/client.go:431-487 | Each round of the loop on the whole input: the connection error at its end, the too-large error at a frame over the cap, and otherwise the reaction to the next body, which may end it with the decode error |
| `Reader.HandleCases` | client/client.go:459-483 | The reaction to a body: the decode error if it is no Response or a push that is not enabled; the value of a successful push to the hook; the waiter under its id; or one more drop |
| `Reader.React` | client/client.go:459-483 | Decode, push check, lookup with removal, delivery or drop: the decision of the running client on that table |
| `Reader.ReaderLoop` | client/client.go:431-487 | While other threads register, give up and poison between its reactions, the loop delivers, drops and pushes for exactly the bodies iterated TrySplitFrame yields, each against the table as it then is, up to the first refusal, and then poisons the table with the error of its end |
| `Reader.AnyOrderIsRouted` | client/client.go:459-483 | Framed responses in whatever order the server answers reach the waiters registered under their ids, bit for bit; no other entry, drop or push is touched |
| `Reader.ServerReadsWhatWasWritten` | wire/frame.go:66-96 | A server that splits and decodes the bytes of a connection gets the written requests back, all and in order |
| `EndpointGrammar.ParseEndpointIff` | client/endpoint.go:28-70 | The parser accepts exactly the texts of a grammar said by concatenation, and answers the endpoint they name: white space around, host:port or [host]:port, or scheme:// with the configured scheme, no http and no https, an authority, at most one slash, and the default port where none is given |
| `EndpointGrammar.SplitIff` | client/endpoint.go:73-117 | host[:port] is split exactly so: in brackets up to the first closing one, else at the only colon; two colons without brackets are an address literal |
| `EndpointGrammar.ParsePortIff` | client/endpoint.go:119-137 | A port is a non-empty run of decimal digits of value at most 65535 |
| `EndpointGrammar.PortDigits` | client/endpoint.go:119-137 | Decimal text is read most significant digit first, leading zeros allowed, and written the same way |
| `EndpointGrammar.UrlNamesItsHost` | client/endpoint.go:30-59 | An URL of the configured scheme, with or without one trailing slash and white space around it, names its host with the port it carries, and with the default port if it carries none |
| `EndpointGrammar.OtherUrlsAreRefused` | client/endpoint.go:30-52 | http, https, any other scheme and a further slash are refused |
| `EndpointGrammar.BareTextNeedsAPort` | client/endpoint.go:60-69 | A bare host without a port is refused |
| `Endpoint.RoundTripIff` | client/endpoint.go:28-137 | Parsing the JoinHostPort text gives back host and port exactly for the dialable hosts: with a colon, those without `]` and `://`; without one, the non-empty ones that start with neither white space nor `[` |
| `Endpoint.ParsedEndpointInRange` | client/endpoint.go:28-137 | Every accepted endpoint has a non-empty host and a port in 0..65535; which ones, `EndpointGrammar.ParseEndpointIff` says |
| `Endpoint.BracketedRoundTrip` | client/client.go:346-346 | A host with a colon is bracketed by JoinHostPort, and the round trip holds exactly for dialable ones |
| `Endpoint.PlainRoundTrip` | client/client.go:346-346 | A host without a colon is not bracketed, and the round trip holds exactly for dialable ones |
| `Ids.AllocIsNth` | client/client.go:264-274 | The n-th allocation yields the n-th id across every wrap-around |
| `Ids.IdsCount` | client/client.go:264-274 | The ids in order are 1, 2, 3 up to 2^32-2, then 0, and again |
| `Ids.IdsDistinctInWindow` | client/client.go:264-274 | Allocations less than 2^32-1 apart have different ids; those exactly that far apart have the same |
| `Ids.IdOf` | client/client.go:264-274 | No allocation yields the push id |
| `Ids.Allocator.AllocID` | client/client.go:264-274 | The loop takes the counter, steps it modulo 2^32 and retries once on the push id |
| `Gate.PermitGate.Acquire` | client/gate.go:31-55 | With a Close landing at either gap and the context ending or not: a permit only from a gate that has room and is open to the end; a refusal leaves no permit behind and is the closed error of a closed gate or the error of the context; it waits exactly when nothing is ready |
| `Gate.PermitGate.Take` | client/gate.go:38-38 | Takes a permit exactly when fewer than the capacity are out |
| `Gate.PermitGate.Release` | client/gate.go:58-60 | Gives one permit back |
| `Gate.PermitGate.Close` | client/gate.go:63-65 | Closes the gate and leaves the permits |
| `ConnTable.ConnCore.Register` | client/client.go:382-391 | Registers exactly when the connection is alive, in one critical section |
| `ConnTable.ConnCore.Remove` | client/client.go:398-400 | Deletes the id and nothing else |
| `ConnTable.ConnCore.Take` | client/client.go:473-476 | Looks up and deletes in one critical section |
| `ConnTable.ConnCore.Poison` | client/client.go:72-77 | Marks the connection dead, swaps the table for an empty one and hands over its waiters |
| `Handshake.RunHandshake` | client/handshake.go:19-91 | Against any answers of the far side: sends, up to the first failure, nothing without a handshake or without credentials for AUTH; HELLO without arguments if configured and then AUTH with the secrets in order; or one HELLO map of version, token or api_key, and client_name; returns what the last answer tells, or the failure, a server refusal as the auth error |
| `Handshake.RunAuth` | client/handshake.go:44-63 | AUTH with all secrets as strings in order, after the argument-less HELLO if configured; nothing without credentials; the frames spelled out |
| `Handshake.RunHello` | client/handshake.go:65-90 | The HELLO map with version, credential and client name in that order; user/password refused before anything is sent |
| `Handshake.OpeningMeans` | client/handshake.go:40-90 | Every connection opens with exactly the frames of its style, case by case and spelled out, unless the configuration is refused with the auth error before anything is sent |
| `Handshake.ParseHelloInfo` | client/handshake.go:94-111 | Authenticated exactly if the first pair under that key holds true; the capabilities are the strings of the list under that key, in order, or none if there is no list |
| `Handshake.HelloInfoTells` | client/handshake.go:94-111 | The same of the function the transition system uses |
| `Handshake.UnderIffGet` | wire/value.go:194-204 | MapGet gives the value of the first pair whose key spells that text, and nothing for what is no map |
| `Handshake.StringItemsAreItems` | client/handshake.go:101-108 | A capability is learned exactly when its string is an item of the list |
| `Handshake.ExchangeSendsPrefix` | client/handshake.go:19-91 | What is sent is a prefix of the opening; success exactly when every frame was answered, and then all of it was sent |
| `CallLoop.World.CallWithTimeout` | client/client.go:158-192 | The resend loop ends on every script of the world, other callers re-dialing included: two establish attempts, one dispatch more than connections that came up meanwhile, ever newer connections, all but the last dead, one sleep of 50 ms; a value it returns is the last thing the world answered; the write-failure marker never comes out |
| `CallLoop.World.LiveConn` | client/client.go:292-341 | The current connection if alive, also one another caller installed while this one waited for the lock, or a new one within the budget; the budget falls by the attempts made |
| `CallLoop.World.DispatchOnce` | client/client.go:373-426 | A write failure leaves its connection dead, and nothing dead comes back; any other result is what the world answered last |
| `CallLoop.World.Establish` | client/client.go:345-368 | A new connection, or an error that is not the write-failure marker |
| `ClientInvariant.InvariantStep` | client/client.go:52-494 | Every step of every thread keeps all invariants of the client |
| `ClientInvariant.ReachableKeepsInvariant` | client/client.go:52-494 | Every reachable state satisfies them |
| `ClientWaiters.WaitersStep` | client/client.go:373-487 | Every step keeps each waiter in one place, sent to at most once |
| `ClientErrors.ErrorsStep` | client/client.go:72-88 | Every step keeps: dead means poisoned and empty, failures carry the first error, responses their waiter's id |
| `ClientControl.StepThreads` | client/client.go:158-487 | A step moves its own thread to the place the control flow gives, starts a thread only on dial, call or close, and moves no other |
| `ClientControl.StepConns` | client/client.go:52-88 | What each step does to each connection, apart from its pending table |
| `ClientHistory.StepGrows` | client/client.go:72-88 | Liveness is lost for good, the first error stands, history only grows, and other threads stay |
| `ClientTheorems.OnePlace` | client/client.go:72-81 | A waiter is in its connection's table under its id, in the hands of one thread, or sent on; it is sent on at most once |
| `ClientTheorems.SendsNeverBlock` | client/client.go:77-80 | A poisoner or reader that has taken a waiter can always send to it |
| `ClientTheorems.NothingIsLeftBehind` | client/client.go:398-420 | A finished call has no entry in any pending table |
| `ClientProgress.NobodyIsStuck` | client/client.go:158-487 | No deadlock: a thread that is not finished can take a step whatever its context does, or awaits its answer, or waits for a permit or the re-dial lock whose holder does not wait for the same |
| `ClientProgress.SomebodyMoves` | client/client.go:158-487 | As long as some thread is not finished, some thread can move or awaits an answer |
| `ClientTheorems.DeadMeansPoisoned` | client/client.go:72-81 | A connection is dead exactly when poisoned, and then its table is empty |
| `ClientTheorems.WhatIsSent` | client/client.go:72-81 | All waiters failed on a connection get the error of its first poison; a response reaches the waiter with its id, on the connection it was read from, and is what a body read there for that waiter decodes to |
| `ClientOrigins.SentWasRead` | client/client.go:431-483 | Every response ever sent to a waiter comes from a read: a body on that connection that decodes to it, at which the waiter was taken out of the table under its id |
| `ClientOrigins.CarriedWasRead` | client/client.go:473-483 | What a reader is about to deliver it read for that waiter; what it is about to drop it read under an id nobody waited for |
| `ClientOrigins.AnswersAreDistinct` | client/client.go:473-480 | Two waiters are never answered from the same read |
| `ClientOrigins.ReadIsDelivered` | client/client.go:473-480 | What was read for a waiter was sent to it, unless its reader is just about to send it |
| `ClientCauses.FirstErrorHasCause` | client/client.go:72-88 | The error a connection dies with is that of an event that broke it: a failed read, an undecodable body or unconfigured push, a failed write, a handshake refused or not answered in time, or a Close that took it |
| `ClientCauses.BrokenConnectionsDie` | client/client.go:72-88 | And the other way round: after such an event the connection is dead, or the thread that saw it is on its way to kill it with that error |
| `ClientTheorems.ClosedMeansClosed` | client/client.go:203-215 | No connection dies with the closed error unless Close was called |
| `ClientTheorems.CallerGetsItsAnswer` | client/client.go:405-414 | What a waiting caller finds answers the frame it wrote on that connection and is what a body read there decodes to, or is that dead connection's first error |
| `ClientTheorems.ReturnsItsOwnAnswer` | client/client.go:373-425 | A returned value or server error is what one response says: the one thing sent to the waiter of the call's own frame, decoded from a body read on the connection the frame was written to, under its id; and the frame carries the command and arguments of the one step that began the call |
| `ClientTheorems.LocalErrorsAreExplained` | client/client.go:292-414 | A call ends with an error of this side only if: Close was called (the closed error); a server refusal of an opening frame was read and received (the auth error); its context ended with that error; the connection its command was written on died with it; or both establish attempts are spent, and a dial or handshake failed with it or there was no live connection to write on |
| `ClientTheorems.ReceiptEndsTheCall` | client/client.go:405-414 | What a waiting caller receives ends its call unchanged: the server's answer, or the first error of the connection |
| `ClientTheorems.NoRetryAfterRejection` | client/client.go:319-324 | Once a call has received the server's refusal of an opening frame it makes no further establish attempt, dispatches nothing, and can only end with the auth error |
| `ClientTheorems.NoRedialAfterAuthError` | client/client.go:319-324 | No re-dial round goes on from an auth error |
| `ClientTheorems.OutstandingIdsDiffer` | client/client.go:264-274 | While no call outlives 2^32-1 allocations, ids under way differ pairwise |
| `ClientTheorems.PushIsNeverPending` | client/client.go:460-472 | The push id is never a pending key |
| `ClientTheorems.DispatchesAreBounded` | client/client.go:175-191 | A call dispatches at most once per connection, makes at most two establish attempts, dispatches at most once per connection installed since it began and once more, and at most three times if all those were its own |
| `ClientTheorems.InstallsAreBounded` | client/client.go:292-341 | N calls install and dial at most 1 + 2N connections |
| `ClientProgress.CallsAreBounded` | client/client.go:158-192 | In every run, whatever the other threads do, the steps of a call stay below a bound linear in the dispatches 1 + 2N possible with N calls, the opening and the gate's bound |
| `ClientProgress.MovesAreAllowed` | client/client.go:158-192 | Every step of a call uses up what its dispatches and establish attempts allow |
| `ClientTheorems.ResendsOnlyAfterDeath` | client/client.go:181-190 | Before a call dispatches again, every connection it tried is dead and its frame was never fully written |
| `ClientTheorems.WrittenAtMostOnce` | client/client.go:393-403 | At most one frame of a call is ever fully written, over all connections, and then it does not loop again |
| `ClientTheorems.OpeningComesFirst` | client/handshake.go:19-91 | The frames of a connection are those of the configured style, spelled out, in order and from its opener; a command of a caller is written only after every opening frame had its one answer: a success, decoded from a body read on that connection, under its id; after the opening only commands are written, each with the name and arguments its call was begun with |
| `ClientTheorems.ConnectionsOpenAs` | client/handshake.go:40-90 | The first and the second frame of every connection: HELLO without arguments and then AUTH with the secrets, AUTH alone, or HELLO with its map |
| `ClientTheorems.GreetedMeansAnswered` | client/handshake.go:19-91 | A handshake counts as done only when each of its frames got its one response, a success decoded from a body read on that connection, with its id |
| `ClientTheorems.OneAliveUntilClose` | client/client.go:292-341 | Until Close sets the flag at most one connection is alive |
| `ClientTheorems.InfoIsOfCurrent` | client/client.go:345-368 | While nobody re-dials, the stored handshake info is what the success response read to the last opening frame on the installed connection tells (authenticated for AUTH, flag and capability list for HELLO), or the blank one for an empty opening; that connection was installed last |
| `ClientTheorems.PermitsAreHeld` | client/gate.go:31-60 | The permits out are those of the callers between taking and giving back, and never exceed the bound |
| `ClientTheorems.ReleaseNeverBlocks` | client/gate.go:58-60 | Giving a permit back never blocks |
| `ClientTheorems.PendingIsBounded` | client/client.go:158-192 | Pending entries over all connections, handshakes included, never exceed the gate's bound |
| `ClientTheorems.ResponsesAreAccounted` | client/client.go:460-483 | Decoded frames that are no pushes equal the waiters a response was sent to, plus drops, plus those in the hands of a reader about to send or to count |
| `ClientTheorems.CallAfterCloseFails` | client/gate.go:31-36 | A call begun after some Close returned fails closed at once and changes nothing else |
| `ClientTheorems.LateCallsTouchNothing` | client/gate.go:31-36 | Such a call stays failed, never dispatches and never writes |
| `ClientBegins.CallIsBegunOnce` | client/client.go:158-192 | Every caller was begun at exactly one step of the run and with exactly one command |
| `ClientBegins.CommandIsKept` | client/client.go:158-192 | From that step on, and not before, its thread exists, with that very command and arguments |
| `ClientStops.ShutGateTurnsAway` | client/gate.go:31-55 | Behind a shut gate no call gets through: it ends closed, or, if it was waiting, with the error of its context |
| `ClientStops.ClosedStopsCalls` | client/client.go:292-312 | In a closed client a call with no connection in hand dispatches nothing, establishes nothing, and ends closed, or, if it was waiting at the gate, with the error of its context |
| `ClientStops.SpentCallGivesUp` | client/client.go:181-190 | A call with both establish attempts spent that cannot write its command dispatches no more and ends with the connection error |
| `ClientStops.ResendGoesOn` | client/client.go:181-190 | With an attempt left, it looks for a connection again |
| `ClientStops.ConnectFailsWith` | client/client.go:345-368 | Connect fails with the error of its dial, with the auth error if the configuration or an opening frame is refused, and with the error that ended an unanswered opening frame |
| `ClientStops.ConnectCannotWrite` | client/client.go:382-403 | An opening frame that cannot be written fails it with a connection error |
| `ClientStops.ConnectIsNotRetried` | client/client.go:137-140 | Once its one attempt has failed, Connect can only end with that very error |
| `ClientRuns.NothingIsTakenBack` | client/client.go:72-88 | Along a run a lost connection stays lost, its first error stands, written frames and sent results stay |
| `ClientRuns.DoneStays` | client/client.go:158-192 | A finished thread takes no further step |
| `ClientRuns.BailEndsTheCall` | client/client.go:319-324 | A call that leaves a re-dial with an error makes no further attempt and ends with that very error |
| `ClientIds.RegistrationIsFresh` | client/client.go:382-391 | Within the window, registration overwrites no entry |
| `ClientIds.RemovalIsOwn` | client/client.go:398-420 | Within the window, a caller that deletes its id deletes its own waiter or nothing |
| `ClientRuns.NobodyIsForgotten` | client/client.go:373-426 | Along a run within the window, no waiter is forgotten while its caller waits |
| `ClientRuns.DeathReachesEveryone` | client/client.go:72-81 | Once the poisoners of a dead connection are done, every caller still waiting on it has the first error or its own response |
| `ClientRuns.NothingAfterQuiet` | client/client.go:304-338 | If Close sets the flag while nobody is past the recheck, no connection is dialed or installed ever after |
| `ClientRuns.CloseShutsEverything` | client/client.go:205-215 | A Close that starts while nobody is past the recheck leaves nothing alive: once every Close has returned, no connection is alive and none ever will be |
| `ClientRevival.CloseIsFinalIff` | client/client.go:203-215 | In every run in which every Close has returned: the client can be alive again, installed connection and all, exactly when it is now or some re-dial past the recheck has the place, budget, liveness and unrefused answers to succeed |
| `ClientFinality.CloseStaysFinalIff` | client/client.go:203-215 | From any moment after Close was called, its first included: a live connection can outlive every Close exactly when some re-dial can still succeed, or one is installed and alive that no Close is yet to take |
| `ClientBarren.BarrenStep` | client/client.go:304-338 | While no re-dial can succeed and nothing installed is alive, every step keeps it so |
| `CloseRace.AliveAfterClose` | client/client.go:335-338 | A run in which every Close has returned and a connection is installed and alive |
| `ClientCounts.CountsStep` | client/client.go:158-192 | Every step conserves permits, re-dial budgets, establish attempts and decoded responses |
| `ClientRetry.RetriesStep` | client/client.go:175-191 | Every step keeps each call's history: dead before retried, ever newer, within budget |
| `ClientOpening.OpeningsStep` | client/handshake.go:19-91 | Every step keeps each connection's frames in the order of the opening |
| `ClientLife.SoleStep` | client/client.go:292-341 | Every step keeps: an alive connection is installed, being opened, or about to be shut |
| `ClientAnswers.AnswersStep` | client/client.go:405-414 | Every step keeps: the outcome of a call is what the first message on the waiter of its own frame says |
| `ClientGreeting.GreetingsStep` | client/handshake.go:19-91 | Every step keeps: at frame k of a handshake the waiters of the first k frames were sent a success, and what was learned is what the last of these says |
| `ClientBlame.CarriedIsExplained` | client/client.go:158-426 | At every step of every run, the local error a call carries has its cause in the run, and an error that costs an attempt reaches the end of the call only when the budget is spent |
| `ClientAccounts.AccountsStep` | client/client.go:473-482 | Every step keeps: the waiters readers took are those sent a response or in a reader's hands |
| `ClientAccounts.DecodedMeans` | client/client.go:459-472 | The count of decoded frames rises exactly when a body decodes to a response that is no push |

## Left out

- CodecRoundTrip.ParseEncodedValue: lengths of 2^32 and more, which the format cannot carry; `CodecLocality.RoundTripIffFits` shows the bound is exact.
- Frame.SplitFrame: bodies of 2^32 bytes and more, whose length prefix wraps; `Frame.FrameOf` models the wrap, the laws exclude it.
- ClientTheorems.OutstandingIdsDiffer: ids without the 2^32-1 window; beyond it they repeat (`Ids.IdsDistinctInWindow`) and registration overwrites.
- ClientRuns.CloseShutsEverything: a sufficient condition on the moment Close starts; the exact one, once Close has returned, is `ClientRevival.CloseIsFinalIff`.
- ClientRuns.DeathReachesEveryone: no scheduler fairness is assumed, so it says what holds once the poisoners are done, not that they get to run; that they can always run is `ClientTheorems.SendsNeverBlock`.
- CallLoop.World.CallWithTimeout: proved on its own; no lemma joins this loop to the steps of the transition system, which has the same results for any number of callers (`ClientTheorems.DispatchesAreBounded`, `ClientTheorems.ResendsOnlyAfterDeath`).
- ClientProgress.CallsAreBounded: bounds the steps of a call, not its time: that the others let it run is the scheduler's affair.
- CallLoop.World.DispatchOnce: registration, deletion and the match of response and id; these are steps of the transition system (`AllocId` to `RemoveOnLeave`).
- CallLoop.World.Establish: the frames of the handshake and the tear-down of a failed connection; these are steps of the transition system (`GreetNext`, `PoisonSwap`).
- Reader.ReaderLoop: edits of other threads between the lookup and the send for one frame, which touch neither that waiter nor its channel; in the transition system they are separate steps.
- TCP, `SetNoDelay`, clocks and contexts: only their outcomes appear, chosen freely.
- Server errors by message prefix (client/errors.go:74-124): `ServerError` stands for both classes they may become.
- Error message texts, enum names, builders and default configurations.
- User push handlers and their recover guard: a push changes no protocol state; the reader records what it hands over.
- The accessors `AsStr` to `AsMap` and the observers `IsAlive`, `IsAuthenticated`, `Capabilities`.
- Preallocation from declared lengths: the decoders append to empty sequences.
- An encode error of a user request: the encoder over a memory buffer has none for the eight variants.
