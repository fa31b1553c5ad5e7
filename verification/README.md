# bjoern's connection engine, modelled in Dafny

bjoern turns parser callbacks, a WSGI application's answer and the outcomes of `read`, `write` and
`sendfile` into octets on a persistent HTTP connection. This project models that engine and proves
that a client gets exactly what the application gave, for every schedule of partial writes, across
keep-alive reuse, and with any number of other connections on the same event loop and read buffer.

The files, from the ground up:

- `Octets.dfy`: octet strings (one character per octet, Latin-1), lines, numbers, and `Put`, the
  write through a moving pointer that `memcpy` and `buf_write` do.
- `PercentDecoding.dfy`: the in-place decoder of `common.c` against RFC 3986, section 2.1.
- `HeaderLog.dfy`, `Environ.dfy`: the parser callbacks of `request.c`. `EnvironBuilder` keeps the
  dictionary; a ghost record says what was delivered; the dictionary is a function of that record.
- `Parsing.dfy`: `Request_parse`. The callbacks point into one buffer, `on_path` decodes in it, and
  still each of them sees the octets that were read.
- `MessageSyntax.dfy`, `ChunkedCoding.dfy`, `Client.dfy`: a client after RFC 7230 (sections 3.1.2,
  3.2, 3.3.3 and 4.1), written independently of the server. It reads incrementally; every decided
  answer is proved stable under further octets, and that is what makes truncation visible.
- `ResponseHead.dfy`, `StartResponse.dfy`, `Reply.dfy`: the response side of `wsgi.c`. `Reply.dfy`
  says what a client is owed for one request (`ReplyTo`) without saying how it is assembled.
- `Session.dfy`: one connection as a client can know it: octets on the wire, octets still owed.
  The theorems over all runs are here.
- `Sending.dfy`: the fields a reply is sent from, as one value, and what a single write makes of them.
- `Connection.dfy`: the `Request` object with the fields and handlers of the source. Each handler
  is proved to take exactly one step of the session; `Serve` does so for every script of events and
  says which step each event allows. Preconditions on `StartReading` and `StartWriting` say that no
  active watcher is initialised again.
- `Pitfalls.dfy`: where the code does not keep its side of the bargain, with witnesses and the exact
  conditions.
- `Peer.dfy`, `EventLoop.dfy`: a connection together with the environ it is building, and the server:
  many of them, one read buffer, the accept watcher, and the stop after SIGINT. `ev_run` returns, and
  the interrupt is raised, when `Server.ActiveWatcher` is false.

Where source and documentation differ the model follows the code. The comment in `request.c` at
line 205 promises 417 for anything but "100-continue", but the code accepts every prefix of it
(`SamePrefixIff`), and it judges only the first piece in which the value arrives (`CutMattersIff`). The
changelog speaks of EINTR being handled, but `handle_nonzero_errno` treats it as fatal. Any header
name that is a case-insensitive prefix of "Content-Length" counts as that header
(`SameUpToLengthIff`), so framing of a kept-alive reply is right exactly under the condition in
`KeptAliveReadsBackIff`; `NextReplyIsSwallowed` and `MisledIsMisleading` show an application for which
the next reply ends up in the body of the first. While `expect_continue` is set, the result of a write
is overridden and the connection is read again after that one write. If the interim response was under
way, an error message that comes next starts at the offset left over from it (neither branch of
`ev_io_on_read` that prepares one resets the offset), any other reply at its first octet;
`CutInterimIsHarmlessIff` says that the client gets it exactly if the interim response was sent whole, or not
at all, or, in front of an error message, for at most the nine octets the two have in common, and
`ThroughInterim` takes an object there for every write result. A fatal errno in that write is forgotten
(`ErrnoIsSurvivedIff`). If a final reply was under way, it is left behind half sent (the label `Stray`). The
sendfile tests at `wsgi.c` line 91 and `server.c` line 324 can disagree; then the client gets the reply exactly
if it is not chunked (`DisagreeingTestsReadBackIff`).

The inputs taken from outside: `http_should_keep_alive`, the version numbers and the callback
stream of http_parser, and whether it used all octets; the application's calls and answer, as a
function of the environ; the size every `write` and `sendfile` accepts, EAGAIN, or another errno; the
file position `lseek` reports. A Python iterator is the finite sequence of its items, possibly with one
that raises or is not bytes.

## Model

| member | source | states |
|---|---|---|
| PercentDecoding.UnquoteUrlInplace | bjoern/common.c:9-28 | in a larger buffer, the first `len` octets of the path become its recursive decoding, everything outside the path is untouched, and the result is 0 for a malformed path |
| PercentDecoding.DecodesIffWellFormed | bjoern/common.c:12-19 | a path decodes if and only if every '%' in it is followed by two hexadecimal digits |
| PercentDecoding.DecodedLength | bjoern/common.c:20-27 | the result is two octets shorter per escape |
| PercentDecoding.DecodeEncoded | bjoern/common.c:4-27 | an encoder of its own (quotient and remainder by 16, digits from two tables) and the decoder are a round trip: whatever octets are escaped, and in whatever case, they come back |
| PercentDecoding.DecodedIsEncoded | bjoern/common.c:4-27 | and whatever decodes is an encoding of its result |
| PercentDecoding.PiecesDecode | bjoern/request.c:118-125 | well-formed pieces decoded one by one give the decoding of the whole path |
| PercentDecoding.PiecesWellFormedIff | bjoern/request.c:118-125 | all pieces of a path are accepted if and only if the whole is well formed and no cut falls inside an escape |
| HeaderLog.KeySound | bjoern/request.c:151-165 | two names without underscore get the same environ key if and only if they are equal ignoring ASCII case |
| HeaderLog.CollectIs | bjoern/request.c:95-108 | a key is present if and only if some usable header normalises to it, and holds all their values in order, directly concatenated |
| HeaderLog.StreamLogsUncut | bjoern/request.c:134-183 | however names and values are cut into callbacks, the record is that of the uncut headers |
| HeaderLog.FragmentationIndependent | bjoern/request.c:134-183 | two ways to cut the same headers give the same entries |
| HeaderLog.EntriesOfStream | bjoern/request.c:134-183 | the entries of any cut stream are the concatenated values per key; a name with '_' anywhere contributes nothing |
| Environ.KeysApart | bjoern/request.c:262-312 | header keys, keys the server sets, wsgi_base_dict keys and the two unprefixed keys never coincide |
| Environ.EnvironBuilder.SetOrAppendHeader | bjoern/request.c:95-108 | sets the entry, or appends to the value that is there |
| Environ.EnvironBuilder.OnPath | bjoern/request.c:118-125 | refuses exactly an empty or malformed piece; otherwise PATH_INFO is the decoding of all pieces so far; nothing outside the piece changes in the buffer |
| Environ.EnvironBuilder.OnQueryString | bjoern/request.c:127-132 | QUERY_STRING is the concatenation of all pieces |
| Environ.EnvironBuilder.ProcessField | bjoern/request.c:151-165 | nothing if the name holds an underscore; otherwise "-" has become "_", no small letter is left, and nothing else changed but case |
| Environ.NamesOfKeys | bjoern/request.c:151-217 | in whatever case they come, Content-Length, Content-Type and Expect have the keys that the server looks for, and no other name has |
| Environ.EnvironBuilder.OnHeaderField | bjoern/request.c:134-175 | the parser fields remember "HTTP_" and the normalised name so far, or that it holds an underscore; the dictionary is unchanged |
| Environ.EnvironBuilder.OnHeaderValue | bjoern/request.c:177-228 | the dictionary stands for the record with the longer value; the Expect flags change as the comparison says |
| Environ.SamePrefixIff | bjoern/request.c:217-222 | the comparison accepts exactly the prefixes of "100-continue" (and what goes on with NUL) |
| Environ.StreamFlags | bjoern/request.c:205-224 | however the headers are cut, the first piece of the first header named Expect decides: a prefix of "100-continue" is a wish to continue and no error, anything else error 417 and no wish |
| Environ.CutMattersIff | bjoern/request.c:205-224 | that is the verdict on the uncut value if and only if not a first piece is a prefix of "100-continue" while the whole is not |
| Environ.EnvironBuilder.OnBody | bjoern/request.c:230-260 | wsgi.input holds the concatenated body; a body is refused exactly if it comes without a length; the wish for 100-continue is withdrawn |
| Environ.EnvironBuilder.ReplaceKey | bjoern/request.c:302-312 | the value moves to the new key |
| Environ.EnvironBuilder.OnMessageComplete | bjoern/request.c:262-300 | the dictionary is the completed environ of what was delivered |
| Environ.CompletedHeader | bjoern/request.c:262-300 | under a header key the application finds the collected value, unless it is one of the two content headers |
| Environ.CompletedNamed | bjoern/request.c:95-165 | for any header name the application finds the values of all headers of that name, in whatever case they came and in order, under "HTTP_" and the normalised name |
| Environ.CompletedOwn | bjoern/request.c:265-296 | CONTENT_LENGTH and CONTENT_TYPE hold what came under these names in any case; HTTP/1.1 exactly for minor version 1; method and peer; wsgi.input is the whole body, at its start; base entries prevail |
| Environ.CompletedPath | bjoern/request.c:118-132 | the completed environ has the decoded whole path and the query string |
| Environ.BuildEnviron | bjoern/request.c:110-300 | a whole request in any pieces: the path is refused exactly if a piece is empty, the whole is malformed or a cut falls inside an escape, the body exactly if it has no length; otherwise the environ of the uncut request; from HTTP/1.1 on a request without body is told to continue exactly if the first piece of its Expect header is a prefix of "100-continue", and gets the error exactly if it is not |
| Parsing.Callbacks | bjoern/request.c:118-260 | although on_path decodes inside the shared buffer, every callback sees the octets as they were read |
| Parsing.RequestParse | bjoern/request.c:74-81 | one read takes the parse to where its octets, and nothing else in the buffer, lead; a parser that stops early makes a bad request |
| Parsing.FeedRecords | bjoern/request.c:118-260 | the callbacks of a read go on record behind those of earlier reads, each kind in its order; a body is refused exactly if its first part has no length |
| Peer.BadPathIsBadRequest | bjoern/request.c:74-81 | a read with a malformed or empty path piece is answered by a 400 and never by the application |
| Peer.RefusalIsTold | bjoern/server.c:236-242 | the one message the client then reads has status 400 if the parser stopped early, 406 for a body without length, 417 for the expectation |
| Peer.EnvironIsOfWholeMessage | bjoern/server.c:235-251 | whenever the application is called, it gets the environ of all callbacks since the last complete reply, however many reads they came in and whatever interim responses went out in between |
| ChunkedCoding.SizeLineFits | bjoern/wsgi.c:412-415 | hex digits, CRLF and NUL fit the ten-octet buffer if and only if the chunk is below 2^28 octets |
| ChunkedCoding.WrapHttpChunkCruftAround | bjoern/wsgi.c:407-425 | the output buffer is filled exactly; with a terminator behind it the frame decodes to the chunk |
| ChunkedCoding.HexReadsBack | bjoern/wsgi.c:415 | the digits of %x read back as the size |
| ChunkedCoding.DecodeFrames | bjoern/wsgi.c:407-425 | frames and terminator decode to the concatenated chunks and every octet is used |
| ChunkedCoding.DecodeChunkedStable | bjoern/server.c:453-461 | an answer of the chunked decoder survives further octets |
| ChunkedCoding.NoProperPrefixIsComplete | bjoern/server.c:453-461 | no proper prefix of a complete chunked encoding is one |
| ChunkedCoding.EmptyFrameEndsBody | bjoern/wsgi.c:310-312 | a framed empty item would end the body, which is why empty items are skipped |
| ResponseHead.GetHeaders | bjoern/wsgi.c:239-294 | never writes past the bound, leaves exactly 0, 28 or 33 octets, and the rest is the rendered head |
| ResponseHead.RenderInBreaks | bjoern/wsgi.c:261-290 | line breaks in front of the fields or behind them give one head, short of the bound by the slack |
| ResponseHead.ParseRendered | bjoern/wsgi.c:239-294 | parsing the head recovers status and headers in order, then the server's own lines, up to the first body octet |
| StartResponse.SameUpToLengthIff | bjoern/wsgi.c:229 | the strncasecmp test holds exactly for case-insensitive prefixes (and for the whole name followed by NUL) |
| StartResponse.CleanHeaders | bjoern/wsgi.c:185-236 | a copy if and only if every entry is a pair of Latin-1 strings; the flag says whether some name counts as a length |
| StartResponse.SucceedsIff | bjoern/wsgi.c:331-393 | a call succeeds exactly if its arguments are a status of three octets at least, a list of pairs and no wrong third argument, and it brings exception information or no call before it succeeded; then its response is on record, otherwise none |
| StartResponse.FailuresDoNotCount | bjoern/wsgi.c:336-393 | after failed calls only, a well-formed call succeeds and is on record |
| Reply.SkippingLosesNothing | bjoern/wsgi.c:296-314 | the chunks sent concatenate to the data of all items before the first bad one |
| Reply.IteratorReply | bjoern/wsgi.c:96-119 | an iterator that fails before its first octet, or no successful start_response, gives a 500; otherwise the body is all data up to the failure, and breaks off there |
| Reply.ShortcutsAgree | bjoern/wsgi.c:66-107 | byte string, list of one and generic iterator over one item lead to the same reply |
| Client.FileReplyReadsBack | bjoern/wsgi.c:91-95 | with descriptor and known length the client reads the head and exactly the octets of the file from its position, whatever was read of it before |
| Client.BodilessIff | bjoern/wsgi.c:121-125 | the test on three octets finds exactly the status codes 204 and 304, which have no body by the rule of RFC 7230, section 3.3.3, that the client follows |
| Client.DecidedIff | bjoern/wsgi.c:121-149 | a connection is kept exactly if the client wants that and the end of the body can be told by a length, by the status or by chunks; chunks exactly if nothing else tells it, and never for HTTP/1.0 |
| Client.ReplyReadsBack | bjoern/wsgi.c:121-182 | round trip of a delimited reply: status, fields and body come back and nothing behind it is touched |
| Client.NeverBoth | bjoern/wsgi.c:121-149 | a chunked reply never carries a Content-Length |
| Client.ReplyToCloseReadsBack | bjoern/wsgi.c:135-149 | round trip of a reply that ends with the connection |
| Client.KeptAliveReadsBackIff | bjoern/wsgi.c:229-230 | a kept-alive reply reads back whatever follows if and only if a header taken for a length comes with a real Content-Length |
| Client.MisleadingLength | bjoern/wsgi.c:229-230 | otherwise the connection is kept open behind a body whose end the client cannot see |
| Client.ContentMisleads | bjoern/wsgi.c:229-230 | the header name "Content" is a case of this |
| Client.PrefixIsPartial | bjoern/wsgi.c:121-182 | a complete response cut anywhere is seen as incomplete |
| Client.BrokenChunkedIsPartial | bjoern/server.c:427-432 | a chunked body that breaks off never reads as complete |
| Client.BrokenSizedIsPartial | bjoern/server.c:427-432 | nor does one short of its Content-Length |
| Client.PartOfDelimited | bjoern/server.c:405-465 | any part of a delimited reply, broken or not, is seen to be a part |
| Client.ContinueReadsBack | bjoern/server.c:38 | the interim response is a whole message of its own |
| Client.ErrorReadsBack | bjoern/server.c:30-36 | the error messages read as responses that end with the connection, with the status codes 400, 406, 417 and 500 |
| Session.WireIsPrefixOfIdeal | bjoern/server.c:405-493 | on every run on which no final reply meets a fatal errno or is left half sent, and no interim response is cut short, the wire is a prefix of the ideal octets and what is missing is what is owed |
| Session.ExactCompletion | bjoern/server.c:405-465 | a reply ends exactly in the event that completes it; for a file in the next one |
| Session.ReuseImpliesComplete | bjoern/server.c:338-349 | unless an interim response was cut short, the connection is read again only if there was no fatal errno while a final reply was under way, and behind complete replies that all left it open |
| Session.PersistenceAgreesIff | bjoern/wsgi.c:274-288 | behind a whole reply the server reads again exactly if the client expects that from the Connection field, unless the application itself sends "close" on a connection that is kept |
| Session.ProductiveAtMostIdeal | bjoern/server.c:405-493 | at most as many productive events as ideal octets |
| Session.RoundTrip | bjoern/server.c:334-354 | between replies and after the close the client has exactly the application's messages, in order |
| Session.UnfinishedIsSeen | bjoern/server.c:405-465 | in the middle of any delimited reply, whether it will keep the connection, close it or break off, the client has the earlier messages and knows that one is incomplete |
| Session.TruncationIsVisible | bjoern/server.c:413-438 | if the iterator fails the client sees the earlier messages and a last one cut short |
| Pitfalls.CutInterimIsHarmlessIff | bjoern/server.c:330-360 | with the first k octets of the interim response in front of it, a final reply of either kind reads back if and only if k is 0 or all 25 or, for an error message, which starts at offset k, at most 9 |
| Pitfalls.ThroughInterim | bjoern/server.c:300-371 | a fresh connection sends the interim response in one write of any result, reads the rest of the request and sends the final reply to its end: what is then on its wire, and the exact condition under which the client has the reply |
| Pitfalls.ErrorBehindCut | bjoern/server.c:241-259 | an error message that starts at the offset an interim response was cut at reads back if and only if the cut is within the version |
| Pitfalls.ErrnoIsSurvivedIff | bjoern/server.c:330-360 | after a write that met a fatal errno the connection is read again as if nothing had happened if and only if an interim response was being sent |
| Pitfalls.NextReplyIsSwallowed | bjoern/wsgi.c:229-230 | behind a kept-alive reply whose length only the server sees, the whole next reply goes into the body of the first |
| Pitfalls.MisledIsMisleading | bjoern/wsgi.c:229-230 | an application that sends a header named "Content" is such a case |
| Pitfalls.DisagreeingTestsReadBackIff | bjoern/wsgi.c:91 | of all files with a descriptor but without announced length, the client receives the reply if and only if it is not chunked |
| Pitfalls.UnannouncedDisagrees | bjoern/wsgi.c:91 | an application whose file reply is chunked: no length, HTTP/1.1, kept alive |
| Pitfalls.DisagreeingTestsNeverEnd | bjoern/wsgi.c:91 | if that file is at its end: a chunked head without terminator on a connection that the server reads again |
| Connection.Request.constructor | bjoern/request.c:13-27 | a fresh connection waits for its first request |
| Connection.Request.Clean | bjoern/request.c:50-70 | calls the close method of an attached iterable |
| Connection.Request.Reset | bjoern/request.c:29-39 | clears everything of the finished request, the offset too |
| Connection.Request.CloseConnection | bjoern/server.c:535-542 | no watcher stays active and no iterable unclosed |
| Connection.Request.StartResponse | bjoern/wsgi.c:331-394 | status, headers and length flag agree with the history of calls; success exactly when the protocol allows it, and a second success needs exception information; a failure leaves no headers |
| Connection.Request.StartResponseTooLate | bjoern/wsgi.c:350-372 | once the head is built every call fails and nothing a client can learn changes |
| Connection.Request.IterableGetNextChunk | bjoern/wsgi.c:296-314 | the next non-empty item; nothing else is lost, and failure only at a bad item |
| Connection.Request.DecideConnection | bjoern/wsgi.c:121-149 | persistence and framing as decided in the plan |
| Connection.Request.OpenSource | bjoern/wsgi.c:66-106 | the body source the answer stands for, with at most its first chunk taken out, and the file that the write routine will find |
| Connection.Request.WsgiCallApplication | bjoern/wsgi.c:13-183 | succeeds exactly if there is a plan, and then head, first chunk and what is behind them are the octets of the plan, whatever offset was left; a failure leaves that offset |
| Connection.Request.HandleNonzeroErrno | bjoern/server.c:519-533 | EAGAIN changes nothing; anything else clears keep_alive and the iterator |
| Connection.Request.DoSendChunk | bjoern/server.c:467-493 | the accepted octets go to the wire and the offset follows |
| Connection.Request.DoSendfile | bjoern/server.c:495-517 | the same for the file, never more than was accepted; false exactly at its end or after a fatal errno |
| Connection.Request.OnWriteChunk | bjoern/server.c:405-465 | the chunk is kept, shortened, or replaced by what is owed behind it |
| Connection.Request.OnWriteSendfile | bjoern/server.c:373-403 | first the head, then the file from the position found |
| Connection.Request.OnWrite | bjoern/server.c:323-328 | either routine moves a prefix of the owed octets to the wire, no longer than was accepted, and is done exactly when nothing is owed |
| Connection.Request.Conclude | bjoern/server.c:330-368 | reuse, close or go on; the iterable is closed once before reset or free |
| Connection.Request.WriteOverridden | bjoern/server.c:330-360 | while an interim response is wanted the connection is read again after one write, whatever it met; it stays sound if and only if that message was the interim response, of which exactly what was accepted is sent |
| Connection.Request.EvIoOnWrite | bjoern/server.c:300-371 | a prefix of what is owed goes to the wire, no longer than was accepted; EAGAIN changes nothing and another errno makes reuse impossible, unless an interim response is wanted; one step of the session, and every invariant kept |
| Connection.Request.EvIoOnRead | bjoern/server.c:203-298 | EAGAIN changes nothing, the end of input and any other errno close; of octets an error goes before a complete request, and that before the wish for an interim response, and each makes its reply what is owed; one step of the session, also behind a cut interim response, and every invariant kept |
| Connection.Serve | bjoern/server.c:203-371 | every script of events is a run of the session that follows the script event by event to its end or to the close; while waiting for a request the wire is the ideal and the client has every message |
| Connection.Flush | bjoern/server.c:405-517 | if every write finds room for at least one octet, a reply of k octets is sent and settled after k events, one more for a file, however little each takes |
| Peer.ConversationIsRun | bjoern/server.c:203-371 | a connection with its parse is a run of the session, so all its theorems hold |
| Peer.ReadsAreDetermined | bjoern/server.c:203-240 | what a connection reads, begins and parses depends on its own turns and its own writes only |
| Peer.Peer.TakeOctets | bjoern/server.c:205-235 | octets that go through the shared buffer lead to the parse of these octets, whatever was left in the buffer |
| Peer.Peer.On | bjoern/server.c:203-371 | each event is one step of the connection, and the flags that callbacks and handlers share stay in step; a read without octets changes nothing or closes, and never touches wire or parse |
| EventLoop.Server.OnAccept | bjoern/server.c:144-184 | a new connection with objects of its own, served from its first event |
| EventLoop.Server.OnPeer | bjoern/server.c:203-371 | an event on one connection goes through the shared buffer and leaves every other connection untouched |
| EventLoop.Server.OnSigint | bjoern/server.c:117-132 | the accept watcher stops and nothing else changes |
| EventLoop.Server.ProjectionIsRun | bjoern/server.c:78-107 | any interleaving seen from one connection is a run of that connection alone, on exactly the turns the loop had for it |
| EventLoop.NoneAfterSigint | bjoern/server.c:117-132 | after SIGINT no connection is accepted |
| EventLoop.Server.GracefulStop | bjoern/server.c:109-132 | when no watcher is active the signal has come, every connection is closed, with all its iterables unless a final reply was left half sent on it, and every reply on an undisturbed one is written |
| EventLoop.ServerRun | bjoern/server.c:78-107 | for every sequence of accepts, events and signals, each connection has its part of it |

## Left out

- http_parser, libev, reference counts and the GIL: their results are inputs; http_parser is not part of this model.
- Sockets, accept and fcntl failures, configuration, statsd and the platform variants of sendfile; sendfile is taken to return 0 at the end of the file only, and the file not to change meanwhile.
- Two requests in one read (pipelining), and HEAD and CONNECT requests.
- Connection.Request.EvIoAfterwards: with a final reply left half sent by the override at lines 330-332 of bjoern/server.c the next request is parsed into fields that are in use and asserts fail; behind a fatal errno the chunk is freed but still sent from. What then goes to the wire and which write state results is decided by the environment. Proved is only that keep_alive stays cleared behind a fatal errno, so that the switch never reads such a connection again, and that iterables overwritten without a close are counted.
- Connection.Request.EvIoOnRead: requires that no final reply was left half sent and no fatal errno ruined the connection; those cases are in EvIoAfterwards.
- Connection.Request.EvIoOnWrite: requires the same.
- Connection.Request.WsgiCallApplication: requires that no chunk to be framed reaches 2^28 octets, the bound of SizeLineFits.
- ChunkedCoding.WrapHttpChunkCruftAround: requires a chunk below 2^28 octets for the same reason; beyond it the ten-octet buffer is too small.
- Connection.Serve: takes one script for both watchers, so the environment cannot see which one is active; it need not, the script is arbitrary.
- Peer.Peer.TakeOctets: requires that http_parser, as it does, stops where on_path refuses and makes no further callback; for a refused body whether it stops is an input.
- Environ.BuildEnviron: reports the 406 that on_body notes; if http_parser also stops before the end of the octets, Request_parse makes a 400 of it, which Parsing.RequestParse states.
- Parsing.RequestParse: requires the callbacks to point at the octets from left to right, a field before the first value and nothing behind the end of the message, as http_parser delivers them.
- start_response objects kept from an earlier request.
- The `transfer-coding` parameters and comma lists of several Content-Length values in the client.
