# sip.js core, modelled in Dafny

This project models the core of sip.js, a SIP stack (RFC 3261) written in
JavaScript. It covers seven parts of the stack:

- **Message codec.** This is the text form of SIP requests and responses. It
  includes the parsers for the structured headers (parameters, name-addr
  headers such as To/From/Contact, Via, CSeq, authentication headers), the
  URI parser and serialiser, message parsing and `stringify`, `makeResponse`
  and `checkMessage`.
- **Framing of stream transports.** `makeStreamParser` cuts a byte stream
  into messages by the blank line and `Content-Length`, and defends against
  floods. `parseMessage` reads a datagram.
- **Connection bookkeeping.** The stream transports keep tables of remotes
  and flows, and count references per stream. The WebSocket client sockets
  are shared per URI, with a send queue.
- **The four transaction state machines.** These are the INVITE and
  non-INVITE server transactions and the INVITE and non-INVITE client
  transactions of section 17 of RFC 3261, built on the shared `makeSM`
  dispatcher with timers A, B, D, E, F, G, H, I, J, K, L and M.
- **The transaction layer.** It computes transaction ids, holds the tables of
  server and client transactions, prepares a request for a client
  transaction (stamping the branch and normalising CSeq), and tears the
  tables down on destroy.
- **Target resolution.** This covers literal addresses and `transport=ws`,
  the port defaults, the merge of A and AAAA answers, the ordering of the
  candidates, and the coalescing of concurrent lookups of one name
  (`makeWellBehavingResolver`).
- **Sending.** The Via stamping done by the transport wrapper, the
  `received`/`rport` annotation of incoming requests, route handling (strict
  and loose routing) and ACK preparation in `send`, and the sequential
  search over the resolved targets (`sequentialSearch`).

Messages are values: a `Message` datatype whose headers are an
insertion-ordered dictionary. A JavaScript object keeps its keys in insertion
order too, except that integer-like keys come first, in numeric order; the
model does not reorder such keys (see "## Left out").

- Pure code (the codec, resolution, route handling) is modelled by functions
  and lemmas.
- Loops are modelled by methods, proved equal to those functions. Examples
  are `parseParams`, the header loop of `stringify`, and the cursor loops of
  the header parsers.
- The closures whose variables are updated in place become classes. These
  are the stream parser, the transaction state machines, the transaction
  layer, the connection tables, the resolver coalescer and the search.
- Each transaction class is proved against a pure step function
  (`Step(config, input)`). Each event method (`Start`, `Send`, `Receive`,
  `Fire`, `Shutdown`) ties the new state and the effects it issued to that
  function and keeps the machine's invariant `Valid`. `Enter`, the state
  switch these methods call, is tied to the move function `Moved` only; the
  event methods re-establish the invariant after it.
- Timers are not run. A state machine issues `Arm`/`Disarm` effects and reacts
  to `Timeout` inputs, and a lemma proves that the effects it issues leave
  exactly the timers of the new state armed.

The model follows the code, including behaviour that differs from RFC 3261
or from what a reader of the description would expect:

- **`Contact: *`.** The contact parser compares the cursor object, not the
  text, with `*`, so `Contact: *` is read as a contact whose URI is the text
  `*`.
- **Partial multi-headers.** `parseMultiHeader` appends to the existing list
  before a later item fails. A repeated header therefore keeps the items read
  before the failure (`HeaderParsers.ItemsFrom`).
- **CSeq without a method.** The CSeq pattern is not anchored at its end and
  backtracks, so `12` reads as number 1 with method `2`
  (`CSeqRoundTrip.CSeqWithoutMethod`).
- **No timer F after Proceeding.** The non-INVITE client transaction disarms
  timers E and F when it leaves Trying. In Proceeding it therefore never times
  out, whereas section 17.1.2.2 of RFC 3261 keeps timer F running
  (`ClientTransaction.ProceedingNeverTimesOut`).
- **Retransmit intervals.** Timers A, E and G double without the T2 cap of
  RFC 3261 (`TransactionEffects.BackoffUncapped`), and timer A runs only on
  unreliable transports.
- **NaN Content-Length.** On a stream, a `Content-Length` that is not a
  number leaves the parser waiting in the content state.
- **Stream tables.**
  - A stream's close removes the `remotes` entry of its remote id even when
    another stream has taken it since.
  - A flow records whatever `remotes` holds when the flow is registered.
- **WebSocket client table.** An entry is never deleted after its socket is
  terminated.
- **Repeated shutdown.** Calling `shutdown` twice on a transaction runs the
  cleanup twice.

## Model

| member | source | states |
|---|---|---|
| Parameters.ParamText | sip.js:340-347 | one parameter is written as `;` followed by its name |
| Parameters.StringifyParams | sip.js:340-347 | the parameter text is empty exactly when there are no parameters, and otherwise starts with `;` |
| Parameters.WriteParams | sip.js:340-347 | the loop of `stringifyParams` builds the text that `StringifyParams` specifies |
| Grammar.MatchParam | sip.js:103 | a parameter match consumes at least one character, has a non-empty name, and a value, when present, is non-empty |
| Grammar.MatchComma | sip.js:122 | the separator between items of a multi-valued header consumes at least one character of the input |
| Grammar.MatchAorHead | sip.js:146 | a name-addr match consumes a non-empty prefix of the input |
| Grammar.MatchViaHead | sip.js:169 | a Via match consumes a non-empty prefix and yields a non-empty protocol and host |
| Grammar.MatchAuthScheme | sip.js:189 | an authentication scheme match consumes a non-empty prefix of the input |
| Grammar.MatchAuthPair | sip.js:192 | a `name=value` pair of an authentication header consumes a non-empty prefix of the input |
| CSeqRoundTrip.WrittenCSeqReadsBack | sip.js:178-181 | the CSeq text `stringifiers.cseq` writes for a number and a method without blanks is read back as that number and method |
| CSeqRoundTrip.CSeqWithoutMethod | sip.js:178-181 | a CSeq value holding only digits still parses: `12` reads as number 1 with method `2` |
| Grammar.MatchCSeq | sip.js:179 | the CSeq pattern `digits, spaces, non-spaces`, found anywhere in the text; `CSeqRoundTrip.WrittenCSeqReadsBack` shows it reads a written CSeq back |
| Uris.MatchUserInfo | sip.js:303 | the user part of a URI consumes a non-empty prefix that ends with `@` |
| Uris.MatchHostPort | sip.js:303 | the host and port part consumes a non-empty prefix and yields a non-empty host |
| Uris.UriParamUnit | sip.js:303 | a URI parameter unit that consumes anything starts with `;` |
| Uris.MatchUriHeader | sip.js:317-319 | one `name=value` URI header consumes a non-empty prefix of the input |
| Uris.UriTail | sip.js:303-321 | what follows the user part keeps the schema, user and password and yields a non-empty host |
| Uris.UriSections | sip.js:314-321 | the parameter and header sections after the host keep the schema, user, password, host and port already read; `Uris.UriParams` is the global parameter match of sip.js:314-316 |
| Uris.ParseUri | sip.js:299-322 | a parsed URI has schema `sip` or `sips` and a non-empty host, and a password only together with a user |
| Uris.UriAfterSchema | sip.js:303-321 | the part after `sip:`/`sips:` keeps the schema, has a non-empty host, and has a password only with a user |
| Uris.UriOf | sip.js:300-301 | a URI object is taken as it is; a missing URI yields nothing |
| Uris.UriHeadersText | sip.js:375-379 | the `?name=value&…` suffix is empty exactly when the URI has no headers |
| Uris.StringifyUriRef | sip.js:354-356 | a URI that is already text is written unchanged; nothing is written only when there is no URI |
| Uris.StringifyUri | sip.js:358-381 | the text starts with the schema (`sip` when none is set) and a colon, and more follows (read back by `UriRoundTrip.ParseStringifyUri`); `Uris.UserText` and `Uris.PortText` write the user part and the port |
| UriRoundTrip.ParseStringifyUri | sip.js:299-381 | every well-formed URI object that `stringifyUri` writes is read back by `parseUri` as the same object |
| UriRoundTrip.UriParamsOf | sip.js:314-316 | the URI parameters written by `stringifyParams` are read back into the dictionary, added in order to what was there |
| UriRoundTrip.UriHeaderListOf | sip.js:317-319 | the URI headers written by `stringifyUri` are read back as the same dictionary |
| UriRoundTrip.TailNoAt | sip.js:303 | the host, port, parameters and headers that `stringifyUri` writes hold no `@`, so the user part is found where it was written |
| HeaderParsers.ParamsFrom | sip.js:100-110 | the parameter loop consumes no more than its input, and leaves the parameters unchanged when it consumes nothing |
| HeaderParsers.ParamsFromLowerKeys | sip.js:104 | every parameter name the loop stores is lower case |
| HeaderRoundTrip.ParamsReadBack | sip.js:100-110 | distinct parameters whose names are lower-case tokens and whose values are tokens or quoted strings, written by `stringifyParams`, are read back by `parseParams` as the same list, consuming exactly their text |
| HeaderParsers.ParseParams | sip.js:100-110 | the cursor loop of `parseParams` moves the cursor and fills the parameters exactly as `ParamsFrom` does |
| HeaderParsers.AorFrom | sip.js:145-149 | a name-addr is read with its URI kept as text |
| HeaderParsers.AorWithParams | sip.js:145-149 | the parsed name-addr keeps the display name and the URI text it matched, and its parameter names are lower case |
| HeaderParsers.AorWithUriFrom | sip.js:157-161 | the URI of a name-addr is parsed exactly when the name-addr is; it becomes an object exactly when `parseUri` accepts it, and is never left as text |
| HeaderParsers.ParseAor | sip.js:145-149 | the cursor-based `parseAOR` agrees with `AorFrom` and advances the cursor by what was consumed |
| HeaderParsers.ParseAorWithUri | sip.js:157-161 | the cursor-based `parseAorWithUri` agrees with `AorWithUriFrom` |
| HeaderParsers.ViaFrom | sip.js:168-171 | a Via entry is read with its version, protocol, host, port and parameters |
| HeaderParsers.ViaWithParams | sip.js:168-171 | the parsed Via keeps the matched protocol and host, and its parameter names are lower case |
| HeaderParsers.ParseVia | sip.js:168-171 | the cursor-based `parseVia` agrees with `ViaFrom` |
| HeaderParsers.AuthPairsFrom | sip.js:195-197 | the `name=value` loop of an authentication header consumes no more than its input |
| HeaderParsers.AuthPairsKeepKeys | sip.js:195-197 | a key already present stays present after the pair loop |
| HeaderParsers.ParseAuthPairs | sip.js:195-197 | the cursor loop over authentication pairs agrees with `AuthPairsFrom` |
| HeaderParsers.PairsFrom | sip.js:207-216 | a list of pairs fails exactly when its first pair fails |
| HeaderParsers.AuthFrom | sip.js:188-200 | an authentication header is its scheme followed by its pairs |
| HeaderParsers.AuthHasScheme | sip.js:189 | a parsed authentication header carries the scheme it matched |
| HeaderParsers.AuthInfoFrom | sip.js:207-216 | `Authentication-Info` is a list of pairs without a scheme |
| HeaderParsers.ParsePairs | sip.js:207-216 | the cursor-based pair list agrees with `PairsFrom` |
| HeaderParsers.ParseAuthHeader | sip.js:188-200 | the cursor-based `parseAuthHeader` agrees with `AuthFrom` |
| HeaderParsers.ParseAuthenticationInfo | sip.js:207-216 | the cursor-based `parseAuthenticationInfoHeader` agrees with `AuthInfoFrom` |
| HeaderParsers.ItemFrom | sip.js:119-128 | one item of a multi-valued header is read by the header's own item parser |
| HeaderParsers.ItemsFrom | sip.js:119-128 | a failure at the first item adds nothing; without a failure at least one item is added, in order |
| HeaderParsers.ParseItem | sip.js:119-128 | the cursor-based step over one item agrees with `ItemFrom` |
| HeaderParsers.ParseMultiHeader | sip.js:119-128 | the loop appends to the existing list exactly the items `ItemsFrom` reads, partial items included, and reports whether one failed |
| HeaderParsers.CompactForm | sip.js:218-229 | a name of more than one letter is kept as it is |
| HeaderParsers.CompactFormExpands | sip.js:218-229 | the result is never a compact letter; a compact letter expands to a long header name, and any other name is kept |
| HeaderParsers.HeaderValueOf | sip.js:235-256 | an unstructured header always yields text, taken as it is when there was no earlier value; `content-length` becomes `Number()` of its text |
| Js.Unescape | sip.js:282 | the global `unescape`: `%uXXXX` and `%XX` become the character they name and every other character is kept, so a text without `%` is unchanged and the result is never longer |
| Js.UnescapePercentEscaped | sip.js:282 | `unescape` reads back every character below 256 written as `%XX` |
| Js.ToNumber | sip.js:248 | `Number()` of a text of decimal digits is the number they spell, and of the empty text 0 |
| HeaderParsers.ParseHeaderValue | sip.js:235-256 | the per-header parser table applied to a value agrees with `HeaderValueOf` |
| MessageParsing.LineBreak | sip.js:264 | the position of the first `\r\n`, or the end of the text |
| MessageParsing.SplitLines | sip.js:264 | a text always splits into at least one line |
| MessageParsing.JoinSplitLines | sip.js:264 | joining the lines of a text with `\r\n` gives the text back |
| MessageParsing.SplitLinesHaveNoBreak | sip.js:264 | no line produced by the split holds a `\r\n` |
| MessageParsing.StartLine | sip.js:266-272 | a start line is a response exactly when the status-line pattern matches, a request when only the request-line pattern matches, and fails when neither does; its headers start empty (the round trip with `stringify` is in `StartLineRoundTrip`) |
| Grammar.MatchStatusLine | sip.js:49 | the status-line pattern `SIP/version code reason`; `StartLineRoundTrip.StatusLineReadsBack` shows it reads a written status line back |
| Grammar.MatchRequestLine | sip.js:67 | the request-line pattern `method uri SIP/version`; `StartLineRoundTrip.RequestLineReadsBack` shows it reads a written request line back |
| Grammar.MatchHeaderLine | sip.js:278 | the `name: value` pattern of a header line; `MessageParsing.HeaderLine` states when it fails |
| StartLineRoundTrip.StatusLineReadsBack | sip.js:266-272 | the status line `stringify` writes for a response with a non-zero code is read back as a response with that code, reason and version (2.0 when it had none) |
| StartLineRoundTrip.RequestLineReadsBack | sip.js:266-272 | the request line `stringify` writes for a token method and a URI text without white space is read back as a request with that method, URI text and version |
| StartLineRoundTrip.RequestIsNoStatusLine | sip.js:49 | no request line with a token method matches the status-line pattern, so a written request is never read as a response |
| StartLineRoundTrip.VersionOf | sip.js:49 | a version `digits.digits` followed by a non-digit is matched whole |
| StartLineRoundTrip.WrittenVersionWhole | sip.js:331-333 | the version `stringifyVersion` writes is matched whole by the version pattern |
| MessageParsing.HeaderName | sip.js:282-283 | a name is unescaped, then lower-cased, then a compact letter is expanded: a stored name is never a compact letter and is lower case or a long form, and a name without `%` that is not compact is stored lower-cased |
| MessageParsing.EscapedNameIsUnescaped | sip.js:282 | a header name written with every character escaped as `%XX` is stored under the same key as the plain name |
| MessageParsing.AssignHeader | sip.js:285-288 | storing a header changes no other header, a new name adds one entry, a `content-length` header stores the number its text reads as, and a numeric Content-Length stays numeric |
| MessageParsing.HeaderLine | sip.js:277-280 | a header line fails exactly when it does not match the `name: value` pattern |
| MessageParsing.HeaderLines | sip.js:276-289 | the header lines fail only when one of them does not match the `name: value` pattern (`ParseRejectsBadHeaderLine` gives the converse) |
| MessageParsing.ParseHeaderLines | sip.js:276-289 | the loop over the header lines stores each line into the headers as `HeaderLines` specifies |
| MessageParsing.ParseText | sip.js:263-292 | a parsed message has an empty body |
| MessageParsing.Parse | sip.js:263-292 | the loop of `parse` over the header lines yields what `ParseText` specifies |
| MessageParsing.ParsedKeysAreNormal | sip.js:282-283 | every header key of a parsed message is lower case and never a compact letter |
| MessageParsing.ParsedLengthIsNumber | sip.js:248 | the `content-length` of a parsed message, when present, is a number |
| MessageParsing.ParseRejectsBadHeaderLine | sip.js:277-280 | a message with a header line that does not match is rejected as a whole |
| MessageParsing.RepeatedHeaderJoins | sip.js:285-288 | an unstructured header that repeats is stored once, as the two values joined by a comma |
| MessageParsing.FindBlank | sip.js:684 | the first blank line (`\r\n\r\n`) at or after a position, if there is one |
| MessageParsing.LastBlankBelow | sip.js:684 | the last blank line before a position, with none between it and the position |
| MessageParsing.FrameMatch | sip.js:684 | framing fails exactly when there is no blank line; the head starts after the leading blanks and ends at the first blank line |
| MessageParsing.BodyOf | sip.js:689-695 | the body is a prefix of what follows the head, of exactly the given length when it fits, and empty for a negative length |
| MessageParsing.ParseMessage | sip.js:683-700 | a datagram parses to a framed head whose body is a prefix of the rest and whose header keys are in normal form |
| MessageText.Capitalized | sip.js:472-478 | every lower-case letter at a word boundary (`\b`: the first character, or one after a non-word character) is put in upper case, and every other character is kept |
| MessageText.PrettifyHeaderName | sip.js:472-478 | the written header name has the same length as the stored one |
| MessageText.PrettifyLowersBack | sip.js:472-478 | lowering a prettified name gives back the stored lower-case name |
| MessageText.ContentLengthName | sip.js:472-478 | `content-length` is written `Content-Length` |
| MessageText.VersionText | sip.js:331-333 | the written version is never empty |
| MessageText.Line | sip.js:499-506 | a header line ends with `\r\n` |
| MessageText.ValueString | sip.js:501-503 | `String(v)` is empty exactly for the empty text and the empty list, and a text value is written as it is |
| MessageText.AorText | sip.js:390-392 | a name-addr can be written exactly when it has a URI (read back by `AorRoundTrip.AorTextReadsBack`) |
| MessageText.AorsText | sip.js:434-445 | a list of name-addrs can be written exactly when every element is an address with a URI, and then a non-empty list gives non-empty text |
| MessageText.AorsTextJoins | sip.js:434-445 | the list is written as the texts of its addresses, in order, joined by `, ` |
| AorRoundTrip.AorTextReadsBack | sip.js:145-149 | `parseAOR` reads the text `stringifyAOR` writes back whole: the display name, the URI text and the parameters, consuming the whole text |
| AorRoundTrip.AorWithUriReadsBack | sip.js:157-161 | `parseAorWithUri` reads a written address whose URI is a well-formed URI object back as the same address |
| MessageText.ViaLine | sip.js:418-427 | a Via entry writes nothing exactly when it has no host, and otherwise one `Via:` line holding its value (read back by `ViaRoundTrip.ViaLineReadsBack`) |
| MessageText.ViaItemText | sip.js:418-427 | a Via entry writes its line, an address writes nothing, and an authentication header without a host writes nothing; whatever is written is whole lines |
| ViaRoundTrip.ReadVia | sip.js:168-171 | the entry read back keeps the host and the parameters |
| ViaRoundTrip.WrittenPort | sip.js:421 | port 0 is not written, so it reads back as no port; any other port reads back as itself |
| ViaRoundTrip.ViaValueReadsBack | sip.js:168-171 | `parseVia` reads the value the Via stringifier writes back whole: the version in its written form, the transport upper-cased, the host, the port and the parameters |
| ViaRoundTrip.ViaLineReadsBack | sip.js:418-427 | the Via line of a well-formed entry is its value on one line, and the header parser reads that value back as a one-entry list |
| MessageText.ViasText | sip.js:418-427 | the Via list is written as the text of its first element followed by the text of the rest; it can be written exactly when every element can, which every list without authentication headers can |
| MessageText.AuthPairs | sip.js:399-407 | the pairs are exactly the fields other than the scheme, in the header's key order, each written `key=value` |
| MessageText.AuthText | sip.js:399-409 | with a non-empty scheme the text starts with the scheme and a space; without a scheme it is the pairs joined by commas |
| AuthRoundTrip.AuthTextReadsBack | sip.js:188-200 | `parseAuthHeader` reads the text `stringifyAuthHeader` writes back whole: the scheme, then every other field in the header's order |
| AuthRoundTrip.AuthInfoTextReadsBack | sip.js:207-216 | `parseAuthenticationInfoHeader` reads a header written without a scheme back as its fields, in order |
| MessageText.AuthsText | sip.js:449-460 | an authentication list can be written exactly when every element is an authentication header, and is then one `Name: credentials` line for the first element followed by the lines of the rest |
| MessageText.StructuredText | sip.js:417-465 | a structured header is written as whole lines |
| MessageText.HeaderText | sip.js:499-506 | an undefined header writes nothing; a text value, or a header without a serialiser, is one `Name: value` line; every header writes whole lines |
| MessageText.HeadersText | sip.js:499-506 | the header block is made of whole lines |
| MessageText.HeadersTextStep | sip.js:499-506 | the header block is the first header's text followed by the block of the rest, and cannot be written when either cannot |
| MessageText.StartLineText | sip.js:488-494 | the start line cannot be written when a response has status 0 or a request has no URI |
| MessageText.StampLength | sip.js:497 | `content-length` is set to the body's length, and the other headers are kept |
| MessageText.MessageText | sip.js:485-514 | a message can be written exactly when its start line and its stamped headers can, and the text is at least as long as the start line, the blank line and the body |
| MessageText.Stringify | sip.js:485-514 | `stringify` returns the specified text of the message, and the message with its `content-length` set to the body's length when the start line can be written |
| MessageText.WriteHeaders | sip.js:499-506 | the header loop builds exactly the specified header block |
| MessageText.MessageTextFrames | sip.js:508-511 | a written message is its head, a blank line, and its body |
| MessageText.HeadersTextHasHeader | sip.js:499-506 | every stored header appears in the written header block |
| MessageText.ContentLengthLine | sip.js:497 | a numeric `content-length` n is written as the line `Content-Length: n` |
| MessageText.MessageTextHasContentLength | sip.js:485-514 | every written message holds a `Content-Length` line giving its body's length |
| Codec.MakeResponse | sip.js:526-546 | a response carries the given status, reason and body and the request's version; unless the extra headers give them, it copies Via, To, From, Call-ID and CSeq from the request, and it holds no other header than those and the extras |
| Codec.CopiedHeaders | sip.js:526-546 | the five copied headers are exactly those of the request |
| Codec.CheckMessageMeans | sip.js:708-717 | a message passes `checkMessage` exactly when a request has a method or a response a status from 100 to 999, Via is a non-empty list, and Call-ID, To, From and CSeq are all truthy |
| Codec.CheckMessage | sip.js:708-717 | the definition of `checkMessage`; `Codec.CheckMessageMeans` states what it accepts; `Codec.Truthy` is JavaScript truthiness of a header value |
| Codec.MakeResponseChecks | sip.js:526-546 | a response with a status from 100 to 999 made to a request that passes `checkMessage` also passes it, when the extra headers do not replace a copied one |
| Codec.TopBranch | sip.js:1827 | a branch is read only from a message that has a first Via entry |
| Codec.JoinPart | sip.js:1826 | an array element is written as `String` writes it, and as nothing exactly when it is missing, `undefined`, the empty text or the empty list |
| Codec.IdMethod | sip.js:1825-1827 | an ACK is matched with the INVITE it acknowledges; otherwise the CSeq method counts |
| Codec.TransactionId | sip.js:1824-1828 | a message has a transaction id exactly when there is a method for it (ACK, or a CSeq) and a first Via entry to take the branch from |
| Codec.AckMatchesInvite | sip.js:1824-1828 | an ACK and its INVITE with the same Call-ID and branch share a transaction id |
| Codec.IdSeparatesMethods | sip.js:1824-1828 | two requests other than ACK with the same Call-ID and branch but different CSeq methods never share a transaction id |
| Codec.DefaultPort | sip.js:595-597 | the default port is 5061 exactly for TLS and 5060 otherwise |
| StreamFraming.StreamParser.constructor | sip.js:607-611 | a parser starts reading headers, with an empty buffer and the limits defaulted when zero |
| StreamFraming.StreamParser.Feed | sip.js:671-673 | feeding data leaves the mode and buffer that `Drain` gives for the old buffer plus the data, and appends `Drain`'s events |
| StreamFraming.StreamParser.Step | sip.js:613-669 | one dispatch on the state either stops in an idle state or makes progress along `Drain` |
| StreamFraming.StreamParser.ReadHeaders | sip.js:617-652 | the headers state floods, waits, drops a head, or moves to the content state as `Drain` says |
| StreamFraming.StreamParser.ReadHead | sip.js:630-650 | a framed head is consumed and handled as `Drain` says |
| StreamFraming.StreamParser.ReadContent | sip.js:655-668 | the content state waits for the body or delivers the message as `Drain` says |
| StreamFraming.Drain | sip.js:613-669 | the framer's state function: the buffer it leaves is never longer than the text it was given (`DeliveriesMatchLength` and the lemmas after it state what it delivers) |
| StreamFraming.AfterHead | sip.js:630-650 | what follows a framed head leaves a buffer no longer than the rest of the text |
| StreamFraming.ContentDeliveriesMatchLength | sip.js:655-668 | a complete body delivers a message whose body has its Content-Length, followed by what the rest delivers |
| StreamFraming.DeliveriesMatchLength | sip.js:655-668 | every delivered message has a numeric `content-length` and a body of exactly that length (or empty, when negative) |
| StreamFraming.HeaderBufferBounded | sip.js:620-628 | while reading headers the buffer never holds more than the header limit |
| StreamFraming.HeaderFlood | sip.js:620-628 | a header buffer over the limit reports a flood and is emptied |
| StreamFraming.WaitsForBlankLine | sip.js:630 | without a blank line the data waits in the buffer and nothing is delivered |
| StreamFraming.DropsHeadWithoutLength | sip.js:636-650 | a head that does not parse or has no `content-length` is dropped, and reading goes on after it |
| StreamFraming.LongContentFloods | sip.js:638-644 | a `content-length` over the content limit reports a flood |
| StreamFraming.ContentWaits | sip.js:655-668 | a body that has not fully arrived waits |
| StreamFraming.ContentDelivers | sip.js:655-668 | a complete body delivers its message and reading goes on with the rest |
| StreamFraming.FramerAgreesWithParseMessage | sip.js:607-700 | a whole message sent on a stream is delivered as exactly the message `parseMessage` reads from it as a datagram |
| StreamFraming.WholeBody | sip.js:655-668 | a body of exactly the announced length is delivered with nothing left over |
| StreamFraming.FramedMessage | sip.js:607-700 | a framed head whose Content-Length announces the rest of the stream is delivered once, with that rest as its body, and the framer returns to reading headers with an empty buffer |
| StreamFraming.ParsedFrame | sip.js:683-700 | a message `parseMessage` reads has a head the framer finds, and its body is the text after the blank line when the Content-Length announces exactly that |
| StreamConnections.RemoteId | sip.js:741 | the remote id starts with the address followed by a comma |
| StreamConnections.FlowId | sip.js:750 | the flow id starts with the remote id |
| StreamConnections.RemoteIdInjective | sip.js:741 | two endpoints whose addresses hold no comma share a remote id only when they are equal |
| StreamConnections.StreamTransport.constructor | sip.js:730-731 | the remote and flow tables start empty |
| StreamConnections.StreamTransport.Init | sip.js:739-830 | a new stream with no reference is filed under its remote id, and its flow is registered at once when it has a local port |
| StreamConnections.StreamTransport.RegisterFlow | sip.js:748-752 | the flow gets whatever `remotes` holds now for the stream's remote, or is removed when that entry is gone |
| StreamConnections.StreamTransport.Closed | sip.js:785-788 | close removes the stream's flow and the `remotes` entry of its remote id, even when another stream holds that entry |
| StreamConnections.StreamTransport.Open | sip.js:850-856 | open reuses the stream filed under the remote id, or creates one, and takes one reference |
| StreamConnections.StreamTransport.Get | sip.js:863-868 | get finds the stream by flow id when the address has a local end and by remote id otherwise, takes a reference, and yields nothing when the key is missing |
| StreamConnections.StreamTransport.Release | sip.js:812-815 | a release gives one reference back, and the one that leaves none emits `no_reference` |
| StreamConnections.StreamTransport.IdleTimeout | sip.js:798 | an idle timeout destroys only a stream nobody references |
| StreamConnections.StreamTransport.PeerEnded | sip.js:793-796 | the peer's end raises an error for a stream still referenced and then ends the stream |
| StreamConnections.OpenTwiceReleaseTwice | sip.js:807-815 | two opens of one remote share a stream, and only the second release emits `no_reference` |
| WebSocketClients.ClientUri | sip.js:1070 | the client key is `ws://host:port` |
| WebSocketClients.Send | sip.js:980-990 | `send` queues before the socket opens and writes afterwards, and changes nothing else |
| WebSocketClients.Acquire | sip.js:1004-1006 | `open(onError)` takes one reference and sends nothing |
| WebSocketClients.Release | sip.js:1010-1013 | a release gives one reference back, and the one that leaves none terminates the socket |
| WebSocketClients.Opened | sip.js:993-997 | the socket's open event switches to `send_open` |
| WebSocketClients.SendKeepsOrder | sip.js:980-990 | every send appends its text to what was sent, queued or not |
| WebSocketClients.OpenedFlushes | sip.js:993-997 | opening writes the whole queue to the socket, in order |
| WebSocketClients.SendAllAppends | sip.js:996 | sending a list of texts appends it, in order |
| WebSocketClients.SendAll | sip.js:996 | sending a list of texts writes them, in order, after what the socket has when it is open, and queues them after the queue otherwise; nothing else changes |
| WebSocketClients.OpenTimeInvisible | sip.js:980-997 | texts sent before and after the socket opens reach it in the order they were sent |
| WebSocketClients.OpenAsWritten | sip.js:970 | as written, a second `makeClient` for a URI in the table throws after taking a reference |
| WebSocketClients.SecondOpenThrows | sip.js:970 | after the second open throws, releasing the first connection leaves one reference and the socket open |
| WebSocketClients.OpenClient | sip.js:969-1017 | as intended, the URI's socket is reused or created with one more reference, and other entries are kept |
| WebSocketClients.BalancedReleasesTerminate | sip.js:1004-1017 | two connections to a new URI share one socket, and releasing both terminates it |
| WebSocketClients.WsTransport.constructor | sip.js:969-1017 | the client table starts empty |
| WebSocketClients.WsTransport.Open | sip.js:1067-1072 | as intended (the code as written throws on a second open, see `WebSocketClients.OpenAsWritten`): opening a target without a local end acquires the client of `ws://host:port`, reusing it with one more reference when it is in the table |
| WebSocketClients.WsTransport.SendOn | sip.js:980-990 | a send appends its text to what the connection has sent |
| WebSocketClients.WsTransport.SocketOpened | sip.js:993-997 | the open event's loop writes the queued texts in order |
| WebSocketClients.WsTransport.ReleaseOn | sip.js:1010-1013 | a release keeps the table entry, terminated or not |
| TransactionEffects.ApplyOne | sip.js:1366-1392 | `Arm` sets a timer's delay, `Disarm` removes the timer, and other effects leave the timers alone |
| TransactionEffects.ApplyAppend | sip.js:1366-1392 | applying two runs of effects is applying one after the other |
| TransactionEffects.Disarms | sip.js:1366-1392 | leaving a state disarms each timer it owns, in order |
| TransactionEffects.DisarmsClear | sip.js:1366-1392 | disarming a list of timers removes exactly those timers |
| TransactionEffects.Backoff | sip.js:1590-1595 | a retransmit interval is never below T1 |
| TransactionEffects.BackoffUncapped | sip.js:1590-1595 | the k-th retransmit interval is at least T1·(k+1) and exceeds 4 seconds from the fifth on, since no T2 cap applies |
| TransactionEffects.BackoffIsBackoff | sip.js:1590-1595 | every retransmit interval is T1 doubled some number of times |
| TransactionEffects.DoubleIsBackoff | sip.js:1590-1595 | doubling such an interval gives another one |
| InviteServerTransaction.Switch | sip.js:1366-1392 | a state change leaves the old state (disarming its timers) and enters the new one |
| InviteServerTransaction.Moved | sip.js:1366-1392 | the effects of a move are the old state's disarms followed by the new state's entry effects |
| InviteServerTransaction.MovedTimers | sip.js:1366-1392 | after a move exactly the new state's timers are armed |
| InviteServerTransaction.StepKeepsValid | sip.js:1400-1505 | every input keeps the machine's invariant: each state arms exactly its own timers |
| InviteServerTransaction.Step | sip.js:1400-1505 | a shutdown ends in Terminated, and nothing leaves Terminated (`StepKeepsValid` proves each step keeps the invariant); it dispatches to the state handlers `OnSend`, `OnReceive` and `OnFire`, and `Entry` gives the effects of entering a state |
| InviteServerTransaction.SendInProceeding | sip.js:1404-1436 | a final response of 300 or more moves to Completed, arms G and H (G whatever the transport), and transmits; a 2xx moves to Accepted; a provisional response stays in Proceeding |
| InviteServerTransaction.ReceiveInCompleted | sip.js:1428-1456 | an ACK in Completed moves to Confirmed, disarms G and H and arms I; any other request retransmits the final response |
| InviteServerTransaction.FinalResponseStays | sip.js:1428-1456 | a response sent after the final one changes nothing |
| InviteServerTransaction.TimerGDoubles | sip.js:1428-1456 | timer G retransmits the final response and rearms with twice its interval |
| InviteServerTransaction.UnhandledSignalsIgnored | sip.js:1366-1392 | an input that the current state does not handle changes nothing |
| InviteServerTransaction.TerminationCleansUp | sip.js:1498 | entering Terminated runs the cleanup |
| InviteServerTransaction.InviteServer.constructor | sip.js:1400-1402 | a new transaction holds no response, no timer and no effect yet |
| InviteServerTransaction.InviteServer.Enter | sip.js:1366-1392 | `sm.enter(next)` leaves the state and effects that `Moved` gives: the old state's timers disarmed, then the new state's entry effects |
| InviteServerTransaction.InviteServer.Send | sip.js:1502 | `send` follows the step function and keeps the invariant |
| InviteServerTransaction.InviteServer.Receive | sip.js:1502 | `message` follows the step function and keeps the invariant |
| InviteServerTransaction.InviteServer.Fire | sip.js:1428-1472 | a timer follows the step function and keeps the invariant |
| InviteServerTransaction.InviteServer.Shutdown | sip.js:1502-1504 | `shutdown` moves to Terminated as the step function says |
| ServerTransaction.Switch | sip.js:1366-1392 | a state change leaves the old state and enters the new one |
| ServerTransaction.Moved | sip.js:1366-1392 | the effects of a move are the old state's disarms followed by the new state's entry effects |
| ServerTransaction.MovedTimers | sip.js:1366-1392 | after a move exactly the new state's timers are armed |
| ServerTransaction.StepKeepsValid | sip.js:1513-1568 | every input keeps the machine's invariant |
| ServerTransaction.Step | sip.js:1513-1568 | a shutdown ends in Terminated, and nothing leaves Terminated; it dispatches to the state handlers `OnSend`, `OnReceive` and `OnFire`, and `Entry` gives the effects of entering a state |
| ServerTransaction.SendInTrying | sip.js:1517-1535 | a response is transmitted first, and moves to Completed (arming J) exactly when it is final |
| ServerTransaction.ReceiveInCompleted | sip.js:1538-1559 | a retransmitted request in Completed retransmits the final response |
| ServerTransaction.FinalResponseStays | sip.js:1538-1559 | a response sent after the final one changes nothing |
| ServerTransaction.TimerJTerminates | sip.js:1538-1559 | timer J moves to Terminated, disarms J and runs the cleanup |
| ServerTransaction.NonInviteServer.constructor | sip.js:1513-1515 | a new transaction holds no response, no timer and no effect yet |
| ServerTransaction.NonInviteServer.Enter | sip.js:1366-1392 | `sm.enter(next)` leaves the state and effects that `Moved` gives |
| ServerTransaction.NonInviteServer.Send | sip.js:1565 | `send` follows the step function and keeps the invariant |
| ServerTransaction.NonInviteServer.Receive | sip.js:1565 | `message` follows the step function and keeps the invariant |
| ServerTransaction.NonInviteServer.Fire | sip.js:1538-1559 | a timer follows the step function and keeps the invariant |
| ServerTransaction.NonInviteServer.Shutdown | sip.js:1565-1567 | `shutdown` moves to Terminated as the step function says |
| InviteClientTransaction.AckCarriesInviteFields | sip.js:1640-1650 | the ACK for a failure has method ACK and the INVITE's URI, From, Call-ID and top Via, CSeq number with method ACK, and the response's To |
| InviteClientTransaction.AckSharesTransactionId | sip.js:1640-1650 | that ACK has the INVITE's transaction id |
| InviteClientTransaction.Ack | sip.js:1640-1650 | the ACK is a request with method ACK, the INVITE's URI and no body |
| InviteClientTransaction.CanCreate | sip.js:1644-1646 | what building the ACK reads: a request with a parsed CSeq and a first Via entry |
| InviteClientTransaction.Moved | sip.js:1366-1392 | the effects of a move are the old state's disarms followed by the new state's entry effects |
| InviteClientTransaction.MovedTimers | sip.js:1366-1392 | after a move exactly the new state's timers are armed |
| InviteClientTransaction.StepKeepsValid | sip.js:1579-1711 | every input keeps the machine's invariant |
| InviteClientTransaction.Step | sip.js:1579-1711 | a shutdown ends in Terminated (a later deferred start can still leave it, see `ShutdownBeforeStartStillSends`); it dispatches to the state handlers `OnReceive` and `OnFire`, and `Entry` gives the effects of entering a state |
| InviteClientTransaction.ReceiveKeepsValid | sip.js:1613-1700 | every received message keeps the invariant |
| InviteClientTransaction.FireKeepsValid | sip.js:1583-1700 | every timer keeps the invariant |
| InviteClientTransaction.StartSendsInvite | sip.js:1583-1600 | the start transmits the INVITE, arms A when unreliable, and arms B |
| InviteClientTransaction.FailureIsAcknowledged | sip.js:1613-1638 | a response of 300 or more in Calling or Proceeding reaches the user, moves to Completed, and transmits the ACK and arms D |
| InviteClientTransaction.CompletedResendsAck | sip.js:1653-1676 | in Completed a retransmitted response gets the ACK again and nothing else changes |
| InviteClientTransaction.AcceptedPasses2xx | sip.js:1679-1700 | in Accepted every 2xx reaches the user and nothing else changes |
| InviteClientTransaction.TimerADoubles | sip.js:1590-1595 | timer A retransmits the INVITE and rearms with twice its interval |
| InviteClientTransaction.TimerBTimesOut | sip.js:1597-1600 | timer B gives the user a 408 and terminates, disarming A and B |
| InviteClientTransaction.ShutdownBeforeStartStillSends | sip.js:1704-1710 | a shutdown before the deferred start runs the cleanup, and the start still sends the INVITE afterwards |
| InviteClientTransaction.InviteClient.constructor | sip.js:1579-1582 | a new transaction has not started, keeps the request and its transport kind, and satisfies the invariant |
| InviteClientTransaction.InviteClient.Enter | sip.js:1366-1392 | `sm.enter(next)` leaves the state, the To of the ACK and the effects that `Moved` gives |
| InviteClientTransaction.InviteClient.Start | sip.js:1704-1706 | the deferred start follows the step function and keeps the invariant |
| InviteClientTransaction.InviteClient.Receive | sip.js:1708 | `message` follows the step function and keeps the invariant |
| InviteClientTransaction.InviteClient.ReceiveWhileCalling | sip.js:1613-1622 | a message in Calling follows the step function |
| InviteClientTransaction.InviteClient.ReceiveWhileProceeding | sip.js:1625-1638 | a message in Proceeding follows the step function |
| InviteClientTransaction.InviteClient.Fire | sip.js:1583-1700 | a timer follows the step function and keeps the invariant |
| InviteClientTransaction.InviteClient.Shutdown | sip.js:1708-1710 | `shutdown` moves to Terminated as the step function says |
| ClientTransaction.Moved | sip.js:1366-1392 | the effects of a move are the old state's disarms followed by the new state's entry effects |
| ClientTransaction.MovedTimers | sip.js:1366-1392 | after a move exactly the new state's timers are armed |
| ClientTransaction.StepKeepsValid | sip.js:1721-1817 | every input keeps the machine's invariant |
| ClientTransaction.Step | sip.js:1721-1817 | a shutdown ends in Terminated; it dispatches to the state handlers `OnReceive` and `OnFire`, and `Entry` gives the effects of entering a state |
| ClientTransaction.StartSendsRequest | sip.js:1731-1740 | the start transmits the request, arms E when unreliable, and arms F |
| ClientTransaction.ReceiveInTrying | sip.js:1753-1759 | in Trying a final response moves to Completed and arms K, a provisional one moves to Proceeding; both disarm E and F and reach the user |
| ClientTransaction.ProceedingNeverTimesOut | sip.js:1779-1790 | Proceeding holds no timer, so no timer moves it |
| ClientTransaction.CompletedAbsorbsResponses | sip.js:1793-1806 | in Completed responses are absorbed |
| ClientTransaction.TimerEDoubles | sip.js:1764-1769 | timer E retransmits the request and rearms with twice its interval |
| ClientTransaction.TimerFTimesOut | sip.js:1773-1776 | timer F gives the user a 408 and terminates, disarming E and F |
| ClientTransaction.NonInviteClient.constructor | sip.js:1721-1724 | a new transaction has not started, keeps the request, which is not an INVITE, and its transport kind, and satisfies the invariant |
| ClientTransaction.NonInviteClient.Enter | sip.js:1366-1392 | `sm.enter(next)` leaves the state and effects that `Moved` gives |
| ClientTransaction.NonInviteClient.Start | sip.js:1810-1812 | the deferred start follows the step function and keeps the invariant |
| ClientTransaction.NonInviteClient.Receive | sip.js:1814 | `message` follows the step function and keeps the invariant |
| ClientTransaction.NonInviteClient.Fire | sip.js:1764-1806 | a timer follows the step function and keeps the invariant |
| ClientTransaction.NonInviteClient.Shutdown | sip.js:1814-1816 | `shutdown` moves to Terminated as the step function says |
| TransactionLayer.StampBranch | sip.js:1865-1866 | the top Via gets the new branch and nothing else changes; a request without a top Via cannot be stamped |
| TransactionLayer.NormalizeCSeq | sip.js:1869-1870 | a CSeq given as text is parsed, an object is kept, and the request is refused when the text does not parse; `TransactionLayer.WithCSeq` stores the parsed CSeq |
| TransactionLayer.NormalizeCSeqKeeps | sip.js:1869-1870 | normalising CSeq changes no other header and keeps the branch |
| TransactionLayer.PrepareClientFails | sip.js:1864-1882 | preparing a client request fails exactly when a non-CANCEL has no top Via or the CSeq text does not parse |
| TransactionLayer.PrepareClientBranch | sip.js:1865-1866 | a prepared request carries the new branch, except a CANCEL, which keeps its own |
| TransactionLayer.PrepareClientKeeps | sip.js:1864-1882 | preparing changes only the Via and CSeq headers |
| TransactionLayer.PrepareClient | sip.js:1864-1870 | a prepared request always has a structured CSeq, and a CANCEL only has its CSeq normalised (`PrepareClientFails` and `PrepareClientBranch` state the rest) |
| TransactionLayer.Keyed | sip.js:1847-1882 | every transaction in a table is filed under its own id and is of the table's kind, and each id appears once |
| TransactionLayer.PreparedIsCreatable | sip.js:1864-1882 | a prepared request has a transaction id and meets what its client transaction demands |
| TransactionLayer.Find | sip.js:1888-1898 | a transaction is found only for a message that has a transaction id |
| TransactionLayer.FoundIsKeyed | sip.js:1888-1898 | what is found is of the table's kind and has the message's transaction id |
| TransactionLayer.CreateThenCleanupRestores | sip.js:1847-1856 | registering a transaction and then cleaning it up gives back the table |
| TransactionLayer.AckFindsInviteServer | sip.js:1824-1828 | an ACK finds the server transaction of its INVITE |
| TransactionLayer.Teardown | sip.js:1902-1905 | destroying a table shuts down and releases every transaction in it |
| TransactionLayer.Layer.constructor | sip.js:1836-1838 | the layer starts with empty tables |
| TransactionLayer.Layer.Register | sip.js:1847-1882 | a new transaction is filed under its id and can be found |
| TransactionLayer.Layer.CreateServer | sip.js:1847-1856 | a server transaction is created exactly when the request has a transaction id, and is then found for it |
| TransactionLayer.Layer.CreateClient | sip.js:1864-1882 | a client transaction is created on the prepared request exactly when preparation succeeds, is reliable unless UDP, and is then found for it |
| TransactionLayer.Layer.GetServer | sip.js:1888-1890 | a server transaction found for a message has the message's id |
| TransactionLayer.Layer.GetClient | sip.js:1896-1898 | a client transaction found for a message has the message's id |
| TransactionLayer.Layer.Release | sip.js:1847-1882 | cleanup removes the transaction from its table only |
| TransactionLayer.Layer.ShutDownTable | sip.js:1902-1905 | the loop over one table empties it and logs each shutdown and release |
| TransactionLayer.Layer.ShutDownFirst | sip.js:1902-1905 | shutting down the first transaction removes it and logs its shutdown and release |
| TransactionLayer.Layer.Destroy | sip.js:1902-1905 | `destroy` empties both tables, clients first |
| Resolution.PortOr | sip.js:1278-1308 | an explicit non-zero port is used; otherwise the default is |
| Resolution.WsDefaultPortAsWritten | sip.js:1278 | as written, the WebSocket default port is 433 for `sips` and 80 otherwise |
| Resolution.WsDefaultPortMissesWss | sip.js:1278 | the default for `sips` is not the WSS port 443 |
| Resolution.WsDefaultPort | sip.js:1278 | as intended, 443 for `sips` and 80 otherwise |
| Resolution.ResolveDirect | sip.js:1276-1284 | as written: `transport=ws` gives one WS or WSS target with the URI's host and port, defaulting to 433 for `sips` and 80 otherwise; a literal address gives one target with the given or UDP transport and its default port; any other name needs a lookup |
| Resolution.DirectTargets | sip.js:1276-1284 | the targets of `transport=ws` and of a literal address, for a given WebSocket default port: one target exactly in those two cases |
| Resolution.ResolveDirectIntended | sip.js:1276-1284 | as intended, the same targets except that `transport=ws` on a `sips` URI without a port uses port 443 |
| Resolution.SipsWsTargetsDiffer | sip.js:1278 | for `transport=ws` on a `sips` URI without a port, the code resolves to port 433 and the intended resolution to 443 |
| Resolution.Transport | sip.js:1282 | the `transport` parameter is taken exactly when it is present and not empty |
| Resolution.BareAddressIsUdp5060 | sip.js:1280-1283 | a literal address without transport or port is UDP on port 5060 |
| Resolution.TlsAddressDefaultsTo5061 | sip.js:1280-1283 | a literal address with `transport=tls` defaults to port 5061 |
| Resolution.Merge46AsWritten | sip.js:1293-1296 | as written, an empty IPv4 answer yields no address at all |
| Resolution.Merge46DropsIpv6 | sip.js:1293-1296 | an empty IPv4 answer and one IPv6 answer yield nothing |
| Resolution.Merge46 | sip.js:1293-1296 | as intended, the IPv4 answers followed by the IPv6 ones |
| Resolution.Protocols | sip.js:1301-1311 | there is always at least one protocol to try |
| Resolution.Row | sip.js:1301-1308 | each protocol gives one target on the address with that protocol's port |
| Resolution.Candidates | sip.js:1303-1305 | every address gives one target per protocol, so there are as many targets as addresses times protocols |
| Resolution.CandidateAt | sip.js:1301-1308 | the candidates are ordered by address, then by protocol |
| Resolution.PortedHostOrder | sip.js:1301-1308 | a name with a port and no transport tries UDP, TCP and TLS on each address, IPv4 before IPv6 |
| Resolution.Coalescer.constructor | sip.js:1246 | no lookup is outstanding |
| Resolution.Coalescer.Resolve | sip.js:1248-1262 | a second lookup of a name waits for the first; only the first one is issued |
| Resolution.Coalescer.Complete | sip.js:1255-1260 | an answer reaches every waiter, in order, and the name is no longer outstanding |
| Resolution.Fanout | sip.js:1259 | every waiter gets the same answer, in order |
| Routing.LocalHost | sip.js:1180 | the Via host is the first non-empty of the public address, address, host name and OS host name |
| Routing.Stamp | sip.js:1177-1190 | responses are sent unchanged; a request can be stamped exactly when it has a top Via; `Routing.RportOn` says when `rport` is added |
| Routing.StampedVia | sip.js:1179-1187 | stamping sets the top Via's host, port and protocol, adds `rport` when UDP and enabled, and changes nothing else |
| Routing.Annotate | sip.js:1096-1101 | responses are received unchanged |
| Routing.AnnotatedVia | sip.js:1096-1101 | a received request gets `received` on its top Via, and `rport` gets the port only when it was present |
| Routing.RportRoundTrip | sip.js:1096-1101 | a UDP request stamped with `rport` gets the sender's port back in `rport` when it is received |
| Routing.NoRportWhenOff | sip.js:1184-1186 | with `rport` off, no `rport` appears at the receiving end |
| Routing.PushVia | sip.js:1920-1924 | a request other than CANCEL gets a blank Via entry in front of those it had, and a CANCEL is kept as it is |
| Routing.BlankViaIsNotWritten | sip.js:418-427 | a blank Via entry writes nothing |
| Routing.AckVia | sip.js:2095-2100 | an ACK without a Via gets one carrying the new branch, and one with a Via is kept |
| Routing.AckOut | sip.js:2102-2109 | the ACK goes to the first resolved target, and is not sent when there is none |
| Routing.AckLeavesStamped | sip.js:2095-2109 | an ACK leaves with a top Via stamped by the transport |
| Routing.ParsedRoute | sip.js:2066-2073 | only the Route header changes; a Route that is not text is kept |
| Routing.Routes | sip.js:2066-2085 | the route set comes from a parsed Route list |
| Routing.NextHop | sip.js:2075-2085 | the next hop keeps the request's method; the port it compares routes against is `Routing.LocalPort`, `options.port || 5060` (sip.js:2023) |
| Routing.NoRouteUsesRequestUri | sip.js:2075-2085 | without routes the next hop is the request URI |
| Routing.StrictRouteRotates | sip.js:2075-2085 | a strict first route becomes the request URI, and the old request URI goes to the end of the routes |
| Routing.LooseRouteKeepsRequest | sip.js:2075-2085 | a loose first route is the next hop and the request is unchanged |
| Routing.LocalRouteIsPopped | sip.js:2075-2079 | a first route naming this host and port is removed |
| Routing.LocalRouteNeedsPort | sip.js:2075-2079 | a first route naming this host without a port is not taken as local |
| Routing.BadRouteTextIsDropped | sip.js:2066-2073 | a Route text that fails to parse is dropped and the request URI is used |
| SequentialSearch.Reply | sip.js:1919-1972 | the made-up responses carry the given status |
| SequentialSearch.FinalStatus | sip.js:1951-1953 | when the targets run out, the last status seen is reported, or 404 when there is none |
| SequentialSearch.NextOutcome | sip.js:1932-1955 | each `next()` either creates one transaction on a target taken from the front, or delivers exactly one response and ends the search |
| SequentialSearch.Next | sip.js:1932-1955 | `next()` only appends to the logs of tried targets and delivered responses, and never adds a target |
| SequentialSearch.Searching | sip.js:1961-1969 | `searching(rs)` only appends to the logs and never adds a target |
| SequentialSearch.OnResponse | sip.js:1932-1969 | a response only appends to the logs and never adds a target, whichever handler is current |
| SequentialSearch.Retry503 | sip.js:1961-1969 | a 503 moves on to the next target |
| SequentialSearch.Exhausted503 | sip.js:1961-1969 | a 503 with no target left is reported as 503 |
| SequentialSearch.LocalFailureGives430 | sip.js:1947-1948 | a target with a local end that cannot be opened ends the search with 430 |
| SequentialSearch.RemoteFailureMovesOn | sip.js:1947-1948 | any other target that cannot be opened counts as a 503 |
| SequentialSearch.NoTargetGives404 | sip.js:1951-1953 | with no target at all the result is 404 |
| SequentialSearch.AllRefusedGives503 | sip.js:1932-1969 | when no target can be opened the result is one 503 and no transaction is made |
| SequentialSearch.TryingKeepsSearching | sip.js:1961-1969 | a 100 reaches the callback and the search goes on |
| SequentialSearch.AnswerEndsSearch | sip.js:1961-1969 | any other response above 100 reaches the callback and ends the search |
| SequentialSearch.EndedPassesThrough | sip.js:1961-1969 | after the search ends every response goes to the callback |
| SequentialSearch.Searcher.constructor | sip.js:1919-1927 | the search starts with every target left |
| SequentialSearch.Searcher.TryNext | sip.js:1932-1955 | the loop of `next()` and its failures ends in the state `Next` specifies |
| SequentialSearch.Searcher.Respond | sip.js:1961-1969 | a response moves the search as `OnResponse` specifies |

## Left out

- **Sockets, DNS and net.** Reading from sockets, DNS lookups (`resolve4`, `resolve6`, SRV and NAPTR), `net.isIP`, the SRV/NAPTR fan-out, and the listening servers. `isIP` and the DNS answers are parameters of the model.
- **Flow tokens.** Flow tokens (`encodeFlowUri`/`decodeFlowUri`) and the decoding of a local hop into a flow are not modelled.
- **Branches.** `generateBranch` uses randomness, so the branch is a parameter.
- **Timers.** `setTimeout`/`clearTimeout` are not modelled. A transaction issues `Arm`/`Disarm` effects and reacts to `Timeout` inputs. `nextTick` is a `Tick` input.
- **Escapes and Unicode.** `unescape` of the request method (sip.js:70) and of the CSeq method (sip.js:180) is the identity: methods are kept as written. Header names are unescaped (sip.js:282), except that a `%uXXXX` escape naming half of a surrogate pair is kept as text, since a Dafny character cannot hold it. Case conversion covers ASCII letters only. A Dafny string length counts characters, where JavaScript's `.length` counts UTF-16 code units: for a body holding a character outside the Basic Multilingual Plane the source stamps a larger `Content-Length` than `MessageText.StampLength` does, and `MessageParsing.BodyOf` and the stream framer cut bodies by characters, not code units. Text read from the network is decoded as `binary` (one character per byte), so this affects only bodies the application supplies.
- **Integer-like keys.** A JavaScript object lists integer-like keys (`"1"`, `"42"`) before the others, in numeric order. The header dictionary, the parameter and header dictionaries of URIs and the parameter dictionaries of Via entries and addresses keep insertion order for every key, so `stringify` of a message with such a header name, and `stringifyUri`/`stringifyParams` of such a parameter name, write it where it was inserted, not first.
- **Copies and aliasing.** Messages are values, so `copyMessage`/`clone` and the sharing of header arrays between a request and the responses made from it are not captured.
- **Logging.** Every `logger` call is left out.
- **WebSocket transport.**
  - The targets built for `transport=ws` use the key `address`, where the source writes `host`.
  - The server side of the transport (accepting sockets, `flows`, `get`) is not modelled.
- **Via entries.** The top Via entry of a message is assumed to be a parsed Via object where the source reads `via[0]`.
- **Transactions in the layer.** The transaction layer stores handles (an id and a kind) instead of transaction objects, and logs their shutdown and release.
- **Connection errors.** The 503 a client transaction reports when its connection fails is an input of the search. Whether opening a target throws is an input, `fails`.
- **Numbers.** `Number()` covers integers with an optional sign and surrounding white space. Hexadecimal, exponents and fractions give NaN.
- StartLine (`MessageParsing.StartLine`): its own contract states only which pattern decides the message kind. The round trip with `stringify` is proved separately by `StartLineRoundTrip.StatusLineReadsBack` and `StartLineRoundTrip.RequestLineReadsBack`, for versions of the form `digits.digits` or none, reasons without line breaks that do not start with white space, token methods and URI texts without white space. Start lines outside those forms are not read back by a lemma.
- AorText (`MessageText.AorText`): its own contract states only when an address can be written. The round trip is `AorRoundTrip.AorTextReadsBack` and `AorRoundTrip.AorWithUriReadsBack`, for a display name that is absent, one token or a quoted string without escapes, a URI text without `>` that does not start with white space, and distinct parameters whose names are lower-case tokens and whose values are tokens or quoted strings. Display names of several words and quoted names with escapes are not read back by a lemma.
- AorsText (`MessageText.AorsText`): `MessageText.AorsTextJoins` proves the text is the addresses' texts joined by `, `, and each address reads back by `AorRoundTrip.AorTextReadsBack`; reading the whole joined list back through `HeaderParsers.ItemsFrom` is not proved.
- ViaLine (`MessageText.ViaLine`): the round trip is `ViaRoundTrip.ViaValueReadsBack` and `ViaRoundTrip.ViaLineReadsBack`, for a version of the form `digits.digits` or none, a protocol without white space, a host of the Via host characters, and distinct lower-case token parameters. Other entries are not read back by a lemma.
- ViasText (`MessageText.ViasText`): an authentication header inside a `via` list that has a non-empty `host` field is written by the source as a Via line built from its fields; the model returns `None` for it. Every other element (a Via entry, an address, an authentication header without a host) is written as the source writes it.
- AuthPairs (`MessageText.AuthPairs`): a field whose value is `undefined` is skipped by the source; fields of the model are always text, so that case does not arise.
- AuthText (`MessageText.AuthText`): the round trip is `AuthRoundTrip.AuthTextReadsBack` and `AuthRoundTrip.AuthInfoTextReadsBack`, for at least one field besides the scheme, keys of the `[^\s,"=]` class written once each, values that are one run of the value class or a quoted string without escapes, and a scheme without white space. Headers with empty values, escaped quotes or no field besides the scheme are not read back by a lemma.
- AuthsText (`MessageText.AuthsText`): an element of an authentication header list that is not an authentication header (a Via entry or an address) is written by the source through `stringifyAuthHeader` over its fields; the model returns `None` for it.
- StructuredText (`MessageText.StructuredText`): its own contract states whole lines only; what each header writes is stated by the contracts of the helpers it calls. An address held under `authentication-info` is written by the source as the `key=value` pairs of its fields; the model returns `None` for it, as it does for the `via` and authentication-list elements named above.
- Grammar.MatchParam: states the progress and bounds of the match only, not the full regular language it accepts.
- Grammar.MatchComma: states progress only.
- Grammar.MatchAorHead: states progress only. What it reads is stated by `HeaderParsers.AorWithParams`.
- Grammar.MatchViaHead: states progress and a non-empty protocol and host only.
- Grammar.MatchAuthScheme: states progress only.
- Grammar.MatchAuthPair: states progress only.
- Uris.MatchUserInfo: states progress and the closing `@` only. The round trip `UriRoundTrip.ParseStringifyUri` states what it reads.
- Uris.MatchHostPort: states progress and a non-empty host only. The round trip states what it reads.
- Uris.MatchUriHeader: states progress only. `UriRoundTrip.UriHeaderListOf` states what it reads.
- HeaderName (`MessageParsing.HeaderName`): `compactForm` is a plain object, so a name that is a property of `Object.prototype` (`constructor`, `__proto__`, `toString`, `valueOf`, `hasOwnProperty` and the like) finds a function or the prototype there, and the source stores the header under that object's string form (`function Object() { [native code] }`, `[object Object]`). The model stores it under the lower-cased name; these string forms depend on the JavaScript engine.
- Other value shapes: a value of another header's shape is written or read field by field in a few more places, and the model gives `None` there. `MessageText.StructuredText` does so for an authentication value with a `uri` field under To, From, Contact or a route header, which the source writes through `stringifyAOR`. `Routing.NextHop` does so for a route list whose first element is not an address but has a `uri` field, which the source parses. `Routing.Stamp` does so for a top Via that is not a Via entry, on which the source sets host, port and protocol all the same.
- MessageParsing.ParseText: states only that the body of a parsed head is empty. What each header becomes is stated by `MessageParsing.HeaderName`, `MessageParsing.AssignHeader` and the lemmas after it.

## Findings

| source | as written | input that shows it | evidently intended | confidence | as-written member | corrected member |
|---|---|---|---|---|---|---|
| sip.js:1278 | for `transport=ws` on a `sips` URI without a port, the default port is 433 | `sips:example.com;transport=ws` | 443, the WebSocket-over-TLS port | high, not executed | Resolution.WsDefaultPortAsWritten, Resolution.WsDefaultPortMissesWss, Resolution.ResolveDirect, Resolution.SipsWsTargetsDiffer | Resolution.WsDefaultPort, Resolution.ResolveDirectIntended |
| sip.js:1293-1296 | `(a4 \|\| a6).length` tests the IPv4 answer alone whenever it is an array, so an empty IPv4 list drops the IPv6 answers | A answer `[]`, AAAA answer `["::1"]` | the IPv4 answers followed by the IPv6 ones | medium, not executed | Resolution.Merge46AsWritten, Resolution.Merge46DropsIpv6 | Resolution.Merge46 |
| sip.js:970 | for a URI already in the table, `makeClient` returns a connection object (after taking a reference), and `open` at sip.js:1071 calls that object as a function, which throws; the reference is never released | two outgoing WebSocket opens of the same `ws://host:port` | the second open shares the socket and takes one reference | high, not executed | WebSocketClients.OpenAsWritten, WebSocketClients.SecondOpenThrows | WebSocketClients.OpenClient, WebSocketClients.BalancedReleasesTerminate, WebSocketClients.WsTransport.Open |
