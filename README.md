# scfgo: API-gateway events to HTTP and back

Package `scfgo` lets an ordinary Go HTTP server run as a serverless
function behind an API gateway. `Handler.Handle` takes one gateway
invocation event (`APIGatewayRequest`) and turns it into an HTTP request
to `127.0.0.1:<port>`:

- the event's query map is flattened into `url.Values`;
- the event headers are forwarded;
- the request-context metadata goes in as `x-apigateway-*`,
  `x-forwarded-for` and `x-scf-requestid` headers.

It sends the request with its `http.Client`. It then turns the server's
response into the gateway's envelope (`APIGatewayResponse`):

- the status code is copied;
- the first value of each header is kept;
- the body is base64-encoded when the media type of the `Content-Type`
  header is registered as binary.

A failed send or a failed body read gives a bare 500 envelope and the
error.

The project has these files:

- `scfgo.dfy` (module `Scfgo`) holds the event and response records, the
  query flattening, the request synthesis, the envelope synthesis and the
  `Handler` class.
- `multimap.dfy` (module `Multimap`) models the `map[string][]string`
  that both `url.Values` and `http.Header` are, together with their
  `Add`.
- `base64.dfy` holds the standard base64 encoding of RFC 4648,
  section 4, with a strict decoder as its partner.
- `decimal.dfy` holds the `%d` text of the port, with a parser as its
  partner.
- `aswritten.dfy` (module `AsWritten`) holds the request side exactly as
  written, where it differs from the corrected behaviour. See
  "## Findings".

Map iteration in Go has no fixed order, so every loop over a map picks its
next key with `:|`. Each method is proved for every order. Where the order
shows in the result (several `Content-Type` headers), the contract says
which results are possible.

## Model

| member | source | states |
|---|---|---|
| Multimap.AddValues | scfgo.go:104 | `Add` appends the value to the list under its name; every other name keeps its list; the names grow by exactly that name |
| Multimap.AddAllValues | scfgo.go:131-144 | a run of `Add` calls leaves under each name its old values followed by that name's values from the run, in call order |
| Multimap.AddAllKeys | scfgo.go:131-144 | after a run of `Add` calls the names are the old ones plus the names that were added |
| Multimap.AddAllAppend | scfgo.go:131-144 | two runs of `Add` calls one after the other are one run of their concatenation |
| Multimap.ProjectNonEmpty | scfgo.go:131-144 | a name receives a value from a run of `Add` calls exactly when it is the name of one of them |
| Base64.CharOf | scfgo.go:167 | each 6-bit group is encoded by a character that is not `=` and that the decoder maps back to that group |
| Base64.Encode | scfgo.go:166-167 | the encoding is 4 characters per started group of 3 bytes, and every character of a full group is in the alphabet |
| Base64.DecodeEncode | scfgo.go:166-167 | decoding the base64 text of any byte string gives back exactly that byte string |
| Base64.EncodeGroup | scfgo.go:167 | a leading group of three bytes is encoded on its own, ahead of the encoding of the rest |
| Base64.VectorF | scfgo.go:167 | test vector of RFC 4648, section 10: `f` encodes as `Zg==` |
| Base64.VectorFo | scfgo.go:167 | test vector: `fo` encodes as `Zm8=` |
| Base64.VectorFoo | scfgo.go:167 | test vector: `foo` encodes as `Zm9v` |
| Base64.VectorFoob | scfgo.go:167 | test vector: `foob` encodes as `Zm9vYg==` |
| Base64.VectorFooba | scfgo.go:167 | test vector: `fooba` encodes as `Zm9vYmE=` |
| Base64.VectorFoobar | scfgo.go:167 | test vector: `foobar` encodes as `Zm9vYmFy` |
| Decimal.Digits | scfgo.go:123 | the digits of a natural number are non-empty decimal digits without a leading zero |
| Decimal.Format | scfgo.go:123 | the `%d` text is non-empty and starts with `-` exactly for a negative number |
| Decimal.ParseFormat | scfgo.go:123 | the `%d` text of the port reads back as the same integer |
| Scfgo.QueryValues | scfgo.go:98-116 | under every name the flattened query holds one value for a string entry, the elements in order for a list entry, and nothing otherwise |
| Scfgo.ToQueryString | scfgo.go:98-116 | the loop over the query map in any order produces exactly the flattened query |
| Scfgo.QueryEntry | scfgo.go:101-113 | a string entry contributes its value, a list entry its elements, and any other shape no name at all |
| Scfgo.QueryEmpty | scfgo.go:99-115 | the query is empty exactly when no entry contributes a value, so a nil or empty query map gives an empty query |
| Scfgo.Forwarded | scfgo.go:127-129 | forwarding the event headers gives each event header name exactly its one value and no other name |
| Scfgo.AddContextHeaders | scfgo.go:135-141 | the seven context headers are added in source order, with `x-forwarded-for` repeating the source IP |
| Scfgo.AddMetadata | scfgo.go:131-144 | after the event headers come the optional request id, the seven context headers and the optional secret id, in that order |
| Scfgo.ToHttpRequest | scfgo.go:118-147 | the request built by the loop and the `Add` calls, for any header order, is the request the event specifies |
| Scfgo.ProjectContextHeaders | scfgo.go:135-141 | the seven context header names are distinct, so each gets exactly its own context field |
| Scfgo.HeaderValues | scfgo.go:127-144 | under every name the request carries the event's value, if any, followed by that name's metadata values |
| Scfgo.ProjectMetadata | scfgo.go:131-144 | the metadata headers give a name the request id (for `x-scf-requestid`), its context field and the secret id (for `x-apigateway-secretid`), each only where it applies |
| Scfgo.HeaderSent | scfgo.go:127-144 | full value list of every outbound header name: event value, then request id, context field, secret id, each only where it applies |
| Scfgo.ContextHeaderSent | scfgo.go:135-141 | a context header is sent even when its field is empty, after the event's own value for that name |
| Scfgo.ContextHeadersAlwaysSent | scfgo.go:135-141 | each of the seven context headers carries its own context field, for every event |
| Scfgo.ConditionalHeaders | scfgo.go:131-144 | `x-apigateway-secretid` and `x-scf-requestid` get a value exactly when the secret id and the function context are present |
| Scfgo.EventHeadersForwarded | scfgo.go:127-129 | every event header arrives with its value first; a name is sent iff it is an event header or an applicable metadata header |
| Scfgo.RequestCopiesEvent | scfgo.go:119-145 | method, path, query and body come from the event, the scheme is `http`, and the host is `127.0.0.1:` followed by text that reads back as the port |
| Scfgo.MediaType | scfgo.go:158 | the media type is the prefix of the header value before its first `;` (all of it when there is none) |
| Scfgo.MediaTypeOfParameters | scfgo.go:158 | a value `t;params` with no `;` in `t` has media type `t`, and a value without `;` is its own media type |
| Scfgo.Handler.NewHandler | scfgo.go:66-72 | a new handler has the default client, the loopback host, the given port and no binary types |
| Scfgo.Handler.WithClient | scfgo.go:75-78 | replaces the client only and returns the same handler |
| Scfgo.Handler.WithBinaryMIMETypes | scfgo.go:81-84 | replaces the binary types only and returns the same handler |
| Scfgo.Handler.ToAPIGatewayResponse | scfgo.go:149-172 | for any header order: the 500 envelope and the error when the body read fails, otherwise the envelope of the response (status, first header values, binary flag from a content-type key, body encoded iff flagged) |
| Scfgo.Handler.Handle | scfgo.go:87-96 | the result is the 500 envelope and the error on a transport failure, else what the response shaping gives for the client's answer to the synthesised request |
| Scfgo.SingleContentType | scfgo.go:155-161 | with exactly one content-type header, the body is flagged binary iff its media type is registered |
| Scfgo.NoContentType | scfgo.go:154-161 | without a content-type header the lookup key is the empty string |
| Scfgo.EmptyRegistry | scfgo.go:161 | a handler with no binary types never base64-encodes, and passes the body through unchanged |
| Scfgo.BodyRoundTrip | scfgo.go:166-170 | a flagged envelope body base64-decodes to the response body; an unflagged one is the body itself |
| Scfgo.HeadersCopied | scfgo.go:155-156 | the envelope has exactly the response's header names, each with its first value |
| Scfgo.Failures | scfgo.go:89-95 | an error comes back iff the send or the body read failed, and then the envelope is status 500 with no headers, empty body and no binary flag; otherwise the status is the response's |
| Scfgo.ContentTypeName | scfgo.go:157 | a header name is a content-type name exactly when it has twelve characters that lower-case one by one to `content-type`, so any letter case matches and nothing else does |
| Scfgo.ContentTypeAnyCase | scfgo.go:157 | examples: `Content-Type`, `CONTENT-TYPE` and `content-type` match; `Content-Types` and `X-Content-Type` do not |
| Scfgo.SingleValuedContentType | scfgo.go:157-161 | with one content-type header `t;params`, the body is flagged binary iff `t` is registered |
| Scfgo.OctetStreamIsBinary | scfgo.go:157-170 | `Content-Type: application/octet-stream; charset=binary` with that type registered is flagged, and its body decodes back |
| Scfgo.MediaTypeIsCaseSensitive | scfgo.go:158-161 | the media type is looked up as sent: `IMAGE/PNG` does not match a registered `image/png` |
| AsWritten.AddStep | scfgo.go:99-108 | `Add` on a nil map panics, a panic is final, and an `Add` on a made map appends the value |
| AsWritten.ToQueryString | scfgo.go:98-116 | as written, flattening panics exactly when some entry contributes a value, and otherwise leaves the map nil |
| AsWritten.ToHttpRequest | scfgo.go:118-147 | as written, building the request panics for every event |
| AsWritten.UrlAsWritten | scfgo.go:121-126 | as written, the URL has an empty `Path` and the event path only as `RawPath` |
| AsWritten.Unescape | scfgo.go:124 | percent-decoding a non-empty path never gives the empty path, and a path without `%` decodes to itself |
| AsWritten.RequestTarget | scfgo.go:121-126 | the path on the request line is never empty; `RawPath` is used only when all its characters may stand unescaped and it decodes to `Path` |
| AsWritten.RequestLineIsRoot | scfgo.go:121-126 | as written, the request line carries `/` for every event path |
| AsWritten.UsersPathIsLost | scfgo.go:124 | the event path `/users/42` reaches the server as `/` |
| AsWritten.RequestLineIsEventPath | scfgo.go:121-126 | once `Path` is set as well, a non-empty event path made only of characters Go leaves unescaped in a path is the path on the request line |
| AsWritten.ShapeAsWritten | scfgo.go:101-113 | as written, a JSON string takes the string case and nothing ever takes the `[]string` case, because a decoded array is a `[]interface{}` |
| AsWritten.Shape | scfgo.go:101-113 | read as intended, a value is a list exactly when it is a JSON array of strings |
| AsWritten.ArrayParameterDropped | scfgo.go:105-108 | as written, a query parameter whose JSON value is an array never reaches the query |
| AsWritten.ArrayParameterKept | scfgo.go:105-108 | read as intended, an array of strings contributes its elements, in order |
| AsWritten.ListQueryExample | scfgo.go:105-108 | the query `{"b": ["x", "y"]}` is empty as written and gives `b` the values `x`, `y` as intended |

## Left out

- Sending the request: `client.Do` is modelled as the handler's `client` function from the outbound request to a response or a transport error. Connection handling and the deferred `resp.Body.Close()` are not modelled.
- Reading the body (`ioutil.ReadAll`) is a value that holds either the bytes or an error. When a read fails part-way, the bytes already read are dropped, and the model drops them too.
- Function context: `functioncontext.FromContext` is a call into another package. Its request id comes in as the `functionRequestId` option, and `Handle`'s `context.Context` is otherwise unused.
- Logging: the `fmt.Printf` lines for a failed send and for a query value of another shape print only and change nothing.
- Query encoding: `url.Values.Encode` sorts by name and percent-escapes, and neither is modelled. `Url.query` keeps the `url.Values` that `RawQuery` is the encoding of.
- Decoding the event from JSON is not modelled beyond the shape of a query value. `QueryValue.Other` stands for every shape other than a string or a `[]string`. How `encoding/json` shapes a value, and what that does to list values, is in "## Findings".
- Header names: `http.Header.Add` canonicalises names (`x-scf-requestid` becomes `X-Scf-Requestid`). The model keeps names as given, so two event headers differing only in case are two names here but one name in Go.
- Scfgo.ToLower: lowers ASCII letters only, not all of Unicode. The comparison with `content-type` comes out the same, because the only non-ASCII letters that lower to ASCII are U+0130 (to `i`) and U+212A (to `k`), and neither `i` nor `k` occurs in `content-type`.
- Response headers: a header with an empty value list would make `values[0]` panic. The `Multimap` type rules such lists out, since a header parsed from the wire has at least one value.
- The handler's `host` field is stored but never read: the request always goes to the `Host` constant. The model does the same.
- `binaryMIMETypes` is a `map[string]struct{}` that is only ever looked up, so it is modelled as a set; a nil map is the empty set.
- Aliasing: `WithBinaryMIMETypes` and `WithClient` store the caller's map and `*http.Client` by reference, so a later change the caller makes to that map or client changes what the handler does. The model stores a value, a snapshot taken at the call, and does not capture that sharing.
- Nil headers: both 500 envelopes (`&APIGatewayResponse{StatusCode: 500}`) carry a nil `Headers` map, which JSON-encodes as `null`, while a success carries a made map, which encodes as `{}`. The model has the empty map in both cases and does not tell the two apart.
- Integers (`port`, status codes) are unbounded: the 64-bit width of Go's `int` plays no part in the adapter.
- Concurrent use of one `Handler` from several goroutines is not modelled.
- Scfgo.Handler.ToAPIGatewayResponse: with several content-type headers, the contract says the key is the media type of one of them; which one depends on Go's map order.
- AsWritten.RequestTarget: returns `None` where Go would percent-escape a `Path` with characters a path does not keep as they are (`/a b` becomes `/a%20b`), because the escaping itself is not modelled. `RequestLineIsEventPath` is stated only for paths without such characters for the same reason.
- AsWritten.Unescape: decodes `%XX` to the character with that code rather than to a byte. This keeps lengths and emptiness, which is all its contract uses.

## Findings

| source | as written | input that shows it | evidently intended | confidence | as-written member | corrected member |
|---|---|---|---|---|---|---|
| scfgo.go:99-108 | `values` is declared as a nil `url.Values`, and `Add` on a nil map panics | a query `{"a": "1"}` | start from an empty `url.Values{}` so that every entry is added | high, not executed | AsWritten.ToQueryString | Scfgo.ToQueryString |
| scfgo.go:119-141 | the zero `http.Request` has a nil `Header`; the first `Header.Add` panics, and the seven context headers are added for every event | any event, e.g. no headers and an empty context | give the request a made header map (`make(http.Header)`) before adding | high, not executed | AsWritten.ToHttpRequest | Scfgo.ToHttpRequest |
| scfgo.go:101-108 | an event decoded by `encoding/json` holds every JSON array as a `[]interface{}`, so the `case []string` never matches and a list-valued parameter takes the default case and is dropped | a query `{"b": ["x", "y"]}` | accept `[]interface{}` and add each string element | medium, not executed | AsWritten.ArrayParameterDropped | AsWritten.ArrayParameterKept |
| scfgo.go:121-126 | only `RawPath` is set; with an empty `Path`, `EscapedPath` ignores `RawPath` and the request line carries `/` | the event path `/users/42` | set `Path` to the event path as well, so every route is reachable | medium, not executed | AsWritten.RequestLineIsRoot | AsWritten.RequestLineIsEventPath |
