/**
 * The gateway adapter of package `scfgo`: an API-gateway invocation
 * event becomes an HTTP request to a server on the loopback address, and
 * that server's response becomes the gateway's response envelope.
 *
 * Go strings used as bodies are byte sequences (`seq<Byte>`); header
 * names and values are Dafny strings.  Go's map iteration order is
 * unspecified, so each loop over a map picks its next key with `:|`.
 */
module Scfgo {
  import opened Wrappers
  import opened Multimap
  import Base64
  import Decimal

  type Byte = Base64.Byte

  /** A Go `error`, kept as its message. */
  type Error = string

  /** The host every outbound request is sent to. */
  const Host: string := "127.0.0.1"

  // ---------------------------------------------------------------------
  // Records
  // ---------------------------------------------------------------------

  /** `Identity` of the request context; `secretId` is Go's `*string`. */
  datatype Identity = Identity(secretId: Option<string>)

  /** `APIGatewayRequestContext`. */
  datatype RequestContext = RequestContext(
    serviceId: string,
    requestId: string,
    httpMethod: string,
    path: string,
    sourceIp: string,
    stage: string,
    identity: Identity)

  /** A query value as decoded from JSON into `interface{}`: a string, a
      list of strings, or any other shape. */
  datatype QueryValue = Single(value: string) | Multi(values: seq<string>) | Other

  /** `APIGatewayRequest`.  An absent (nil) map is the empty map. */
  datatype GatewayRequest = GatewayRequest(
    headers: map<string, string>,
    httpMethod: string,
    path: string,
    queryString: map<string, QueryValue>,
    body: seq<Byte>,
    context: RequestContext)

  /** `APIGatewayResponse`, the envelope handed back to the gateway. */
  datatype GatewayResponse = GatewayResponse(
    isBase64Encoded: bool,
    statusCode: int,
    headers: map<string, string>,
    body: seq<Byte>)

  /** The parts of `url.URL` the adapter sets.  `query` is the `url.Values`
      whose `Encode()` becomes `RawQuery`. */
  datatype Url = Url(scheme: string, host: string, path: string, rawPath: string, query: Multimap)

  /** The outbound `http.Request`. */
  datatype HttpRequest = HttpRequest(httpMethod: string, url: Url, header: Multimap, body: seq<Byte>)

  /** What reading the whole response body (`ioutil.ReadAll`) gives. */
  datatype Body = Body(bytes: seq<Byte>) | BodyError(error: Error)

  /** The `http.Response` returned by the local server. */
  datatype HttpResponse = HttpResponse(statusCode: int, header: Multimap, body: Body)

  /** What `client.Do` gives: a response or a transport error. */
  datatype Outcome = Response(response: HttpResponse) | TransportError(error: Error)

  /** `&APIGatewayResponse{StatusCode: 500}`: the envelope returned with an error. */
  const ServerError: GatewayResponse := GatewayResponse(false, 500, map[], [])

  // ---------------------------------------------------------------------
  // Query flattening (toQueryString)
  // ---------------------------------------------------------------------

  /** The values one query entry contributes, in order: one for a string,
      one per element for a list, none for any other shape. */
  function Occurrences(v: QueryValue): seq<string>
  {
    match v
    case Single(s) => [s]
    case Multi(vs) => vs
    case Other => []
  }

  /** The `url.Values` that flattening a query map yields. */
  function QueryValues(m: map<string, QueryValue>): (r: Multimap)
    ensures forall n :: Values(r, n) == if n in m then Occurrences(m[n]) else []
  {
    map n | n in m && Occurrences(m[n]) != [] :: Occurrences(m[n])
  }

  /** `toQueryString` up to the final `Encode()`: every entry of the query
      map is visited once, in no particular order, and `Add`-ed. */
  method ToQueryString(m: map<string, QueryValue>) returns (values: Multimap)
    ensures values == QueryValues(m)
  {
    values := map[];
    var remaining := m.Keys;
    while remaining != {}
      invariant remaining <= m.Keys
      invariant forall n :: Values(values, n) == if n in m && n !in remaining then Occurrences(m[n]) else []
      decreases remaining
    {
      var name :| name in remaining;
      match m[name] {
        case Single(s) =>
          AddValues(values, name, s);
          values := Add(values, name, s);
        case Multi(vs) =>
          var i := 0;
          while i < |vs|
            invariant 0 <= i <= |vs|
            invariant Values(values, name) == vs[..i]
            invariant forall n :: n != name ==> Values(values, n) == if n in m && n !in remaining then Occurrences(m[n]) else []
          {
            AddValues(values, name, vs[i]);
            values := Add(values, name, vs[i]);
            assert vs[..i + 1] == vs[..i] + [vs[i]];
            i := i + 1;
          }
          assert vs[..i] == vs;
        case Other =>
      }
      remaining := remaining - {name};
    }
    Extensionality(values, QueryValues(m));
  }

  /** A string entry contributes exactly its value, a list entry its
      elements in order, any other shape nothing; no other name is
      affected. */
  lemma QueryEntry(m: map<string, QueryValue>, name: string)
    ensures name in m && m[name].Single? ==> Values(QueryValues(m), name) == [m[name].value]
    ensures name in m && m[name].Multi? ==> Values(QueryValues(m), name) == m[name].values
    ensures name !in m || m[name].Other? ==> name !in QueryValues(m)
  {
  }

  /** The query is empty exactly when no entry contributes a value; in
      particular an absent or empty query map yields an empty query. */
  lemma QueryEmpty(m: map<string, QueryValue>)
    ensures QueryValues(m) == map[] <==> forall n :: n in m ==> Occurrences(m[n]) == []
    ensures m == map[] ==> QueryValues(m) == map[]
  {
    if QueryValues(m) == map[] {
      forall n | n in m ensures Occurrences(m[n]) == [] {
        assert Values(QueryValues(m), n) == [];
      }
    }
  }

  // ---------------------------------------------------------------------
  // Request synthesis (APIGatewayRequest.toHTTPRequest)
  // ---------------------------------------------------------------------

  const ScfRequestIdHeader: string := "x-scf-requestid"
  const ServiceIdHeader: string := "x-apigateway-serviceid"
  const RequestIdHeader: string := "x-apigateway-requestid"
  const MethodHeader: string := "x-apigateway-method"
  const PathHeader: string := "x-apigateway-path"
  const SourceIpHeader: string := "x-apigateway-sourceip"
  const ForwardedForHeader: string := "x-forwarded-for"
  const StageHeader: string := "x-apigateway-stage"
  const SecretIdHeader: string := "x-apigateway-secretid"

  /** The value an event header contributes under `name`, if any. */
  function EventHeader(h: map<string, string>, name: string): seq<string>
  {
    if name in h then [h[name]] else []
  }

  /** The event headers as an `http.Header`: one value per name. */
  function Forwarded(h: map<string, string>): (r: Multimap)
    ensures forall n :: Values(r, n) == EventHeader(h, n)
  {
    map n | n in h :: [h[n]]
  }

  /** The context headers that always follow the forwarded ones, in the
      order they are added. */
  function ContextHeaders(ctx: RequestContext): seq<Pair>
  {
    [ (ServiceIdHeader, ctx.serviceId),
      (RequestIdHeader, ctx.requestId),
      (MethodHeader, ctx.httpMethod),
      (PathHeader, ctx.path),
      (SourceIpHeader, ctx.sourceIp),
      (ForwardedForHeader, ctx.sourceIp),
      (StageHeader, ctx.stage) ]
  }

  /** Adding the context headers is seven `Add` calls in a row. */
  lemma AddContextHeaders(h: Multimap, ctx: RequestContext)
    ensures AddAll(h, ContextHeaders(ctx))
      == Add(Add(Add(Add(Add(Add(Add(h,
           ServiceIdHeader, ctx.serviceId),
           RequestIdHeader, ctx.requestId),
           MethodHeader, ctx.httpMethod),
           PathHeader, ctx.path),
           SourceIpHeader, ctx.sourceIp),
           ForwardedForHeader, ctx.sourceIp),
           StageHeader, ctx.stage)
  {
    var ps := ContextHeaders(ctx);
    assert ps[..0] == [];
    AddAllSnoc(h, ps[..0], ps[0]);
    assert ps[..0] + [ps[0]] == ps[..1];
    AddAllSnoc(h, ps[..1], ps[1]);
    assert ps[..1] + [ps[1]] == ps[..2];
    AddAllSnoc(h, ps[..2], ps[2]);
    assert ps[..2] + [ps[2]] == ps[..3];
    AddAllSnoc(h, ps[..3], ps[3]);
    assert ps[..3] + [ps[3]] == ps[..4];
    AddAllSnoc(h, ps[..4], ps[4]);
    assert ps[..4] + [ps[4]] == ps[..5];
    AddAllSnoc(h, ps[..5], ps[5]);
    assert ps[..5] + [ps[5]] == ps[..6];
    AddAllSnoc(h, ps[..6], ps[6]);
    assert ps[..6] + [ps[6]] == ps;
  }

  /** Every header added after the forwarded ones, in order: the function
      request id when a function context is present, the seven context
      headers, and the secret id when the caller has one. */
  function Metadata(ctx: RequestContext, functionRequestId: Option<string>): seq<Pair>
  {
    (if functionRequestId.Some? then [(ScfRequestIdHeader, functionRequestId.value)] else [])
    + ContextHeaders(ctx)
    + (if ctx.identity.secretId.Some? then [(SecretIdHeader, ctx.identity.secretId.value)] else [])
  }

  /** Adding the metadata is the sequence of `Add` calls of `toHTTPRequest`. */
  lemma AddMetadata(h: Multimap, ctx: RequestContext, functionRequestId: Option<string>)
    ensures var h1 := if functionRequestId.Some? then Add(h, ScfRequestIdHeader, functionRequestId.value) else h;
            var h2 := AddAll(h1, ContextHeaders(ctx));
            AddAll(h, Metadata(ctx, functionRequestId))
              == if ctx.identity.secretId.Some? then Add(h2, SecretIdHeader, ctx.identity.secretId.value) else h2
  {
    var first := if functionRequestId.Some? then [(ScfRequestIdHeader, functionRequestId.value)] else [];
    var last := if ctx.identity.secretId.Some? then [(SecretIdHeader, ctx.identity.secretId.value)] else [];
    AddAllAppend(h, first + ContextHeaders(ctx), last);
    AddAllAppend(h, first, ContextHeaders(ctx));
    if functionRequestId.Some? {
      AddAllSnoc(h, [], first[0]);
      assert [] + [first[0]] == first;
    }
    if ctx.identity.secretId.Some? {
      AddAllSnoc(AddAll(h, first + ContextHeaders(ctx)), [], last[0]);
      assert [] + [last[0]] == last;
    }
  }

  /** The request that `toHTTPRequest` builds for an event, a port and the
      request id of the function context (if any). */
  function RequestFor(r: GatewayRequest, port: int, functionRequestId: Option<string>): HttpRequest
  {
    HttpRequest(
      r.httpMethod,
      Url("http", Host + ":" + Decimal.Format(port), r.path, r.path, QueryValues(r.queryString)),
      AddAll(Forwarded(r.headers), Metadata(r.context, functionRequestId)),
      r.body)
  }

  /** `toHTTPRequest`: the event headers are forwarded in map order, then
      the metadata headers are added one `Add` at a time. */
  method ToHttpRequest(r: GatewayRequest, port: int, functionRequestId: Option<string>) returns (req: HttpRequest)
    ensures req == RequestFor(r, port, functionRequestId)
  {
    var query := ToQueryString(r.queryString);
    var url := Url("http", Host + ":" + Decimal.Format(port), r.path, r.path, query);
    var header: Multimap := map[];
    var remaining := r.headers.Keys;
    while remaining != {}
      invariant remaining <= r.headers.Keys
      invariant forall n :: Values(header, n) == if n !in remaining then EventHeader(r.headers, n) else []
      decreases remaining
    {
      var name :| name in remaining;
      AddValues(header, name, r.headers[name]);
      header := Add(header, name, r.headers[name]);
      remaining := remaining - {name};
    }
    ghost var forwarded := header;
    Extensionality(forwarded, Forwarded(r.headers));
    var ctx := r.context;
    if functionRequestId.Some? {
      header := Add(header, ScfRequestIdHeader, functionRequestId.value);
    }
    ghost var withRequestId := header;
    header := Add(header, ServiceIdHeader, ctx.serviceId);
    header := Add(header, RequestIdHeader, ctx.requestId);
    header := Add(header, MethodHeader, ctx.httpMethod);
    header := Add(header, PathHeader, ctx.path);
    header := Add(header, SourceIpHeader, ctx.sourceIp);
    header := Add(header, ForwardedForHeader, ctx.sourceIp);
    header := Add(header, StageHeader, ctx.stage);
    if ctx.identity.secretId.Some? {
      header := Add(header, SecretIdHeader, ctx.identity.secretId.value);
    }
    AddContextHeaders(withRequestId, ctx);
    AddMetadata(forwarded, ctx, functionRequestId);
    req := HttpRequest(r.httpMethod, url, header, r.body);
  }

  /** The value of the context header called `name`, if it is one. */
  function ContextValue(ctx: RequestContext, name: string): Option<string>
  {
    if name == ServiceIdHeader then Some(ctx.serviceId)
    else if name == RequestIdHeader then Some(ctx.requestId)
    else if name == MethodHeader then Some(ctx.httpMethod)
    else if name == PathHeader then Some(ctx.path)
    else if name == SourceIpHeader then Some(ctx.sourceIp)
    else if name == ForwardedForHeader then Some(ctx.sourceIp)
    else if name == StageHeader then Some(ctx.stage)
    else None
  }

  /** The seven context headers have distinct names, so each name gets
      exactly its own context value from them and any other name nothing. */
  lemma ProjectContextHeaders(ctx: RequestContext, name: string)
    ensures Project(ContextHeaders(ctx), name)
      == if ContextValue(ctx, name).Some? then [ContextValue(ctx, name).value] else []
  {
    var ps := ContextHeaders(ctx);
    if name == ServiceIdHeader {
      ProjectUnique(ps, 0, name);
    } else if name == RequestIdHeader {
      ProjectUnique(ps, 1, name);
    } else if name == MethodHeader {
      ProjectUnique(ps, 2, name);
    } else if name == PathHeader {
      ProjectUnique(ps, 3, name);
    } else if name == SourceIpHeader {
      ProjectUnique(ps, 4, name);
    } else if name == ForwardedForHeader {
      ProjectUnique(ps, 5, name);
    } else if name == StageHeader {
      ProjectUnique(ps, 6, name);
    } else {
      ProjectAbsent(ps, name);
    }
  }

  /** Under every name, the outbound request carries the event's own
      value (if any) followed by the values of the metadata headers. */
  lemma {:induction false} HeaderValues(r: GatewayRequest, port: int, functionRequestId: Option<string>, name: string)
    ensures Values(RequestFor(r, port, functionRequestId).header, name)
      == EventHeader(r.headers, name) + Project(Metadata(r.context, functionRequestId), name)
  {
    AddAllValues(Forwarded(r.headers), Metadata(r.context, functionRequestId), name);
  }

  /** The values the metadata headers give to `name`, in order: the
      function request id, the context field and the secret id that
      belong to that name, each only if there is one. */
  function MetadataValues(ctx: RequestContext, functionRequestId: Option<string>, name: string): seq<string>
  {
    (if functionRequestId.Some? && name == ScfRequestIdHeader then [functionRequestId.value] else [])
    + (if ContextValue(ctx, name).Some? then [ContextValue(ctx, name).value] else [])
    + (if ctx.identity.secretId.Some? && name == SecretIdHeader then [ctx.identity.secretId.value] else [])
  }

  /** Adding the metadata headers gives each name its metadata values. */
  lemma ProjectMetadata(ctx: RequestContext, functionRequestId: Option<string>, name: string)
    ensures Project(Metadata(ctx, functionRequestId), name) == MetadataValues(ctx, functionRequestId, name)
  {
    var first := if functionRequestId.Some? then [(ScfRequestIdHeader, functionRequestId.value)] else [];
    var last := if ctx.identity.secretId.Some? then [(SecretIdHeader, ctx.identity.secretId.value)] else [];
    ProjectThree(first, ContextHeaders(ctx), last, name);
    assert Project(first, name)
      == if functionRequestId.Some? && name == ScfRequestIdHeader then [functionRequestId.value] else [] by {
      if functionRequestId.Some? { ProjectSingle(first[0], name); }
    }
    assert Project(last, name)
      == if ctx.identity.secretId.Some? && name == SecretIdHeader then [ctx.identity.secretId.value] else [] by {
      if ctx.identity.secretId.Some? { ProjectSingle(last[0], name); }
    }
    ProjectContextHeaders(ctx, name);
  }

  /** Under every name, the outbound request carries the event's own
      value (if any), then the function request id, the context value and
      the secret id that belong to that name, each only if there is one. */
  lemma HeaderSent(r: GatewayRequest, port: int, functionRequestId: Option<string>, name: string)
    ensures Values(RequestFor(r, port, functionRequestId).header, name)
      == EventHeader(r.headers, name) + MetadataValues(r.context, functionRequestId, name)
  {
    HeaderValues(r, port, functionRequestId, name);
    ProjectMetadata(r.context, functionRequestId, name);
  }

  /** A context header is sent whatever its value, even an empty one:
      its context value follows the event's own value for that name, if
      the event had one. */
  lemma ContextHeaderSent(r: GatewayRequest, port: int, functionRequestId: Option<string>, name: string)
    requires ContextValue(r.context, name).Some?
    ensures Values(RequestFor(r, port, functionRequestId).header, name)
      == EventHeader(r.headers, name) + [ContextValue(r.context, name).value]
  {
    HeaderSent(r, port, functionRequestId, name);
  }

  /** The seven context headers by name: each is always sent and carries
      its own context field; `x-forwarded-for` repeats the source IP. */
  lemma ContextHeadersAlwaysSent(r: GatewayRequest, port: int, functionRequestId: Option<string>)
    ensures var h := RequestFor(r, port, functionRequestId).header;
      && Values(h, ServiceIdHeader) == EventHeader(r.headers, ServiceIdHeader) + [r.context.serviceId]
      && Values(h, RequestIdHeader) == EventHeader(r.headers, RequestIdHeader) + [r.context.requestId]
      && Values(h, MethodHeader) == EventHeader(r.headers, MethodHeader) + [r.context.httpMethod]
      && Values(h, PathHeader) == EventHeader(r.headers, PathHeader) + [r.context.path]
      && Values(h, SourceIpHeader) == EventHeader(r.headers, SourceIpHeader) + [r.context.sourceIp]
      && Values(h, ForwardedForHeader) == EventHeader(r.headers, ForwardedForHeader) + [r.context.sourceIp]
      && Values(h, StageHeader) == EventHeader(r.headers, StageHeader) + [r.context.stage]
  {
    ContextHeaderSent(r, port, functionRequestId, ServiceIdHeader);
    ContextHeaderSent(r, port, functionRequestId, RequestIdHeader);
    ContextHeaderSent(r, port, functionRequestId, MethodHeader);
    ContextHeaderSent(r, port, functionRequestId, PathHeader);
    ContextHeaderSent(r, port, functionRequestId, SourceIpHeader);
    ContextHeaderSent(r, port, functionRequestId, ForwardedForHeader);
    ContextHeaderSent(r, port, functionRequestId, StageHeader);
  }

  /** `x-apigateway-secretid` gets the secret id exactly when the caller
      has one; `x-scf-requestid` gets the function request id exactly when
      a function context is present. */
  lemma ConditionalHeaders(r: GatewayRequest, port: int, functionRequestId: Option<string>)
    ensures var h := RequestFor(r, port, functionRequestId).header;
      && Values(h, SecretIdHeader) == EventHeader(r.headers, SecretIdHeader)
           + (if r.context.identity.secretId.Some? then [r.context.identity.secretId.value] else [])
      && Values(h, ScfRequestIdHeader) == EventHeader(r.headers, ScfRequestIdHeader)
           + (if functionRequestId.Some? then [functionRequestId.value] else [])
      && (SecretIdHeader !in r.headers ==> (SecretIdHeader in h <==> r.context.identity.secretId.Some?))
      && (ScfRequestIdHeader !in r.headers ==> (ScfRequestIdHeader in h <==> functionRequestId.Some?))
  {
    HeaderSent(r, port, functionRequestId, SecretIdHeader);
    HeaderSent(r, port, functionRequestId, ScfRequestIdHeader);
  }

  /** Every event header is forwarded: its value comes first under its
      name.  A name that is neither an event header nor a metadata header
      is not sent. */
  lemma EventHeadersForwarded(r: GatewayRequest, port: int, functionRequestId: Option<string>, name: string)
    ensures var h := RequestFor(r, port, functionRequestId).header;
      && (name in r.headers ==> name in h && h[name][0] == r.headers[name])
      && (name in h <==> name in r.headers || (name == ScfRequestIdHeader && functionRequestId.Some?)
                          || ContextValue(r.context, name).Some?
                          || (name == SecretIdHeader && r.context.identity.secretId.Some?))
  {
    HeaderSent(r, port, functionRequestId, name);
  }

  /** Method, path and body are copied from the event; the target is
      `http://127.0.0.1:<port>`, whose port text reads back as the
      configured port; the query is the flattened query map. */
  lemma RequestCopiesEvent(r: GatewayRequest, port: int, functionRequestId: Option<string>)
    ensures var req := RequestFor(r, port, functionRequestId);
      && req.httpMethod == r.httpMethod
      && req.body == r.body
      && req.url.scheme == "http"
      && req.url.path == r.path
      && req.url.query == QueryValues(r.queryString)
      && req.url.host[..|Host| + 1] == "127.0.0.1:"
      && Decimal.Parse(req.url.host[|Host| + 1..]) == Some(port)
  {
    var host := RequestFor(r, port, functionRequestId).url.host;
    assert host[|Host| + 1..] == Decimal.Format(port);
    Decimal.ParseFormat(port);
  }

  // ---------------------------------------------------------------------
  // Envelope synthesis (Handler.toAPIGatewayResponse)
  // ---------------------------------------------------------------------

  /** `unicode.ToLower` on the ASCII letters. */
  function LowerAscii(c: char): char
  {
    if 'A' <= c <= 'Z' then (c as int - 'A' as int + 'a' as int) as char else c
  }

  /** `strings.ToLower`, on ASCII letters. */
  function ToLower(s: string): string
  {
    seq(|s|, i requires 0 <= i < |s| => LowerAscii(s[i]))
  }

  /** True for a header name that lower-cases to `content-type`. */
  predicate IsContentType(name: string)
  {
    ToLower(name) == "content-type"
  }

  /** `strings.Split(v, ";")[0]`: the text of `v` before its first `;`,
      all of `v` when it has none. */
  function MediaType(v: string): (t: string)
    ensures t <= v
    ensures ';' !in t
    ensures |t| < |v| ==> v[|t|] == ';'
    decreases |v|
  {
    if v == [] || v[0] == ';' then [] else [v[0]] + MediaType(v[1..])
  }

  /** `key` is a value the content-type lookup may end with after visiting
      `names`: the media type of the first value of one of the visited
      content-type headers (the one visited last), or `""` when none was
      visited. */
  ghost predicate ContentTypeKey(h: Multimap, names: set<string>, key: string)
  {
    if exists n :: n in names && n in h && IsContentType(n) then
      exists n :: n in names && n in h && IsContentType(n) && key == MediaType(h[n][0])
    else key == ""
  }

  /** `resp` is the envelope for a response with status `r.statusCode` and
      headers `r.header` whose body reads as `payload`. */
  ghost predicate IsEnvelope(types: set<string>, r: HttpResponse, payload: seq<Byte>, resp: GatewayResponse)
  {
    && resp.statusCode == r.statusCode
    && resp.headers.Keys == r.header.Keys
    && (forall n :: n in r.header ==> resp.headers[n] == r.header[n][0])
    && (exists key :: ContentTypeKey(r.header, r.header.Keys, key) && resp.isBase64Encoded == (key in types))
    && resp.body == if resp.isBase64Encoded then Base64.Encode(payload) else payload
  }

  /** What `Handle` returns for a transport outcome: the 500 envelope with
      the error when the transport or the body read failed, otherwise the
      envelope of the response and no error. */
  ghost predicate IsResult(types: set<string>, outcome: Outcome, resp: GatewayResponse, err: Option<Error>)
  {
    match outcome
    case TransportError(e) => resp == ServerError && err == Some(e)
    case Response(r) =>
      match r.body
      case BodyError(e) => resp == ServerError && err == Some(e)
      case Body(payload) => err == None && IsEnvelope(types, r, payload, resp)
  }

  // ---------------------------------------------------------------------
  // The handler
  // ---------------------------------------------------------------------

  /** `Handler`: the transport client, the target host and port, and the
      set of MIME types whose bodies are sent base64-encoded.  The client
      is the function from an outbound request to what `client.Do` gives. */
  class Handler {
    var client: HttpRequest -> Outcome
    var host: string
    var port: int
    var binaryMIMETypes: set<string>

    /** `NewHandler`: the default client, the loopback host, the given
        port and no binary MIME types (a nil map). */
    constructor NewHandler(port: int, defaultClient: HttpRequest -> Outcome)
      ensures client == defaultClient && host == Host && this.port == port
      ensures binaryMIMETypes == {}
    {
      client := defaultClient;
      host := Host;
      this.port := port;
      binaryMIMETypes := {};
    }

    /** `WithClient`: replaces the client and returns the same handler. */
    method WithClient(c: HttpRequest -> Outcome) returns (h: Handler)
      modifies this
      ensures h == this && client == c
      ensures host == old(host) && port == old(port) && binaryMIMETypes == old(binaryMIMETypes)
    {
      client := c;
      h := this;
    }

    /** `WithBinaryMIMETypes`: replaces the binary MIME types and returns
        the same handler. */
    method WithBinaryMIMETypes(types: set<string>) returns (h: Handler)
      modifies this
      ensures h == this && binaryMIMETypes == types
      ensures client == old(client) && host == old(host) && port == old(port)
    {
      binaryMIMETypes := types;
      h := this;
    }

    /** `toAPIGatewayResponse`: first values of the headers in map order,
        the content type found on the way, then the body read. */
    method ToAPIGatewayResponse(r: HttpResponse) returns (resp: GatewayResponse, err: Option<Error>)
      ensures IsResult(binaryMIMETypes, Response(r), resp, err)
    {
      var headers: map<string, string> := map[];
      var contentType := "";
      var remaining := r.header.Keys;
      while remaining != {}
        invariant remaining <= r.header.Keys
        invariant headers.Keys == r.header.Keys - remaining
        invariant forall n :: n in headers ==> headers[n] == r.header[n][0]
        invariant ContentTypeKey(r.header, r.header.Keys - remaining, contentType)
        decreases remaining
      {
        var name :| name in remaining;
        var values := r.header[name];
        headers := headers[name := values[0]];
        if ToLower(name) == "content-type" {
          contentType := MediaType(values[0]);
        }
        remaining := remaining - {name};
      }
      var isBase64 := contentType in binaryMIMETypes;
      match r.body {
        case BodyError(e) =>
          resp, err := ServerError, Some(e);
        case Body(payload) =>
          var body := if isBase64 then Base64.Encode(payload) else payload;
          resp, err := GatewayResponse(isBase64, r.statusCode, headers, body), None;
      }
    }

    /** `Handle`: build the request, send it with the client, shape the
        result. */
    method Handle(functionRequestId: Option<string>, r: GatewayRequest) returns (resp: GatewayResponse, err: Option<Error>)
      ensures IsResult(binaryMIMETypes, client(RequestFor(r, port, functionRequestId)), resp, err)
    {
      var req := ToHttpRequest(r, port, functionRequestId);
      var outcome := client(req);
      match outcome {
        case TransportError(e) =>
          resp, err := ServerError, Some(e);
        case Response(hr) =>
          resp, err := ToAPIGatewayResponse(hr);
      }
    }
  }

  // ---------------------------------------------------------------------
  // Properties of the envelope
  // ---------------------------------------------------------------------

  /** With exactly one content-type header, the body is base64-encoded
      exactly when the media type of its first value is registered. */
  lemma SingleContentType(types: set<string>, r: HttpResponse, payload: seq<Byte>, resp: GatewayResponse, n: string)
    requires IsEnvelope(types, r, payload, resp)
    requires n in r.header && IsContentType(n)
    requires forall m :: m in r.header && IsContentType(m) ==> m == n
    ensures resp.isBase64Encoded <==> MediaType(r.header[n][0]) in types
  {
  }

  /** Without a content-type header the lookup key is the empty string. */
  lemma NoContentType(types: set<string>, r: HttpResponse, payload: seq<Byte>, resp: GatewayResponse)
    requires IsEnvelope(types, r, payload, resp)
    requires forall m :: m in r.header ==> !IsContentType(m)
    ensures resp.isBase64Encoded <==> "" in types
  {
  }

  /** A handler with no binary MIME types passes every body through. */
  lemma EmptyRegistry(r: HttpResponse, payload: seq<Byte>, resp: GatewayResponse)
    requires IsEnvelope({}, r, payload, resp)
    ensures !resp.isBase64Encoded && resp.body == payload
  {
  }

  /** The envelope body gives back the response body: by base64 decoding
      when it is flagged, as it is otherwise. */
  lemma BodyRoundTrip(types: set<string>, r: HttpResponse, payload: seq<Byte>, resp: GatewayResponse)
    requires IsEnvelope(types, r, payload, resp)
    ensures resp.isBase64Encoded ==> Base64.Decode(resp.body) == Some(payload)
    ensures !resp.isBase64Encoded ==> resp.body == payload
  {
    if resp.isBase64Encoded {
      Base64.DecodeEncode(payload);
    }
  }

  /** Every header of the response reaches the envelope with its first value. */
  lemma HeadersCopied(types: set<string>, r: HttpResponse, payload: seq<Byte>, resp: GatewayResponse, n: string)
    requires IsEnvelope(types, r, payload, resp)
    ensures n in resp.headers <==> n in r.header
    ensures n in r.header ==> resp.headers[n] == Values(r.header, n)[0]
  {
  }

  /** A failed transport call or body read gives the bare 500 envelope and
      the error; anything else gives no error and the response's status. */
  lemma Failures(types: set<string>, outcome: Outcome, resp: GatewayResponse, err: Option<Error>)
    requires IsResult(types, outcome, resp, err)
    ensures err.Some? <==> outcome.TransportError? || outcome.response.body.BodyError?
    ensures outcome.TransportError? ==> err == Some(outcome.error)
    ensures err.Some? ==> resp.statusCode == 500 && resp.headers == map[] && resp.body == [] && !resp.isBase64Encoded
    ensures err.None? ==> resp.statusCode == outcome.response.statusCode
  {
  }

  /** A header name is a content-type name exactly when it has twelve
      characters that lower-case, one by one, to `content-type`. */
  lemma ContentTypeName(n: string)
    ensures IsContentType(n) <==> |n| == 12 && forall i :: 0 <= i < 12 ==> LowerAscii(n[i]) == "content-type"[i]
  {
  }

  /** Examples: the header name is matched in any case, and longer or
      prefixed names are not. */
  lemma ContentTypeAnyCase()
    ensures IsContentType("Content-Type") && IsContentType("CONTENT-TYPE") && IsContentType("content-type")
    ensures !IsContentType("Content-Types") && !IsContentType("X-Content-Type")
  {
  }

  /** Parameters after `;` are dropped from the lookup key, and a value
      without `;` is its own media type. */
  lemma {:induction false} MediaTypeOfParameters(t: string, rest: string)
    requires ';' !in t
    ensures MediaType(t + ";" + rest) == t
    ensures MediaType(t) == t
    decreases |t|
  {
    if t != [] {
      assert (t + ";" + rest)[1..] == t[1..] + ";" + rest;
      MediaTypeOfParameters(t[1..], rest);
    }
  }

  /** A response with a single content-type header whose value is `t`
      followed by parameters is flagged binary exactly when `t` is
      registered. */
  lemma SingleValuedContentType(types: set<string>, status: int, name: string, t: string, rest: string,
                                payload: seq<Byte>, resp: GatewayResponse)
    requires IsContentType(name) && ';' !in t
    requires IsEnvelope(types, HttpResponse(status, map[name := [t + ";" + rest]], Body(payload)), payload, resp)
    ensures resp.isBase64Encoded <==> t in types
  {
    MediaTypeOfParameters(t, rest);
    SingleContentType(types, HttpResponse(status, map[name := [t + ";" + rest]], Body(payload)), payload, resp, name);
  }

  /** An `application/octet-stream` body with parameters is sent base64
      when that type is registered. */
  lemma OctetStreamIsBinary(payload: seq<Byte>, resp: GatewayResponse)
    requires IsEnvelope({"application/octet-stream"},
      HttpResponse(200, map["Content-Type" := ["application/octet-stream" + ";" + " charset=binary"]], Body(payload)),
      payload, resp)
    ensures resp.isBase64Encoded && Base64.Decode(resp.body) == Some(payload)
  {
    ContentTypeAnyCase();
    SingleValuedContentType({"application/octet-stream"}, 200, "Content-Type", "application/octet-stream", " charset=binary", payload, resp);
    BodyRoundTrip({"application/octet-stream"},
      HttpResponse(200, map["Content-Type" := ["application/octet-stream" + ";" + " charset=binary"]], Body(payload)),
      payload, resp);
  }

  /** The media type itself is compared as sent, without lower-casing. */
  lemma MediaTypeIsCaseSensitive(payload: seq<Byte>, resp: GatewayResponse)
    requires IsEnvelope({"image/png"}, HttpResponse(200, map["content-type" := ["IMAGE/PNG" + ";" + ""]], Body(payload)), payload, resp)
    ensures !resp.isBase64Encoded && resp.body == payload
  {
    ContentTypeAnyCase();
    SingleValuedContentType({"image/png"}, 200, "content-type", "IMAGE/PNG", "", payload, resp);
  }
}
