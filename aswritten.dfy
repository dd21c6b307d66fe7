/**
 * The request side of `scfgo` exactly as written, where it differs from
 * the behaviour the rest of the model gives it.
 *
 * Three things differ.  Both `url.Values` in `toQueryString` and the
 * `Header` of the zero `http.Request` in `toHTTPRequest` are nil maps,
 * and an `Add` on a nil map panics.  The outbound URL gets the event
 * path only as `RawPath`, with an empty `Path`, so the request line
 * carries `/` whatever the event path was.  And a query value decoded
 * from JSON is never a `[]string`, so list values are dropped.
 */
module AsWritten {
  import opened Wrappers
  import opened Multimap
  import opened Scfgo
  import Decimal

  /** A Go map variable that may still be nil. */
  datatype GoMap = Nil | Made(entries: Multimap)

  /** A computation that either goes on with a value or has panicked. */
  datatype Step<T> = Ok(value: T) | Panic

  /** The entries of a Go map; a nil map reads as empty. */
  function Entries(g: GoMap): (m: Multimap)
    ensures g.Nil? ==> m == map[]
  {
    if g.Nil? then map[] else g.entries
  }

  /** `Add` on a map that may be nil, after a possible earlier panic:
      a panic stays a panic, an `Add` on a nil map panics. */
  function AddStep(s: Step<GoMap>, name: string, value: string): (t: Step<GoMap>)
    ensures t.Panic? <==> s.Panic? || s.value.Nil?
    ensures t.Ok? ==> Values(Entries(t.value), name) == Values(Entries(s.value), name) + [value]
  {
    match s
    case Panic => Panic
    case Ok(Nil) => Panic
    case Ok(Made(m)) => AddValues(m, name, value); Ok(Made(Add(m, name, value)))
  }

  /** Some entry of the query contributes a value. */
  predicate SomeOccurrence(m: map<string, QueryValue>, names: set<string>)
  {
    exists n :: n in names && n in m && Occurrences(m[n]) != []
  }

  /** `toQueryString` as written, up to the final `Encode()`: the loop
      starts from a nil `url.Values`, so it panics as soon as one entry
      contributes a value, and otherwise ends with the nil map, which
      encodes as the empty query. */
  method ToQueryString(m: map<string, QueryValue>) returns (state: Step<GoMap>)
    ensures state.Panic? <==> QueryValues(m) != map[]
    ensures state.Ok? ==> state.value == Nil
  {
    state := Ok(Nil);
    var remaining := m.Keys;
    while remaining != {}
      invariant remaining <= m.Keys
      invariant state == if SomeOccurrence(m, m.Keys - remaining) then Panic else Ok(Nil)
      decreases remaining
    {
      var name :| name in remaining;
      ghost var before := m.Keys - remaining;
      match m[name] {
        case Single(s) =>
          state := AddStep(state, name, s);
        case Multi(vs) =>
          var i := 0;
          while i < |vs|
            invariant 0 <= i <= |vs|
            invariant state == if SomeOccurrence(m, before) || i > 0 then Panic else Ok(Nil)
          {
            state := AddStep(state, name, vs[i]);
            i := i + 1;
          }
        case Other =>
      }
      remaining := remaining - {name};
      assert m.Keys - remaining == before + {name};
      assert SomeOccurrence(m, m.Keys - remaining) <==> SomeOccurrence(m, before) || Occurrences(m[name]) != [];
    }
    assert m.Keys - remaining == m.Keys;
    QueryEmpty(m);
  }

  /** `toHTTPRequest` as written: the query is flattened first, then every
      header goes through `Add` on the nil `Header` of a zero request.  At
      least the seven context headers are always added, so the call
      always panics. */
  method ToHttpRequest(r: GatewayRequest, port: int, functionRequestId: Option<string>) returns (out: Step<HttpRequest>)
    ensures out == Panic
  {
    var query := ToQueryString(r.queryString);
    var header: Step<GoMap> := Ok(Nil);
    var remaining := r.headers.Keys;
    while remaining != {}
      invariant header.Ok? ==> header.value == Nil
      decreases remaining
    {
      var name :| name in remaining;
      header := AddStep(header, name, r.headers[name]);
      remaining := remaining - {name};
    }
    if functionRequestId.Some? {
      header := AddStep(header, ScfRequestIdHeader, functionRequestId.value);
    }
    var ctx := r.context;
    header := AddStep(header, ServiceIdHeader, ctx.serviceId);
    header := AddStep(header, RequestIdHeader, ctx.requestId);
    header := AddStep(header, MethodHeader, ctx.httpMethod);
    header := AddStep(header, PathHeader, ctx.path);
    header := AddStep(header, SourceIpHeader, ctx.sourceIp);
    header := AddStep(header, ForwardedForHeader, ctx.sourceIp);
    header := AddStep(header, StageHeader, ctx.stage);
    if ctx.identity.secretId.Some? {
      header := AddStep(header, SecretIdHeader, ctx.identity.secretId.value);
    }
    match (query, header) {
      case (Ok(q), Ok(h)) =>
        out := Ok(HttpRequest(r.httpMethod, UrlAsWritten(r, port, Entries(q)), Entries(h), r.body));
      case _ =>
        out := Panic;
    }
  }

  /** The URL as written: the event path goes to `RawPath` only. */
  function UrlAsWritten(r: GatewayRequest, port: int, query: Multimap): (u: Url)
    ensures u.path == "" && u.rawPath == r.path
  {
    Url("http", Host + ":" + Decimal.Format(port), "", r.path, query)
  }

  // ---------------------------------------------------------------------
  // The path on the request line (url.URL.EscapedPath / RequestURI)
  // ---------------------------------------------------------------------

  predicate IsHex(c: char)
  {
    '0' <= c <= '9' || 'a' <= c <= 'f' || 'A' <= c <= 'F'
  }

  function HexValue(c: char): (v: int)
    requires IsHex(c)
    ensures 0 <= v < 16
  {
    if '0' <= c <= '9' then c as int - '0' as int
    else if 'a' <= c <= 'f' then c as int - 'a' as int + 10
    else c as int - 'A' as int + 10
  }

  /** Percent-decoding of a path: `%XX` is one character, a `%` without
      two hex digits after it is an error, anything else is itself. */
  function Unescape(s: string): (r: Option<string>)
    ensures r.Some? && s != [] ==> r.value != []
    ensures '%' !in s ==> r == Some(s)
    decreases |s|
  {
    if s == [] then Some([])
    else if s[0] == '%' then
      if |s| >= 3 && IsHex(s[1]) && IsHex(s[2]) then
        match Unescape(s[3..])
        case None => None
        case Some(t) => Some([(HexValue(s[1]) * 16 + HexValue(s[2])) as char] + t)
      else None
    else
      assert s == [s[0]] + s[1..];
      match Unescape(s[1..])
      case None => None
      case Some(t) => Some([s[0]] + t)
  }

  /** The characters a path keeps unescaped. */
  predicate PathSafe(c: char)
  {
    || 'a' <= c <= 'z' || 'A' <= c <= 'Z' || '0' <= c <= '9'
    || c in "-_.~$&+,/:;=@"
  }

  /** The characters `RawPath` may hold and still be used as it is:
      those a path keeps unescaped, the sub-delimiters `!'()*`, the
      brackets and `%`. */
  predicate ValidEncodedChar(c: char)
  {
    PathSafe(c) || c in "!'()*[]%"
  }

  /** The path part of the request line for a URL with this `Path` and
      `RawPath` and no `Opaque` part: `RawPath` when it holds only
      characters allowed there and decodes to `Path`, otherwise `Path`
      escaped, and `/` when that is empty.  `None` stands
      for a `Path` that would need escaping, which is not spelled out. */
  function RequestTarget(path: string, rawPath: string): (t: Option<string>)
    ensures t.Some? ==> t.value != []
  {
    var escaped :=
      if && rawPath != []
         && (forall i :: 0 <= i < |rawPath| ==> ValidEncodedChar(rawPath[i]))
         && Unescape(rawPath) == Some(path)
      then Some(rawPath)
      else if forall i :: 0 <= i < |path| ==> PathSafe(path[i]) then Some(path)
      else None;
    match escaped
    case None => None
    case Some(e) => Some(if e == [] then "/" else e)
  }

  /** As written, every request goes to `/`, whatever the event path. */
  lemma RequestLineIsRoot(r: GatewayRequest, port: int, query: Multimap)
    ensures var u := UrlAsWritten(r, port, query); RequestTarget(u.path, u.rawPath) == Some("/")
  {
  }

  /** One event that shows it: the path `/users/42` reaches the server as `/`. */
  lemma UsersPathIsLost(r: GatewayRequest, port: int, query: Multimap)
    requires r.path == "/users/42"
    ensures RequestTarget(UrlAsWritten(r, port, query).path, r.path) == Some("/")
  {
    RequestLineIsRoot(r, port, query);
  }

  /** With `Path` set as well, an event path made only of characters Go
      leaves unescaped in a path is what the request line carries. */
  lemma RequestLineIsEventPath(r: GatewayRequest, port: int, functionRequestId: Option<string>)
    requires r.path != []
    requires forall i :: 0 <= i < |r.path| ==> PathSafe(r.path[i])
    ensures var u := RequestFor(r, port, functionRequestId).url; RequestTarget(u.path, u.rawPath) == Some(r.path)
  {
  }

  // ---------------------------------------------------------------------
  // Query values decoded from JSON
  // ---------------------------------------------------------------------

  /** A JSON value as `encoding/json` decodes it into `interface{}`: a
      string, an array (a `[]interface{}`), or any other value. */
  datatype Json = JString(str: string) | JArray(elems: seq<Json>) | JOther

  /** The case of the type switch in `toQueryString` that a decoded value
      takes, as written: a `[]interface{}` is not a `[]string`, so an
      array takes the default case. */
  function ShapeAsWritten(v: Json): (q: QueryValue)
    ensures q.Single? <==> v.JString?
    ensures !q.Multi?
  {
    if v.JString? then Single(v.str) else Other
  }

  predicate AllStrings(vs: seq<Json>)
  {
    forall i :: 0 <= i < |vs| ==> vs[i].JString?
  }

  /** The strings of an array of JSON strings, in order. */
  function Strings(vs: seq<Json>): (ss: seq<string>)
    requires AllStrings(vs)
    ensures |ss| == |vs| && forall i :: 0 <= i < |vs| ==> ss[i] == vs[i].str
  {
    seq(|vs|, i requires 0 <= i < |vs| => vs[i].str)
  }

  /** The intended reading: a string is one value, an array of strings a
      list of values, anything else no value. */
  function Shape(v: Json): (q: QueryValue)
    ensures q.Multi? <==> v.JArray? && AllStrings(v.elems)
  {
    match v
    case JString(s) => Single(s)
    case JArray(vs) => if AllStrings(vs) then Multi(Strings(vs)) else Other
    case JOther => Other
  }

  /** The query map a decoded event carries, read with a given shaping. */
  function ShapedAsWritten(m: map<string, Json>): map<string, QueryValue>
  {
    map n | n in m :: ShapeAsWritten(m[n])
  }

  function Shaped(m: map<string, Json>): map<string, QueryValue>
  {
    map n | n in m :: Shape(m[n])
  }

  /** As written, a parameter whose value is a JSON array never reaches
      the query, whatever its elements. */
  lemma ArrayParameterDropped(m: map<string, Json>, n: string)
    requires n in m && m[n].JArray?
    ensures n !in QueryValues(ShapedAsWritten(m))
  {
    assert Values(QueryValues(ShapedAsWritten(m)), n) == [];
  }

  /** Read as intended, an array of strings gives its elements, in order. */
  lemma ArrayParameterKept(m: map<string, Json>, n: string)
    requires n in m && m[n].JArray? && AllStrings(m[n].elems)
    ensures Values(QueryValues(Shaped(m)), n) == Strings(m[n].elems)
    ensures |Values(QueryValues(Shaped(m)), n)| == |m[n].elems|
  {
    assert Shaped(m)[n] == Multi(Strings(m[n].elems));
  }

  /** The query `{"b": ["x", "y"]}`: empty as written, `b=x&b=y` as intended. */
  lemma ListQueryExample()
    ensures QueryValues(ShapedAsWritten(map["b" := JArray([JString("x"), JString("y")])])) == map[]
    ensures Values(QueryValues(Shaped(map["b" := JArray([JString("x"), JString("y")])])), "b") == ["x", "y"]
  {
    var m := map["b" := JArray([JString("x"), JString("y")])];
    ArrayParameterDropped(m, "b");
    QueryEmpty(ShapedAsWritten(m));
    ArrayParameterKept(m, "b");
  }
}
