/**
 * The Google Maps tool-call client (src/lib/mcp-client.ts): a generic
 * `{name, arguments}` envelope POSTed to one endpoint fixed at construction,
 * a status check on the reply, and four capability methods that only build
 * the tool name and the argument map.
 *
 * The network is not modelled: the endpoint's reply is an input of type
 * `HttpReply`, and each call returns the request it would post together with
 * what it makes of that reply.
 */
module McpClient {
  import opened Wrappers

  /** The `url` of the "google-maps" entry in the client configuration. */
  const GoogleMapsUrl: string := "https://mcp.open-mcp.org/api/server/google-maps@latest/mcp"
  const ToolsCallPath: string := "/tools/call"
  const ToolsListPath: string := "/tools/list"
  const JsonContentType: string := "application/json"

  /** A `{lat, lng}` pair. JavaScript numbers are doubles; no arithmetic is done on them here. */
  datatype LatLng = LatLng(lat: real, lng: real)

  /** A value placed in a tool's argument map. */
  datatype Value = Str(s: string) | Num(n: real) | Point(p: LatLng)

  /**
   * An argument map as the object literal builds it: every key is present, and
   * `None` stands for a property whose value is `undefined`.
   */
  type Arguments = map<string, Option<Value>>

  /** The JSON body of a tool call. */
  datatype ToolCall = ToolCall(name: string, arguments: Arguments)

  /** An HTTP request to the endpoint; `tools/list` is sent without a body. */
  datatype HttpRequest = HttpRequest(url: string, httpMethod: string, contentType: string, body: Option<ToolCall>)

  /**
   * What the endpoint does with a request: the fetch fails outright, or a reply
   * arrives with its `ok` flag, its status and its body, `None` when the body is
   * not valid JSON.
   */
  datatype HttpReply<B> = NetworkFailure | Reply(ok: bool, status: int, body: Option<B>)

  /** Why a call failed; the client rethrows each of these to its caller. */
  datatype ToolError = FetchFailed | HttpStatus(status: int) | MalformedJson

  /** The request a call posts and the outcome it returns. */
  datatype Exchange<B> = Exchange(request: HttpRequest, result: Result<B, ToolError>)

  /**
   * The outcome of a call given the endpoint's reply: a non-ok status is an
   * error before the body is looked at; an ok reply yields its parsed body.
   */
  function ReplyOutcome<B>(reply: HttpReply<B>): (r: Result<B, ToolError>)
    ensures r.Success? <==> reply.Reply? && reply.ok && reply.body.Some?
    ensures r.Success? ==> r.value == reply.body.value
    ensures reply.NetworkFailure? ==> r == Failure(FetchFailed)
    ensures reply.Reply? && !reply.ok ==> r == Failure(HttpStatus(reply.status))
    ensures reply.Reply? && reply.ok && reply.body.None? ==> r == Failure(MalformedJson)
  {
    match reply
    case NetworkFailure => Failure(FetchFailed)
    case Reply(ok, status, body) =>
      if !ok then Failure(HttpStatus(status))
      else if body.None? then Failure(MalformedJson)
      else Success(body.value)
  }

  /** The properties `JSON.stringify` writes: those whose value is not `undefined`. */
  function Serialized(args: Arguments): (wire: map<string, Value>)
    ensures forall k :: k in wire <==> k in args && args[k].Some?
    ensures forall k :: k in wire ==> args[k] == Some(wire[k])
  {
    map k | k in args && args[k].Some? :: args[k].value
  }

  /** An optional `{lat, lng}` argument. */
  function PointArg(location: Option<LatLng>): (v: Option<Value>)
    ensures v.Some? <==> location.Some?
    ensures location.Some? ==> v.value.Point? && v.value.p == location.value
  {
    match location
    case None => None
    case Some(p) => Some(Point(p))
  }

  /** An optional string argument. */
  function StrArg(s: Option<string>): (v: Option<Value>)
    ensures v.Some? <==> s.Some?
    ensures s.Some? ==> v.value.Str? && v.value.s == s.value
  {
    match s
    case None => None
    case Some(x) => Some(Str(x))
  }

  /** JavaScript's `mode || 'driving'`: an absent or empty mode becomes "driving". */
  function TravelMode(mode: Option<string>): (m: string)
    ensures m != []
    ensures mode.None? || mode.value == "" ==> m == "driving"
    ensures mode.Some? && mode.value != "" ==> m == mode.value
  {
    if mode.None? || mode.value == "" then "driving" else mode.value
  }

  class GoogleMapsMCPClient {
    /** The endpoint, set once from the configuration; a `const` can never be reassigned. */
    const baseUrl: string

    constructor()
      ensures baseUrl == GoogleMapsUrl
    {
      baseUrl := GoogleMapsUrl;
    }

    /**
     * `callTool`: POST `{name: toolName, arguments}` as JSON to the tools/call
     * path of the endpoint, then check the reply.
     */
    function CallTool<B>(toolName: string, arguments: Arguments, reply: HttpReply<B>): (r: Exchange<B>)
      ensures |r.request.url| == |baseUrl| + |ToolsCallPath|
      ensures r.request.url[..|baseUrl|] == baseUrl && r.request.url[|baseUrl|..] == ToolsCallPath
      ensures r.request.httpMethod == "POST" && r.request.contentType == JsonContentType
      ensures r.request.body == Some(ToolCall(toolName, arguments))
      ensures r.result.Success? <==> reply.Reply? && reply.ok && reply.body.Some?
      ensures reply.Reply? && !reply.ok ==> r.result == Failure(HttpStatus(reply.status))
      ensures r.result.Success? ==> r.result.value == reply.body.value
    {
      var request := HttpRequest(baseUrl + ToolsCallPath, "POST", JsonContentType, Some(ToolCall(toolName, arguments)));
      Exchange(request, ReplyOutcome(reply))
    }

    /** `listTools`: POST with no body to the tools/list path, then check the reply. */
    function ListTools<B>(reply: HttpReply<B>): (r: Exchange<B>)
      ensures |r.request.url| == |baseUrl| + |ToolsListPath|
      ensures r.request.url[..|baseUrl|] == baseUrl && r.request.url[|baseUrl|..] == ToolsListPath
      ensures r.request.httpMethod == "POST" && r.request.contentType == JsonContentType && r.request.body.None?
      ensures r.result.Success? <==> reply.Reply? && reply.ok && reply.body.Some?
      ensures r.result.Success? ==> r.result.value == reply.body.value
      ensures reply.Reply? && !reply.ok ==> r.result == Failure(HttpStatus(reply.status))
      ensures r.result == ReplyOutcome(reply)
    {
      Exchange(HttpRequest(baseUrl + ToolsListPath, "POST", JsonContentType, None), ReplyOutcome(reply))
    }

    /** `searchPlaces`: tool "search_places" with `query` and a possibly undefined `location`. */
    function SearchPlaces<B>(query: string, location: Option<LatLng>, reply: HttpReply<B>): (r: Exchange<B>)
      ensures r.request.url == baseUrl + ToolsCallPath
      ensures r.request.body.Some? && r.request.body.value.name == "search_places"
      ensures var args := r.request.body.value.arguments;
        && args.Keys == {"query", "location"}
        && args["query"] == Some(Str(query))
        && args["location"] == PointArg(location)
      ensures r.result == ReplyOutcome(reply)
    {
      CallTool("search_places", map["query" := Some(Str(query)), "location" := PointArg(location)], reply)
    }

    /** `getPlaceDetails`: tool "get_place_details" with the single key `place_id`. */
    function GetPlaceDetails<B>(placeId: string, reply: HttpReply<B>): (r: Exchange<B>)
      ensures r.request.url == baseUrl + ToolsCallPath
      ensures r.request.body.Some? && r.request.body.value.name == "get_place_details"
      ensures var args := r.request.body.value.arguments;
        args.Keys == {"place_id"} && args["place_id"] == Some(Str(placeId))
      ensures r.result == ReplyOutcome(reply)
    {
      CallTool("get_place_details", map["place_id" := Some(Str(placeId))], reply)
    }

    /** `getDirections`: tool "get_directions"; the mode defaults to "driving". */
    function GetDirections<B>(origin: string, destination: string, mode: Option<string>, reply: HttpReply<B>): (r: Exchange<B>)
      ensures r.request.url == baseUrl + ToolsCallPath
      ensures r.request.body.Some? && r.request.body.value.name == "get_directions"
      ensures var args := r.request.body.value.arguments;
        && args.Keys == {"origin", "destination", "mode"}
        && args["origin"] == Some(Str(origin))
        && args["destination"] == Some(Str(destination))
        && args["mode"].Some? && args["mode"].value.Str?
        && (mode.None? || mode.value == "" ==> args["mode"].value.s == "driving")
        && (mode.Some? && mode.value != "" ==> args["mode"].value.s == mode.value)
      ensures r.result == ReplyOutcome(reply)
    {
      CallTool("get_directions", map["origin" := Some(Str(origin)), "destination" := Some(Str(destination)),
                                     "mode" := Some(Str(TravelMode(mode)))], reply)
    }

    /** `getNearbyPlaces`: tool "nearby_search" with `location`, `radius` and a possibly undefined `type`. */
    function GetNearbyPlaces<B>(location: LatLng, radius: real, placeType: Option<string>, reply: HttpReply<B>): (r: Exchange<B>)
      ensures r.request.url == baseUrl + ToolsCallPath
      ensures r.request.body.Some? && r.request.body.value.name == "nearby_search"
      ensures var args := r.request.body.value.arguments;
        && args.Keys == {"location", "radius", "type"}
        && args["location"] == Some(Point(location))
        && args["radius"] == Some(Num(radius))
        && args["type"] == StrArg(placeType)
      ensures r.result == ReplyOutcome(reply)
    {
      CallTool("nearby_search", map["location" := Some(Point(location)), "radius" := Some(Num(radius)),
                                    "type" := StrArg(placeType)], reply)
    }

    /** On the wire, `location` is sent exactly when the caller gave one, next to the query. */
    lemma SearchPlacesWire<B>(query: string, location: Option<LatLng>, reply: HttpReply<B>)
      ensures var wire := Serialized(SearchPlaces(query, location, reply).request.body.value.arguments);
        && ("location" in wire <==> location.Some?)
        && "query" in wire && wire["query"] == Str(query)
        && wire.Keys <= {"query", "location"}
    {
    }

    /** On the wire, `type` is sent exactly when the caller gave one. */
    lemma NearbyPlacesWire<B>(location: LatLng, radius: real, placeType: Option<string>, reply: HttpReply<B>)
      ensures var wire := Serialized(GetNearbyPlaces(location, radius, placeType, reply).request.body.value.arguments);
        && ("type" in wire <==> placeType.Some?)
        && wire.Keys >= {"location", "radius"}
    {
    }

    /** A directions request always carries a non-empty mode on the wire. */
    lemma DirectionsModeNeverEmpty<B>(origin: string, destination: string, mode: Option<string>, reply: HttpReply<B>)
      ensures var wire := Serialized(GetDirections(origin, destination, mode, reply).request.body.value.arguments);
        "mode" in wire && wire["mode"].Str? && wire["mode"].s != ""
    {
    }

    /** Whatever the tool, a reply with a non-ok status is an error carrying that status. */
    lemma NonOkStatusIsError<B>(toolName: string, arguments: Arguments, status: int, body: Option<B>)
      ensures CallTool(toolName, arguments, Reply(false, status, body)).result == Failure(HttpStatus(status))
    {
    }
  }
}
