/** `GwasClient`: a base URL, and the pipeline every typed `get_*` method runs —
    build the URL from the route and its parameters, send one GET, and vet the
    response before it is decoded. */
module Client {
  import opened Wrappers
  import opened UrlBuilder
  import opened Response
  import opened Routes

  datatype GwasClient = GwasClient(baseUrl: string)

  /** The public summary-statistics API that `GwasClient::new` points at. */
  const DefaultBaseUrl := "https://www.ebi.ac.uk/gwas/summary-statistics/api"

  const DefaultClient := GwasClient(DefaultBaseUrl)

  datatype FetchError =
    | BadUrl(urlError: UrlError)
    | Transport(message: string)
    | Rejected(responseError: ResponseError)

  /** The URL of a route is the base URL followed directly by its path: the slash
      `build_url` inserts replaces the one it trims from the endpoint. */
  lemma {:induction false} EndpointUrl(baseUrl: string, r: Route)
    ensures JoinedPath(baseUrl, RoutePath(r)) == baseUrl + RoutePath(r)
  {
    var p := RoutePath(r);
    assert TrimLeadingSlashes(p) == TrimLeadingSlashes(p[1..]);
    assert TrimLeadingSlashes(p[1..]) == p[1..];
    assert "/" + p[1..] == p;
  }

  /** One typed fetch: the URL is built first and a malformed one stops the call
      before any request; `send` stands for the HTTP round trip and its transport
      failures; an accepted response is handed on for decoding. */
  method Fetch(client: GwasClient, req: Request, parses: string -> bool,
               send: Url -> Result<HttpResponse, string>)
    returns (url: Option<Url>, r: Result<HttpResponse, FetchError>)
    ensures var text := client.baseUrl + RoutePath(req.route);
      !parses(text) ==> url == None && r == Failure(BadUrl(MalformedUrl(text)))
    ensures var text := client.baseUrl + RoutePath(req.route);
      parses(text) ==>
        url.Some? && url.value.path == text && Enumerates(url.value.query, req.params) &&
        r == match send(url.value)
             case Failure(e) => Failure(Transport(e))
             case Success(resp) =>
               match CheckJsonResponse(resp)
               case Accept => Success(resp)
               case Reject(err) => Failure(Rejected(err))
  {
    EndpointUrl(client.baseUrl, req.route);
    var built := BuildUrl(client.baseUrl, RoutePath(req.route), req.params, parses);
    match built
    case Failure(e) =>
      url := None;
      r := Failure(BadUrl(e));
    case Success(u) =>
      url := Some(u);
      var sent := send(u);
      match sent
      case Failure(e) =>
        r := Failure(Transport(e));
      case Success(resp) =>
        var verdict := CheckJsonResponse(resp);
        match verdict
        case Accept =>
          r := Success(resp);
        case Reject(err) =>
          r := Failure(Rejected(err));
  }
}
