/** `NetworkingManager` (NetworkingManager.swift): classifying a response and composing a request.
    The URL loading system and JSON decoding are parameters. */
module Networking {
  import opened Base
  import opened Errors

  /** A `URLResponse`: an `HTTPURLResponse` carries a status code; other kinds do not. */
  datatype URLResponse = HTTPURLResponse(statusCode: int) | OtherURLResponse

  /** `URLQueryItem`. */
  datatype QueryItem = QueryItem(name: string, value: Option<string>)

  /** What `URLSession.data(for:)` produced: a thrown error, or the body and the response. */
  datatype TransportOutcome = TransportFailed(error: Error) | Received(data: seq<byte>, response: URLResponse)

  /** `response as? HTTPURLResponse` with `200..<300 ~= statusCode`. */
  predicate IsSuccessResponse(response: URLResponse)
  {
    response.HTTPURLResponse? && 200 <= response.statusCode < 300
  }

  /** The half-open range `200..<300`: both ends of the accepted range and both neighbours. */
  lemma SuccessStatusBoundaries()
    ensures IsSuccessResponse(HTTPURLResponse(200)) && IsSuccessResponse(HTTPURLResponse(299))
    ensures !IsSuccessResponse(HTTPURLResponse(199)) && !IsSuccessResponse(HTTPURLResponse(300))
    ensures !IsSuccessResponse(OtherURLResponse)
  {
  }

  /** `handleResponse(data:response:type:)`. `decode` stands for `JSONDecoder().decode`, `None`
      being a decoding failure. Empty data is `noData` whatever the status, a non-HTTP or
      non-2xx response with data is `badResponse`, and a 2xx response decodes or fails with
      `dataParsingError`. */
  function HandleResponse<T>(data: seq<byte>, response: URLResponse, decode: seq<byte> -> Option<T>): (r: Result<T, Error>)
    ensures r.Success? <==> |data| > 0 && IsSuccessResponse(response) && decode(data).Some?
    ensures r.Success? ==> decode(data) == Some(r.value)
    ensures r.Failure? ==> r.error.Network?
    ensures |data| == 0 ==> r == Failure(Network(NoData))
    ensures |data| > 0 && !IsSuccessResponse(response) ==> r == Failure(Network(BadResponse))
    ensures |data| > 0 && IsSuccessResponse(response) && decode(data).None? ==> r == Failure(Network(DataParsingError))
  {
    if |data| == 0 then Failure(Network(NoData))
    else if IsSuccessResponse(response) then
      match decode(data)
      case Some(v) => Success(v)
      case None => Failure(Network(DataParsingError))
    else Failure(Network(BadResponse))
  }

  /** `getData(url:type:queryItems:)`. `compose` stands for setting the query items on
      `URLComponents` and reading back its `url`; `transport` for `URLSession`. Composition
      failing is `invalidURL`; every error raised afterwards reaches the caller unchanged. */
  function GetData<T>(url: string, queryItems: seq<QueryItem>,
                      compose: (string, seq<QueryItem>) -> Option<string>,
                      transport: string -> TransportOutcome,
                      decode: seq<byte> -> Option<T>): (r: Result<T, Error>)
    ensures compose(url, queryItems).None? ==> r == Failure(Network(InvalidURL))
    ensures compose(url, queryItems).Some? && transport(compose(url, queryItems).value).TransportFailed? ==>
      r == Failure(transport(compose(url, queryItems).value).error)
    ensures compose(url, queryItems).Some? && transport(compose(url, queryItems).value).Received? ==>
      var t := transport(compose(url, queryItems).value); r == HandleResponse(t.data, t.response, decode)
  {
    match compose(url, queryItems)
    case None => Failure(Network(InvalidURL))
    case Some(composed) =>
      match transport(composed)
      case TransportFailed(e) => Failure(e)
      case Received(data, response) => HandleResponse(data, response, decode)
  }
}
