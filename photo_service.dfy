/** `PhotoSerice.fetchPhotos` (PhotoService.swift): the configuration guard and the query items
    of one search request. The networking call is a parameter. */
module Service {
  import opened Base
  import opened Errors
  import opened Models
  import opened Networking

  // `URLQueryParamKeys`
  const TagsKey: string := "tags"
  const PageKey: string := "page"
  const PerPageKey: string := "per_page"
  const ApiKeyKey: string := "api_key"
  const FormatKey: string := "format"
  const NoJsonCallbackKey: string := "nojsoncallback"
  const MethodKey: string := "method"

  /** `Constants.json` and `FlickrMethods.search`. */
  const JsonFormat: string := "json"
  const SearchMethod: string := "flickr.photos.search"

  // ----- `String(_: Int)` -----

  /** The character of one decimal digit. */
  function DigitChar(d: nat): (c: char)
    requires d < 10
    ensures '0' <= c <= '9'
  {
    ('0' as int + d) as char
  }

  /** The decimal digits of `n`, without leading zeros. */
  function NatToString(n: nat): (s: string)
    ensures |s| >= 1 && forall i :: 0 <= i < |s| ==> '0' <= s[i] <= '9'
    decreases n
  {
    if n < 10 then [DigitChar(n)] else NatToString(n / 10) + [DigitChar(n % 10)]
  }

  /** `String(n)`: a minus sign before the digits of a negative number. */
  function IntToString(n: int): string
  {
    if n < 0 then "-" + NatToString(-n) else NatToString(n)
  }

  function DigitValue(c: char): int
  {
    if '0' <= c <= '9' then c as int - '0' as int else -1
  }

  /** Reads a non-empty string of decimal digits. */
  function ParseNat(s: string): Option<nat>
    decreases |s|
  {
    if |s| == 0 || DigitValue(s[|s| - 1]) < 0 then None
    else if |s| == 1 then Some(DigitValue(s[|s| - 1]))
    else
      match ParseNat(s[..|s| - 1])
      case None => None
      case Some(v) => Some(10 * v + DigitValue(s[|s| - 1]))
  }

  function ParseInt(s: string): Option<int>
  {
    if |s| > 0 && s[0] == '-' then
      match ParseNat(s[1..])
      case None => None
      case Some(v) => Some(-(v as int))
    else ParseNat(s)
  }


  /** Reading back the rendered digits gives the number. */
  lemma {:induction false} NatToStringRoundTrip(n: nat)
    ensures ParseNat(NatToString(n)) == Some(n)
    decreases n
  {
    if n >= 10 {
      NatToStringRoundTrip(n / 10);
      var s := NatToString(n);
      assert s[..|s| - 1] == NatToString(n / 10);
    }
  }

  /** `String(Int)` is faithful: the rendering can be read back, so distinct numbers give
      distinct strings. */
  lemma IntToStringRoundTrip(n: int)
    ensures ParseInt(IntToString(n)) == Some(n)
  {
    if n < 0 {
      NegativeRoundTrip(-n);
    } else {
      NatToStringRoundTrip(n);
      var s := NatToString(n);
      assert '0' <= s[0] <= '9';
      assert ParseInt(s) == Some(n);
    }
  }

  lemma NegativeRoundTrip(m: nat)
    requires m > 0
    ensures ParseInt("-" + NatToString(m)) == Some(-(m as int))
  {
    NatToStringRoundTrip(m);
    var s := "-" + NatToString(m);
    assert s[0] == '-';
    assert s[1..] == NatToString(m);
  }

  // ----- the request -----

  /** The query items of `fetchPhotos`, in the order the array literal lists them. */
  function BuildQueryItems(query: string, pageNumber: int, perPage: int, apiKey: string): (items: seq<QueryItem>)
    ensures |items| == 7
    ensures forall i :: 0 <= i < |items| ==> items[i].value.Some?
    ensures forall i, j :: 0 <= i < j < |items| ==> items[i].name != items[j].name
    ensures [items[0].name, items[1].name, items[2].name, items[3].name, items[4].name, items[5].name, items[6].name]
         == ["tags", "page", "per_page", "format", "nojsoncallback", "method", "api_key"]
  {
    [ QueryItem(TagsKey, Some(query)),
      QueryItem(PageKey, Some(IntToString(pageNumber))),
      QueryItem(PerPageKey, Some(IntToString(perPage))),
      QueryItem(FormatKey, Some(JsonFormat)),
      QueryItem(NoJsonCallbackKey, Some(IntToString(1))),
      QueryItem(MethodKey, Some(SearchMethod)),
      QueryItem(ApiKeyKey, Some(apiKey)) ]
  }

  /** The value of the first item named `name`, as a server reads a query string. */
  function Lookup(items: seq<QueryItem>, name: string): Option<string>
  {
    if items == [] then None
    else if items[0].name == name then items[0].value
    else Lookup(items[1..], name)
  }

  /** With distinct names, the lookup finds the item carrying the name wherever it sits. */
  lemma {:induction false} LookupDistinct(items: seq<QueryItem>, k: nat)
    requires k < |items|
    requires forall i, j :: 0 <= i < j < |items| ==> items[i].name != items[j].name
    ensures Lookup(items, items[k].name) == items[k].value
    decreases k
  {
    if k > 0 {
      assert items[1..][k - 1] == items[k];
      LookupDistinct(items[1..], k - 1);
    }
  }

  /** What the server reads from the request: the search text, the page and the page size as
      decimal numbers, the fixed format, callback and method values, and the key. */
  lemma QueryItemValues(query: string, pageNumber: int, perPage: int, apiKey: string)
    ensures var items := BuildQueryItems(query, pageNumber, perPage, apiKey);
      && Lookup(items, "tags") == Some(query)
      && Lookup(items, "page").Some? && ParseInt(Lookup(items, "page").value) == Some(pageNumber)
      && Lookup(items, "per_page").Some? && ParseInt(Lookup(items, "per_page").value) == Some(perPage)
      && Lookup(items, "format") == Some("json")
      && Lookup(items, "nojsoncallback") == Some("1")
      && Lookup(items, "method") == Some("flickr.photos.search")
      && Lookup(items, "api_key") == Some(apiKey)
  {
    var items := BuildQueryItems(query, pageNumber, perPage, apiKey);
    IntToStringRoundTrip(pageNumber);
    IntToStringRoundTrip(perPage);
    assert IntToString(1) == "1";
    LookupDistinct(items, 0);
    LookupDistinct(items, 1);
    LookupDistinct(items, 2);
    LookupDistinct(items, 3);
    LookupDistinct(items, 4);
    LookupDistinct(items, 5);
    LookupDistinct(items, 6);
  }

  /** The service's configuration: the search endpoint, the image endpoint and the API key,
      any of which may be missing. */
  datatype ServiceConfig = ServiceConfig(baseURL: Option<string>, imageBaseURL: Option<string>, apiKey: Option<string>)

  /** The call made to the networking layer. */
  datatype Request = Request(url: string, queryItems: seq<QueryItem>)

  /** The request issued, if any, and what `fetchPhotos` returned or threw. */
  datatype FetchCall = FetchCall(request: Option<Request>, result: Result<Option<PhotosResponse>, Error>)

  /** `fetchPhotos(query:pageNumber:perPage:)`. `getData` stands for
      `networkingManager.getData(url:type:queryItems:)`. */
  function FetchPhotos(config: ServiceConfig, query: string, pageNumber: int, perPage: int,
                       getData: Request -> Result<PhotosResponse, Error>): (c: FetchCall)
    ensures c.request.None? <==> config.baseURL.None? || config.imageBaseURL.None? || config.apiKey.None?
    ensures c.request.None? ==> c.result == Success(None)
    ensures c.request.Some? ==>
      c.request.value == Request(config.baseURL.value, BuildQueryItems(query, pageNumber, perPage, config.apiKey.value))
    ensures c.request.Some? && getData(c.request.value).Failure? ==> c.result == Failure(getData(c.request.value).error)
    ensures c.request.Some? && getData(c.request.value).Success? ==> c.result == Success(Some(getData(c.request.value).value))
  {
    if config.baseURL.None? || config.imageBaseURL.None? || config.apiKey.None? then
      FetchCall(None, Success(None))
    else
      var request := Request(config.baseURL.value, BuildQueryItems(query, pageNumber, perPage, config.apiKey.value));
      match getData(request)
      case Failure(e) => FetchCall(Some(request), Failure(e))
      case Success(response) => FetchCall(Some(request), Success(Some(response)))
  }
}
