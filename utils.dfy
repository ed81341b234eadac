/**
 * The hand-written API client of utils.py: the token check, the requests it
 * builds for each resource, the query parameters of an export, and the
 * selection of an embed code from the response. Sending a request and
 * writing the bytes of the answer are not modelled; a request is a value.
 */
module Utils {
  import opened Wrappers
  import opened Datawrapper

  const ApiBase: string := "https://api.datawrapper.de/v3"

  /** A value of the export's query string: the source uses both ints and strings. */
  datatype ParamValue = IntParam(i: int) | StrParam(s: string)

  /** A GET request as `requests.get` would be called. */
  datatype HttpGet = HttpGet(url: string, headers: map<string, string>, params: map<string, ParamValue>)

  /** The answer of `/charts/{id}/embed-codes`, which may be a list of code maps or a single map. */
  datatype EmbedResponse = EmbedList(items: seq<map<string, string>>) | EmbedDict(codes: map<string, string>)

  /**
   * `validate_api_token`: fails exactly when the token is unset (`None`) or empty,
   * the two values Python treats as false.
   */
  function ValidateApiToken(token: Option<string>): (r: Result<()>)
    ensures r.Err? <==> token == None || token == Some("")
    ensures r.Err? ==> r.message == "DATAWRAPPER_API_TOKEN environment variable not set"
  {
    if token.None? || token.value == "" then Err("DATAWRAPPER_API_TOKEN environment variable not set")
    else Ok(())
  }

  /** `f"{token}"`: an unset token renders as `None`. */
  function TokenText(token: Option<string>): string {
    match token
    case Some(t) => t
    case None => "None"
  }

  /** The Authorization header value, `f"Bearer {token}"`. */
  function AuthorizationValue(token: Option<string>): string {
    "Bearer " + TokenText(token)
  }

  /** Once the token passed validation, the header carries exactly that token after "Bearer ". */
  lemma AuthorizationCarriesToken(token: Option<string>)
    requires ValidateApiToken(token).Ok?
    ensures |AuthorizationValue(token)| > 7
    ensures AuthorizationValue(token)[..7] == "Bearer "
    ensures AuthorizationValue(token)[7..] == token.value
  {
  }

  /** Two validated tokens give the same header only if they are the same token. */
  lemma AuthorizationInjective(t1: Option<string>, t2: Option<string>)
    requires ValidateApiToken(t1).Ok? && ValidateApiToken(t2).Ok?
    requires AuthorizationValue(t1) == AuthorizationValue(t2)
    ensures t1 == t2
  {
    assert t1.value == AuthorizationValue(t1)[7..];
    assert t2.value == AuthorizationValue(t2)[7..];
  }

  /** `make_api_request(endpoint)`: a GET of the base URL plus the endpoint, with JSON headers. */
  function ApiRequest(token: Option<string>, endpoint: string): (r: HttpGet)
    ensures ApiBase <= r.url && r.url[|ApiBase|..] == endpoint
    ensures r.headers.Keys == {"Authorization", "Content-Type"}
    ensures r.headers["Authorization"] == "Bearer " + TokenText(token)
    ensures r.headers["Content-Type"] == "application/json"
    ensures r.params == map[]
  {
    HttpGet(ApiBase + endpoint,
            map["Authorization" := AuthorizationValue(token), "Content-Type" := "application/json"],
            map[])
  }

  /** The decimal digits of `n`, as an f-string renders an int. */
  function Decimal(n: nat): (s: string)
    ensures |s| > 0
    ensures forall i :: 0 <= i < |s| ==> '0' <= s[i] <= '9'
  {
    if n < 10 then [Digit(n)] else Decimal(n / 10) + [Digit(n % 10)]
  }

  function Digit(d: nat): char
    requires d < 10
  {
    "0123456789"[d]
  }

  /** The number a string of decimal digits denotes. */
  function DecimalValue(s: string): nat
    requires forall i :: 0 <= i < |s| ==> '0' <= s[i] <= '9'
  {
    if s == [] then 0 else 10 * DecimalValue(s[..|s| - 1]) + (s[|s| - 1] as int - '0' as int)
  }

  lemma DigitValue(d: nat)
    requires d < 10
    ensures Digit(d) as int - '0' as int == d
  {
  }

  /** Reading back the rendered digits gives the number. */
  lemma {:induction false} DecimalRoundTrip(n: nat)
    ensures DecimalValue(Decimal(n)) == n
  {
    var s := Decimal(n);
    if n < 10 {
      DigitValue(n);
      assert s[..0] == [];
    } else {
      DecimalRoundTrip(n / 10);
      DigitValue(n % 10);
      assert s[..|s| - 1] == Decimal(n / 10);
    }
  }

  function FolderEndpoint(folderId: nat): string { "/folders/" + Decimal(folderId) }
  function ChartEndpoint(chartId: ChartId): string { "/charts/" + chartId }
  function EmbedEndpoint(chartId: ChartId): string { ChartEndpoint(chartId) + "/embed-codes" }
  function ExportUrl(chartId: ChartId, outputFormat: string): string {
    ApiBase + ChartEndpoint(chartId) + "/export/" + outputFormat
  }

  /** `get_folder`: the folder id can be read back, as decimal digits, after "/folders/". */
  function GetFolder(token: Option<string>, folderId: nat): (r: HttpGet)
    ensures ApiBase + "/folders/" <= r.url
    ensures var digits := r.url[|ApiBase + "/folders/"|..];
      (forall i :: 0 <= i < |digits| ==> '0' <= digits[i] <= '9') && DecimalValue(digits) == folderId
    ensures "Authorization" in r.headers && r.headers["Authorization"] == "Bearer " + TokenText(token)
  {
    DecimalRoundTrip(folderId);
    var r := ApiRequest(token, FolderEndpoint(folderId));
    assert r.url[|ApiBase + "/folders/"|..] == Decimal(folderId);
    r
  }

  /** `get_chart`: the chart id follows "/charts/" unchanged. */
  function GetChart(token: Option<string>, chartId: ChartId): (r: HttpGet)
    ensures ApiBase + "/charts/" <= r.url && r.url[|ApiBase + "/charts/"|..] == chartId
    ensures "Authorization" in r.headers && r.headers["Authorization"] == "Bearer " + TokenText(token)
  {
    ApiRequest(token, ChartEndpoint(chartId))
  }

  /** The embed-codes request of `get_iframe_code`: the chart's own request, one level down. */
  function GetEmbedCodes(token: Option<string>, chartId: ChartId): (r: HttpGet)
    ensures r.url == GetChart(token, chartId).url + "/embed-codes"
    ensures r.headers == GetChart(token, chartId).headers
  {
    ApiRequest(token, EmbedEndpoint(chartId))
  }

  /** Different folders are fetched from different URLs. */
  lemma FolderUrlInjective(token: Option<string>, a: nat, b: nat)
    requires GetFolder(token, a).url == GetFolder(token, b).url
    ensures a == b
  {
    var n := |ApiBase + "/folders/"|;
    assert Decimal(a) == GetFolder(token, a).url[n..];
    assert Decimal(b) == GetFolder(token, b).url[n..];
    DecimalRoundTrip(a);
    DecimalRoundTrip(b);
  }

  /** Different charts are fetched from different URLs, and no chart URL is a folder URL. */
  lemma ChartUrlInjective(token: Option<string>, a: ChartId, b: ChartId, f: nat)
    ensures GetChart(token, a).url == GetChart(token, b).url ==> a == b
    ensures GetChart(token, a).url != GetFolder(token, f).url
  {
    var n := |ApiBase + "/charts/"|;
    if GetChart(token, a).url == GetChart(token, b).url {
      assert a == GetChart(token, a).url[n..];
      assert b == GetChart(token, b).url[n..];
    }
    assert GetChart(token, a).url[|ApiBase| + 1] == 'c';
    assert GetFolder(token, f).url[|ApiBase| + 1] == 'f';
  }

  /** Every resource request carries the bearer header and asks for JSON. */
  lemma RequestsAuthorised(token: Option<string>, folderId: nat, chartId: ChartId)
    ensures forall q | q in [GetFolder(token, folderId), GetChart(token, chartId), GetEmbedCodes(token, chartId)] ::
      q.headers == map["Authorization" := "Bearer " + TokenText(token), "Content-Type" := "application/json"]
        && q.params == map[]
  {
  }

  /** The embed-codes and export URLs are sub-resources of the chart URL. */
  lemma ChartSubresources(token: Option<string>, chartId: ChartId, outputFormat: string)
    ensures GetChart(token, chartId).url <= GetEmbedCodes(token, chartId).url
    ensures GetEmbedCodes(token, chartId).url[|GetChart(token, chartId).url|..] == "/embed-codes"
    ensures GetChart(token, chartId).url <= ExportUrl(chartId, outputFormat)
    ensures ExportUrl(chartId, outputFormat)[|GetChart(token, chartId).url|..] == "/export/" + outputFormat
  {
    var c := GetChart(token, chartId).url;
    assert GetEmbedCodes(token, chartId).url == c + "/embed-codes";
    assert ExportUrl(chartId, outputFormat) == c + "/export/" + outputFormat;
  }

  /**
   * The query parameters of `export_chart`, inserted one at a time: a key is
   * present exactly when its argument differs from "leave it to the server".
   */
  method ExportParams(width: Option<int>, height: Option<string>, borderWidth: int, plain: bool)
    returns (params: map<string, ParamValue>)
    ensures "width" in params <==> width.Some?
    ensures width.Some? ==> params["width"] == IntParam(width.value)
    ensures "height" in params <==> height.Some?
    ensures height.Some? ==> params["height"] == StrParam(height.value)
    ensures "borderWidth" in params <==> borderWidth != 0
    ensures borderWidth != 0 ==> params["borderWidth"] == IntParam(borderWidth)
    ensures "plain" in params <==> plain
    ensures plain ==> params["plain"] == StrParam("true")
    ensures params.Keys <= {"width", "height", "borderWidth", "plain"}
  {
    params := map[];
    if width.Some? {
      params := params["width" := IntParam(width.value)];
    }
    if height.Some? {
      params := params["height" := StrParam(height.value)];
    }
    if borderWidth != 0 {
      params := params["borderWidth" := IntParam(borderWidth)];
    }
    if plain {
      params := params["plain" := StrParam("true")];
    }
  }

  /**
   * `export_chart`: the GET it sends for the rendered chart, with the same
   * defaults as the source (no width, height "auto", no border, not plain).
   */
  method ExportChart(token: Option<string>, chartId: ChartId, outputFormat: string, filepath: string,
                     width: Option<int> := None, height: Option<string> := Some("auto"),
                     borderWidth: int := 0, plain: bool := false)
    returns (request: HttpGet)
    ensures request.url == ApiBase + "/charts/" + chartId + "/export/" + outputFormat
    ensures request.headers == map["Authorization" := "Bearer " + TokenText(token)]
    ensures "width" in request.params <==> width.Some?
    ensures "height" in request.params <==> height.Some?
    ensures "borderWidth" in request.params <==> borderWidth != 0
    ensures "plain" in request.params <==> plain
    ensures width.Some? ==> request.params["width"] == IntParam(width.value)
    ensures height.Some? ==> request.params["height"] == StrParam(height.value)
    ensures borderWidth != 0 ==> request.params["borderWidth"] == IntParam(borderWidth)
    ensures plain ==> request.params["plain"] == StrParam("true")
    ensures request.params.Keys <= {"width", "height", "borderWidth", "plain"}
  {
    var params := ExportParams(width, height, borderWidth, plain);
    var headers := map["Authorization" := AuthorizationValue(token)];
    request := HttpGet(ExportUrl(chartId, outputFormat), headers, params);
  }

  /** With every default left in place, the export asks only for height "auto". */
  method ExportChartDefaults(token: Option<string>, chartId: ChartId, outputFormat: string, filepath: string)
    returns (request: HttpGet)
    ensures request.params == map["height" := StrParam("auto")]
  {
    request := ExportChart(token, chartId, outputFormat, filepath);
    assert request.params.Keys == {"height"};
  }

  /** The list shape is reduced to its first element; a map is used as it is. */
  function Normalise(resp: EmbedResponse): (r: Option<map<string, string>>)
    ensures r.None? <==> resp == EmbedList([])
    ensures resp.EmbedDict? ==> r == Some(resp.codes)
    ensures resp.EmbedList? && r.Some? ==> r.value == resp.items[0]
  {
    match resp
    case EmbedDict(d) => Some(d)
    case EmbedList(items) => if |items| > 0 then Some(items[0]) else None
  }

  /**
   * `get_iframe_code`: the "responsive" or "static" code of the (normalised)
   * response, "" when that key is missing. An empty list has no `.get`, so it raises.
   */
  function GetIframeCode(resp: EmbedResponse, responsive: bool := true): (r: Result<string>)
    ensures r.Err? <==> resp == EmbedList([])
    ensures resp.EmbedDict? && responsive && "responsive" in resp.codes ==> r == Ok(resp.codes["responsive"])
    ensures resp.EmbedDict? && !responsive && "static" in resp.codes ==> r == Ok(resp.codes["static"])
    ensures resp.EmbedDict? && (if responsive then "responsive" else "static") !in resp.codes ==> r == Ok("")
  {
    match Normalise(resp)
    case None => Err("'list' object has no attribute 'get'")
    case Some(d) =>
      var key := if responsive then "responsive" else "static";
      Ok(if key in d then d[key] else "")
  }

  /** A non-empty list answers exactly as its first element would on its own. */
  lemma {:induction false} ListAnswersLikeFirst(first: map<string, string>, rest: seq<map<string, string>>, responsive: bool)
    ensures GetIframeCode(EmbedList([first] + rest), responsive) == GetIframeCode(EmbedDict(first), responsive)
  {
    assert ([first] + rest)[0] == first;
  }
}
