/**
 * Building a request from an endpoint: the query items of the URL, the
 * multipart/form-data body (part layout of section 4.2 of RFC 7578, delimiter
 * lines of section 5.1.1 of RFC 2046), and the choice of method, headers and
 * body. Text and bytes are both sequences of characters here.
 */
module URLRequestExtension {
  import opened Wrappers
  import opened Decimal
  import opened Endpoint

  const LineBreak: string := "\r\n"

  // ---------------------------------------------------------------------------
  // Multipart body

  /** Every parameter value is a string (the body builder force-casts each one). */
  predicate AllStringValues(params: Parameters) {
    forall i :: 0 <= i < |params| ==> params[i].1.Str?
  }

  /** The delimiter line that opens every part. */
  function DelimiterLine(boundary: string): string {
    "--" + boundary + LineBreak
  }

  /** The header of a form field, followed by the blank line. */
  function FieldHeader(key: string): string {
    "Content-Disposition: form-data; name=\"" + key + "\"" + LineBreak + LineBreak
  }

  /** The headers of a file part, followed by the blank line. */
  function FileHeader(m: Media): string {
    "Content-Disposition: form-data; name=\"" + m.key + "\"; filename=\"" + m.filename + "\"" + LineBreak
    + "Content-Type: " + m.mimeType + LineBreak + LineBreak
  }

  /** The form field written for the parameter `key` = `value`. */
  function ParameterPart(boundary: string, key: string, value: string): string {
    DelimiterLine(boundary) + FieldHeader(key) + value + LineBreak
  }

  /** The file part written for one media item. */
  function MediaPart(boundary: string, m: Media): string {
    DelimiterLine(boundary) + FileHeader(m) + m.data + LineBreak
  }

  /** The close delimiter that ends the body. */
  function ClosingDelimiter(boundary: string): string {
    "--" + boundary + "--" + LineBreak
  }

  /** The form fields of all parameters, in iteration order. */
  function ParameterParts(params: Parameters, boundary: string): string
    requires AllStringValues(params)
  {
    if params == [] then ""
    else
      var last := params[|params| - 1];
      ParameterParts(params[..|params| - 1], boundary) + ParameterPart(boundary, last.0, last.1.s)
  }

  /** The file parts of all media, in input order. */
  function MediaParts(media: seq<Media>, boundary: string): string {
    if media == [] then ""
    else MediaParts(media[..|media| - 1], boundary) + MediaPart(boundary, media[|media| - 1])
  }

  /** The whole body: every parameter part, then every media part, then the close delimiter. */
  function MultipartBody(params: Option<Parameters>, media: seq<Media>, boundary: string): string
    requires params.Some? ==> AllStringValues(params.value)
  {
    (if params.Some? then ParameterParts(params.value, boundary) else "")
    + MediaParts(media, boundary)
    + ClosingDelimiter(boundary)
  }

  /** The body builder: appends the parameter parts, the media parts and the close delimiter. */
  method CreateDataBody(params: Option<Parameters>, media: seq<Media>, boundary: string) returns (body: seq<char>)
    requires params.Some? ==> AllStringValues(params.value)
    ensures body == MultipartBody(params, media, boundary)
  {
    body := "";
    if params.Some? {
      var parameters := params.value;
      var i := 0;
      while i < |parameters|
        invariant 0 <= i <= |parameters|
        invariant AllStringValues(parameters[..i])
        invariant body == ParameterParts(parameters[..i], boundary)
      {
        var key := parameters[i].0;
        var value := parameters[i].1;
        ParameterPartsStep(parameters, i, boundary);
        body := body + ParameterPart(boundary, key, value.s);
        i := i + 1;
      }
      assert parameters[..|parameters|] == parameters;
    }
    ghost var prefix := body;
    var j := 0;
    while j < |media|
      invariant 0 <= j <= |media|
      invariant body == prefix + MediaParts(media[..j], boundary)
    {
      var photo := media[j];
      MediaPartsStep(media, j, boundary);
      ConcatAssoc(prefix, MediaParts(media[..j], boundary), MediaPart(boundary, photo));
      body := body + MediaPart(boundary, photo);
      j := j + 1;
    }
    assert media[..|media|] == media;
    body := body + ClosingDelimiter(boundary);
  }

  lemma ConcatAssoc<X>(a: seq<X>, b: seq<X>, c: seq<X>)
    ensures (a + b) + c == a + (b + c)
  {
  }

  /** One more parameter adds its form field after those of the earlier ones. */
  lemma ParameterPartsStep(params: Parameters, i: nat, boundary: string)
    requires AllStringValues(params) && i < |params|
    ensures AllStringValues(params[..i]) && AllStringValues(params[..i + 1])
    ensures ParameterParts(params[..i + 1], boundary)
         == ParameterParts(params[..i], boundary) + ParameterPart(boundary, params[i].0, params[i].1.s)
  {
    assert params[..i + 1][..i] == params[..i];
  }

  /** One more media item adds its file part after those of the earlier ones. */
  lemma MediaPartsStep(media: seq<Media>, j: nat, boundary: string)
    requires j < |media|
    ensures MediaParts(media[..j + 1], boundary) == MediaParts(media[..j], boundary) + MediaPart(boundary, media[j])
  {
    assert media[..j + 1][..j] == media[..j];
  }

  /** Parameter parts keep the parameters' order: the parts of `p + q` are those of `p`, then those of `q`. */
  lemma {:induction false} ParameterPartsAppend(p: Parameters, q: Parameters, boundary: string)
    requires AllStringValues(p) && AllStringValues(q)
    ensures AllStringValues(p + q)
    ensures ParameterParts(p + q, boundary) == ParameterParts(p, boundary) + ParameterParts(q, boundary)
    decreases |q|
  {
    if q == [] {
      assert p + q == p;
    } else {
      var q', x := q[..|q| - 1], q[|q| - 1];
      assert (p + q)[..|p + q| - 1] == p + q';
      assert (p + q)[|p + q| - 1] == x;
      ParameterPartsAppend(p, q', boundary);
      ConcatAssoc(ParameterParts(p, boundary), ParameterParts(q', boundary), ParameterPart(boundary, x.0, x.1.s));
    }
  }

  /** Media parts keep the input order. */
  lemma {:induction false} MediaPartsAppend(m: seq<Media>, n: seq<Media>, boundary: string)
    ensures MediaParts(m + n, boundary) == MediaParts(m, boundary) + MediaParts(n, boundary)
    decreases |n|
  {
    if n == [] {
      assert m + n == m;
    } else {
      var n', x := n[..|n| - 1], n[|n| - 1];
      assert (m + n)[..|m + n| - 1] == m + n';
      assert (m + n)[|m + n| - 1] == x;
      MediaPartsAppend(m, n', boundary);
      ConcatAssoc(MediaParts(m, boundary), MediaParts(n', boundary), MediaPart(boundary, x));
    }
  }

  /** Whatever the parameters and media, the body ends with the close delimiter `--B--` and a line break. */
  lemma MultipartBodyEndsWithClosing(params: Option<Parameters>, media: seq<Media>, boundary: string)
    requires params.Some? ==> AllStringValues(params.value)
    ensures |MultipartBody(params, media, boundary)| >= |ClosingDelimiter(boundary)|
    ensures var body := MultipartBody(params, media, boundary);
      body[|body| - |ClosingDelimiter(boundary)|..] == ClosingDelimiter(boundary)
  {
    var parts := (if params.Some? then ParameterParts(params.value, boundary) else "") + MediaParts(media, boundary);
    assert MultipartBody(params, media, boundary) == parts + ClosingDelimiter(boundary);
  }

  /** One string parameter gives exactly its form field; no parameters and no media give the close delimiter alone. */
  lemma MultipartSingleParts(key: string, value: string, m: Media, boundary: string)
    ensures ParameterParts([(key, Str(value))], boundary) == ParameterPart(boundary, key, value)
    ensures MediaParts([m], boundary) == MediaPart(boundary, m)
    ensures MultipartBody(None, [], boundary) == ClosingDelimiter(boundary)
    ensures MultipartBody(Some([]), [], boundary) == ClosingDelimiter(boundary)
  {
    assert [(key, Str(value))][..0] == [];
    assert [m][..0] == [];
  }

  // ---------------------------------------------------------------------------
  // Query items

  datatype QueryItem = QueryItem(name: string, value: string)

  /** One item per string of an array value, each under the parameter's key. */
  function StringItems(key: string, strings: seq<string>): seq<QueryItem> {
    if strings == [] then []
    else StringItems(key, strings[..|strings| - 1]) + [QueryItem(key, strings[|strings| - 1])]
  }

  /** The items one parameter contributes: one per string for an array, else one with the value's text. */
  function ParameterItems(key: string, value: ParamValue): seq<QueryItem> {
    match value
    case Strings(strings) => StringItems(key, strings)
    case Str(s) => [QueryItem(key, s)]
    case Integer(n) => [QueryItem(key, IntText(n))]
  }

  /** The items of all parameters, in iteration order. */
  function ExpandQueryItems(params: Parameters): seq<QueryItem> {
    if params == [] then []
    else
      var last := params[|params| - 1];
      ExpandQueryItems(params[..|params| - 1]) + ParameterItems(last.0, last.1)
  }

  /** How many items a parameter contributes. */
  function Contribution(value: ParamValue): nat {
    if value.Strings? then |value.items| else 1
  }

  function TotalContribution(params: Parameters): nat {
    if params == [] then 0
    else TotalContribution(params[..|params| - 1]) + Contribution(params[|params| - 1].1)
  }

  /** Query items are set only for url-encoded request parameters that exist. */
  function QueryItemsFor(e: EndPoint): Option<seq<QueryItem>> {
    if e.task.RequestParameters? && e.parametersEncoding == Some(Url) && e.parameters.Some?
    then Some(ExpandQueryItems(e.parameters.value))
    else None
  }

  /** The parts of the URL: the base, the path component appended when non-empty, and the query items. */
  datatype URLComponents = URLComponents(baseURL: string, pathComponent: Option<string>, queryItems: Option<seq<QueryItem>>)

  /** Builds the URL parts of an endpoint. */
  method MakeURLComponents(endpoint: EndPoint) returns (c: URLComponents)
    ensures c.baseURL == endpoint.baseURL
    ensures c.pathComponent == if endpoint.path == "" then None else Some(endpoint.path)
    ensures c.queryItems == QueryItemsFor(endpoint)
  {
    var pathComponent := if endpoint.path != "" then Some(endpoint.path) else None;
    c := URLComponents(endpoint.baseURL, pathComponent, None);
    if !(endpoint.task.RequestParameters? && endpoint.parametersEncoding == Some(Url) && endpoint.parameters.Some?) {
      return;
    }
    var tempQueryItems := MakeQueryItems(endpoint.parameters.value);
    c := c.(queryItems := Some(tempQueryItems));
  }

  /** The nested loop that expands the parameters into query items. */
  method MakeQueryItems(parameters: Parameters) returns (tempQueryItems: seq<QueryItem>)
    ensures tempQueryItems == ExpandQueryItems(parameters)
  {
    tempQueryItems := [];
    var i := 0;
    while i < |parameters|
      invariant 0 <= i <= |parameters|
      invariant tempQueryItems == ExpandQueryItems(parameters[..i])
    {
      var key := parameters[i].0;
      var value := parameters[i].1;
      ghost var before := tempQueryItems;
      if value.Strings? {
        tempQueryItems := AppendStringItems(tempQueryItems, key, value.items);
      } else {
        var text := if value.Str? then value.s else IntText(value.i);
        tempQueryItems := tempQueryItems + [QueryItem(key, text)];
      }
      assert tempQueryItems == before + ParameterItems(key, value);
      ExpandQueryItemsStep(parameters, i);
      i := i + 1;
    }
    assert parameters[..|parameters|] == parameters;
  }

  /** The inner loop: one item per string of an array value, under its key. */
  method AppendStringItems(items: seq<QueryItem>, key: string, strings: seq<string>) returns (result: seq<QueryItem>)
    ensures result == items + StringItems(key, strings)
  {
    result := items;
    var j := 0;
    while j < |strings|
      invariant 0 <= j <= |strings|
      invariant result == items + StringItems(key, strings[..j])
    {
      StringItemsStep(key, strings, j);
      ConcatAssoc(items, StringItems(key, strings[..j]), [QueryItem(key, strings[j])]);
      result := result + [QueryItem(key, strings[j])];
      j := j + 1;
    }
    assert strings[..|strings|] == strings;
  }

  /** One more string adds its item after those of the earlier strings. */
  lemma StringItemsStep(key: string, strings: seq<string>, j: nat)
    requires j < |strings|
    ensures StringItems(key, strings[..j + 1]) == StringItems(key, strings[..j]) + [QueryItem(key, strings[j])]
  {
    assert strings[..j + 1][..j] == strings[..j];
  }

  /** One more parameter adds its items after those of the earlier parameters. */
  lemma ExpandQueryItemsStep(params: Parameters, i: nat)
    requires i < |params|
    ensures ExpandQueryItems(params[..i + 1]) == ExpandQueryItems(params[..i]) + ParameterItems(params[i].0, params[i].1)
  {
    assert params[..i + 1][..i] == params[..i];
  }

  /** An array value gives one item per element, under the same key and in element order. */
  lemma {:induction false} StringItemsAt(key: string, strings: seq<string>)
    ensures |StringItems(key, strings)| == |strings|
    ensures forall k :: 0 <= k < |strings| ==> StringItems(key, strings)[k] == QueryItem(key, strings[k])
    decreases |strings|
  {
    if strings != [] {
      StringItemsAt(key, strings[..|strings| - 1]);
    }
  }

  /** The number of query items is the sum of the parameters' contributions. */
  lemma {:induction false} ExpandQueryItemsCount(params: Parameters)
    ensures |ExpandQueryItems(params)| == TotalContribution(params)
    decreases |params|
  {
    if params != [] {
      var last := params[|params| - 1];
      ExpandQueryItemsCount(params[..|params| - 1]);
      if last.1.Strings? {
        StringItemsAt(last.0, last.1.items);
      }
    }
  }

  /** Every query item is named after some parameter's key. */
  lemma {:induction false} ExpandQueryItemsNames(params: Parameters)
    ensures forall k :: 0 <= k < |ExpandQueryItems(params)| ==>
      exists j :: 0 <= j < |params| && params[j].0 == ExpandQueryItems(params)[k].name
    decreases |params|
  {
    if params != [] {
      var init := params[..|params| - 1];
      var last := params[|params| - 1];
      ExpandQueryItemsNames(init);
      var items := ExpandQueryItems(params);
      var front := ExpandQueryItems(init);
      assert items == front + ParameterItems(last.0, last.1);
      if last.1.Strings? {
        StringItemsAt(last.0, last.1.items);
      }
      forall k | 0 <= k < |items|
        ensures exists j :: 0 <= j < |params| && params[j].0 == items[k].name
      {
        if k < |front| {
          var j :| 0 <= j < |init| && init[j].0 == front[k].name;
          assert params[j] == init[j];
        } else {
          assert items[k] == ParameterItems(last.0, last.1)[k - |front|];
          assert params[|params| - 1].0 == items[k].name;
        }
      }
    } else {
      assert ExpandQueryItems(params) == [];
    }
  }

  // ---------------------------------------------------------------------------
  // The request

  /** What the request body holds: the parameters serialised as a JSON object, or multipart data. */
  datatype HTTPBody = JsonBody(jsonObject: Parameters) | MultipartData(bytes: seq<char>)

  datatype URLRequest = URLRequest(url: URLComponents, httpMethod: string, headerFields: HTTPHeaders, httpBody: Option<HTTPBody>)

  /** The multipart branch force-casts every parameter value to a string. */
  predicate MultipartValuesAreStrings(e: EndPoint) {
    e.task.UploadMultipart? && e.media.Some? && e.parameters.Some? ==> AllStringValues(e.parameters.value)
  }

  /** The body chosen for an endpoint. */
  function BodyFor(e: EndPoint): Option<HTTPBody>
    requires MultipartValuesAreStrings(e)
  {
    if e.task.RequestParameters? && e.parametersEncoding == Some(Json) && e.parameters.Some? then
      Some(JsonBody(e.parameters.value))
    else if e.task.UploadMultipart? && e.media.Some? then
      Some(MultipartData(MultipartBody(e.parameters, e.media.value, e.task.boundary)))
    else
      None
  }

  /** Builds the request: URL, method raw value, every header pair in order, and the chosen body. */
  method MakeRequest(endpoint: EndPoint) returns (request: URLRequest)
    requires MultipartValuesAreStrings(endpoint)
    ensures request.url.baseURL == endpoint.baseURL
    ensures request.url.pathComponent == if endpoint.path == "" then None else Some(endpoint.path)
    ensures request.url.queryItems == QueryItemsFor(endpoint)
    ensures request.httpMethod == RawValue(endpoint.httpMethod)
    ensures request.headerFields == if endpoint.headers.Some? then endpoint.headers.value else []
    ensures request.httpBody == BodyFor(endpoint)
  {
    var urlComponents := MakeURLComponents(endpoint);
    var fields: HTTPHeaders := [];
    if endpoint.headers.Some? {
      var headers := endpoint.headers.value;
      var i := 0;
      while i < |headers|
        invariant 0 <= i <= |headers|
        invariant fields == headers[..i]
      {
        fields := fields + [headers[i]];
        i := i + 1;
      }
    }
    var body: Option<HTTPBody> := None;
    if endpoint.task.RequestParameters? && endpoint.parametersEncoding == Some(Json) && endpoint.parameters.Some? {
      body := Some(JsonBody(endpoint.parameters.value));
    } else if endpoint.task.UploadMultipart? && endpoint.media.Some? {
      var data := CreateDataBody(endpoint.parameters, endpoint.media.value, endpoint.task.boundary);
      body := Some(MultipartData(data));
    }
    request := URLRequest(urlComponents, RawValue(endpoint.httpMethod), fields, body);
  }

  /**
   * A JSON body exactly for json-encoded request parameters that exist; a
   * multipart body exactly for an upload with media; otherwise none. Query
   * items and a body never go together.
   */
  lemma BodySelection(e: EndPoint)
    requires MultipartValuesAreStrings(e)
    ensures (BodyFor(e).Some? && BodyFor(e).value.JsonBody?) <==>
      e.task.RequestParameters? && e.parametersEncoding == Some(Json) && e.parameters.Some?
    ensures BodyFor(e).Some? && BodyFor(e).value.JsonBody? ==> BodyFor(e).value.jsonObject == e.parameters.value
    ensures (BodyFor(e).Some? && BodyFor(e).value.MultipartData?) <==> e.task.UploadMultipart? && e.media.Some?
    ensures BodyFor(e).None? <==>
      !(e.task.RequestParameters? && e.parametersEncoding == Some(Json) && e.parameters.Some?)
      && !(e.task.UploadMultipart? && e.media.Some?)
    ensures QueryItemsFor(e).Some? ==> BodyFor(e).None?
  {
  }
}
