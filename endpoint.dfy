/**
 * The declarations every endpoint is described by: the HTTP method, the body
 * mode, the parameter encoding, the parameter map and attached media.
 * The parameter map's dynamic values are replaced by a closed value type, and
 * its unordered dictionary by an explicit sequence of key/value pairs (the
 * order in which the map happens to be iterated).
 */
module Endpoint {
  import opened Wrappers

  datatype HTTPMethod = Post | Get | Delete | Put

  /** The method's raw value, as sent on the wire: an upper-case word. */
  function RawValue(m: HTTPMethod): (r: string)
    ensures |r| >= 3
    ensures forall k :: 0 <= k < |r| ==> 'A' <= r[k] <= 'Z'
  {
    match m
    case Post => "POST"
    case Get => "GET"
    case Delete => "DELETE"
    case Put => "PUT"
  }

  /** Raw values are unique, so the wire name identifies the method. */
  lemma RawValueInjective(a: HTTPMethod, b: HTTPMethod)
    ensures RawValue(a) == RawValue(b) <==> a == b
  {
    if a != b {
      assert RawValue(a)[0] != RawValue(b)[0] || RawValue(a)[1] != RawValue(b)[1];
    }
  }

  datatype NetworkTask = RequestPlain | RequestParameters | UploadMultipart(boundary: string)

  datatype ParametersEncoding = Url | Json

  /** A parameter value: a string, an integer or an array of strings. */
  datatype ParamValue = Str(s: string) | Integer(i: int) | Strings(items: seq<string>)

  type Parameters = seq<(string, ParamValue)>

  type HTTPHeaders = seq<(string, string)>

  /** A file part of a multipart upload; `data` holds its bytes, one character per byte. */
  datatype Media = Media(key: string, filename: string, data: seq<char>, mimeType: string)

  /** What an endpoint tells the request builder. */
  datatype EndPoint = EndPoint(
    baseURL: string,
    path: string,
    httpMethod: HTTPMethod,
    parameters: Option<Parameters>,
    headers: Option<HTTPHeaders>,
    task: NetworkTask,
    parametersEncoding: Option<ParametersEncoding>,
    media: Option<seq<Media>>)
}
