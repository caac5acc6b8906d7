/** The user-list endpoint: one case, `getUsers(page:)`, and what it tells the request builder. */
module UserEndpoints {
  import opened Wrappers
  import opened Decimal
  import Endpoint
  import R = URLRequestExtension

  datatype UserEndpoint = GetUsers(page: int) {

    function BaseURL(): string {
      "https://gorest.co.in"
    }

    function Path(): string {
      match this
      case GetUsers(_) => "public/v2/users"
    }

    function Method(): Endpoint.HTTPMethod {
      Endpoint.Get
    }

    function Parameters(): Option<Endpoint.Parameters> {
      match this
      case GetUsers(page) => Some([("page", Endpoint.Integer(page))])
    }

    function Headers(): Option<Endpoint.HTTPHeaders> {
      None
    }

    function Task(): Endpoint.NetworkTask {
      Endpoint.RequestParameters
    }

    function ParametersEncoding(): Option<Endpoint.ParametersEncoding> {
      Some(Endpoint.Url)
    }

    function Media(): Option<seq<Endpoint.Media>> {
      None
    }

    /** The endpoint descriptor the request builder consumes. */
    function AsEndPoint(): Endpoint.EndPoint {
      Endpoint.EndPoint(BaseURL(), Path(), Method(), Parameters(), Headers(), Task(), ParametersEncoding(), Media())
    }
  }

  /**
   * Whatever the page: base URL, path and GET are fixed, the only parameter is
   * "page" with the page number, parameters are url-encoded, and there are no
   * headers and no media.
   */
  lemma GetUsersDescriptor(page: int)
    ensures var e := GetUsers(page).AsEndPoint();
      && e.baseURL == "https://gorest.co.in"
      && e.path == "public/v2/users"
      && e.httpMethod == Endpoint.Get
      && e.parameters == Some([("page", Endpoint.Integer(page))])
      && e.headers == None
      && e.task == Endpoint.RequestParameters
      && e.parametersEncoding == Some(Endpoint.Url)
      && e.media == None
  {
  }

  /**
   * The page travels as the single query item ("page", decimal text of the
   * page), which reads back as the page number when it fits in `Int`; the
   * request has no body and no header fields, and its method is "GET".
   */
  lemma GetUsersRequest(page: int)
    ensures R.MultipartValuesAreStrings(GetUsers(page).AsEndPoint())
    ensures R.QueryItemsFor(GetUsers(page).AsEndPoint()) == Some([R.QueryItem("page", IntText(page))])
    ensures R.BodyFor(GetUsers(page).AsEndPoint()) == None
    ensures GetUsers(page).AsEndPoint().headers == None
    ensures Endpoint.RawValue(GetUsers(page).AsEndPoint().httpMethod) == "GET"
    ensures InIntRange(page) ==> ParseInt(IntText(page)) == Some(page)
  {
    var params: Endpoint.Parameters := [("page", Endpoint.Integer(page))];
    assert params[..0] == [];
    assert R.ExpandQueryItems(params) == [R.QueryItem("page", IntText(page))];
    IntTextRoundTrip(page);
  }

  /** Different pages give different endpoints. */
  lemma GetUsersInjective(p: int, q: int)
    ensures GetUsers(p).AsEndPoint() == GetUsers(q).AsEndPoint() ==> p == q
  {
    if GetUsers(p).AsEndPoint() == GetUsers(q).AsEndPoint() {
      assert GetUsers(p).Parameters().value[0].1 == GetUsers(q).Parameters().value[0].1;
    }
  }
}
