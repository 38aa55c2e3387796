/**
 * The response decision table and request composition of
 * Network/ServerAPI.swift. The JSON decoders are parameters: a decoder
 * returns Some(value) or None where JSONDecoder would throw.
 */
module ServerAPI {
  import opened Optional

  type Bytes = seq<bv8>

  datatype HTTPURLResponse = HTTPURLResponse(statusCode: int)

  /** What Alamofire hands the response handler: the HTTP response and the body, each optional. */
  datatype DataResponse = DataResponse(response: Option<HTTPURLResponse>, data: Option<Bytes>)

  datatype APIResponse<T> = Success(data: Option<T>) | Error(message: string, code: int)

  datatype ErrorResponse = ErrorResponse(code: int)

  const NoHTTPResponse: string := "No HTTP Response"
  const DecodingFailed: string := "Decoding failed"
  const ErrorResponseUndecodable: string := "Failed to decode error response"

  // ---------------------------------------------------------------------
  // String(Int)

  function DigitChar(d: nat): (c: char)
    requires d < 10
    ensures '0' <= c <= '9'
  {
    ('0' as int + d) as char
  }

  predicate IsDigit(c: char) { '0' <= c <= '9' }

  /** The decimal digits of `n`, without leading zeros. */
  function NatToString(n: nat): (s: string)
    ensures |s| > 0 && forall i :: 0 <= i < |s| ==> IsDigit(s[i])
    decreases n
  {
    if n < 10 then [DigitChar(n)] else NatToString(n / 10) + [DigitChar(n % 10)]
  }

  /** Swift's `String(_: Int)`: decimal, with a leading '-' for negative values. */
  function IntToString(i: int): string
  {
    if i < 0 then "-" + NatToString(-i) else NatToString(i)
  }

  function ParseNat(s: string): int
  {
    if s == [] then 0 else ParseNat(s[..|s| - 1]) * 10 + (s[|s| - 1] as int - '0' as int)
  }

  function ParseInt(s: string): int
  {
    if |s| > 0 && s[0] == '-' then -ParseNat(s[1..]) else ParseNat(s)
  }

  lemma {:induction false} NatToStringRoundTrip(n: nat)
    ensures ParseNat(NatToString(n)) == n
    decreases n
  {
    if n >= 10 {
      var s := NatToString(n);
      assert s[..|s| - 1] == NatToString(n / 10);
      NatToStringRoundTrip(n / 10);
    } else {
      assert NatToString(n)[..0] == [];
    }
  }

  /** The message built from an error code gives the code back. */
  lemma IntToStringRoundTrip(i: int)
    ensures ParseInt(IntToString(i)) == i
  {
    if i < 0 {
      assert IntToString(i)[1..] == NatToString(-i);
      NatToStringRoundTrip(-i);
    } else {
      NatToStringRoundTrip(i);
    }
  }

  /** A message made from a code never reads like one of the fixed messages. */
  lemma CodeMessagesAreNotFixedMessages(i: int)
    ensures IntToString(i) != NoHTTPResponse
    ensures IntToString(i) != DecodingFailed
    ensures IntToString(i) != ErrorResponseUndecodable
  {
    var s := IntToString(i);
    assert s[0] == '-' || IsDigit(s[0]);
    assert NoHTTPResponse[0] == 'N' && DecodingFailed[0] == 'D' && ErrorResponseUndecodable[0] == 'F';
  }

  // ---------------------------------------------------------------------
  // createAPIResponse

  function CreateAPIResponse<T>(response: DataResponse, decode: Bytes -> Option<T>,
                                decodeError: Bytes -> Option<ErrorResponse>): (r: APIResponse<T>)
    ensures response.response.None? ==> r == Error(NoHTTPResponse, -1)
    ensures r.Success? ==> response.response.Some? && response.response.value.statusCode == 200
    ensures r.Error? && response.response.Some? ==> r.code == response.response.value.statusCode
    ensures r.Success? && r.data.Some? ==>
              response.data.Some? && |response.data.value| > 0 && decode(response.data.value) == r.data
  {
    match response.response
    case None => Error(NoHTTPResponse, -1)
    case Some(http) =>
      if http.statusCode == 200 then
        if response.data.Some? && |response.data.value| > 0 then
          match decode(response.data.value)
          case Some(decoded) => Success(Some(decoded))
          case None => Error(DecodingFailed, 200)
        else
          Success(None)
      else if response.data.Some? then
        match decodeError(response.data.value)
        case Some(decoded) => Error(IntToString(decoded.code), http.statusCode)
        case None => Error(ErrorResponseUndecodable, http.statusCode)
      else
        Error(ErrorResponseUndecodable, http.statusCode)
  }

  lemma NoResponseIsAnError<T>(data: Option<Bytes>, decode: Bytes -> Option<T>, decodeError: Bytes -> Option<ErrorResponse>)
    ensures CreateAPIResponse(DataResponse(None, data), decode, decodeError) == Error("No HTTP Response", -1)
  {
  }

  lemma OkWithDecodableBody<T>(body: Bytes, decode: Bytes -> Option<T>, decodeError: Bytes -> Option<ErrorResponse>)
    requires |body| > 0 && decode(body).Some?
    ensures CreateAPIResponse(DataResponse(Some(HTTPURLResponse(200)), Some(body)), decode, decodeError)
            == Success(decode(body))
  {
  }

  lemma OkWithUndecodableBody<T>(body: Bytes, decode: Bytes -> Option<T>, decodeError: Bytes -> Option<ErrorResponse>)
    requires |body| > 0 && decode(body).None?
    ensures CreateAPIResponse(DataResponse(Some(HTTPURLResponse(200)), Some(body)), decode, decodeError)
            == Error("Decoding failed", 200)
  {
  }

  lemma OkWithoutBody<T>(data: Option<Bytes>, decode: Bytes -> Option<T>, decodeError: Bytes -> Option<ErrorResponse>)
    requires data.None? || data == Some([])
    ensures CreateAPIResponse(DataResponse(Some(HTTPURLResponse(200)), data), decode, decodeError) == Success(None)
  {
  }

  /** A server error whose body decodes carries the server's code as text; the code reads back. */
  lemma ServerErrorWithCode<T>(status: int, body: Bytes, decode: Bytes -> Option<T>, decodeError: Bytes -> Option<ErrorResponse>)
    requires status != 200 && decodeError(body).Some?
    ensures var r := CreateAPIResponse(DataResponse(Some(HTTPURLResponse(status)), Some(body)), decode, decodeError);
      && r == Error(IntToString(decodeError(body).value.code), status)
      && ParseInt(r.message) == decodeError(body).value.code
  {
    IntToStringRoundTrip(decodeError(body).value.code);
  }

  lemma ServerErrorWithoutCode<T>(status: int, data: Option<Bytes>, decode: Bytes -> Option<T>, decodeError: Bytes -> Option<ErrorResponse>)
    requires status != 200 && (data.None? || decodeError(data.value).None?)
    ensures CreateAPIResponse(DataResponse(Some(HTTPURLResponse(status)), data), decode, decodeError)
            == Error("Failed to decode error response", status)
  {
  }

  // ---------------------------------------------------------------------
  // Requests

  datatype HTTPMethod = OPTIONS | GET | HEAD | POST | PUT | PATCH | DELETE | TRACE | CONNECT

  /** The endpoints the client knows. */
  datatype Method = Login

  function Uri(m: Method): string
  {
    match m
    case Login => "login"
  }

  function MethodType(m: Method): HTTPMethod
  {
    match m
    case Login => POST
  }

  const BaseURL: string := "http://ec2-18-222-129-187.us-east-2.compute.amazonaws.com:8282/api/"

  /** What `makeRequest` hands to Alamofire: URL, method, parameters and (empty) headers, URL-encoded. */
  datatype Request = Request(url: string, httpMethod: HTTPMethod, parameters: map<string, string>,
                             headers: map<string, string>)

  function MakeRequest(m: Method, parameters: map<string, string>): (r: Request)
    ensures |r.url| > |BaseURL| && r.url[..|BaseURL|] == BaseURL && r.url[|BaseURL|..] == Uri(m)
    ensures r.httpMethod == MethodType(m) && r.parameters == parameters && r.headers == map[]
  {
    Request(BaseURL + Uri(m), MethodType(m), parameters, map[])
  }

  function LoginRequest(token: string): Request
  {
    MakeRequest(Login, map["token" := token])
  }

  /** Logging in posts the token to `<base>/login`. */
  lemma LoginRequestShape(token: string)
    ensures var r := LoginRequest(token);
      && r.url == "http://ec2-18-222-129-187.us-east-2.compute.amazonaws.com:8282/api/login"
      && r.httpMethod == POST
      && r.parameters == map["token" := token]
      && r.headers == map[]
  {
  }
}
