/** Services/Back4AppService.swift: sign-up and log-in against the Parse REST API
    hosted on Back4App. The requests are values; the HTTP exchange is an input
    whose body is given as the service's decoders see it. */
module Back4App {
  import opened Basics

  datatype Back4AppError =
    | BadStatus(status: int, message: string)
    | InvalidResponse
    | Decoding(detail: string)
    | Network(message: string)

  /** `errorDescription`: a bad status is described by its message alone. */
  function Description(e: Back4AppError): string {
    match e
    case BadStatus(_, m) => m
    case InvalidResponse => "Invalid server response."
    case Decoding(m) => "Decoding error: " + m
    case Network(m) => "Network error: " + m
  }

  /** `ParseUser`: only `objectId` is required. */
  datatype ParseUser = ParseUser(
    objectId: string,
    username: Option<string>,
    email: Option<string>,
    sessionToken: Option<string>,
    name: Option<string>,
    createdAt: Option<string>,
    updatedAt: Option<string>)

  /** Parse's `{ "code", "error" }` error body. */
  datatype ParseErrorResponse = ParseErrorResponse(code: int, error: string)

  /** A response body as the service reads it: its text if it is UTF-8, its
      decoding as a Parse error body, and its decoding as a `ParseUser` (on
      failure, the decoder's error rendered as text). */
  datatype Body = Body(utf8: Option<string>, asError: Option<ParseErrorResponse>, asUser: Result<ParseUser, string>)

  datatype Response =
    | TransportError(description: string)   // URLSession threw
    | NonHttp                               // the response is not an HTTPURLResponse
    | Http(status: int, body: Body)

  datatype Method = Get | Post

  /** The parts of a request the service chooses: method, path, query items
      in order, and the JSON body's string fields. */
  datatype Request = Request(httpMethod: Method, path: string, query: seq<(string, string)>, body: map<string, string>)

  /** `registerUser`: POST /users with the email doubling as username. */
  function RegisterRequest(name: string, email: string, password: string): (r: Request)
    ensures r.httpMethod == Post && r.path == "/users" && r.query == []
    ensures r.body.Keys == {"username", "password", "email", "name"}
    ensures r.body["username"] == email && r.body["email"] == email
    ensures r.body["password"] == password && r.body["name"] == name
  {
    Request(Post, "/users", [], map["username" := email, "password" := password, "email" := email, "name" := name])
  }

  /** `login`: GET /login with the credentials as query items. */
  function LoginRequest(usernameOrEmail: string, password: string): (r: Request)
    ensures r.httpMethod == Get && r.path == "/login" && r.body == map[]
    ensures r.query == [("username", usernameOrEmail), ("password", password)]
  {
    Request(Get, "/login", [("username", usernameOrEmail), ("password", password)], map[])
  }

  /** `perform`: a 2xx body, or the error it maps to. A non-2xx status carries
      Parse's error text when the body is a Parse error, else the body's text,
      else "Unknown error"; anything URLSession throws becomes `network`. */
  function Perform(response: Response): (r: Result<Body, Back4AppError>)
    ensures r.Ok? <==> response.Http? && IsSuccessStatus(response.status)
    ensures r.Ok? ==> r.value == response.body
    ensures response.TransportError? ==> r == Err(Network(response.description))
    ensures response.NonHttp? ==> r == Err(InvalidResponse)
    ensures response.Http? && !IsSuccessStatus(response.status) ==>
      && r.Err? && r.error.BadStatus? && r.error.status == response.status
      && (response.body.asError.Some? ==> r.error.message == response.body.asError.value.error)
      && (response.body.asError.None? && response.body.utf8.Some? ==> r.error.message == response.body.utf8.value)
      && (response.body.asError.None? && response.body.utf8.None? ==> r.error.message == "Unknown error")
  {
    match response
    case TransportError(d) => Err(Network(d))
    case NonHttp => Err(InvalidResponse)
    case Http(status, body) =>
      if IsSuccessStatus(status) then Ok(body)
      else if body.asError.Some? then Err(BadStatus(status, body.asError.value.error))
      else if body.utf8.Some? then Err(BadStatus(status, body.utf8.value))
      else Err(BadStatus(status, "Unknown error"))
  }

  /** `decode(ParseUser.self, ...)`: a decoding failure carries the decoder's
      error and the raw text. */
  function DecodeUser(body: Body): (r: Result<ParseUser, Back4AppError>)
    ensures r.Ok? <==> body.asUser.Ok?
    ensures r.Ok? ==> r.value == body.asUser.value
    ensures r.Err? ==> r.error == Decoding(body.asUser.error + " | raw: " + (if body.utf8.Some? then body.utf8.value else ""))
  {
    match body.asUser
    case Ok(u) => Ok(u)
    case Err(d) => Err(Decoding(d + " | raw: " + (if body.utf8.Some? then body.utf8.value else "")))
  }

  /** One call of `registerUser` or `login` after its request is built. */
  function Exchange(response: Response): Result<ParseUser, Back4AppError> {
    var body :- Perform(response);
    DecodeUser(body)
  }

  /** A call succeeds exactly on a 2xx response whose body decodes as a user;
      a rejected call shows Parse's own message to the user; and every other
      failure is described with a prefix naming its kind. */
  lemma ExchangeSpec(response: Response)
    ensures Exchange(response).Ok?
            <==> response.Http? && IsSuccessStatus(response.status) && response.body.asUser.Ok?
    ensures Exchange(response).Ok? ==> Exchange(response).value == response.body.asUser.value
    ensures response.Http? && !IsSuccessStatus(response.status) && response.body.asError.Some? ==>
      Description(Exchange(response).error) == response.body.asError.value.error
    ensures response.TransportError? ==>
      Description(Exchange(response).error) == "Network error: " + response.description
    ensures response.Http? && IsSuccessStatus(response.status) && response.body.asUser.Err? ==>
      var d := Description(Exchange(response).error);
      |d| >= 16 && d[..16] == "Decoding error: "
  {
  }
}
