/**
 * The login sheet of LoginView.swift as functions over values: which
 * completions getMattermostAuthToken fires for a server response, and what
 * loginUser's completion, cancel and cancelRequest do to the sheet's state and
 * to the state it shares with the main view (`host`: the stored credentials,
 * the sheet's presentation flag and the main view's error alert).
 *
 * The network, JSON parsing and the HTTP header lookup are not modelled: a
 * response arrives already classified as a LoginResponse.
 */
module LoginFlow {
  import opened Wrappers
  import Endpoints
  import StatusSync

  /** An NSError: its code and its localised description. */
  datatype LoginError = LoginError(code: int, description: string)

  /** URLSession's code for a task cancelled by the user. */
  const CancelledCode := -999
  /** The code of the errors the handler makes itself. */
  const ApiErrorCode := 1
  const MissingTokenMessage := "Token not found in the header"

  datatype LoginResult = Success(data: map<string, string>) | Failure(error: LoginError)

  /**
   * The body after JSONSerialization: it fails to parse, parses to something
   * other than a dictionary, or is a dictionary whose "message" and "id"
   * entries are given where they are strings.
   */
  datatype JsonBody = Malformed(error: LoginError) | NotAnObject | Object(message: Option<string>, id: Option<string>)

  /** What the data task's handler receives: a transport error, a response
      that is not HTTP, or an HTTP response with its "Token" header (when it is
      a string) and its body (when there is one). */
  datatype LoginResponse =
    | TransportFailed(error: LoginError)
    | NotHttp
    | HttpReply(token: Option<string>, data: Option<JsonBody>)

  /** The data task: the login URL and the JSON body fields. */
  datatype LoginRequest = LoginRequest(url: string, loginId: string, password: string, cancelled: bool)

  datatype LoginState = LoginState(
    isLoading: bool,
    currentDataTask: Option<LoginRequest>,
    loginError: Option<LoginError>,
    showLoginAlert: bool,
    username: string,
    password: string,
    host: StatusSync.ViewState)

  /** The completions the data task's handler fires, in order. */
  function Completions(resp: LoginResponse): seq<LoginResult> {
    match resp
    case TransportFailed(e) => [Failure(e)]
    case NotHttp => []
    case HttpReply(token, data) =>
      match data
      case None => []
      case Some(Malformed(e)) => [Failure(e)]
      case Some(NotAnObject) => []
      case Some(Object(message, id)) =>
        if message.Some? then [Failure(LoginError(ApiErrorCode, message.value))]
        else if id.None? then []
        else if token.Some? then [Success(map["authToken" := token.value, "userId" := id.value])]
        else [Failure(LoginError(ApiErrorCode, MissingTokenMessage)), Success(map["userId" := id.value])]
  }

  /** `data[key] ?? ""` */
  function Lookup(data: map<string, string>, key: string): string {
    if key in data then data[key] else ""
  }

  /** cancelRequest: stop the spinner and cancel the data task, if any. */
  function CancelRequest(s: LoginState): LoginState {
    s.(isLoading := false,
       currentDataTask := match s.currentDataTask
         case None => None
         case Some(task) => Some(task.(cancelled := true)))
  }

  /** cancel: cancelRequest, then dismiss the sheet. */
  function Cancel(s: LoginState): LoginState {
    var c := CancelRequest(s);
    c.(host := c.host.(showLoginSheet := false))
  }

  /** The completion closure that loginUser hands to getMattermostAuthToken. */
  function Complete(s: LoginState, r: LoginResult): LoginState {
    match r
    case Success(data) =>
      s.(isLoading := false,
         host := s.host.(mattermostAuthToken := Lookup(data, "authToken"),
                         mattermostUserId := Lookup(data, "userId"),
                         showLoginSheet := false))
    case Failure(e) =>
      var c := CancelRequest(s);
      if e.code != CancelledCode then c.(loginError := Some(e), showLoginAlert := !c.showLoginAlert)
      else c
  }

  function CompleteAll(s: LoginState, rs: seq<LoginResult>): LoginState
    decreases |rs|
  {
    if rs == [] then s else CompleteAll(Complete(s, rs[0]), rs[1..])
  }

  /** A single completion. */
  lemma CompleteAllOne(s: LoginState, a: LoginResult)
    ensures CompleteAll(s, [a]) == Complete(s, a)
  {
    assert [a][1..] == [];
  }

  /** Two completions in a row. */
  lemma CompleteAllTwo(s: LoginState, a: LoginResult, b: LoginResult)
    ensures CompleteAll(s, [a, b]) == Complete(Complete(s, a), b)
  {
    assert [a, b][1..] == [b];
    CompleteAllOne(Complete(s, a), b);
  }

  /** getMattermostAuthToken up to starting the data task; `encodeError` is
      the error JSON encoding of the credentials threw, if it did. */
  function RequestToken(s: LoginState, encodeError: Option<LoginError>): LoginState {
    match Endpoints.LoginUrl(s.host.mattermostServer)
    case None => s.(host := s.host.(currentError := StatusSync.ServerUrl, showAlert := true))
    case Some(url) =>
      if encodeError.Some? then Complete(s, Failure(encodeError.value))
      else s.(currentDataTask := Some(LoginRequest(url, s.username, s.password, false)))
  }

  /** loginUser: show the spinner and ask for a token. */
  function LoginUser(s: LoginState, encodeError: Option<LoginError>): LoginState {
    RequestToken(s.(isLoading := true), encodeError)
  }

  /** The data task's completion handler. */
  function ResponseArrived(s: LoginState, resp: LoginResponse): LoginState {
    CompleteAll(s, Completions(resp))
  }

  // ---------------------------------------------------------------- completions

  /** The responses for which the handler fires no completion at all. */
  predicate Silent(resp: LoginResponse) {
    || resp.NotHttp?
    || (resp.HttpReply? && resp.data.None?)
    || (resp.HttpReply? && resp.data == Some(NotAnObject))
    || (resp.HttpReply? && resp.data.Some? && resp.data.value.Object?
        && resp.data.value.message.None? && resp.data.value.id.None?)
  }

  /** The response with a user id but no token header. */
  predicate MissingToken(resp: LoginResponse) {
    resp.HttpReply? && resp.token.None? && resp.data.Some? && resp.data.value.Object?
    && resp.data.value.message.None? && resp.data.value.id.Some?
  }

  /** No completion exactly for the silent responses, two exactly when the
      token header is missing, one otherwise. */
  lemma CompletionCount(resp: LoginResponse)
    ensures |Completions(resp)| == 0 <==> Silent(resp)
    ensures |Completions(resp)| == 2 <==> MissingToken(resp)
    ensures |Completions(resp)| <= 2
  {
  }

  /** A transport error fires exactly one failure, carrying that error. */
  lemma TransportErrorFailsOnce(e: LoginError)
    ensures Completions(TransportFailed(e)) == [Failure(e)]
  {
  }

  /** A "message" string wins over an "id" and over the token header. */
  lemma MessageTakesPrecedence(token: Option<string>, m: string, id: Option<string>)
    ensures Completions(HttpReply(token, Some(Object(Some(m), id)))) == [Failure(LoginError(ApiErrorCode, m))]
  {
  }

  // ---------------------------------------------------------------- effects

  /** A silent response leaves everything as it was: the spinner keeps
      spinning until the user taps it away. */
  lemma SilentResponseChangesNothing(s: LoginState, resp: LoginResponse)
    requires Silent(resp)
    ensures ResponseArrived(s, resp) == s
  {
  }

  /** An id with a token logs in: both are stored, the spinner stops, the
      sheet closes, and no alert is raised. */
  lemma TokenLogsIn(s: LoginState, token: string, id: string)
    ensures var t := ResponseArrived(s, HttpReply(Some(token), Some(Object(None, Some(id)))));
      t.host == s.host.(mattermostAuthToken := token, mattermostUserId := id, showLoginSheet := false)
      && !t.isLoading && t.showLoginAlert == s.showLoginAlert && t.loginError == s.loginError
  {
    CompleteAllOne(s, Success(map["authToken" := token, "userId" := id]));
  }

  /** An id without a token: first a failure (alert toggled, task cancelled),
      then a success that stores the id, an empty token, and closes the sheet. */
  lemma MissingTokenCompletesTwice(s: LoginState, id: string)
    ensures var t := ResponseArrived(s, HttpReply(None, Some(Object(None, Some(id)))));
      t.host == s.host.(mattermostAuthToken := "", mattermostUserId := id, showLoginSheet := false)
      && !t.isLoading && t.showLoginAlert == !s.showLoginAlert
      && t.loginError == Some(LoginError(ApiErrorCode, MissingTokenMessage))
      && t.currentDataTask == CancelRequest(s).currentDataTask
  {
    CompleteAllTwo(s, Failure(LoginError(ApiErrorCode, MissingTokenMessage)), Success(map["userId" := id]));
  }

  /** A rejected login keeps the stored credentials and the sheet, stops the
      spinner and toggles the alert with the server's message. */
  lemma MessageRejectsLogin(s: LoginState, token: Option<string>, m: string, id: Option<string>)
    ensures var t := ResponseArrived(s, HttpReply(token, Some(Object(Some(m), id))));
      t.host == s.host && !t.isLoading
      && t.loginError == Some(LoginError(ApiErrorCode, m)) && t.showLoginAlert == !s.showLoginAlert
  {
    CompleteAllOne(s, Failure(LoginError(ApiErrorCode, m)));
  }

  /** A failure is reported unless its code is the user's cancel (-999); in
      both cases the spinner stops and the sheet stays. */
  lemma FailureAlertUnlessCancelled(s: LoginState, e: LoginError)
    ensures var t := Complete(s, Failure(e));
      !t.isLoading && t.host == s.host
      && (t.showLoginAlert != s.showLoginAlert <==> e.code != CancelledCode)
      && (e.code == CancelledCode ==> t.loginError == s.loginError)
      && (e.code != CancelledCode ==> t.loginError == Some(e))
  {
  }

  /** A success stores what it carries, "" for what it lacks. */
  lemma SuccessStoresCredentials(s: LoginState, data: map<string, string>)
    ensures var t := Complete(s, Success(data));
      !t.isLoading && !t.host.showLoginSheet
      && ("authToken" in data ==> t.host.mattermostAuthToken == data["authToken"])
      && ("authToken" !in data ==> t.host.mattermostAuthToken == "")
      && ("userId" in data ==> t.host.mattermostUserId == data["userId"])
      && ("userId" !in data ==> t.host.mattermostUserId == "")
  {
  }

  /** Cancel always stops the spinner and closes the sheet; the main view
      keeps its credentials and everything else. */
  lemma CancelClosesSheet(s: LoginState)
    ensures var t := Cancel(s);
      !t.isLoading && t.host == s.host.(showLoginSheet := false)
      && (s.currentDataTask.Some? ==> t.currentDataTask.Some? && t.currentDataTask.value.cancelled)
  {
  }

  /** With no server set, login raises the main view's URL error and starts
      no request; the spinner is left on. */
  lemma EmptyServerStartsNoRequest(s: LoginState, encodeError: Option<LoginError>)
    requires s.host.mattermostServer == []
    ensures var t := LoginUser(s, encodeError);
      t.isLoading && t.currentDataTask == s.currentDataTask
      && t.host == s.host.(currentError := StatusSync.ServerUrl, showAlert := true)
  {
  }

  /** With a server set, login starts a POST to the login endpoint carrying
      the typed user name and password. */
  lemma LoginPostsToLoginEndpoint(s: LoginState)
    requires s.host.mattermostServer != []
    ensures var t := LoginUser(s, None);
      t.isLoading && t.host == s.host
      && t.currentDataTask == Some(LoginRequest(
           Endpoints.ServerUrl(s.host.mattermostServer).value + Endpoints.LoginPath,
           s.username, s.password, false))
  {
  }

  // ---------------------------------------------------------------- invariant

  lemma {:induction false} CompleteAllKeepsValid(s: LoginState, rs: seq<LoginResult>)
    requires StatusSync.Valid(s.host)
    ensures StatusSync.Valid(CompleteAll(s, rs).host)
    decreases |rs|
  {
    if rs != [] {
      CompleteAllKeepsValid(Complete(s, rs[0]), rs[1..]);
    }
  }

  /** The sheet's actions keep the main view's invariant. */
  lemma LoginKeepsHostValid(s: LoginState, encodeError: Option<LoginError>, resp: LoginResponse)
    requires StatusSync.Valid(s.host)
    ensures StatusSync.Valid(LoginUser(s, encodeError).host)
    ensures StatusSync.Valid(ResponseArrived(s, resp).host)
    ensures StatusSync.Valid(Cancel(s).host)
  {
    CompleteAllKeepsValid(s, Completions(resp));
  }
}
