/**
 * LoginView.swift's state and actions, in place.  The sheet's `@Binding`s
 * (the stored credentials, the sheet's presentation flag, the main view's
 * alert) are the fields of the ContentView it was opened from, reached through
 * `host`.  Each method is proved to perform the step of the same name in
 * LoginFlow.
 */
module LoginViews {
  import opened Wrappers
  import Endpoints
  import StatusSync
  import ContentViews
  import opened LoginFlow

  class LoginView {
    const host: ContentViews.ContentView
    var username: string
    var password: string
    var isLoading: bool
    var currentDataTask: Option<LoginRequest>
    var showLoginAlert: bool
    var loginError: Option<LoginError>

    function State(): LoginState
      reads this, host
    {
      LoginState(isLoading, currentDataTask, loginError, showLoginAlert, username, password, host.State())
    }

    predicate Valid()
      reads this, host
    {
      host.Valid()
    }

    /** The sheet as it opens over `host`. */
    constructor (host: ContentViews.ContentView)
      requires host.Valid()
      ensures this.host == host && Valid()
      ensures State() == LoginState(false, None, None, false, "", "", host.State())
    {
      this.host := host;
      username, password := "", "";
      isLoading, currentDataTask := false, None;
      showLoginAlert, loginError := false, None;
    }

    /** cancelRequest */
    method CancelRequest()
      requires Valid()
      modifies this
      ensures State() == LoginFlow.CancelRequest(old(State()))
      ensures Valid()
    {
      isLoading := false;
      if currentDataTask.Some? {
        currentDataTask := Some(currentDataTask.value.(cancelled := true));
      }
    }

    /** cancel */
    method Cancel()
      requires Valid()
      modifies this, host
      ensures State() == LoginFlow.Cancel(old(State()))
      ensures Valid()
    {
      CancelRequest();
      host.showLoginSheet := false;
    }

    /** The completion closure of loginUser. */
    method Complete(result: LoginResult)
      requires Valid()
      modifies this, host
      ensures State() == LoginFlow.Complete(old(State()), result)
      ensures Valid()
    {
      match result
      case Success(data) =>
        host.mattermostAuthToken := Lookup(data, "authToken");
        host.mattermostUserId := Lookup(data, "userId");
        isLoading := false;
        host.showLoginSheet := false;
      case Failure(error) =>
        CancelRequest();
        if error.code != CancelledCode {
          loginError := Some(error);
          showLoginAlert := !showLoginAlert;
        }
    }

    /** loginUser */
    method LoginUser(encodeError: Option<LoginError>)
      requires Valid()
      modifies this, host
      ensures State() == LoginFlow.LoginUser(old(State()), encodeError)
      ensures Valid()
    {
      isLoading := true;
      GetMattermostAuthToken(encodeError);
    }

    /** getMattermostAuthToken up to starting the data task. */
    method GetMattermostAuthToken(encodeError: Option<LoginError>)
      requires Valid()
      modifies this, host
      ensures State() == RequestToken(old(State()), encodeError)
      ensures Valid()
    {
      var base := Endpoints.GetServerUrl(host.mattermostServer);
      if base.None? {
        host.currentError := StatusSync.ServerUrl;
        host.showAlert := true;
        return;
      }
      var loginUrl := base.value + Endpoints.LoginPath;
      if encodeError.Some? {
        Complete(Failure(encodeError.value));
        return;
      }
      currentDataTask := Some(LoginRequest(loginUrl, username, password, false));
    }

    /** The data task's completion handler. */
    method ResponseArrived(resp: LoginResponse)
      requires Valid()
      modifies this, host
      ensures State() == LoginFlow.ResponseArrived(old(State()), resp)
      ensures Valid()
    {
      match resp
      case TransportFailed(error) =>
        Complete(Failure(error));
        CompleteAllOne(old(State()), Failure(error));
      case NotHttp =>
      case HttpReply(token, data) =>
        var result: map<string, string> := map[];
        if data.Some? {
          match data.value
          case Malformed(error) =>
            Complete(Failure(error));
            CompleteAllOne(old(State()), Failure(error));
          case NotAnObject =>
          case Object(message, id) =>
            if message.Some? {
              var failure := Failure(LoginError(ApiErrorCode, message.value));
              Complete(failure);
              CompleteAllOne(old(State()), failure);
            } else if id.Some? {
              if token.Some? {
                result := result["authToken" := token.value];
              } else {
                Complete(Failure(LoginError(ApiErrorCode, MissingTokenMessage)));
              }
              result := result["userId" := id.value];
              Complete(Success(result));
              if token.Some? {
                assert result == map["authToken" := token.value, "userId" := id.value];
                CompleteAllOne(old(State()), Success(result));
              } else {
                assert result == map["userId" := id.value];
                CompleteAllTwo(old(State()), Failure(LoginError(ApiErrorCode, MissingTokenMessage)), Success(result));
              }
            }
        }
    }
  }
}
