/**
 * ContentView.swift's state fields and the actions that update them in place:
 * the Start/Stop button, the timer closure, setMattermostStatus and its
 * completion handler, the alert's Stop button and the interval stepper.  Each
 * method is proved to perform the step of the same name in StatusSync.
 */
module ContentViews {
  import opened Wrappers
  import Endpoints
  import opened CalendarEvents
  import StatusSync

  class ContentView {
    var isRunning: bool
    var showAlert: bool
    var currentError: StatusSync.StatusError
    var selectedCalendar: Option<StatusSync.CalendarId>
    var currentEventTitle: string
    var timer: Option<StatusSync.Timer>
    var updateInterval: int
    var setStatusIsRunning: bool
    var showLoginSheet: bool
    var mattermostServer: string
    var mattermostUserId: string
    var mattermostAuthToken: string
    /** The status requests handed to the network so far, oldest first. */
    var sent: seq<StatusSync.StatusRequest>

    function State(): StatusSync.ViewState
      reads this
    {
      StatusSync.ViewState(isRunning, showAlert, currentError, selectedCalendar, currentEventTitle,
        timer, updateInterval, setStatusIsRunning, showLoginSheet, mattermostServer,
        mattermostUserId, mattermostAuthToken, sent)
    }

    predicate Valid()
      reads this
    {
      StatusSync.Valid(State())
    }

    /** The view with its stored settings and the calendar the picker starts on. */
    constructor (server: string, userId: string, token: string, calendar: Option<StatusSync.CalendarId>)
      ensures State() == StatusSync.Initial(server, userId, token, calendar)
      ensures Valid()
    {
      isRunning, showAlert, currentError := false, false, StatusSync.Unknown;
      selectedCalendar, currentEventTitle, timer := calendar, "", None;
      updateInterval, setStatusIsRunning, showLoginSheet := StatusSync.InitialInterval, false, false;
      mattermostServer, mattermostUserId, mattermostAuthToken := server, userId, token;
      sent := [];
    }

    /** setMattermostStatus up to handing the PUT to the network. */
    method SetMattermostStatus(status: StatusSync.MattermostStatus, encodes: bool)
      requires Valid()
      modifies this
      ensures State() == StatusSync.SetStatus(old(State()), status, encodes)
      ensures Valid()
    {
      var apiUrl := Endpoints.StatusUrl(mattermostServer);
      if apiUrl.Some? {
        if !encodes {
          currentError := StatusSync.CreateJson;
          showAlert := true;
          return;
        }
        sent := sent + [StatusSync.StatusRequest(apiUrl.value, "Bearer " + mattermostAuthToken, mattermostUserId, status.RawValue())];
      } else {
        currentError := StatusSync.ServerUrl;
        showAlert := true;
      }
    }

    /** The completion handler of a status request. */
    method StatusReplied(outcome: StatusSync.StatusOutcome)
      requires Valid()
      modifies this
      ensures State() == StatusSync.StatusReplied(old(State()), outcome)
      ensures Valid()
    {
      match outcome
      case TransportFailed =>
        currentError := StatusSync.UrlRequest;
        showAlert := true;
      case NotHttp =>
      case Http(code) =>
        if code != 200 {
          currentError := StatusSync.HttpResponse;
          showAlert := true;
        } else {
          currentError := StatusSync.Unknown;
          showAlert := false;
          setStatusIsRunning := false;
        }
    }

    /** The timer closure; `cal` is what the calendar query answers. */
    method Tick(cal: StatusSync.CalendarAnswer, encodes: bool)
      requires Valid()
      modifies this
      ensures State() == StatusSync.Tick(old(State()), cal, encodes)
      ensures Valid()
    {
      if timer.None? || setStatusIsRunning {
        return;
      }
      setStatusIsRunning := true;
      var event := CurrentEvent(cal.accessGranted, cal.events, cal.now);
      if event.Some? {
        if event.value.title.Some? {
          currentEventTitle := event.value.title.value;
          SetMattermostStatus(StatusSync.DoNotDisturb, encodes);
        }
      } else {
        currentEventTitle := "";
        SetMattermostStatus(StatusSync.Online, encodes);
      }
    }

    /** The Start/Stop button. */
    method StartStopPressed(cal: StatusSync.CalendarAnswer, encodes: bool)
      requires Valid()
      modifies this
      ensures State() == StatusSync.StartStopPressed(old(State()), cal, encodes)
      ensures Valid()
    {
      if isRunning {
        timer := None;
        isRunning := false;
        currentEventTitle := "";
        SetMattermostStatus(StatusSync.Online, encodes);
      } else if selectedCalendar.Some? {
        isRunning := true;
        timer := Some(StatusSync.Timer(updateInterval, selectedCalendar.value));
        Tick(cal, encodes);
      }
    }

    /** The alert's Stop button; the alert closes, which clears `showAlert`. */
    method AlertStop()
      requires Valid()
      modifies this
      ensures State() == StatusSync.AlertStop(old(State()))
      ensures Valid()
    {
      timer := None;
      isRunning := false;
      setStatusIsRunning := false;
      currentEventTitle := "";
      currentError := StatusSync.Unknown;
      showAlert := false;
    }

    /** The stepper's + action. */
    method Increment()
      requires Valid()
      modifies this
      ensures State() == StatusSync.StepUp(old(State()))
      ensures Valid()
    {
      if updateInterval < StatusSync.MaxInterval {
        updateInterval := updateInterval + StatusSync.IntervalStep;
      }
    }

    /** The stepper's - action. */
    method Decrement()
      requires Valid()
      modifies this
      ensures State() == StatusSync.StepDown(old(State()))
      ensures Valid()
    {
      if updateInterval > StatusSync.MinInterval {
        updateInterval := updateInterval - StatusSync.IntervalStep;
      }
    }
  }
}
