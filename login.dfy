/**
 * The login page of `src/pages/login.rs`: its state, the effect of the
 * Submit button, and how events from the session service set the message
 * shown under the form.
 */
module Login {
  import opened Wrappers
  import opened Protocol
  import Services

  /** `LoginState`: the three form fields and the message shown, if any. */
  datatype LoginState = LoginState(url: string, username: string, password: string, loginMessage: Option<string>)

  /** `LoginState::new`. */
  function NewLoginState(url: string): (s: LoginState)
    ensures s.url == url && s.username == "" && s.password == "" && s.loginMessage == None
  {
    LoginState(url, "", "", None)
  }

  const PendingMessage := "logging in..."
  const UnauthorizedMessage := "incorrect username or password"
  const UnknownServerPrefix := "couldn't find request server: "
  const SuccessMessage := "login successful"

  /** The message `LoginPage::event` shows for a login result. */
  function ResultMessage(result: LoginResult): (r: string)
    ensures result == Unauthorized ==> r == "incorrect username or password"
    ensures result.UnknownServer? ==> r == "couldn't find request server: " + result.server
    ensures !result.Unauthorized? && !result.UnknownServer? ==> r == "login successful"
    // a result never reads as the pending message
    ensures r != PendingMessage
  {
    match result
    case Unauthorized => UnauthorizedMessage
    case UnknownServer(server) => UnknownServerPrefix + server
    case _ => SuccessMessage
  }

  /** The result a shown message reports, read back from its text; None
      for a message that reports none (such as the pending one). */
  function MessageOutcome(message: string): Option<LoginResult>
  {
    if message == UnauthorizedMessage then Some(Unauthorized)
    else if message == SuccessMessage then Some(Ok)
    else if UnknownServerPrefix <= message then Some(UnknownServer(message[|UnknownServerPrefix|..]))
    else None
  }

  /** Every result gets a message of its own: the result, down to the
      server name, can be read back from what the page shows. */
  lemma MessageRoundTrip(result: LoginResult)
    ensures MessageOutcome(ResultMessage(result)) == Some(result)
  {
    if result.UnknownServer? {
      var m := UnknownServerPrefix + result.server;
      assert m[0] == 'c';
      assert UnknownServerPrefix <= m;
      assert m[|UnknownServerPrefix|..] == result.server;
    }
  }

  /** The pending message reports no result. */
  lemma PendingReportsNothing()
    ensures MessageOutcome(PendingMessage) == None
  {
  }

  /** The state after `LoginPage::event`. */
  function ApplyEvent(s: LoginState, e: Services.VerdantUiCmd): (r: LoginState)
    ensures r.url == s.url && r.username == s.username && r.password == s.password
    ensures e.LoginResult? ==> r.loginMessage == Some(ResultMessage(e.result))
    ensures !e.LoginResult? ==> r == s
  {
    match e
    case LoginResult(result) => s.(loginMessage := Some(ResultMessage(result)))
    case _ => s
  }

  /** The state after a sequence of events, the last one applied last. */
  function ApplyEvents(s: LoginState, events: seq<Services.VerdantUiCmd>): LoginState
    decreases |events|
  {
    if events == [] then s else ApplyEvent(ApplyEvents(s, events[..|events| - 1]), events[|events| - 1])
  }

  /** The result carried by the last `LoginResult` event, if any. */
  function LastResult(events: seq<Services.VerdantUiCmd>): Option<LoginResult>
    decreases |events|
  {
    if events == [] then None
    else if events[|events| - 1].LoginResult? then Some(events[|events| - 1].result)
    else LastResult(events[..|events| - 1])
  }

  /** No event ever changes the form fields, and the message shown is the
      one for the last login result received (the old one if none came). */
  lemma {:induction false} ApplyEventsShowsLastResult(s: LoginState, events: seq<Services.VerdantUiCmd>)
    ensures var r := ApplyEvents(s, events);
      && r.url == s.url && r.username == s.username && r.password == s.password
      && r.loginMessage == match LastResult(events)
                           case None => s.loginMessage
                           case Some(result) => Some(ResultMessage(result))
    decreases |events|
  {
    if events != [] {
      ApplyEventsShowsLastResult(s, events[..|events| - 1]);
    }
  }

  /** `LoginPage`: its state and its clone of the service's command sender. */
  class LoginPage {
    var state: LoginState
    const cmdTx: Services.CommandChannel

    /** `LoginPage::new`. */
    constructor (cmdTx: Services.CommandChannel, url: string)
      ensures state == NewLoginState(url) && this.cmdTx == cmdTx
    {
      state := NewLoginState(url);
      this.cmdTx := cmdTx;
    }

    function State(): (s: LoginState)
      reads this
      ensures s == state
    {
      state
    }

    /** What the three text boxes write into the state as the user types. */
    method EditFields(url: string, username: string, password: string)
      modifies this
      ensures state == old(state).(url := url, username := username, password := password)
    {
      state := state.(url := url, username := username, password := password);
    }

    /** A click on Submit: one `Login` with the form's contents goes to the
        service (the send's result is ignored, so nothing goes when the
        service is gone) and the message becomes the pending one. */
    method Submit()
      modifies this, cmdTx
      ensures state == old(state).(loginMessage := Some(PendingMessage))
      ensures cmdTx.closed == old(cmdTx.closed)
      ensures cmdTx.pending ==
        if old(cmdTx.closed) then old(cmdTx.pending)
        else old(cmdTx.pending) + [Services.VerdantCmd.Login(Services.LoginRequest(old(state).url, old(state).username, old(state).password))]
    {
      var _ := Services.VerdantService.Login(cmdTx, state.url, state.username, state.password);
      state := state.(loginMessage := Some(PendingMessage));
    }

    /** `LoginPage::event`. */
    method Event(e: Services.VerdantUiCmd)
      modifies this
      ensures state == ApplyEvent(old(state), e)
    {
      match e
      case LoginResult(result) =>
        state := state.(loginMessage := Some(ResultMessage(result)));
      case _ =>
    }
  }
}
