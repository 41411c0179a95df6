/**
 * The page router of `src/pages/mod.rs`: which page is active, how an
 * event from the session service is dispatched, the one-event-per-frame
 * `update`, and the saved `state`. The room page lives in `rooms.rs`, which
 * is not part of this model: its state is an opaque value and its
 * `initialize` an oracle function given to the router.
 */
module Pages {
  import opened Wrappers
  import opened Protocol
  import Services
  import L = Login

  datatype ActivePage = Login | Room | Account | Settings | Discover

  /** The room page's state (`RoomState` of `rooms.rs`), kept opaque. */
  datatype RoomState = RoomState(handle: nat)

  /** What `AppPage::state` saves (`AppState`). */
  datatype AppState = Room(room: RoomState) | Login(login: L.LoginState)

  /** The router's observable state: the active page and its two pages' states. */
  datatype PageView = PageView(active: ActivePage, login: L.LoginState, room: RoomState)

  /** `AppPage::event` on the view: None is the `unimplemented!()` panic. */
  function Route(v: PageView, e: Services.VerdantUiCmd, initialize: (RoomState, TokenResponse) -> RoomState): (r: Option<PageView>)
    // it is defined exactly for a token event or while the login page is active
    ensures r.Some? <==> (e.LkToken? || v.active == ActivePage.Login)
    // a token initialises the room and switches to it, whatever page was active
    ensures e.LkToken? ==>
      r.value == v.(active := ActivePage.Room, room := initialize(v.room, e.response))
    // anything else goes to the login page and leaves the active page and the room alone
    ensures !e.LkToken? && r.Some? ==>
      && r.value.active == v.active == ActivePage.Login
      && r.value.room == v.room
      && r.value.login == L.ApplyEvent(v.login, e)
  {
    match e
    case LkToken(response) => Some(v.(active := ActivePage.Room, room := initialize(v.room, response)))
    case _ =>
      if v.active == ActivePage.Login then Some(v.(login := L.ApplyEvent(v.login, e))) else None
  }

  /** Routing a sequence of events one after the other. */
  function RouteAll(v: PageView, events: seq<Services.VerdantUiCmd>, initialize: (RoomState, TokenResponse) -> RoomState): Option<PageView>
    decreases |events|
  {
    if events == [] then Some(v)
    else
      match Route(v, events[0], initialize)
      case None => None
      case Some(next) => RouteAll(next, events[1..], initialize)
  }

  lemma {:induction false} RouteAllAppend(v: PageView, a: seq<Services.VerdantUiCmd>, b: seq<Services.VerdantUiCmd>,
                                          initialize: (RoomState, TokenResponse) -> RoomState)
    ensures RouteAll(v, a + b, initialize) ==
      match RouteAll(v, a, initialize)
      case None => None
      case Some(mid) => RouteAll(mid, b, initialize)
    decreases |a|
  {
    if a == [] {
      assert a + b == b;
    } else {
      assert (a + b)[0] == a[0];
      assert (a + b)[1..] == a[1..] + b;
      match Route(v, a[0], initialize)
      case None =>
      case Some(next) => RouteAllAppend(next, a[1..], b, initialize);
    }
  }

  /** The page only ever shows the login or the room page: no event moves
      it anywhere else. */
  lemma {:induction false} RouteAllStaysOnShownPages(v: PageView, events: seq<Services.VerdantUiCmd>,
                                                     initialize: (RoomState, TokenResponse) -> RoomState)
    requires v.active == ActivePage.Login || v.active == ActivePage.Room
    ensures var r := RouteAll(v, events, initialize);
      r.Some? ==> r.value.active == ActivePage.Login || r.value.active == ActivePage.Room
    decreases |events|
  {
    if events != [] {
      match Route(v, events[0], initialize)
      case None =>
      case Some(next) => RouteAllStaysOnShownPages(next, events[1..], initialize);
    }
  }

  /** The events one processed login sends, routed from the login page:
      nothing panics, the message reports the login's result, and the page
      switches to the room exactly when the token exchange succeeded. */
  lemma OneLoginRoutes(api: Api, clients: Services.Registry, request: Services.LoginRequest, v: PageView,
                       initialize: (RoomState, TokenResponse) -> RoomState)
    requires v.active == ActivePage.Login
    requires Services.Step(api, clients, Services.VerdantCmd.Login(request)).Continue?
    ensures
      var out := Services.Step(api, clients, Services.VerdantCmd.Login(request)).emitted;
      var r := RouteAll(v, out, initialize);
      && r.Some?
      && |out| > 0 && out[0].LoginResult?
      && r.value.login == L.ApplyEvent(v.login, out[0])
      && (r.value.active == ActivePage.Room <==> |out| == 2)
  {
    var out := Services.Step(api, clients, Services.VerdantCmd.Login(request)).emitted;
    assert out[0].LoginResult? && (|out| == 1 || (|out| == 2 && out[1].LkToken?));
    var mid := Route(v, out[0], initialize).value;
    assert mid.active == ActivePage.Login && mid.login == L.ApplyEvent(v.login, out[0]);
    if |out| == 1 {
      assert out[1..] == [];
    } else {
      assert out[1..][1..] == [];
      assert RouteAll(mid, out[1..], initialize) == Route(mid, out[1], initialize);
    }
  }

  /** The token exchange follows every login result, a rejection included:
      an `Unauthorized` login whose token call succeeds leaves the room page
      active while the login page shows "incorrect username or password". */
  lemma UnauthorizedLoginCanReachRoom(api: Api, clients: Services.Registry, request: Services.LoginRequest, v: PageView,
                                      initialize: (RoomState, TokenResponse) -> RoomState)
    requires v.active == ActivePage.Login
    requires request.url in clients
    requires api.login(clients[request.url], request.username, request.password).Success?
    requires api.login(clients[request.url], request.username, request.password).value.result == Unauthorized
    requires api.livekitToken(api.login(clients[request.url], request.username, request.password).value.client).Success?
    ensures
      var out := Services.Step(api, clients, Services.VerdantCmd.Login(request)).emitted;
      var r := RouteAll(v, out, initialize);
      && r.Some?
      && r.value.active == ActivePage.Room
      && r.value.login.loginMessage == Some(L.UnauthorizedMessage)
  {
    OneLoginRoutes(api, clients, request, v, initialize);
  }

  /** A second login processed after one that reached the room (two Submit
      clicks before the first answer, say) makes the router panic: its
      `LoginResult` arrives while the room page is active. */
  lemma RepeatedLoginPanics(api: Api, clients: Services.Registry, first: Services.LoginRequest, second: Services.LoginRequest,
                            v: PageView, initialize: (RoomState, TokenResponse) -> RoomState)
    requires v.active == ActivePage.Login
    requires Services.Step(api, clients, Services.VerdantCmd.Login(first)).Continue?
    requires |Services.Step(api, clients, Services.VerdantCmd.Login(first)).emitted| == 2
    requires Services.Step(api, Services.Step(api, clients, Services.VerdantCmd.Login(first)).clients, Services.VerdantCmd.Login(second)).Continue?
    ensures
      var s1 := Services.Step(api, clients, Services.VerdantCmd.Login(first));
      var s2 := Services.Step(api, s1.clients, Services.VerdantCmd.Login(second));
      RouteAll(v, s1.emitted + s2.emitted, initialize) == None
  {
    var s1 := Services.Step(api, clients, Services.VerdantCmd.Login(first));
    var s2 := Services.Step(api, s1.clients, Services.VerdantCmd.Login(second));
    OneLoginRoutes(api, clients, first, v, initialize);
    RouteAllAppend(v, s1.emitted, s2.emitted, initialize);
    var mid := RouteAll(v, s1.emitted, initialize).value;
    assert s2.emitted[0].LoginResult?;
    assert Route(mid, s2.emitted[0], initialize) == None;
  }

  /** `AppPage`: the pages, the active one, and the service handle. The
      account and settings pages hold nothing the router reads. */
  class AppPage {
    const login: L.LoginPage
    var room: RoomState
    var active: ActivePage
    const service: Services.VerdantService
    const initialize: (RoomState, TokenResponse) -> RoomState

    /** The login page sends on the service's channel, and only the two
        pages `update` can draw are ever active. */
    ghost predicate Valid()
      reads this
    {
      && login.cmdTx == service.cmdTx
      && (active == ActivePage.Login || active == ActivePage.Room)
    }

    /** `AppPage::new`; `room` is the freshly built room page's state. */
    constructor (service: Services.VerdantService, room: RoomState, initialize: (RoomState, TokenResponse) -> RoomState)
      ensures Valid() && fresh(login)
      ensures active == ActivePage.Login
      ensures login.state == L.NewLoginState("http://localhost")
      ensures this.service == service && this.room == room && this.initialize == initialize
    {
      login := new L.LoginPage(service.cmdTx, "http://localhost");
      this.room := room;
      active := ActivePage.Login;
      this.service := service;
      this.initialize := initialize;
    }

    function View(): PageView
      reads this, login
    {
      PageView(active, login.state, room)
    }

    /** `AppPage::event`; `handled` is false when it hits `unimplemented!()`,
        and then nothing has changed. */
    method Event(e: Services.VerdantUiCmd) returns (handled: bool)
      modifies this, login
      ensures old(Valid()) ==> Valid()
      ensures var r := Route(old(View()), e, initialize);
        && handled == r.Some?
        && View() == (if handled then r.value else old(View()))
    {
      match e
      case LkToken(response) =>
        room := initialize(room, response);
        active := ActivePage.Room;
        handled := true;
      case _ =>
        if active == ActivePage.Login {
          login.Event(e);
          handled := true;
        } else {
          handled := false;
        }
    }

    /** `AppPage::update`: takes at most one pending event and dispatches
        it, then draws the active page. `alive` is false on a panic. */
    method Update() returns (alive: bool)
      requires Valid()
      modifies this, login, service.uiRx
      ensures old(service.uiRx.pending) == [] ==>
        alive && service.uiRx.pending == [] && View() == old(View())
      ensures old(service.uiRx.pending) != [] ==>
        && service.uiRx.pending == old(service.uiRx.pending)[1..]
        && var r := Route(old(View()), old(service.uiRx.pending)[0], initialize);
           && alive == r.Some?
           && View() == (if alive then r.value else old(View()))
      ensures Valid()
    {
      var event := service.TryRecv();
      alive := true;
      if event.Some? {
        alive := Event(event.value);
      }
      if alive && active != ActivePage.Room && active != ActivePage.Login {
        assert false;
      }
    }

    /** `AppPage::state`. */
    function State(): (s: AppState)
      requires Valid()
      reads this, login
      ensures active == ActivePage.Login ==> s == AppState.Login(login.state)
      ensures active == ActivePage.Room ==> s == AppState.Room(room)
    {
      if active == ActivePage.Room then AppState.Room(room) else AppState.Login(login.state)
    }
  }
}
