# Verdant desktop: session service, settings, login page and page router

This project is a Dafny model of the sequential core of the Verdant desktop
client (a Rust/egui application). It covers four pieces:

- the session service (`src/services/mod.rs`):
  - the `verdant_service` actor loop, which owns the client registry (server URL to API client),
  - the initial filling of that registry from the servers found at start-up,
  - the channel ends the UI holds (`login`, `try_recv`);
- the settings records (`src/pages/settings.rs`) and the `Settings` trait's chain of delegation;
- the login page (`src/pages/login.rs`): its state, the Submit button, and the message it shows for each event;
- the page router (`src/pages/mod.rs`): which page is active, how events are dispatched, one event per `update`.

The three calls into the backend API client are oracles: `from_discovery`,
`login` and `get_livekit_token` are the function-valued fields of
`Protocol.Api`. Every `.unwrap()` the actor does on them, and on the
discovery's first URL, becomes a *panic* outcome. A panic ends the actor task
and closes its command channel, so later sends fail. The API client is an
opaque handle. The discovery record is a plain record of `host`, `addrs`,
`port` and `urls`. Its `urls` field is free: the source computes it with
`Discovery::urls()`, but the model does not derive it from `addrs` and
`port`. The room page (`rooms.rs`) is an opaque `RoomState` value plus an
`initialize` oracle function that the router is given.

Modules: `Wrappers` (Option, Result), `Protocol` (external types),
`Services` and `ServiceProperties` (`services/mod.rs`), `Settings`,
`Login` and `Pages` (the three page files).

The model follows the code as written. Notably:

- A repeated `ServerDiscovered` for a URL already in the registry **replaces** the client (`HashMap::insert`). It is not a no-op.
- The actor never sends a `ServerDiscovered` event to the UI, although the comment at `src/services/mod.rs:74-75` says a discovery will in turn notify the UI thread (`ServiceProperties.RunEventsWellFormed`). A discovery followed by a successful login produces only `LoginResult`, then `LkToken` (`ServiceProperties.DiscoverThenLogin`).
- A failed token exchange after a login sends nothing.
- The token exchange runs after every login result, including `Unauthorized`. An `Unauthorized` login whose token call succeeds switches the page to the room while the login page shows "incorrect username or password" (`Pages.UnauthorizedLoginCanReachRoom`).
- `src/pages/mod.rs:79` destructures `LkToken(url, response)`, but the enum has one field. The model routes on the one field.
- `src/app.rs:34` calls `AppPage::new` with four arguments. The model follows the three-argument declaration.

One consequence the model proves: suppose a first login's token exchange succeeds and a second login is then processed without panicking (say, two Submit clicks before the first answer). Then the router panics. The first `LkToken` has switched to the room page, so the second `LoginResult` arrives there and hits `unimplemented!()` (`Pages.RepeatedLoginPanics`).

## Model

| member | source | states |
|---|---|---|
| Services.LoginRequest.New | src/services/mod.rs:28-38 | url, username and password each land in the field of the same name (the struct literal lists them in another order) |
| Services.Step | src/services/mod.rs:162-188 | discovery: panics iff no URL or the client cannot be built; otherwise inserts under the first URL, overwriting, other keys unchanged, no event. Login to an unknown URL: exactly one `LoginResult(UnknownServer(url))`, registry unchanged. Login to a known URL: panics iff the login call fails; otherwise key set unchanged, the entry is the client the call leaves, events are the login result then `LkToken` only if the token call succeeded |
| Services.Run | src/services/mod.rs:161-189 | the commands are handled in order, stopping at the first panic; no command removes a server, each sends at most two events, and a panic needs a command |
| Services.HandleCommand | src/services/mod.rs:162-188 | the imperative loop body computes exactly `Step` |
| Services.ServeCommands | src/services/mod.rs:156-190 | the `while let` loop over the received commands, mutating the map and appending events, computes exactly `Run` (commands in order, stop at the first panic) |
| Services.Populate | src/services/mod.rs:109-114 | inserts each server under its first URL in turn; when no `unwrap` panics, the old keys are kept, every server had a URL, and every first URL is registered |
| Services.InitialRegistry | src/services/mod.rs:107-115 | the population from an empty registry; no server gives the empty registry, and a live start registers every server's first URL |
| Services.PopulateRegistry | src/services/mod.rs:107-114 | the start-up insertion loop computes exactly `InitialRegistry`, panicking on a missing URL or a failed client build |
| Services.CommandChannel.Send | src/services/mod.rs:139-141 | a send appends exactly the command unless the receiver is gone, when it fails, hands the command back and changes nothing |
| Services.EventChannel.TryRecv | src/services/mod.rs:148-153 | the oldest pending event is removed and returned; None and no change when nothing is pending |
| Services.ActorTask.Pump | src/services/mod.rs:156-190 | running the task over the queued commands leaves the registry and appends the events `Run` gives, empties the queue, and closes the channel iff the run panicked; a dead task changes nothing |
| Services.VerdantService.New | src/services/mod.rs:67-128 | probe error is returned when discovery is on; with discovery off the discovered list is empty and the registry empty; otherwise the task starts from `InitialRegistry` of the discovered servers, dead from the start iff that panics |
| Services.VerdantService.Login | src/services/mod.rs:134-142 | enqueues exactly one `Login(LoginRequest(url, username, password))`, or fails and enqueues nothing when the service is gone |
| Services.VerdantService.TryRecv | src/services/mod.rs:148-153 | `Some` of the oldest event, removing it, or `None` when none is waiting |
| ServiceProperties.RunAppend | src/services/mod.rs:161-189 | running `a + b` is running `a`, then `b` from the registry `a` left; the event log is the concatenation; a panic in `a` ends the run |
| ServiceProperties.RunOne | src/services/mod.rs:161-189 | a run of one command is that command's step |
| ServiceProperties.RunKeys | src/services/mod.rs:163-187 | no command removes a key; only discoveries add them; without a panic the new keys are exactly the discovered first URLs |
| ServiceProperties.LoginsKeepKeys | src/services/mod.rs:168-187 | a run of logins leaves the key set unchanged (lookups only) |
| ServiceProperties.RunEventsWellFormed | src/services/mod.rs:161-189 | the actor never sends `ServerDiscovered`, and every `LkToken` directly follows a `LoginResult` |
| ServiceProperties.OneResultPerLogin | src/services/mod.rs:168-187 | without a panic, the number of `LoginResult` events equals the number of `Login` commands |
| ServiceProperties.PopulateIsReplay | src/services/mod.rs:107-116 | the start-up population gives the same registry (or panic) as the actor processing one `ServerDiscovered` per server in order |
| ServiceProperties.PopulateShape | src/services/mod.rs:109-114 | a population without panic has keys equal to the old keys plus the first URLs; other keys keep their clients; each URL maps to the client of the last server carrying it |
| ServiceProperties.AllOkPopulates | src/services/mod.rs:109-114 | when every server has a URL and a buildable client, the population does not panic |
| ServiceProperties.InitialRegistryDefinedIff | src/services/mod.rs:109-114 | the service task starts alive iff every discovered server has a URL and a client that can be built from it |
| ServiceProperties.InitialRegistryShape | src/services/mod.rs:104-114 | the initial registry has one entry per distinct first URL, the last server winning, and is empty when no server was found |
| ServiceProperties.DiscoverThenLogin | src/services/mod.rs:161-189 | discovery then a login to its URL whose login and token calls succeed: no panic, events exactly `[LoginResult(result), LkToken(token)]`, one key |
| Settings.TraitDefault | src/pages/settings.rs:22-35 | the trait's default methods: every flag is on except `auto_publish` |
| Settings.GeneralSettings.Get | src/pages/settings.rs:178-194 | each trait query answers the field of the same name |
| Settings.DefaultGeneral | src/pages/settings.rs:167-176 | `auto_subscribe` true, `auto_publish` false, `enable_e2ee` false, `use_discovery` true |
| Settings.DefaultVersusTrait | src/pages/settings.rs:21-35 | the trait's default methods (true, false, true, true) agree with the default record on every flag except `enable_e2ee` |
| Settings.DiscoverySettings | src/pages/settings.rs:56-57 | the defaults with `enable_e2ee` forced on, every other flag unchanged |
| Settings.DiscoverySettingsAreTraitDefaults | src/pages/settings.rs:56-57 | a discovered server's flags coincide with the trait's default methods |
| Settings.Decimal | src/pages/settings.rs:59 | the port's `{}` rendering is a non-empty digit string with no leading zero |
| Settings.DecimalRoundTrip | src/pages/settings.rs:59 | the decimal rendering reads back as the number |
| Settings.DiscoveryUrl | src/pages/settings.rs:59 | `format!("{}:{}")` of the first address and the port: the address, a colon, then a non-empty port |
| Settings.DiscoveryUrlParts | src/pages/settings.rs:59 | the URL is the first address, a colon, then the port's digits; the port holds no colon and reads back |
| Settings.ServerSettings.FromDiscovery | src/pages/settings.rs:55-67 | name is the host, url is `addrs[0]:port`, token is empty, flags are the defaults with e2ee on; the first address must exist (unwrap) |
| Settings.ServerSettings.FromResponse | src/pages/settings.rs:68-75 | settings copied, name is the ident, url and token from the response |
| Settings.ServerSettings.Get | src/pages/settings.rs:78-94 | each trait query on a server answers the same query on its general settings |
| Settings.ServerSettings.SetToken | src/pages/settings.rs:48-50 | only `token` changes, to the argument |
| Settings.ServerSettings.SetUrl | src/pages/settings.rs:52-54 | only `url` changes, to the argument |
| Settings.RoomSettings.FromResponse | src/pages/settings.rs:116-124 | id and name from the response's room id and room, a new server equal to `ServerSettings::from_response`, the key as drawn |
| Settings.RoomSettings.Id | src/pages/settings.rs:106-108 | the room's id |
| Settings.RoomSettings.Token | src/pages/settings.rs:128-130 | the token is the server's token |
| Settings.RoomSettings.Key | src/pages/settings.rs:132-134 | the room's key |
| Settings.RoomSettings.Url | src/pages/settings.rs:136-138 | the URL is the server's URL |
| Settings.RoomSettings.SetToken | src/pages/settings.rs:109-111 | afterwards `token()` is the argument; url, name and flags unchanged |
| Settings.RoomSettings.SetUrl | src/pages/settings.rs:112-114 | afterwards `url()` is the argument; token, name and flags unchanged |
| Settings.RoomSettings.Get | src/pages/settings.rs:141-157 | every trait query on a room answers the same query on its server's general settings (room to server to general) |
| Login.NewLoginState | src/pages/login.rs:15-22 | the url as given, empty username and password, no message |
| Login.ResultMessage | src/pages/login.rs:97-103 | `Unauthorized` gives "incorrect username or password", `UnknownServer(s)` gives "couldn't find request server: " + s, any other result gives "login successful"; none is the pending message |
| Login.MessageRoundTrip | src/pages/login.rs:97-103 | each result's message is its own: the result, down to the unknown server's name, reads back from the text |
| Login.PendingReportsNothing | src/pages/login.rs:84 | the pending message "logging in..." reports no result |
| Login.ApplyEvent | src/pages/login.rs:94-107 | a `LoginResult` sets the message for its result; any other event changes nothing; the form fields never change |
| Login.ApplyEventsShowsLastResult | src/pages/login.rs:94-107 | after any event sequence the form fields are unchanged and the message is that of the last `LoginResult`, or the old one if none |
| Login.LoginPage.constructor | src/pages/login.rs:30-38 | state is `LoginState::new(url)`, sending on the given channel |
| Login.LoginPage.State | src/pages/login.rs:40-42 | the page's current state |
| Login.LoginPage.EditFields | src/pages/login.rs:59-73 | the three text boxes write url, username and password; the message is untouched |
| Login.LoginPage.Submit | src/pages/login.rs:77-85 | exactly one `Login` with the current url, username and password is queued (none if the service is gone, result ignored); the message becomes "logging in..." |
| Login.LoginPage.Event | src/pages/login.rs:94-107 | the state becomes `ApplyEvent` of the old state |
| Pages.Route | src/pages/mod.rs:77-88 | defined iff the event is `LkToken` or the login page is active; `LkToken` initialises the room and activates it from any page; anything else goes to the login page, leaving the page and room alone |
| Pages.RouteAllStaysOnShownPages | src/pages/mod.rs:77-88 | from the login or room page, no event sequence activates another page |
| Pages.OneLoginRoutes | src/pages/mod.rs:77-88 | the events of one processed login, routed from the login page: no panic, the message is the login's result, the room is active iff a token came |
| Pages.UnauthorizedLoginCanReachRoom | src/pages/mod.rs:77-88 | an `Unauthorized` login whose token call succeeds ends on the room page with the "incorrect username or password" message |
| Pages.RepeatedLoginPanics | src/pages/mod.rs:83-86 | after a first login whose token exchange succeeded, a second processed login panics the router (`unimplemented!()`) |
| Pages.AppPage.constructor | src/pages/mod.rs:41-59 | the login page is active, its url is "http://localhost", and it sends on the service's channel |
| Pages.AppPage.Event | src/pages/mod.rs:77-88 | the view becomes `Route` of the old view, or is unchanged with `handled` false on the panic; the page invariant is kept |
| Pages.AppPage.Update | src/pages/mod.rs:61-71 | consumes at most one pending event and routes it; only the login or room page is ever active, so the drawing match never panics |
| Pages.AppPage.State | src/pages/mod.rs:90-96 | `Login(login state)` on the login page, `Room(room state)` on the room page |

## Left out

- Video capture and publishing (`src/video/`): thin wrappers around camera, PipeWire and LiveKit libraries, threads and a foreign colour conversion.
- The mDNS probe, the OS thread, `join` and the tokio spawns of `VerdantService::new`: the probe's outcome is the `probe` argument. The background re-discovery loop is commented out in the source, so nothing is modelled for it.
- The actor task running concurrently with the UI thread: `ActorTask.Pump` runs it to an empty queue at chosen points. The unwrap of `ui_tx.send` assumes the UI keeps its receiver.
- `APIClient` internals: the three calls are oracles. `get_livekit_token` is modelled as leaving the client unchanged. `login` may change the client.
- The `discoveries()` and `tx()` getters of `VerdantService` are plain reads of the `discovered` and `cmdTx` fields, so they have no member of their own.
- `random_base64_string` and the stray `main` of `settings.rs`: the room key is an argument of `RoomSettings.FromResponse`.
- `SettingsPage` and `AccountPage`: the router never reads them.
- Settings.RoomSettings: the Rust struct owns its `ServerSettings` by value; the model holds a `const` reference to a `ServerSettings` object, which `FromResponse` allocates fresh, so two rooms could share one only if built that way outside the model's operations.
- The room page's drawing, `initialize` and `state()` internals: `rooms.rs` is not part of this model. The room page is an opaque `RoomState` plus the `initialize` oracle.
- egui/eframe drawing; `println!` logging.
- `src/pages/discovery.rs`, `src/app.rs`, `src/main.rs`: incomplete code, or bootstrap code.
- Settings.ServerSettings.FromDiscovery: the unwrap of the first address is a precondition, not a modelled panic.
- `LoginResult` is taken to have the variants `Ok`, `Unauthorized` and `UnknownServer`. The `protocol` crate is not part of this model. Any other variant would fall under the same catch-all "login successful" arm that `Ok` takes.
