/**
 * The session service of `src/services/mod.rs`: the commands the UI sends,
 * the events it receives, the `verdant_service` actor loop that owns the
 * client registry, the initial population of that registry from the
 * servers found at start-up, and the channel ends the UI holds.
 */
module Services {
  import opened Wrappers
  import opened Protocol

  /** Events the actor sends to the UI (`VerdantUiCmd`). */
  datatype VerdantUiCmd =
    | LoginResult(result: LoginResult)
    | ServerDiscovered(discovery: Discovery)
    | LkToken(response: TokenResponse)

  /** The credentials of one login attempt (`LoginRequest`). */
  datatype LoginRequest = LoginRequest(url: string, username: string, password: string)
  {
    /** `LoginRequest::new`: each argument lands in the field of the same name. */
    static function New(url: string, username: string, password: string): (r: LoginRequest)
      ensures r.url == url && r.username == username && r.password == password
    {
      LoginRequest(url, username, password)
    }
  }

  /** Commands the actor consumes (`VerdantCmd`). */
  datatype VerdantCmd =
    | Login(request: LoginRequest)
    | ServerDiscovered(discovery: Discovery)

  /** The actor's `HashMap<String, APIClient>`, keyed by server URL. */
  type Registry = map<string, APIClient>

  /** What one command does to the actor: it either goes on with a new
      registry and the events it sent, or it panics on an `unwrap`. */
  datatype StepResult = Continue(clients: Registry, emitted: seq<VerdantUiCmd>) | Panicked

  /** The registry and the event log after a run of commands; `panicked`
      says the actor task died on an `unwrap` before the end. */
  datatype RunResult = RunResult(clients: Registry, events: seq<VerdantUiCmd>, panicked: bool)

  /** One iteration of the `verdant_service` loop. */
  function Step(api: Api, clients: Registry, cmd: VerdantCmd): (r: StepResult)
    // a discovery panics exactly when it has no URL or its client cannot be built
    ensures cmd.ServerDiscovered? ==>
      (r.Panicked? <==> (|cmd.discovery.urls| == 0 || api.fromDiscovery(cmd.discovery).Failure?))
    // otherwise it is keyed by its first URL, replaces any earlier entry, and sends nothing
    ensures cmd.ServerDiscovered? && r.Continue? ==>
      && |cmd.discovery.urls| > 0
      && var url := cmd.discovery.urls[0];
      && r.emitted == []
      && r.clients.Keys == clients.Keys + {url}
      && r.clients[url] == api.fromDiscovery(cmd.discovery).value
      && (forall k :: k in clients && k != url ==> r.clients[k] == clients[k])
    // a login for an unregistered URL reports UnknownServer and changes nothing
    ensures cmd.Login? && cmd.request.url !in clients ==>
      r == Continue(clients, [LoginResult(UnknownServer(cmd.request.url))])
    // a login for a registered URL reports the login result, then the token only if the exchange succeeded
    ensures cmd.Login? && cmd.request.url in clients ==>
      var reply := api.login(clients[cmd.request.url], cmd.request.username, cmd.request.password);
      && (r.Panicked? <==> reply.Failure?)
      && (r.Continue? ==>
            && reply.Success?
            && r.clients.Keys == clients.Keys
            && r.clients[cmd.request.url] == reply.value.client
            && (forall k :: k in clients && k != cmd.request.url ==> r.clients[k] == clients[k])
            && var token := api.livekitToken(reply.value.client);
               r.emitted == [LoginResult(reply.value.result)] + (if token.Success? then [LkToken(token.value)] else []))
  {
    match cmd
    case ServerDiscovered(d) =>
      if |d.urls| == 0 then Panicked
      else (
        match api.fromDiscovery(d)
        case Failure(_) => Panicked
        case Success(client) => Continue(clients[d.urls[0] := client], [])
      )
    case Login(req) =>
      if req.url !in clients then
        Continue(clients, [LoginResult(UnknownServer(req.url))])
      else
        match api.login(clients[req.url], req.username, req.password)
        case Failure(_) => Panicked
        case Success(reply) =>
          var token := api.livekitToken(reply.client);
          var sent := [LoginResult(reply.result)] + (if token.Success? then [LkToken(token.value)] else []);
          Continue(clients[req.url := reply.client], sent)
  }

  /** The `verdant_service` loop over the commands it receives, in order; a
      panic ends the task and the remaining commands are never processed. */
  function Run(api: Api, clients: Registry, cmds: seq<VerdantCmd>): (r: RunResult)
    // no command removes a server, and each one sends at most two events
    ensures clients.Keys <= r.clients.Keys
    ensures |r.events| <= 2 * |cmds|
    ensures r.panicked ==> cmds != []
    decreases |cmds|
  {
    if cmds == [] then RunResult(clients, [], false)
    else
      match Step(api, clients, cmds[0])
      case Panicked => RunResult(clients, [], true)
      case Continue(next, out) =>
        var rest := Run(api, next, cmds[1..]);
        RunResult(rest.clients, out + rest.events, rest.panicked)
  }

  /** The registry built from `discovered` by inserting each server in turn
      into `clients`; None when an `unwrap` panics. */
  function Populate(api: Api, clients: Registry, discovered: seq<Discovery>): (r: Option<Registry>)
    // a population that does not panic keeps the old keys, and every server
    // had a URL and is registered under its first one
    ensures r.Some? ==> clients.Keys <= r.value.Keys
    ensures r.Some? ==> forall i :: 0 <= i < |discovered| ==> |discovered[i].urls| > 0
    ensures r.Some? ==> forall i :: 0 <= i < |discovered| ==> discovered[i].urls[0] in r.value
    decreases |discovered|
  {
    if discovered == [] then Some(clients)
    else if |discovered[0].urls| == 0 then None
    else
      match api.fromDiscovery(discovered[0])
      case Failure(_) => None
      case Success(client) => Populate(api, clients[discovered[0].urls[0] := client], discovered[1..])
  }

  /** The registry the service task starts `verdant_service` with. */
  function InitialRegistry(api: Api, discovered: seq<Discovery>): (r: Option<Registry>)
    ensures discovered == [] ==> r == Some(map[])
    ensures r.Some? ==> forall i :: 0 <= i < |discovered| ==> |discovered[i].urls| > 0
    ensures r.Some? ==> forall i :: 0 <= i < |discovered| ==> discovered[i].urls[0] in r.value
  {
    Populate(api, map[], discovered)
  }

  /** One pass of the `verdant_service` loop body: the match on the
      received command. */
  method HandleCommand(api: Api, clients0: Registry, cmd: VerdantCmd)
    returns (clients: Registry, emitted: seq<VerdantUiCmd>, panicked: bool)
    ensures Step(api, clients0, cmd) == if panicked then Panicked else Continue(clients, emitted)
  {
    clients, emitted, panicked := clients0, [], false;
    match cmd
    case ServerDiscovered(discovery) =>
      if |discovery.urls| == 0 {
        panicked := true;
      } else {
        var url := discovery.urls[0];
        var client := api.fromDiscovery(discovery);
        if client.Failure? {
          panicked := true;
        } else {
          clients := clients[url := client.value];
        }
      }
    case Login(request) =>
      if request.url in clients {
        var result := api.login(clients[request.url], request.username, request.password);
        if result.Failure? {
          panicked := true;
        } else {
          clients := clients[request.url := result.value.client];
          emitted := emitted + [LoginResult(result.value.result)];
          var token := api.livekitToken(result.value.client);
          if token.Success? {
            emitted := emitted + [LkToken(token.value)];
          }
        }
      } else {
        emitted := emitted + [LoginResult(UnknownServer(request.url))];
      }
  }

  /** `verdant_service`: receives the commands in order, updating the
      registry in place and appending every event it sends to `events`. */
  method ServeCommands(api: Api, clients0: Registry, cmds: seq<VerdantCmd>)
    returns (clients: Registry, events: seq<VerdantUiCmd>, panicked: bool)
    ensures Run(api, clients0, cmds) == RunResult(clients, events, panicked)
  {
    clients, events, panicked := clients0, [], false;
    var i := 0;
    while i < |cmds| && !panicked
      invariant 0 <= i <= |cmds|
      invariant panicked ==> Run(api, clients0, cmds) == RunResult(clients, events, true)
      invariant !panicked ==>
        var rest := Run(api, clients, cmds[i..]);
        Run(api, clients0, cmds) == RunResult(rest.clients, events + rest.events, rest.panicked)
    {
      assert cmds[i..][1..] == cmds[i + 1..];
      var next, out, failed := HandleCommand(api, clients, cmds[i]);
      if failed {
        assert events + [] == events;
        panicked := true;
      } else {
        assert (events + out) + Run(api, next, cmds[i + 1..]).events
            == events + (out + Run(api, next, cmds[i + 1..]).events);
        clients, events := next, events + out;
      }
      i := i + 1;
    }
    assert events + [] == events;
  }

  /** The population loop of `VerdantService::new`'s service task. */
  method PopulateRegistry(api: Api, discovered: seq<Discovery>) returns (clients: Registry, panicked: bool)
    ensures InitialRegistry(api, discovered) == if panicked then None else Some(clients)
  {
    clients, panicked := map[], false;
    var i := 0;
    while i < |discovered| && !panicked
      invariant 0 <= i <= |discovered|
      invariant InitialRegistry(api, discovered) == if panicked then None else Populate(api, clients, discovered[i..])
    {
      assert discovered[i..][1..] == discovered[i + 1..];
      var d := discovered[i];
      if |d.urls| == 0 {
        panicked := true;
      } else {
        var url := d.urls[0];
        var client := api.fromDiscovery(d);
        if client.Failure? {
          panicked := true;
        } else {
          clients := clients[url := client.value];
        }
      }
      i := i + 1;
    }
    assert discovered[i..] == [] || panicked;
  }

  /** `SendError<VerdantCmd>`: the command handed back by a failed send. */
  datatype SendError = SendError(cmd: VerdantCmd)

  /** The command channel. Every clone of `cmd_tx` and the actor's `cmd_rx`
      share it; it is closed once the actor task has ended. */
  class CommandChannel {
    var pending: seq<VerdantCmd>
    var closed: bool

    constructor ()
      ensures pending == [] && !closed
    {
      pending, closed := [], false;
    }

    /** `UnboundedSender::send`: queues the command unless the receiver is gone. */
    method Send(cmd: VerdantCmd) returns (r: Result<(), SendError>)
      modifies this
      ensures closed == old(closed)
      ensures r == if old(closed) then Failure(SendError(cmd)) else Success(())
      ensures pending == if old(closed) then old(pending) else old(pending) + [cmd]
    {
      if closed {
        r := Failure(SendError(cmd));
      } else {
        pending := pending + [cmd];
        r := Success(());
      }
    }
  }

  /** The event channel from the actor (`ui_tx`) to the UI (`ui_rx`). */
  class EventChannel {
    var pending: seq<VerdantUiCmd>

    constructor ()
      ensures pending == []
    {
      pending := [];
    }

    /** `UnboundedReceiver::try_recv`: the oldest event, or None when there is none. */
    method TryRecv() returns (r: Option<VerdantUiCmd>)
      modifies this
      ensures old(pending) == [] ==> r == None && pending == []
      ensures old(pending) != [] ==> r == Some(old(pending)[0]) && pending == old(pending)[1..]
    {
      if pending == [] {
        r := None;
      } else {
        r := Some(pending[0]);
        pending := pending[1..];
      }
    }
  }

  /** The spawned service task: the registry it owns and its channel ends. */
  class ActorTask {
    var clients: Registry
    const api: Api
    const commands: CommandChannel
    const events: EventChannel

    constructor (api: Api, clients: Registry, commands: CommandChannel, events: EventChannel)
      ensures this.api == api && this.clients == clients
      ensures this.commands == commands && this.events == events
    {
      this.api, this.clients := api, clients;
      this.commands, this.events := commands, events;
    }

    /** Lets the task run until it has taken every queued command; a panic
        drops the receiver, which closes the channel and discards the rest. */
    method Pump()
      modifies this, commands, events
      ensures old(commands.closed) ==>
        && clients == old(clients) && commands.closed
        && commands.pending == old(commands.pending) && events.pending == old(events.pending)
      ensures !old(commands.closed) ==>
        var r := Run(api, old(clients), old(commands.pending));
        && clients == r.clients
        && events.pending == old(events.pending) + r.events
        && commands.pending == []
        && commands.closed == r.panicked
    {
      if commands.closed {
        return;
      }
      var next, sent, panicked := ServeCommands(api, clients, commands.pending);
      clients := next;
      events.pending := events.pending + sent;
      commands.pending := [];
      commands.closed := panicked;
    }
  }

  /** The handle the UI holds (`VerdantService`). */
  class VerdantService {
    const discovered: seq<Discovery>
    const cmdTx: CommandChannel
    const uiRx: EventChannel
    const task: ActorTask

    /** The two channel ends are the ones the service task uses. */
    ghost predicate Valid()
    {
      task.commands == cmdTx && task.events == uiRx
    }

    constructor (discovered: seq<Discovery>, task: ActorTask)
      ensures this.discovered == discovered && this.task == task
      ensures Valid()
    {
      this.discovered, this.task := discovered, task;
      this.cmdTx, this.uiRx := task.commands, task.events;
    }

    /** `VerdantService::new`: with discovery on, the probe's servers (or its
        error); with discovery off, none. The service task starts from the
        registry built from them, or is dead from the start if that panicked. */
    static method New(api: Api, discovery: bool, probe: Result<seq<Discovery>, BeaconError>)
      returns (r: Result<VerdantService, BeaconError>)
      ensures discovery && probe.Failure? ==> r == Failure(probe.error)
      ensures !(discovery && probe.Failure?) ==> r.Success?
      ensures r.Success? ==>
        var s := r.value;
        && s.discovered == (if discovery then probe.value else [])
        && s.Valid() && fresh(s) && fresh(s.task) && fresh(s.cmdTx) && fresh(s.uiRx)
        && s.cmdTx.pending == [] && s.uiRx.pending == []
        && s.task.api == api
        && (s.cmdTx.closed <==> InitialRegistry(api, s.discovered).None?)
        && (!s.cmdTx.closed ==> InitialRegistry(api, s.discovered) == Some(s.task.clients))
      ensures r.Success? && !discovery ==> !r.value.cmdTx.closed && r.value.task.clients == map[]
    {
      var discovered: seq<Discovery> := [];
      if discovery {
        if probe.Failure? {
          return Failure(probe.error);
        }
        discovered := probe.value;
      }
      var commands := new CommandChannel();
      var events := new EventChannel();
      var clients, panicked := PopulateRegistry(api, discovered);
      commands.closed := panicked;
      var task := new ActorTask(api, clients, commands, events);
      var service := new VerdantService(discovered, task);
      r := Success(service);
    }

    /** `VerdantService::login`: sends exactly one `Login` carrying the
        three arguments. */
    static method Login(tx: CommandChannel, url: string, username: string, password: string)
      returns (r: Result<(), SendError>)
      modifies tx
      ensures tx.closed == old(tx.closed)
      ensures r.Success? <==> !old(tx.closed)
      ensures tx.pending == if old(tx.closed) then old(tx.pending)
                            else old(tx.pending) + [VerdantCmd.Login(LoginRequest(url, username, password))]
    {
      var request := VerdantCmd.Login(LoginRequest.New(url, username, password));
      r := tx.Send(request);
    }

    /** `VerdantService::try_recv`: the next event, if one is waiting. */
    method TryRecv() returns (r: Option<VerdantUiCmd>)
      modifies uiRx
      ensures old(uiRx.pending) == [] ==> r == None && uiRx.pending == []
      ensures old(uiRx.pending) != [] ==> r == Some(old(uiRx.pending)[0]) && uiRx.pending == old(uiRx.pending)[1..]
    {
      r := uiRx.TryRecv();
    }
  }
}
