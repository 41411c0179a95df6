/**
 * Properties of the session actor of `src/services/mod.rs` that relate
 * several commands: the order in which commands are processed, what the
 * registry's key set can become, the shape of the event stream, and the
 * initial registry as a replay of the servers found at start-up.
 */
module ServiceProperties {
  import opened Wrappers
  import opened Protocol
  import opened Services

  /** Running `a` and then `b` is running `a + b`: the actor takes the
      commands strictly in queue order and its event log is the in-order
      concatenation of what each command sends. */
  lemma {:induction false} RunAppend(api: Api, clients: Registry, a: seq<VerdantCmd>, b: seq<VerdantCmd>)
    ensures Run(api, clients, a + b) ==
      var first := Run(api, clients, a);
      if first.panicked then first
      else
        var second := Run(api, first.clients, b);
        RunResult(second.clients, first.events + second.events, second.panicked)
    decreases |a|
  {
    if a == [] {
      assert a + b == b;
      assert [] + Run(api, clients, b).events == Run(api, clients, b).events;
    } else {
      assert (a + b)[0] == a[0];
      assert (a + b)[1..] == a[1..] + b;
      match Step(api, clients, a[0])
      case Panicked =>
      case Continue(next, out) =>
        RunAppend(api, next, a[1..], b);
        var first := Run(api, next, a[1..]);
        if !first.panicked {
          var second := Run(api, first.clients, b);
          assert out + (first.events + second.events) == (out + first.events) + second.events;
        }
    }
  }

  /** A run of one command is that command's step. */
  lemma RunOne(api: Api, clients: Registry, cmd: VerdantCmd)
    ensures Run(api, clients, [cmd]).panicked <==> Step(api, clients, cmd).Panicked?
    ensures Step(api, clients, cmd).Continue? ==>
      && Run(api, clients, [cmd]).clients == Step(api, clients, cmd).clients
      && Run(api, clients, [cmd]).events == Step(api, clients, cmd).emitted
  {
    assert [cmd][1..] == [];
    var s := Step(api, clients, cmd);
    if s.Continue? {
      assert s.emitted + [] == s.emitted;
    }
  }

  /** The first URLs of the `ServerDiscovered` commands in `cmds`. */
  function DiscoveredUrls(cmds: seq<VerdantCmd>): set<string>
    decreases |cmds|
  {
    if cmds == [] then {}
    else
      (if cmds[0].ServerDiscovered? && |cmds[0].discovery.urls| > 0 then {cmds[0].discovery.urls[0]} else {})
      + DiscoveredUrls(cmds[1..])
  }

  /** Only a discovery adds a key, and no command ever removes one: a
      `Login` only looks its URL up. Without a panic the new keys are
      exactly the discovered URLs. */
  lemma {:induction false} RunKeys(api: Api, clients: Registry, cmds: seq<VerdantCmd>)
    ensures var r := Run(api, clients, cmds);
      && clients.Keys <= r.clients.Keys <= clients.Keys + DiscoveredUrls(cmds)
      && (!r.panicked ==> r.clients.Keys == clients.Keys + DiscoveredUrls(cmds))
    decreases |cmds|
  {
    if cmds != [] {
      match Step(api, clients, cmds[0])
      case Panicked =>
      case Continue(next, out) =>
        RunKeys(api, next, cmds[1..]);
    }
  }

  /** A run made only of logins leaves the registry's key set as it was. */
  lemma LoginsKeepKeys(api: Api, clients: Registry, cmds: seq<VerdantCmd>)
    requires forall i :: 0 <= i < |cmds| ==> cmds[i].Login?
    ensures Run(api, clients, cmds).clients.Keys == clients.Keys
  {
    NoDiscoveredUrls(cmds);
    RunKeys(api, clients, cmds);
  }

  lemma {:induction false} NoDiscoveredUrls(cmds: seq<VerdantCmd>)
    requires forall i :: 0 <= i < |cmds| ==> cmds[i].Login?
    ensures DiscoveredUrls(cmds) == {}
    decreases |cmds|
  {
    if cmds != [] {
      assert cmds[0].Login?;
      NoDiscoveredUrls(cmds[1..]);
    }
  }

  /** The event stream the actor produces: it never sends `ServerDiscovered`,
      and every `LkToken` comes right after a `LoginResult`. */
  ghost predicate WellFormedEvents(events: seq<VerdantUiCmd>)
  {
    && (forall i :: 0 <= i < |events| ==> !events[i].ServerDiscovered?)
    && (forall i :: 0 <= i < |events| && events[i].LkToken? ==> 0 < i && events[i - 1].LoginResult?)
  }

  lemma WellFormedAppend(a: seq<VerdantUiCmd>, b: seq<VerdantUiCmd>)
    requires WellFormedEvents(a) && WellFormedEvents(b)
    ensures WellFormedEvents(a + b)
  {
    forall i | 0 <= i < |a + b| && (a + b)[i].LkToken?
      ensures 0 < i && (a + b)[i - 1].LoginResult?
    {
      if i >= |a| {
        assert b[i - |a|].LkToken?;
      }
    }
  }

  lemma {:induction false} RunEventsWellFormed(api: Api, clients: Registry, cmds: seq<VerdantCmd>)
    ensures WellFormedEvents(Run(api, clients, cmds).events)
    decreases |cmds|
  {
    if cmds != [] {
      match Step(api, clients, cmds[0])
      case Panicked =>
      case Continue(next, out) =>
        RunEventsWellFormed(api, next, cmds[1..]);
        WellFormedAppend(out, Run(api, next, cmds[1..]).events);
    }
  }

  /** How many `Login` commands, and how many `LoginResult` events. */
  function CountLogins(cmds: seq<VerdantCmd>): nat
    decreases |cmds|
  {
    if cmds == [] then 0 else (if cmds[0].Login? then 1 else 0) + CountLogins(cmds[1..])
  }

  function CountResults(events: seq<VerdantUiCmd>): nat
    decreases |events|
  {
    if events == [] then 0 else (if events[0].LoginResult? then 1 else 0) + CountResults(events[1..])
  }

  lemma {:induction false} CountResultsAppend(a: seq<VerdantUiCmd>, b: seq<VerdantUiCmd>)
    ensures CountResults(a + b) == CountResults(a) + CountResults(b)
    decreases |a|
  {
    if a == [] {
      assert a + b == b;
    } else {
      assert (a + b)[1..] == a[1..] + b;
      CountResultsAppend(a[1..], b);
    }
  }

  /** Every login the actor processes yields exactly one `LoginResult`. */
  lemma {:induction false} OneResultPerLogin(api: Api, clients: Registry, cmds: seq<VerdantCmd>)
    ensures var r := Run(api, clients, cmds);
      !r.panicked ==> CountResults(r.events) == CountLogins(cmds)
    decreases |cmds|
  {
    if cmds != [] {
      match Step(api, clients, cmds[0])
      case Panicked =>
      case Continue(next, out) =>
        OneResultPerLogin(api, next, cmds[1..]);
        CountResultsAppend(out, Run(api, next, cmds[1..]).events);
        if cmds[0].Login? {
          assert out[1..] == [] || out[1..] == [out[1]];
        }
    }
  }

  /** One `ServerDiscovered` command per server, in order. */
  function DiscoveryCommands(discovered: seq<Discovery>): (cmds: seq<VerdantCmd>)
    ensures |cmds| == |discovered|
    ensures forall i :: 0 <= i < |cmds| ==> cmds[i] == VerdantCmd.ServerDiscovered(discovered[i])
    decreases |discovered|
  {
    if discovered == [] then []
    else [VerdantCmd.ServerDiscovered(discovered[0])] + DiscoveryCommands(discovered[1..])
  }

  /** The start-up population of the registry does exactly what the actor
      does on the same servers sent as `ServerDiscovered` commands. */
  lemma {:induction false} PopulateIsReplay(api: Api, clients: Registry, discovered: seq<Discovery>)
    ensures Populate(api, clients, discovered) ==
      var r := Run(api, clients, DiscoveryCommands(discovered));
      if r.panicked then None else Some(r.clients)
    decreases |discovered|
  {
    if discovered != [] {
      var cmds := DiscoveryCommands(discovered);
      assert cmds[1..] == DiscoveryCommands(discovered[1..]);
      var d := discovered[0];
      if |d.urls| > 0 && api.fromDiscovery(d).Success? {
        PopulateIsReplay(api, clients[d.urls[0] := api.fromDiscovery(d).value], discovered[1..]);
      }
    }
  }

  /** The first URLs of the servers. */
  function FirstUrls(discovered: seq<Discovery>): set<string>
    decreases |discovered|
  {
    if discovered == [] then {}
    else
      (if |discovered[0].urls| > 0 then {discovered[0].urls[0]} else {}) + FirstUrls(discovered[1..])
  }

  lemma {:induction false} FirstUrlsHas(discovered: seq<Discovery>, j: nat)
    requires j < |discovered| && |discovered[j].urls| > 0
    ensures discovered[j].urls[0] in FirstUrls(discovered)
    decreases j
  {
    if j > 0 {
      FirstUrlsHas(discovered[1..], j - 1);
    }
  }

  lemma {:induction false} FirstUrlsFrom(discovered: seq<Discovery>, u: string)
    requires u in FirstUrls(discovered)
    ensures exists j :: 0 <= j < |discovered| && |discovered[j].urls| > 0 && discovered[j].urls[0] == u
    decreases |discovered|
  {
    if !(|discovered[0].urls| > 0 && discovered[0].urls[0] == u) {
      FirstUrlsFrom(discovered[1..], u);
      var j :| 0 <= j < |discovered[1..]| && |discovered[1..][j].urls| > 0 && discovered[1..][j].urls[0] == u;
      assert discovered[j + 1] == discovered[1..][j];
    }
  }

  /** Server `i` is the last one carrying its first URL. */
  ghost predicate LastWithUrl(discovered: seq<Discovery>, i: nat)
    requires i < |discovered| && |discovered[i].urls| > 0
  {
    forall j :: i < j < |discovered| && |discovered[j].urls| > 0 ==> discovered[j].urls[0] != discovered[i].urls[0]
  }

  /** A population that does not panic holds one entry per distinct first
      URL, keeps what was there under other keys, and maps each URL to the
      client built from the LAST server that carries it: a repeat
      overwrites and never duplicates. */
  lemma {:induction false} PopulateShape(api: Api, clients: Registry, discovered: seq<Discovery>, registry: Registry)
    requires Populate(api, clients, discovered) == Some(registry)
    ensures forall i :: 0 <= i < |discovered| ==> |discovered[i].urls| > 0 && api.fromDiscovery(discovered[i]).Success?
    ensures registry.Keys == clients.Keys + FirstUrls(discovered)
    ensures forall k :: k in clients && k !in FirstUrls(discovered) ==> registry[k] == clients[k]
    ensures forall i :: 0 <= i < |discovered| ==> discovered[i].urls[0] in registry
    ensures forall i :: 0 <= i < |discovered| && LastWithUrl(discovered, i) ==>
      registry[discovered[i].urls[0]] == api.fromDiscovery(discovered[i]).value
    decreases |discovered|
  {
    if discovered != [] {
      var d := discovered[0];
      var url := d.urls[0];
      var client := api.fromDiscovery(d).value;
      var rest := discovered[1..];
      PopulateShape(api, clients[url := client], rest, registry);
      forall i | 0 <= i < |discovered|
        ensures |discovered[i].urls| > 0 && discovered[i].urls[0] in registry
      {
        if i > 0 { assert discovered[i] == rest[i - 1]; }
      }
      forall i | 0 <= i < |discovered|
        ensures |discovered[i].urls| > 0 && api.fromDiscovery(discovered[i]).Success?
      {
        if i > 0 { assert discovered[i] == rest[i - 1]; }
      }
      forall i | 0 <= i < |discovered| && LastWithUrl(discovered, i)
        ensures registry[discovered[i].urls[0]] == api.fromDiscovery(discovered[i]).value
      {
        if i == 0 {
          if url in FirstUrls(rest) {
            FirstUrlsFrom(rest, url);
            assert false;
          }
        } else {
          assert discovered[i] == rest[i - 1];
          forall j | i - 1 < j < |rest| && |rest[j].urls| > 0
            ensures rest[j].urls[0] != rest[i - 1].urls[0]
          {
            assert rest[j] == discovered[j + 1];
          }
          assert LastWithUrl(rest, i - 1);
        }
      }
    }
  }

  /** When every server has a URL and a client that can be built, the
      population does not panic. */
  lemma {:induction false} AllOkPopulates(api: Api, clients: Registry, discovered: seq<Discovery>)
    requires forall i :: 0 <= i < |discovered| ==> |discovered[i].urls| > 0 && api.fromDiscovery(discovered[i]).Success?
    ensures Populate(api, clients, discovered).Some?
    decreases |discovered|
  {
    if discovered != [] {
      var d := discovered[0];
      forall i | 0 <= i < |discovered[1..]|
        ensures |discovered[1..][i].urls| > 0 && api.fromDiscovery(discovered[1..][i]).Success?
      {
        assert discovered[1..][i] == discovered[i + 1];
      }
      AllOkPopulates(api, clients[d.urls[0] := api.fromDiscovery(d).value], discovered[1..]);
    }
  }

  /** The service task starts alive exactly when every discovered server has
      a URL and a client that can be built from it. */
  lemma InitialRegistryDefinedIff(api: Api, discovered: seq<Discovery>)
    ensures InitialRegistry(api, discovered).Some? <==>
      forall i :: 0 <= i < |discovered| ==> |discovered[i].urls| > 0 && api.fromDiscovery(discovered[i]).Success?
  {
    if InitialRegistry(api, discovered).Some? {
      PopulateShape(api, map[], discovered, InitialRegistry(api, discovered).value);
    }
    if forall i :: 0 <= i < |discovered| ==> |discovered[i].urls| > 0 && api.fromDiscovery(discovered[i]).Success? {
      AllOkPopulates(api, map[], discovered);
    }
  }

  /** The registry the actor starts with: empty when no server was found,
      otherwise one entry per distinct first URL, the last server winning. */
  lemma InitialRegistryShape(api: Api, discovered: seq<Discovery>, registry: Registry)
    requires InitialRegistry(api, discovered) == Some(registry)
    ensures forall i :: 0 <= i < |discovered| ==> |discovered[i].urls| > 0 && api.fromDiscovery(discovered[i]).Success?
    ensures registry.Keys == FirstUrls(discovered)
    ensures forall i :: 0 <= i < |discovered| ==> discovered[i].urls[0] in registry
    ensures forall i :: 0 <= i < |discovered| && LastWithUrl(discovered, i) ==>
      registry[discovered[i].urls[0]] == api.fromDiscovery(discovered[i]).value
    ensures discovered == [] ==> registry == map[]
  {
    PopulateShape(api, map[], discovered, registry);
  }

  /** A discovered server, then a login to its first URL that succeeds and
      whose token exchange succeeds: the UI receives the login result and
      then the token, and no `ServerDiscovered` event. */
  lemma DiscoverThenLogin(api: Api, d: Discovery, username: string, password: string)
    requires |d.urls| > 0 && api.fromDiscovery(d).Success?
    requires api.login(api.fromDiscovery(d).value, username, password).Success?
    requires api.livekitToken(api.login(api.fromDiscovery(d).value, username, password).value.client).Success?
    ensures
      var reply := api.login(api.fromDiscovery(d).value, username, password).value;
      var r := Run(api, map[], [VerdantCmd.ServerDiscovered(d), VerdantCmd.Login(LoginRequest(d.urls[0], username, password))]);
      && !r.panicked
      && r.events == [LoginResult(reply.result), LkToken(api.livekitToken(reply.client).value)]
      && r.clients.Keys == {d.urls[0]}
  {
    var a := [VerdantCmd.ServerDiscovered(d)];
    var b := [VerdantCmd.Login(LoginRequest(d.urls[0], username, password))];
    assert a + b == [VerdantCmd.ServerDiscovered(d), VerdantCmd.Login(LoginRequest(d.urls[0], username, password))];
    RunAppend(api, map[], a, b);
    RunOne(api, map[], a[0]);
    RunOne(api, Run(api, map[], a).clients, b[0]);
  }
}
