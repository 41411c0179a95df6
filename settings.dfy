/**
 * The settings records of `src/pages/settings.rs`: the four feature flags
 * of the `Settings` trait, the general settings and their defaults, the
 * per-server settings built from a discovery or a token response, and the
 * per-room settings that delegate every flag to their server.
 */
module Settings {
  import opened Protocol

  /** The four queries of the `Settings` trait. */
  datatype Flag = AutoSubscribe | AutoPublish | EnableE2ee | UseDiscovery

  /** The `Settings` trait's own default methods. */
  function TraitDefault(f: Flag): (r: bool)
    // everything is on by default except publishing
    ensures r <==> f != AutoPublish
  {
    match f
    case AutoSubscribe => true
    case AutoPublish => false
    case EnableE2ee => true
    case UseDiscovery => true
  }

  /** `GeneralSettings`; `Get` is its implementation of the trait, which
      answers each query from the field of the same name. */
  datatype GeneralSettings = GeneralSettings(autoSubscribe: bool, autoPublish: bool, enableE2ee: bool, useDiscovery: bool)
  {
    function Get(f: Flag): (r: bool)
      ensures f == AutoSubscribe ==> r == autoSubscribe
      ensures f == AutoPublish ==> r == autoPublish
      ensures f == EnableE2ee ==> r == enableE2ee
      ensures f == UseDiscovery ==> r == useDiscovery
    {
      match f
      case AutoSubscribe => autoSubscribe
      case AutoPublish => autoPublish
      case EnableE2ee => enableE2ee
      case UseDiscovery => useDiscovery
    }
  }

  /** `GeneralSettings::default()`. */
  function DefaultGeneral(): (g: GeneralSettings)
    ensures g.Get(AutoSubscribe) && !g.Get(AutoPublish) && !g.Get(EnableE2ee) && g.Get(UseDiscovery)
  {
    GeneralSettings(true, false, false, true)
  }

  /** The default record and the trait's defaults agree on every flag but
      end-to-end encryption, which the record turns off. */
  lemma DefaultVersusTrait(f: Flag)
    ensures DefaultGeneral().Get(f) == TraitDefault(f) <==> f != EnableE2ee
  {
  }

  /** The settings `ServerSettings::from_discovery` starts from: the
      defaults with end-to-end encryption forced on. */
  function DiscoverySettings(): (g: GeneralSettings)
    ensures g.Get(EnableE2ee)
    ensures forall f :: f != EnableE2ee ==> g.Get(f) == DefaultGeneral().Get(f)
  {
    DefaultGeneral().(enableE2ee := true)
  }

  /** With e2ee forced on, a discovered server's flags are exactly the
      trait's own defaults. */
  lemma DiscoverySettingsAreTraitDefaults(f: Flag)
    ensures DiscoverySettings().Get(f) == TraitDefault(f)
  {
  }

  /** The character of a decimal digit. */
  function DigitChar(d: nat): (c: char)
    requires d < 10
    ensures '0' <= c <= '9'
  {
    (('0' as int) + d) as char
  }

  ghost predicate IsDigits(s: string)
  {
    forall i :: 0 <= i < |s| ==> '0' <= s[i] <= '9'
  }

  /** `format!("{}", n)` for an unsigned integer: its shortest decimal form. */
  function Decimal(n: nat): (s: string)
    ensures |s| > 0 && IsDigits(s)
    ensures s[0] == '0' ==> n == 0 && s == "0"
    decreases n
  {
    if n < 10 then [DigitChar(n)] else Decimal(n / 10) + [DigitChar(n % 10)]
  }

  /** The number a string of decimal digits denotes. */
  function ParseDecimal(s: string): nat
    requires IsDigits(s)
    decreases |s|
  {
    if s == [] then 0 else 10 * ParseDecimal(s[..|s| - 1]) + ((s[|s| - 1] as int) - ('0' as int))
  }

  /** Reading back the decimal form gives the number. */
  lemma {:induction false} DecimalRoundTrip(n: nat)
    ensures ParseDecimal(Decimal(n)) == n
    decreases n
  {
    var s := Decimal(n);
    if n >= 10 {
      assert s[..|s| - 1] == Decimal(n / 10);
      DecimalRoundTrip(n / 10);
    } else {
      assert s[..|s| - 1] == [];
    }
  }

  /** The URL `ServerSettings::from_discovery` gives a server:
      `format!("{}:{}", addrs[0], port)`. */
  function DiscoveryUrl(discovery: Discovery): (r: string)
    requires |discovery.addrs| > 0
    // the first address, then a colon, then a non-empty port
    ensures |discovery.addrs[0]| + 1 < |r|
    ensures r[..|discovery.addrs[0]|] == discovery.addrs[0] && r[|discovery.addrs[0]|] == ':'
  {
    discovery.addrs[0] + ":" + Decimal(discovery.port as nat)
  }

  /** The URL is the first address, a colon, and the port's decimal form,
      which holds no colon: the colon before the port is the last one even
      when the address (IPv6) has colons of its own, and the port reads back. */
  lemma DiscoveryUrlParts(discovery: Discovery)
    requires |discovery.addrs| > 0
    ensures
      var url, addr := DiscoveryUrl(discovery), discovery.addrs[0];
      && |addr| < |url|
      && url[..|addr|] == addr
      && url[|addr|] == ':'
      && IsDigits(url[|addr| + 1..])
      && ':' !in url[|addr| + 1..]
      && ParseDecimal(url[|addr| + 1..]) == discovery.port as nat
  {
    var url, addr := DiscoveryUrl(discovery), discovery.addrs[0];
    var port := Decimal(discovery.port as nat);
    assert url == addr + [':'] + port;
    assert url[|addr| + 1..] == port;
    assert url[..|addr|] == addr;
    DecimalRoundTrip(discovery.port as nat);
  }

  /** Per-server settings (`ServerSettings`). */
  class ServerSettings {
    var settings: GeneralSettings
    var name: string
    var url: string
    var token: string

    /** `ServerSettings::from_discovery`; the first address is unwrapped, so
        a discovery without addresses panics. */
    constructor FromDiscovery(discovery: Discovery)
      requires |discovery.addrs| > 0
      ensures settings == DiscoverySettings()
      ensures name == discovery.host && url == DiscoveryUrl(discovery) && token == ""
    {
      settings := DiscoverySettings();
      name := discovery.host;
      url := DiscoveryUrl(discovery);
      token := "";
    }

    /** `ServerSettings::from_response`. */
    constructor FromResponse(settings: GeneralSettings, ident: string, response: TokenResponse)
      ensures this.settings == settings && name == ident
      ensures url == response.url && token == response.token
    {
      this.settings := settings;
      name := ident;
      url := response.url;
      token := response.token;
    }

    method SetToken(token: string)
      modifies this
      ensures this.token == token
      ensures settings == old(settings) && name == old(name) && url == old(url)
    {
      this.token := token;
    }

    method SetUrl(url: string)
      modifies this
      ensures this.url == url
      ensures settings == old(settings) && name == old(name) && token == old(token)
    {
      this.url := url;
    }

    /** The trait implementation: each query goes to the general settings. */
    function Get(f: Flag): (r: bool)
      reads this
      ensures r == settings.Get(f)
    {
      settings.Get(f)
    }
  }

  /** Per-room settings (`RoomSettings`); `server` is owned by the room. */
  class RoomSettings {
    var id: Uuid
    const server: ServerSettings
    var name: string
    var key: string

    /** `RoomSettings::from_response`; `key` is the random base64 string the
        source draws for the room. */
    constructor FromResponse(settings: GeneralSettings, ident: string, response: TokenResponse, key: string)
      ensures id == response.roomId && name == response.room && this.key == key
      ensures fresh(server)
      ensures server.settings == settings && server.name == ident
      ensures server.url == response.url && server.token == response.token
    {
      id := response.roomId;
      server := new ServerSettings.FromResponse(settings, ident, response);
      name := response.room;
      this.key := key;
    }

    function Id(): (r: Uuid)
      reads this
      ensures r == id
    {
      id
    }

    /** The token is the server's. */
    function Token(): (r: string)
      reads server
      ensures r == server.token
    {
      server.token
    }

    function Key(): (r: string)
      reads this
      ensures r == key
    {
      key
    }

    /** The URL is the server's. */
    function Url(): (r: string)
      reads server
      ensures r == server.url
    {
      server.url
    }

    method SetToken(token: string)
      modifies server
      ensures Token() == token
      ensures server.settings == old(server.settings) && server.name == old(server.name)
      ensures Url() == old(Url())
    {
      server.SetToken(token);
    }

    method SetUrl(url: string)
      modifies server
      ensures Url() == url
      ensures server.settings == old(server.settings) && server.name == old(server.name)
      ensures Token() == old(Token())
    {
      server.SetUrl(url);
    }

    /** The trait implementation: room to server to general settings. */
    function Get(f: Flag): (r: bool)
      reads server
      ensures r == server.settings.Get(f)
    {
      server.Get(f)
    }
  }
}
