/**
 * The types the session core borrows from its external crates (the mDNS
 * discovery record, the backend API client and its replies).  The crates
 * themselves are not part of this model: their data is kept abstract and
 * their operations are the fields of the oracle record `Api`.
 */
module Protocol {
  import opened Wrappers

  /** Rust's `u16`, the type of a discovered port. */
  newtype u16 = x: int | 0 <= x < 0x1_0000

  /** Rust's `u128`, the width of a UUID. */
  newtype u128 = x: int | 0 <= x < 0x1_0000_0000_0000_0000_0000_0000_0000_0000

  /** A server advertised on the local network (`keycast::discovery::Discovery`).
      `urls` stands for what `Discovery::urls()` returns. */
  datatype Discovery = Discovery(host: string, addrs: seq<string>, port: u16, urls: seq<string>)

  /** The outcome of a login attempt (`protocol::auth::LoginResult`). */
  datatype LoginResult = Ok | Unauthorized | UnknownServer(server: string)

  /** A room identifier (`uuid::Uuid`), a 128-bit value. */
  datatype Uuid = Uuid(bits: u128)

  /** The credential a successful token exchange returns (`TokenResponse`). */
  datatype TokenResponse = TokenResponse(url: string, token: string, room: string, roomId: Uuid)

  /** An authenticated connection (`APIClient`), kept opaque. */
  datatype APIClient = APIClient(handle: nat)

  /** The error any of the client's asynchronous calls may return. */
  datatype ApiError = ApiError(reason: string)

  /** What `APIClient::login` gives back: the result, and the client as the
      call leaves it (the call borrows the client mutably). */
  datatype LoginReply = LoginReply(result: LoginResult, client: APIClient)

  /** Why the network probe failed (`keycast::errors::BeaconError`). */
  datatype BeaconError = BeaconError(reason: string)

  /** The three external calls the session actor makes, as oracles. */
  datatype Api = Api(
    fromDiscovery: Discovery -> Result<APIClient, ApiError>,
    login: (APIClient, string, string) -> Result<LoginReply, ApiError>,
    livekitToken: APIClient -> Result<TokenResponse, ApiError>)
}
