/** The Vault client factory: a configuration record, its default, the
    ordered validation that `New` performs, and `NewClient`, which builds a
    Vault client bound to the configured address, HTTP client and admin token.
    The Vault client library itself is opaque: its constructor is a parameter
    that either fails or hands back a client. */
module VaultFactory {
  import opened Outcomes
  import opened OrderedChecks

  /** An HTTP client handle. Its internals are not modelled; the two values
      distinguish the shared default client from a freshly allocated one. */
  datatype HttpClient = DefaultHttpClient | FreshHttpClient

  /** The factory configuration; a nil HTTP client is `None`. */
  datatype Config = Config(httpClient: Option<HttpClient>, address: string, adminToken: string)

  /** The configuration fields `New` checks, one per error message it can return. */
  datatype ConfigField = AddressField | HttpClientField | AdminTokenField

  datatype Error =
    | InvalidConfig(field: ConfigField)   // invalidConfigError naming the offending field
    | ClientConstruction                  // the Vault client library refused to build a client

  /** A factory holds the configuration it was created from. */
  datatype Factory = Factory(config: Config)

  /** A Vault client: the address and HTTP client it talks through, and the
      token it authenticates every request with. */
  datatype Client = Client(address: string, httpClient: Option<HttpClient>, token: string)

  const DefaultAddress: string := "http://127.0.0.1:8200"
  const DefaultAdminToken: string := "admin-token"

  /** The order in which `New` checks the configuration. */
  const CheckOrder: seq<ConfigField> := [AddressField, HttpClientField, AdminTokenField]

  /** Whether `field` of `config` is set. */
  function Present(config: Config): ConfigField -> bool
  {
    (field: ConfigField) =>
      match field
      case AddressField => config.address != ""
      case HttpClientField => config.httpClient.Some?
      case AdminTokenField => config.adminToken != ""
  }

  ghost predicate Acceptable(config: Config)
  {
    config.address != "" && config.httpClient.Some? && config.adminToken != ""
  }

  /** The default configuration, which `New` accepts as it stands. */
  function DefaultConfig(): (c: Config)
    ensures Acceptable(c)
    ensures c.httpClient == Some(DefaultHttpClient)
  {
    Config(Some(DefaultHttpClient), DefaultAddress, DefaultAdminToken)
  }

  /** Validates the configuration: address first, then the HTTP client, then
      the admin token; the first missing one is reported. */
  function New(config: Config): (r: Result<Factory, Error>)
    ensures r.Success? <==> Acceptable(config)
    ensures r.Success? ==> r.value.config == config
    ensures config.address == "" ==> r == Failure(InvalidConfig(AddressField))
    ensures r.Failure? ==> r.error.InvalidConfig? && !Present(config)(r.error.field)
  {
    if config.address == "" then Failure(InvalidConfig(AddressField))
    else if config.httpClient.None? then Failure(InvalidConfig(HttpClientField))
    else if config.adminToken == "" then Failure(InvalidConfig(AdminTokenField))
    else Success(Factory(config))
  }

  /** `New` reports exactly the first field, in check order, that is missing. */
  lemma NewReportsFirstMissing(config: Config)
    ensures match FirstFailing(CheckOrder, Present(config))
            case None => New(config) == Success(Factory(config))
            case Some(field) => New(config) == Failure(InvalidConfig(field))
  {
  }

  /** The default configuration passes validation unchanged. */
  lemma DefaultConfigAccepted()
    ensures New(DefaultConfig()) == Success(Factory(DefaultConfig()))
  {
  }

  /** Builds a client for the factory's address and HTTP client through the
      Vault client library, then sets the admin token on it. `construct` is
      the library's answer: Err, or Ok carrying whatever token the library set
      up by itself, which the admin token then replaces. */
  function NewClient(factory: Factory, construct: Outcome<string>): (r: Result<Client, Error>)
    ensures r.Success? <==> construct.Ok?
    ensures r.Failure? ==> r.error == ClientConstruction
    ensures r.Success? ==> r.value.address == factory.config.address
    ensures r.Success? ==> r.value.httpClient == factory.config.httpClient
    ensures r.Success? ==> r.value.token == factory.config.adminToken
  {
    match construct
    case Err => Failure(ClientConstruction)
    case Ok(libraryToken) =>
      var built := Client(factory.config.address, factory.config.httpClient, libraryToken);
      Success(built.(token := factory.config.adminToken))
  }

  /** The client does not depend on the token the library picked on its own:
      whatever it was, the admin token replaces it. */
  lemma NewClientIgnoresLibraryToken(factory: Factory, t1: string, t2: string)
    ensures NewClient(factory, Ok(t1)) == NewClient(factory, Ok(t2))
  {
  }
}
