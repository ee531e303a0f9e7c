/** The `setup` command: the operator's flags, the ordered required-field
    validation, and the fixed sequential pipeline that validates, builds the
    Vault factory and client, builds the PKI and token services, creates the
    cluster's PKI backend and then its bootstrap tokens.

    The PKI service, the token service and the Vault client library are
    external collaborators; each of their answers is given up front in a
    `Collaborators` value. A run yields its outcome together with the trace of
    the factory, client and service constructions and the two Create calls
    it made, in order. A fatal log-and-exit
    is the terminal `Failed(step)`. */
module Setup {
  import opened Outcomes
  import opened OrderedChecks
  import VaultFactory

  /** The operator-supplied parameters of one setup run. */
  datatype Flags = Flags(
    vaultAddress: string,
    vaultToken: string,
    clusterID: string,
    allowedDomains: string,
    commonName: string,
    caTTL: string,
    allowBareDomains: bool,
    numTokens: int,
    tokenTTL: string)

  /** The flag defaults when the environment supplies neither a Vault address
      nor a Vault token. */
  const DefaultVaultAddress: string := "http://127.0.0.1:8200"
  const DefaultCATTL: string := "86400h"
  const DefaultNumTokens: int := 1
  const DefaultTokenTTL: string := "720h"

  function DefaultFlags(): (f: Flags)
    ensures Validate(f) == Invalid(VaultToken)
    ensures f.numTokens >= 1
  {
    Flags(DefaultVaultAddress, "", "", "", "", DefaultCATTL, false, DefaultNumTokens, DefaultTokenTTL)
  }

  /** The flags validation requires to be non-empty. */
  datatype Field = VaultToken | AllowedDomains | ClusterID | CommonName

  /** The order in which validation checks them. */
  const RequiredOrder: seq<Field> := [VaultToken, AllowedDomains, ClusterID, CommonName]

  function Get(f: Flags, field: Field): string
  {
    match field
    case VaultToken => f.vaultToken
    case AllowedDomains => f.allowedDomains
    case ClusterID => f.clusterID
    case CommonName => f.commonName
  }

  function Present(f: Flags): Field -> bool
  {
    (field: Field) => Get(f, field) != ""
  }

  /** The verdict of validation: nil, or invalidConfigError naming a field. */
  datatype Validation = Valid | Invalid(field: Field)

  ghost predicate SomeRequiredEmpty(f: Flags)
  {
    f.vaultToken == "" || f.allowedDomains == "" || f.clusterID == "" || f.commonName == ""
  }

  /** Checks the required flags in order and reports the first empty one. */
  function Validate(f: Flags): (r: Validation)
    ensures r.Invalid? <==> SomeRequiredEmpty(f)
    ensures r.Invalid? ==> Get(f, r.field) == ""
  {
    if f.vaultToken == "" then Invalid(VaultToken)
    else if f.allowedDomains == "" then Invalid(AllowedDomains)
    else if f.clusterID == "" then Invalid(ClusterID)
    else if f.commonName == "" then Invalid(CommonName)
    else Valid
  }

  /** Validation reports exactly the first empty required flag in the order
      vault token, allowed domains, cluster ID, common name. */
  lemma ValidateReportsFirstEmpty(f: Flags)
    ensures match FirstFailing(RequiredOrder, Present(f))
            case None => Validate(f) == Valid
            case Some(field) => Validate(f) == Invalid(field)
  {
  }

  /** Flags that agree on the four required fields. */
  ghost predicate SameRequired(f: Flags, g: Flags)
  {
    f.vaultToken == g.vaultToken && f.allowedDomains == g.allowedDomains
    && f.clusterID == g.clusterID && f.commonName == g.commonName
  }

  /** The CA TTL, token TTL, token count, bare-domain flag and Vault address
      are never inspected: flags that agree on the required fields get the
      same verdict. */
  lemma ValidateIgnoresOtherFlags(f: Flags, g: Flags)
    requires SameRequired(f, g)
    ensures Validate(f) == Validate(g)
  {
  }

  /** The request handed to the PKI service's Create. */
  datatype PkiCreateConfig = PkiCreateConfig(
    allowedDomains: string,
    clusterID: string,
    commonName: string,
    ttl: string,
    allowBareDomains: bool)

  /** The request handed to the token service's Create. */
  datatype TokenCreateConfig = TokenCreateConfig(clusterID: string, num: int, ttl: string)

  /** The PKI request carries these flags unchanged, the CA TTL as its TTL. */
  ghost predicate CopiesPkiFlags(c: PkiCreateConfig, f: Flags)
  {
    && c.allowedDomains == f.allowedDomains
    && c.clusterID == f.clusterID
    && c.commonName == f.commonName
    && c.ttl == f.caTTL
    && c.allowBareDomains == f.allowBareDomains
  }

  /** The token request carries the cluster ID, the token count as its count
      and the token TTL as its TTL. */
  ghost predicate CopiesTokenFlags(c: TokenCreateConfig, f: Flags)
  {
    c.clusterID == f.clusterID && c.num == f.numTokens && c.ttl == f.tokenTTL
  }

  function PkiRequest(f: Flags): (c: PkiCreateConfig)
    ensures CopiesPkiFlags(c, f)
  {
    PkiCreateConfig(f.allowedDomains, f.clusterID, f.commonName, f.caTTL, f.allowBareDomains)
  }

  function TokenRequest(f: Flags): (c: TokenCreateConfig)
    ensures CopiesTokenFlags(c, f)
  {
    TokenCreateConfig(f.clusterID, f.numTokens, f.tokenTTL)
  }

  /** The PKI request loses nothing of the flags it is built from: two flag
      sets yield the same request exactly when they agree on allowed domains,
      cluster ID, common name, CA TTL and the bare-domain flag. */
  lemma PkiRequestIsLossless(f: Flags, g: Flags)
    ensures PkiRequest(f) == PkiRequest(g) <==>
      && f.allowedDomains == g.allowedDomains
      && f.clusterID == g.clusterID
      && f.commonName == g.commonName
      && f.caTTL == g.caTTL
      && f.allowBareDomains == g.allowBareDomains
  {
  }

  /** Likewise for the token request: cluster ID, token count and token TTL. */
  lemma TokenRequestIsLossless(f: Flags, g: Flags)
    ensures TokenRequest(f) == TokenRequest(g) <==>
      f.clusterID == g.clusterID && f.numTokens == g.numTokens && f.tokenTTL == g.tokenTTL
  {
  }

  /** The factory configuration built from the flags: the default
      configuration with a fresh HTTP client, the flags' Vault address and the
      flags' Vault token. */
  function FactoryConfig(f: Flags): (c: VaultFactory.Config)
    ensures c.httpClient.Some? && c.httpClient != VaultFactory.DefaultConfig().httpClient
    ensures c.address == f.vaultAddress && c.adminToken == f.vaultToken
  {
    VaultFactory.DefaultConfig().(
      httpClient := Some(VaultFactory.FreshHttpClient),
      address := f.vaultAddress,
      adminToken := f.vaultToken)
  }

  /** Once the flags pass validation, the factory accepts their configuration
      exactly when the Vault address is non-empty: the HTTP client is always
      set and the admin token is the already-checked Vault token. */
  lemma FactoryAcceptsValidatedFlags(f: Flags)
    requires Validate(f).Valid?
    ensures VaultFactory.New(FactoryConfig(f)).Success? <==> f.vaultAddress != ""
    ensures f.vaultAddress == "" ==>
      VaultFactory.New(FactoryConfig(f)) == Failure(VaultFactory.InvalidConfig(VaultFactory.AddressField))
  {
  }

  /** The answers the external collaborators give during one run. */
  datatype Collaborators = Collaborators(
    clientLibrary: Outcome<string>,        // the Vault client library's constructor
    pkiService: Outcome<()>,               // pki.NewService
    tokenService: Outcome<()>,             // token.NewService
    pkiCreate: Outcome<()>,                // the PKI service's Create
    tokenCreate: Outcome<seq<string>>)     // the token service's Create, with the tokens

  /** One construction or external call a run makes. */
  datatype Call =
    | NewFactory(config: VaultFactory.Config)
    | NewVaultClient(address: string, httpClient: Option<VaultFactory.HttpClient>)
    | NewPkiService(client: VaultFactory.Client)
    | NewTokenService(client: VaultFactory.Client)
    | CreatePki(pkiConfig: PkiCreateConfig)
    | CreateTokens(tokenConfig: TokenCreateConfig)

  /** The steps of a run; a failed run names the step that failed. */
  datatype Step =
    | ValidateStep | FactoryStep | ClientStep | PkiServiceStep | TokenServiceStep
    | PkiCreateStep | TokenCreateStep

  datatype RunOutcome = Failed(step: Step) | Succeeded(clusterID: string, tokens: seq<string>)

  datatype Run = Run(outcome: RunOutcome, trace: seq<Call>)

  /** The client every service of a run is bound to. */
  function BoundClient(f: Flags): VaultFactory.Client
  {
    VaultFactory.Client(f.vaultAddress, Some(VaultFactory.FreshHttpClient), f.vaultToken)
  }

  /** The complete sequence of calls a run makes when nothing fails. */
  function Plan(f: Flags): seq<Call>
  {
    [ NewFactory(FactoryConfig(f)),
      NewVaultClient(f.vaultAddress, Some(VaultFactory.FreshHttpClient)),
      NewPkiService(BoundClient(f)),
      NewTokenService(BoundClient(f)),
      CreatePki(PkiRequest(f)),
      CreateTokens(TokenRequest(f)) ]
  }

  /** How many calls have been made once `step` has been attempted. */
  function CallsThrough(step: Step): nat
  {
    match step
    case ValidateStep => 0
    case FactoryStep => 1
    case ClientStep => 2
    case PkiServiceStep => 3
    case TokenServiceStep => 4
    case PkiCreateStep => 5
    case TokenCreateStep => 6
  }

  /** The steps that consult a collaborator, in the order a run reaches them. */
  const CollaboratorOrder: seq<Step> :=
    [ClientStep, PkiServiceStep, TokenServiceStep, PkiCreateStep, TokenCreateStep]

  /** Whether the collaborator consulted at `step` answers Ok; the steps that
      consult none always pass. */
  function AnsweredOk(env: Collaborators): Step -> bool
  {
    (step: Step) =>
      match step
      case ClientStep => env.clientLibrary.Ok?
      case PkiServiceStep => env.pkiService.Ok?
      case TokenServiceStep => env.tokenService.Ok?
      case PkiCreateStep => env.pkiCreate.Ok?
      case TokenCreateStep => env.tokenCreate.Ok?
      case _ => true
  }

  /** Every collaborator answers Ok. */
  ghost predicate Healthy(env: Collaborators)
  {
    env.clientLibrary.Ok? && env.pkiService.Ok? && env.tokenService.Ok?
    && env.pkiCreate.Ok? && env.tokenCreate.Ok?
  }

  /** One setup run. Each step runs only after the previous one succeeded;
      the first failure ends the run with nothing undone and nothing retried. */
  function SetupRun(f: Flags, env: Collaborators): (r: Run)
    // the calls made are always the start of the plan, in plan order
    ensures r.trace <= Plan(f)
    // a failed step is the last thing attempted: no call follows it
    ensures r.outcome.Failed? ==> |r.trace| == CallsThrough(r.outcome.step)
    // an invalid flag set stops the run before anything is built or called
    ensures Validate(f).Invalid? <==> r.outcome == Failed(ValidateStep)
    ensures Validate(f).Invalid? ==> r.trace == []
    // validation passes but an empty Vault address is refused by the factory
    ensures r.outcome == Failed(FactoryStep) <==> Validate(f).Valid? && f.vaultAddress == ""
    // the run succeeds exactly when the flags are complete and every collaborator answers Ok
    ensures r.outcome.Succeeded? <==> Validate(f).Valid? && f.vaultAddress != "" && Healthy(env)
    ensures r.outcome.Succeeded? ==>
      && r.trace == Plan(f)
      && r.outcome.clusterID == f.clusterID
      && r.outcome.tokens == env.tokenCreate.value
  {
    match Validate(f)
    case Invalid(_) => Run(Failed(ValidateStep), [])
    case Valid =>
      var config := FactoryConfig(f);
      var trace := [NewFactory(config)];
      match VaultFactory.New(config)
      case Failure(_) => Run(Failed(FactoryStep), trace)
      case Success(factory) =>
        var trace := trace + [NewVaultClient(factory.config.address, factory.config.httpClient)];
        match VaultFactory.NewClient(factory, env.clientLibrary)
        case Failure(_) => Run(Failed(ClientStep), trace)
        case Success(client) =>
          var trace := trace + [NewPkiService(client)];
          if env.pkiService.Err? then Run(Failed(PkiServiceStep), trace) else
          var trace := trace + [NewTokenService(client)];
          if env.tokenService.Err? then Run(Failed(TokenServiceStep), trace) else
          var trace := trace + [CreatePki(PkiRequest(f))];
          if env.pkiCreate.Err? then Run(Failed(PkiCreateStep), trace) else
          var trace := trace + [CreateTokens(TokenRequest(f))];
          match env.tokenCreate
          case Err => Run(Failed(TokenCreateStep), trace)
          case Ok(tokens) => Run(Succeeded(f.clusterID, tokens), trace)
  }
}

/** Properties of whole setup runs, stated over the trace of calls. */
module SetupProperties {
  import opened Outcomes
  import opened OrderedChecks
  import VaultFactory
  import opened Setup

  /** Once a required flag is found empty, the flags after it in check order
      are not consulted: changing them leaves the verdict as it was. */
  lemma {:induction false} LaterFlagsNotConsulted(f: Flags, g: Flags, k: int)
    requires 0 <= k < |RequiredOrder| && Get(f, RequiredOrder[k]) == ""
    requires forall j :: 0 <= j <= k ==> Get(f, RequiredOrder[j]) == Get(g, RequiredOrder[j])
    ensures Validate(f) == Validate(g)
  {
    var p, q := Present(f), Present(g);
    var prefix, suffix := RequiredOrder[..k + 1], RequiredOrder[k + 1..];
    assert RequiredOrder == prefix + suffix;
    assert forall i :: 0 <= i < |prefix| ==> prefix[i] == RequiredOrder[i];
    assert forall i :: 0 <= i < |prefix| ==> p(prefix[i]) == q(prefix[i]);
    FirstFailingDependsOnVerdicts(prefix, p, q);
    assert !p(prefix[k]) && !q(prefix[k]);
    FirstFailingStopsInPrefix(prefix, suffix, p);
    FirstFailingStopsInPrefix(prefix, suffix, q);
    assert FirstFailing(RequiredOrder, p) == FirstFailing(RequiredOrder, q);
    ValidateReportsFirstEmpty(f);
    ValidateReportsFirstEmpty(g);
  }

  /** Every PKI Create call a run makes carries the flags' allowed domains,
      cluster ID, common name, CA TTL and bare-domain flag, unchanged; every
      token Create call carries the flags' cluster ID, token count and token
      TTL. */
  lemma CreateCallsCopyFlags(f: Flags, env: Collaborators)
    ensures forall i :: 0 <= i < |SetupRun(f, env).trace| && SetupRun(f, env).trace[i].CreatePki? ==>
      CopiesPkiFlags(SetupRun(f, env).trace[i].pkiConfig, f)
    ensures forall i :: 0 <= i < |SetupRun(f, env).trace| && SetupRun(f, env).trace[i].CreateTokens? ==>
      CopiesTokenFlags(SetupRun(f, env).trace[i].tokenConfig, f)
  {
  }

  /** The first collaborator, in the order a run consults them, that answers Err. */
  lemma FirstErrIsFirstFailing(env: Collaborators)
    ensures FirstFailing(CollaboratorOrder, AnsweredOk(env)) ==
      if env.clientLibrary.Err? then Some(ClientStep)
      else if env.pkiService.Err? then Some(PkiServiceStep)
      else if env.tokenService.Err? then Some(TokenServiceStep)
      else if env.pkiCreate.Err? then Some(PkiCreateStep)
      else if env.tokenCreate.Err? then Some(TokenCreateStep)
      else None
  {
  }

  /** Past validation and the factory, a run stops at the first collaborator
      that answers Err, in the order client library, PKI service, token
      service, PKI Create, token Create, having made exactly the calls up to
      and including that one; when none does, it succeeds. */
  lemma StopsAtFirstFailingCollaborator(f: Flags, env: Collaborators)
    requires Validate(f).Valid? && f.vaultAddress != ""
    ensures match FirstFailing(CollaboratorOrder, AnsweredOk(env))
            case None => SetupRun(f, env).outcome.Succeeded?
            case Some(step) => SetupRun(f, env) == Run(Failed(step), Plan(f)[..CallsThrough(step)])
  {
    FirstErrIsFirstFailing(env);
    if env.clientLibrary.Err? {
      RunStopsAt(f, env, ClientStep);
    } else if env.pkiService.Err? {
      RunStopsAt(f, env, PkiServiceStep);
    } else if env.tokenService.Err? {
      RunStopsAt(f, env, TokenServiceStep);
    } else if env.pkiCreate.Err? {
      RunStopsAt(f, env, PkiCreateStep);
    } else if env.tokenCreate.Err? {
      RunStopsAt(f, env, TokenCreateStep);
    }
  }

  /** A run that fails at a collaborator step has made exactly the calls of
      the plan up to and including that step's call. */
  lemma RunStopsAt(f: Flags, env: Collaborators, step: Step)
    requires SetupRun(f, env).outcome == Failed(step)
    ensures SetupRun(f, env) == Run(Failed(step), Plan(f)[..CallsThrough(step)])
  {
  }

  /** The token service is asked for tokens only after the PKI service's
      Create was called and answered Ok, and it is asked at most once. */
  lemma TokensOnlyAfterPkiSucceeded(f: Flags, env: Collaborators, i: int)
    requires 0 <= i < |SetupRun(f, env).trace| && SetupRun(f, env).trace[i].CreateTokens?
    ensures env.clientLibrary.Ok? && env.pkiService.Ok? && env.tokenService.Ok? && env.pkiCreate.Ok?
    ensures i == 5 && SetupRun(f, env).trace[4] == CreatePki(PkiRequest(f))
  {
  }

  /** Both services are built on the one client of the run. */
  lemma ServicesShareOneClient(f: Flags, env: Collaborators, i: int)
    requires 0 <= i < |SetupRun(f, env).trace|
    requires SetupRun(f, env).trace[i].NewPkiService? || SetupRun(f, env).trace[i].NewTokenService?
    ensures SetupRun(f, env).trace[i].client == BoundClient(f)
  {
  }

  /** No call is ever made twice within one run, so nothing is retried and no
      step is undone by a later call. */
  lemma NoCallRepeated(f: Flags, env: Collaborators, i: int, j: int)
    requires 0 <= i < j < |SetupRun(f, env).trace|
    ensures SetupRun(f, env).trace[i] != SetupRun(f, env).trace[j]
  {
  }

  /** The run keeps no local state between invocations: after a run that
      failed at the PKI Create step, running again with the same flags
      succeeds once the PKI and token services answer Ok. What the failed run
      left behind in Vault is outside the model. */
  lemma RerunAfterPkiFailure(f: Flags, env: Collaborators, tokens: seq<string>)
    requires SetupRun(f, env).outcome == Failed(PkiCreateStep)
    ensures SetupRun(f, env.(pkiCreate := Ok(()), tokenCreate := Ok(tokens))) ==
      Run(Succeeded(f.clusterID, tokens), Plan(f))
  {
  }

  /** A complete request against a healthy Vault yields the cluster ID and the
      tokens the token service returned, in that order. */
  lemma HealthyScenario(t1: string, t2: string)
    ensures
      var f := Flags("http://127.0.0.1:8200", "root", "c1", "example.com", "c1 CA", "86400h", false, 2, "720h");
      var env := Collaborators(Ok(""), Ok(()), Ok(()), Ok(()), Ok([t1, t2]));
      SetupRun(f, env) == Run(Succeeded("c1", [t1, t2]), Plan(f))
  {
  }

  /** An empty cluster ID stops the run at validation, before any call. */
  lemma EmptyClusterIDScenario(env: Collaborators)
    ensures
      var f := Flags("http://127.0.0.1:8200", "root", "", "example.com", "c1 CA", "86400h", false, 2, "720h");
      SetupRun(f, env) == Run(Failed(ValidateStep), []) && Validate(f) == Invalid(ClusterID)
  {
  }
}
