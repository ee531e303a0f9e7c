# certctl setup: a Dafny model

This project models the `setup` command of certctl, which provisions a
per-cluster PKI backend and bootstrap tokens in Vault. It covers two parts:

- **The Vault factory** (`vault_factory.dfy`, module `VaultFactory`). This is
  the factory configuration and its default. It includes the ordered
  validation in `New`: address, then HTTP client, then admin token. It also
  includes `NewClient`, which builds a Vault client bound to the configured
  address, HTTP client and admin token.
- **The setup command** (`setup.dfy`, modules `Setup` and `SetupProperties`;
  `report.dfy`, module `SetupReport`). This covers the flags record and the
  ordered required-field validation. It covers the fixed pipeline: validate,
  build the factory, build the client, build the PKI service, build the token
  service, PKI `Create`, token `Create`. It also covers the success summary.

The external collaborators are not visible. They are the Vault client
library's constructor, `pki.NewService`, `token.NewService` and the two
`Create` operations. Their answers are given to a run up front, in a
`Collaborators` value: `Ok(value)` or `Err`. A run is a pure function. It
returns the outcome, `Failed(step)` or `Succeeded(clusterID, tokens)`, and
a trace of the calls it made, in order. The trace records the factory,
client and service constructions and the two `Create` calls. A fatal
`log.Fatalf` becomes `Failed(step)`. The step tag only says where the run
stopped; the code itself has no per-step error types.

`ordered_checks.dfy` (module `OrderedChecks`) holds a reference definition of
"check in order, first failure wins". Both validators are proved to agree
with it. `outcomes.dfy` holds the `Option`, `Outcome` and `Result` datatypes.

Three facts about the code shape what the model promises:

- The setup code never checks `numTokens` or the TTL strings. They pass
  through to the services unchanged.
- Validation does not look at the Vault address. An empty address passes
  validation and is rejected only by the factory (`Failed(FactoryStep)`).
- Nothing in this code constrains the number or distinctness of the returned
  tokens. The model reports whatever sequence the token service returns.

## Model

| member | source | states |
|---|---|---|
| VaultFactory.DefaultConfig | service/vault-factory/vault_factory.go:22-33 | The default configuration has a non-empty address, a non-nil HTTP client (the shared default one) and a non-empty admin token. |
| VaultFactory.DefaultConfigAccepted | service/vault-factory/vault_factory.go:22-53 | `New` accepts the default configuration and keeps it unchanged. |
| VaultFactory.New | service/vault-factory/vault_factory.go:36-54 | Succeeds if and only if the address is non-empty, the HTTP client is non-nil and the admin token is non-empty. The factory holds the config unchanged. An empty address fails with invalidConfigError whatever the other fields are. Every failure names a field that is actually missing. |
| VaultFactory.NewReportsFirstMissing | service/vault-factory/vault_factory.go:41-51 | The field `New` reports is exactly the first missing one in the order address, HTTP client, admin token. With none missing it returns the factory. |
| VaultFactory.NewClient | service/vault-factory/vault_factory.go:60-71 | Succeeds exactly when the client library's constructor does. The client has the factory's address, HTTP client and admin token. When the constructor fails, no client is returned and the error is the construction error. |
| VaultFactory.NewClientIgnoresLibraryToken | service/vault-factory/vault_factory.go:64-68 | Whatever token the library set up by itself, the admin token replaces it. |
| OrderedChecks.FirstFailing | cli/setup.go:61-76 | Reference for an ordered validation. It returns None exactly when every check passes. Otherwise it returns a check that fails, and every check before it passes. |
| Setup.DefaultFlags | cli/setup.go:47-58 | Suppose the environment supplies nothing. Then the flag defaults have a token count of at least 1, and validation rejects them at the Vault token. |
| Setup.Validate | cli/setup.go:61-76 | Fails with invalidConfigError if and only if the Vault token, allowed domains, cluster ID or common name is empty. The field it names is empty. |
| Setup.ValidateReportsFirstEmpty | cli/setup.go:61-76 | The reported field is the first empty one in the order Vault token, allowed domains, cluster ID, common name. With none empty, validation passes. |
| Setup.ValidateIgnoresOtherFlags | cli/setup.go:61-76 | Flags that agree on the four required fields get the same verdict. The CA TTL, token TTL, token count, bare-domain flag and address never matter. |
| SetupProperties.LaterFlagsNotConsulted | cli/setup.go:61-73 | Once a required flag is empty, the flags after it in check order do not affect the verdict. |
| Setup.PkiRequest | cli/setup.go:126-132 | The PKI create request carries the flags' allowed domains, cluster ID, common name and bare-domain flag, and the CA TTL as its TTL. |
| Setup.TokenRequest | cli/setup.go:142-146 | The token create request carries the flags' cluster ID, the token count as its count and the token TTL as its TTL. |
| Setup.PkiRequestIsLossless | cli/setup.go:126-133 | Two flag sets give the same PKI create request exactly when they agree on allowed domains, cluster ID, common name, CA TTL and the bare-domain flag. |
| Setup.TokenRequestIsLossless | cli/setup.go:142-147 | Two flag sets give the same token create request exactly when they agree on cluster ID, token count and token TTL. |
| Setup.FactoryConfig | cli/setup.go:85-88 | The factory configuration uses a fresh non-nil HTTP client, not the shared default one. It uses the flags' Vault address and the flags' Vault token as admin token. |
| Setup.FactoryAcceptsValidatedFlags | cli/setup.go:85-92 | Once the flags pass validation, the factory accepts their configuration exactly when the Vault address is non-empty. Otherwise it fails on the address. |
| Setup.SetupRun | cli/setup.go:78-151 | The calls made are always the start of the fixed plan, in order. A failed step is the last call made. Invalid flags fail at validation with no call at all. An empty address fails at the factory. The run succeeds exactly when the flags are complete and every collaborator answers Ok. Then it makes the whole plan and yields the flags' cluster ID and the returned tokens. |
| SetupProperties.FirstErrIsFirstFailing | cli/setup.go:96-150 | The collaborators are consulted in the order client library, PKI service, token service, PKI create, token create. The first one to answer Err is the first failing check in that order. |
| SetupProperties.StopsAtFirstFailingCollaborator | cli/setup.go:96-150 | Suppose the flags pass validation and the address is non-empty. Then the run fails at the first collaborator that answers Err. It has made exactly the planned calls up to and including that collaborator's call, and none after. When every collaborator answers Ok, the run succeeds. |
| SetupProperties.RunStopsAt | cli/setup.go:78-150 | A run that fails at any step has made exactly the planned calls up to and including that step's call. |
| SetupProperties.CreateCallsCopyFlags | cli/setup.go:124-151 | Every PKI create call carries allowed domains, cluster ID, common name, CA TTL and bare-domain flag copied from the flags. Every token create call carries cluster ID, token count and token TTL copied from the flags. |
| SetupProperties.TokensOnlyAfterPkiSucceeded | cli/setup.go:96-151 | Tokens are requested only as the sixth call, and only after these all answered Ok: the client library, the PKI service constructor, the token service constructor and the PKI create call. The call before it is the PKI create call. |
| SetupProperties.ServicesShareOneClient | cli/setup.go:94-122 | Both service constructions receive the one client of the run, `BoundClient(f)`. |
| SetupProperties.NoCallRepeated | cli/setup.go:78-151 | No call occurs twice in a run, so there is no retry and no undo. |
| SetupProperties.RerunAfterPkiFailure | cli/setup.go:124-151 | The setup command keeps no local state between runs. After a run fails at the PKI create step, a run with the same flags succeeds and makes the whole plan if the services then answer Ok. Remote state left by the failed run is not modelled. |
| SetupProperties.HealthyScenario | cli/setup.go:78-151 | Example: address http://127.0.0.1:8200, token root, cluster c1, domain example.com, two tokens. With healthy collaborators this yields cluster c1 and the two tokens in order. |
| SetupProperties.EmptyClusterIDScenario | cli/setup.go:68-82 | An empty cluster ID fails at validation, naming the cluster ID, before any call, whatever the collaborators would answer. |
| SetupReport.Header | cli/setup.go:153-161 | The summary header has nine lines, and its first line names the cluster ID it was given. |
| SetupReport.Report | cli/setup.go:153-165 | The summary starts with the fixed header lines, which name the cluster. One indented line per token follows, then a blank line. Reading the token lines back gives the tokens in the order the token service returned them. |
| SetupReport.ReportRun | cli/setup.go:153-165 | After a successful run, the summary names the flags' cluster ID. Its token lines read back as exactly the tokens the token service returned, in order. |

## Left out

- Cobra command and flag registration, and the `fromEnv` environment
  defaulting (cli/setup.go:44-59). This is CLI glue. The flag defaults appear
  only as `DefaultFlags`, assuming the environment supplies nothing.
- Process exit through `log.Fatalf` and error wrapping with `maskAny` and
  `maskAnyf`. A fatal exit is the terminal `Failed(step)`. Error messages are
  reduced to the field they name.
- The Vault client library's internals: address parsing, HTTP, and what
  `SetToken` does beyond binding the token. Also `http.Client` and all network
  I/O. The library's constructor is an opaque `Outcome` parameter.
- Calls the trace does not record. These are `vaultfactory.DefaultConfig`
  (cli/setup.go:85), `pki.DefaultServiceConfig` and
  `token.DefaultServiceConfig` (cli/setup.go:105, 116), and the Vault library's
  `DefaultConfig`, which reads its environment
  (service/vault-factory/vault_factory.go:61). They build default values and
  return no error. The trace also omits `SetToken`
  (service/vault-factory/vault_factory.go:68), whose effect shows up as the
  client's token.
- `pki.Service` and `token.Service`. Their code is not part of this model, so
  their answers are abstract outcomes. Nothing is claimed about the number of
  tokens, their distinctness or remote idempotency.
- `numTokens` is Go's `int`. It is modelled as an unbounded `int` because the
  setup code only copies it.
- Setup.DefaultFlags: does not model `fromEnv`, so it does not cover a Vault
  address or token taken from the environment.
- SetupReport.Report: the fixed text of the header is modelled. The claims
  stop at the cluster ID in the first line and the tokens and their order.
  Writing to standard output is replaced by returning the lines.
