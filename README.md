# Machine scope of the Linode cluster-api provider, modelled in Dafny

The machine controller of the Linode infrastructure provider for cluster-api builds a
`MachineScope` once per reconcile of a `LinodeMachine`. This project models
`cloud/scope/machine.go`: the decision logic and the state changes of that scope.

- **Parameter validation.** The Cluster, Machine, LinodeCluster and LinodeMachine pointers
  are checked for nil in that order. The first nil one decides the error.
- **Credential resolution.** The LinodeMachine's `CredentialsRef` wins over the LinodeCluster's.
  The LinodeCluster's wins over the controller's own keys. A selected reference defaults to
  the namespace of the object that carries it. Its `apiToken` is mandatory. Its `dnsToken`
  silently falls back to the api token when the lookup errors or returns nothing.
- **Construction order.** `NewMachineScope` validates, resolves the credentials, builds the
  primary and then the domains Linode client, then builds the patch helper. The first
  failure returns no scope. The pure function `Scope.PlanMachineScope` states this,
  together with the trace of external calls made on the way. The imperative
  `Scope.NewMachineScope` is proved equal to it.
- **Finalizer bookkeeping.** `AddFinalizer` adds `MachineFinalizer` to the LinodeMachine's
  finalizer list in place. It patches only when the list changed. `patchWrites` counts the
  patches issued, so "no write" can be stated.
- **Bootstrap data.** A missing `dataSecretName`, a failed secret fetch and a missing
  `"value"` key are three distinct failures, checked in that order.
- **Credentials-ref finalizer guards.** Both operations do nothing unless the LinodeMachine
  itself carries a reference.

Layout:

- `wrappers.dfy`: `Option` and `Result`.
- `api_types.dfy`: the API objects. Each is a class, because the provider reaches each
  through a pointer and the scope aliases the caller's LinodeMachine. Only
  `LinodeMachine.finalizers` is a `var`.
- `finalizers.dfy`: `controllerutil.AddFinalizer` on a `seq<string>`, plus occurrence
  counting and the no-duplicates invariant.
- `credentials.dfy`: the precedence switch and the token fallback.
- `machine_scope.dfy`: validation, the construction plan, `NewMachineScope` and the
  `MachineScope` class.

A Go string is a byte string, so keys passed by the controller and tokens read from a
secret share the type `Token = seq<byte>`, and `string(bytes)` is the identity.

Some calls have bodies outside this file: `getCredentialDataFromRef`, `CreateLinodeClient`,
`patch.NewHelper`, `toFinalizer`, `addCredentialsFinalizer` and `removeCredentialsFinalizer`.
They become the fields of a `Scope.Helpers` value, which is passed in as a parameter.
The control-plane client is a handle. The secrets its `Get` returns are a parameter
`secrets` of `GetBootstrapData`, taken as they are at the moment of each call.
The control plane's answer to a patch is a parameter `reply`.

The credential lookups (`Helpers.credentialData`) and the bootstrap fetch (`secrets`) are
two independent views of the one secret store that the control-plane client reads
(cloud/scope/machine.go:83, 89, 158). The model does not tie them to each other.

On the controller-keys path the code passes `dnsKey` through unchanged, even when it is
empty; no fallback to `apiKey` is modelled there (see `Scope.ControllerKeysPassedThrough`).
The file has no machine-finalizer removal operation, so none is modelled.

## Model

| member | source | states |
|---|---|---|
| `Scope.ValidateMachineScopeParams` | cloud/scope/machine.go:39-54 | None exactly when no field is nil; otherwise the error names a nil field, and every field earlier in the order Cluster, Machine, LinodeCluster, LinodeMachine is set |
| `Credentials.SelectCredentials` | cloud/scope/machine.go:66-79 | controller keys exactly when neither object has a reference; the LinodeMachine is the source exactly when it has one, with its own namespace as default; otherwise the LinodeCluster's reference with the LinodeCluster's namespace |
| `Credentials.SelectCredentialsIsFirstMatch` | cloud/scope/machine.go:61-79 | the switch equals "first match wins" over the chain [LinodeMachine, LinodeCluster], falling back to the controller |
| `Credentials.MachineRefShadowsClusterRef` | cloud/scope/machine.go:71-73 | with a LinodeMachine reference the selection is the same whatever the LinodeCluster carries |
| `Credentials.DomainsToken` | cloud/scope/machine.go:89-93 | the dnsToken when its lookup succeeded with a non-empty value; the api token when it errored or was empty; empty only if the api token is |
| `Credentials.ResolveKeys` | cloud/scope/machine.go:81-94 | controller keys pass through unchanged; with a reference, failure exactly when the apiToken lookup fails, the primary key is apiToken, and the domains key is dnsToken if non-empty, else apiToken |
| `Credentials.DnsFallsBackToApiToken` | cloud/scope/machine.go:87-93 | a secret with apiToken X and a missing or empty dnsToken resolves both keys to X |
| `Scope.LookupCalls` | cloud/scope/machine.go:81-94 | no secret read for controller keys; with a reference, apiToken is read first from that reference and namespace, and dnsToken only when apiToken was found |
| `Scope.PlanMachineScope` | cloud/scope/machine.go:56-124 | a validation failure returns that error with no external call; calls never go back to an earlier stage; a credential failure makes only lookups; a client failure builds no patch helper; on success the clients carry the resolved keys and the calls are the lookups, primary client, domains client, patch helper |
| `Scope.ConstructionSucceedsIff` | cloud/scope/machine.go:56-123 | a scope is produced exactly when validation, the apiToken lookup, both client constructions and the patch helper succeed |
| `Scope.FirstFailureEndsConstruction` | cloud/scope/machine.go:96-112 | once the keys are resolved: a rejected primary token ends with ClientCreation after that one client call, so no domains client is tried; a rejected domains token ends with ClientCreation after the two client calls, so no patch helper is built; a ClientCreation outcome always ends on the one rejected token; PatchHelperInit exactly when both clients were built and the patch helper failed, after all three calls |
| `Scope.MissingApiTokenBuildsNoClient` | cloud/scope/machine.go:83-86 | a failed apiToken lookup ends construction after that one lookup, with no client and no patch helper |
| `Scope.ControllerKeysPassedThrough` | cloud/scope/machine.go:77-104 | without any reference, no secret is read, the first client is built with apiKey and the second with dnsKey, even an empty one |
| `Scope.SecretRefTokensReachClients` | cloud/scope/machine.go:81-107 | with a reference, a built scope's primary client holds apiToken and its domains client holds dnsToken when non-empty, apiToken otherwise |
| `Scope.NewMachineScope` | cloud/scope/machine.go:56-124 | the step-by-step constructor makes exactly the plan's calls, returns no scope and the plan's error on failure, and on success a fresh scope holding the input client, Cluster, Machine, LinodeCluster and LinodeMachine, the plan's two clients, and no writes |
| `Scope.MachineScope.constructor` | cloud/scope/machine.go:114-123 | every field holds the value it was given, and no patch has been written |
| `Scope.MachineScope.PatchObject` | cloud/scope/machine.go:126-129 | one more patch write; the error is the control plane's reply |
| `Scope.MachineScope.Close` | cloud/scope/machine.go:131-134 | the same as one PatchObject |
| `Scope.MachineScope.AddFinalizer` | cloud/scope/machine.go:136-144 | MachineFinalizer is in the list afterwards; if it was absent, it is appended and exactly one write happens; if present, no write, no error, list unchanged; a duplicate-free list stays duplicate-free with the finalizer exactly once |
| `Finalizers.AddFinalizer` | cloud/scope/machine.go:139 | the token is present afterwards; the list changed exactly when it was absent; an absent token is appended at the end, a present one leaves the list as it was; no duplicates is preserved |
| `Finalizers.AddFinalizerOnce` | cloud/scope/machine.go:136-144 | after adding to a duplicate-free list, the token occurs exactly once |
| `Finalizers.AddFinalizerCounts` | cloud/scope/machine.go:139 | adding raises the token's count by one if it was absent, and no other token's count changes |
| `Finalizers.AddFinalizerIdempotent` | cloud/scope/machine.go:136-144 | a second consecutive add reports no change and leaves the list as the first left it, so no second write |
| `Scope.MachineScope.GetBootstrapData` | cloud/scope/machine.go:146-176 | missing-name exactly when dataSecretName is nil; not-found exactly when the secret (LinodeMachine namespace, dataSecretName) is absent from the store at the call; value-missing exactly when it lacks "value"; otherwise success with the bytes under "value" |
| `Scope.BootstrapDataReadsOnlyNamedSecret` | cloud/scope/machine.go:148-175 | the result depends only on the named secret in the LinodeMachine's namespace, as it is at the call; with no name, on nothing in the store |
| `Scope.MachineScope.CredentialsFinalizerTarget` | cloud/scope/machine.go:178-198 | no request exactly when the LinodeMachine has no reference, whatever the LinodeCluster has; otherwise the LinodeMachine's reference, its namespace and the finalizer derived from its namespace and name |
| `Scope.MachineScope.AddCredentialsRefFinalizer` | cloud/scope/machine.go:178-187 | success with no request when the LinodeMachine has no reference; otherwise the reply to the protect request for its own reference |
| `Scope.MachineScope.RemoveCredentialsRefFinalizer` | cloud/scope/machine.go:189-198 | success with no request when the LinodeMachine has no reference; otherwise the reply to the release request for its own reference |

## Left out

- Scope.MachineScope.PatchObject: counts the write and returns the control plane's reply. It does not model what the patch helper computes and sends (snapshot diff, server-side apply, optimistic-concurrency conflicts, status write-back), because `patch.Helper` is a library outside this model.
- Scope.MachineScope.AddCredentialsRefFinalizer: the effect on the referenced secret happens inside `addCredentialsFinalizer`. That body is not part of this model. The model fixes the request sent and returns the helper's reply.
- Scope.MachineScope.RemoveCredentialsRefFinalizer: likewise for `removeCredentialsFinalizer`.
- `getCredentialDataFromRef` is not part of this model. That includes how it applies the default namespace and how it reports a missing secret or key. It is an arbitrary function from (reference, default namespace, key) to bytes or an error.
- `CreateLinodeClient` is not part of this model. That includes its timeout (`defaultClientTimeout`) and `WithRetryCount(0)`. Construction is an arbitrary predicate on the token, and a built client is known only by its token.
- `patch.NewHelper` is not part of this model. Whether it succeeds is an input.
- `toFinalizer` is not part of this model. It is an arbitrary function of the LinodeMachine's namespace and name.
- The value of `MachineFinalizer` is defined in the v1alpha2 API package, which is not part of this model. No property depends on the value.
- `Client.Get` is a lookup in the store passed to the call. Any fetch error, such as not found, forbidden, a network error or a cancelled context, is the key being absent.
- `getCredentialDataFromRef` and `Client.Get` read the same store in the provider. Here they are independent inputs, so the model does not promise that a token lookup and a bootstrap fetch agree.
- `context.Context` and cancellation are not modelled. Nothing in the file reads the context except to pass it on.
- Error texts built with `fmt.Errorf` and the wrapped causes are not modelled. Only the error kinds are kept.
