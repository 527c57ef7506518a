/**
 * The per-reconcile machine scope: parameter validation, credential resolution and client
 * construction in `NewMachineScope`, and the operations a reconcile performs on the scope
 * (patching, the machine finalizer, bootstrap data, the credentials-ref finalizer).
 */
module Scope {
  import opened Wrappers
  import opened ApiTypes
  import opened Credentials
  import Finalizers

  /** The key of the bootstrap secret that holds the payload. */
  const BootstrapValueKey: string := "value"

  /** The four required parameters, in the order they are checked. */
  datatype Field = ClusterField | MachineField | LinodeClusterField | LinodeMachineField

  /** Why `NewMachineScope` returned no scope. */
  datatype ScopeError =
    | MissingRequired(field: Field)
    | CredentialsFromSecretRef
    | ClientCreation
    | PatchHelperInit

  /** Why `GetBootstrapData` returned no payload. */
  datatype BootstrapError = DataSecretNameMissing | DataSecretNotFound | DataSecretValueMissing

  /** An error reported by the control plane; its text is not modelled. */
  datatype RemoteError = RemoteError(reason: string)

  /** A Linode API client, known by the token it was built with. */
  datatype LinodeClient = LinodeClient(token: Token)

  /** MachineScopeParams: the control-plane client and four possibly-nil object pointers. */
  datatype MachineScopeParams = MachineScopeParams(
    client: K8sClient,
    cluster: Cluster?,
    machine: Machine?,
    linodeCluster: LinodeCluster?,
    linodeMachine: LinodeMachine?)

  /** A request to protect or release a credentials secret: the reference, the namespace
      it defaults to, and the finalizer naming the referencing object. */
  datatype CredentialsFinalizerRequest =
    CredentialsFinalizerRequest(ref: SecretReference, defaultNamespace: string, finalizer: string)

  /**
   * The collaborators whose bodies lie outside this model, as the values they produce:
   * getCredentialDataFromRef, whether CreateLinodeClient accepts a token, whether
   * patch.NewHelper succeeds, toFinalizer on a namespace and name, and the replies of
   * addCredentialsFinalizer and removeCredentialsFinalizer.
   */
  datatype Helpers = Helpers(
    credentialData: CredentialLookup,
    clientAccepts: Token -> bool,
    patchHelperOk: bool,
    toFinalizer: (string, string) -> string,
    addCredentialsFinalizer: CredentialsFinalizerRequest -> Option<RemoteError>,
    removeCredentialsFinalizer: CredentialsFinalizerRequest -> Option<RemoteError>)

  // ---------------------------------------------------------------- validation

  /** Position of a field in the validation order. */
  function Rank(f: Field): nat {
    match f
    case ClusterField => 0
    case MachineField => 1
    case LinodeClusterField => 2
    case LinodeMachineField => 3
  }

  /** The parameter for `f` is nil. */
  predicate IsNil(p: MachineScopeParams, f: Field) {
    match f
    case ClusterField => p.cluster == null
    case MachineField => p.machine == null
    case LinodeClusterField => p.linodeCluster == null
    case LinodeMachineField => p.linodeMachine == null
  }

  /** All four object pointers are set. */
  predicate Complete(p: MachineScopeParams) {
    p.cluster != null && p.machine != null && p.linodeCluster != null && p.linodeMachine != null
  }

  /** validateMachineScopeParams: None when every field is set, otherwise the error naming
      the first nil field in the order Cluster, Machine, LinodeCluster, LinodeMachine. */
  function ValidateMachineScopeParams(p: MachineScopeParams): (r: Option<ScopeError>)
    ensures r.None? <==> Complete(p)
    ensures r.Some? ==> r.value.MissingRequired? && IsNil(p, r.value.field)
    ensures r.Some? ==> forall g: Field :: Rank(g) < Rank(r.value.field) ==> !IsNil(p, g)
  {
    if p.cluster == null then
      assert IsNil(p, ClusterField);
      Some(MissingRequired(ClusterField))
    else if p.machine == null then
      assert IsNil(p, MachineField);
      Some(MissingRequired(MachineField))
    else if p.linodeCluster == null then
      assert IsNil(p, LinodeClusterField);
      Some(MissingRequired(LinodeClusterField))
    else if p.linodeMachine == null then
      assert IsNil(p, LinodeMachineField);
      Some(MissingRequired(LinodeMachineField))
    else None
  }

  // ---------------------------------------------------------------- construction plan

  /** A call `NewMachineScope` makes outside this model. */
  datatype ExternalCall =
    | GetCredentialData(ref: SecretReference, defaultNamespace: string, key: string)
    | CreateLinodeClient(token: Token)
    | NewPatchHelper

  /** Stage of construction a call belongs to: credentials, clients, patch helper. */
  function Phase(c: ExternalCall): nat {
    match c
    case GetCredentialData(_, _, _) => 0
    case CreateLinodeClient(_) => 1
    case NewPatchHelper => 2
  }

  /** No call of a later stage comes before a call of an earlier one. */
  predicate InPhaseOrder(calls: seq<ExternalCall>) {
    forall i, j :: 0 <= i < j < |calls| ==> Phase(calls[i]) <= Phase(calls[j])
  }

  /** The credential source the precedence switch selects for complete parameters. */
  function SourceOf(p: MachineScopeParams): CredentialSource
    requires Complete(p)
  {
    SelectCredentials(p.linodeMachine.credentialsRef, p.linodeMachine.namespace,
                      p.linodeCluster.credentialsRef, p.linodeCluster.namespace)
  }

  /** The secret lookups credential resolution performs: none for the controller's keys;
      for a reference, apiToken first and dnsToken only when apiToken was found. */
  function LookupCalls(source: CredentialSource, lookup: CredentialLookup): (calls: seq<ExternalCall>)
    ensures forall i :: 0 <= i < |calls| ==>
              calls[i].GetCredentialData? && source.SecretRef? &&
              calls[i].ref == source.ref && calls[i].defaultNamespace == source.defaultNamespace
    ensures source.SecretRef? ==> 1 <= |calls| && calls[0].key == ApiTokenKey
    ensures source.SecretRef? ==>
              |calls| == (if lookup(source.ref, source.defaultNamespace, ApiTokenKey).Some? then 2 else 1)
    ensures |calls| == 2 ==> calls[1].key == DnsTokenKey
  {
    match source
    case ControllerKeys => []
    case SecretRef(_, ref, ns) =>
      if lookup(ref, ns, ApiTokenKey).None? then [GetCredentialData(ref, ns, ApiTokenKey)]
      else [GetCredentialData(ref, ns, ApiTokenKey), GetCredentialData(ref, ns, DnsTokenKey)]
  }

  /** The two clients of a constructed scope. */
  datatype Clients = Clients(primary: LinodeClient, domains: LinodeClient)

  /** What construction yields, and the external calls it made on the way. */
  datatype Plan = Plan(outcome: Result<Clients, ScopeError>, calls: seq<ExternalCall>)

  /** Secret lookups followed by stage-ordered later calls are in stage order. */
  lemma PhaseOrderOfLookupsThen(lookups: seq<ExternalCall>, rest: seq<ExternalCall>)
    requires forall i :: 0 <= i < |lookups| ==> lookups[i].GetCredentialData?
    requires InPhaseOrder(rest)
    requires forall i :: 0 <= i < |rest| ==> !rest[i].GetCredentialData?
    ensures InPhaseOrder(lookups + rest)
  {
  }

  /**
   * NewMachineScope as a function of its inputs: validate, resolve the credentials, build
   * the primary and then the domains client, then the patch helper; the first failure ends
   * construction with no scope.
   */
  function PlanMachineScope(apiKey: Token, dnsKey: Token, p: MachineScopeParams, h: Helpers)
    : (plan: Plan)
    ensures ValidateMachineScopeParams(p).Some? ==>
              plan == Plan(Failure(ValidateMachineScopeParams(p).value), [])
    ensures InPhaseOrder(plan.calls)
    ensures plan.outcome == Failure(CredentialsFromSecretRef) ==>
              forall i :: 0 <= i < |plan.calls| ==> plan.calls[i].GetCredentialData?
    ensures plan.outcome == Failure(ClientCreation) ==> NewPatchHelper !in plan.calls
    ensures plan.outcome.Success? ==>
              && Complete(p)
              && var keys := ResolveKeys(apiKey, dnsKey, SourceOf(p), h.credentialData);
              && keys.Some?
              && plan.outcome.value == Clients(LinodeClient(keys.value.api), LinodeClient(keys.value.dns))
              && plan.calls == LookupCalls(SourceOf(p), h.credentialData)
                               + [CreateLinodeClient(keys.value.api), CreateLinodeClient(keys.value.dns),
                                  NewPatchHelper]
  {
    var invalid := ValidateMachineScopeParams(p);
    if invalid.Some? then Plan(Failure(invalid.value), [])
    else
      var source := SourceOf(p);
      var lookups := LookupCalls(source, h.credentialData);
      var keys := ResolveKeys(apiKey, dnsKey, source, h.credentialData);
      if keys.None? then Plan(Failure(CredentialsFromSecretRef), lookups)
      else
        var primary, domains := CreateLinodeClient(keys.value.api), CreateLinodeClient(keys.value.dns);
        assert InPhaseOrder([primary, domains, NewPatchHelper]);
        PhaseOrderOfLookupsThen(lookups, [primary]);
        PhaseOrderOfLookupsThen(lookups, [primary, domains]);
        PhaseOrderOfLookupsThen(lookups, [primary, domains, NewPatchHelper]);
        if !h.clientAccepts(keys.value.api) then
          Plan(Failure(ClientCreation), lookups + [primary])
        else if !h.clientAccepts(keys.value.dns) then
          Plan(Failure(ClientCreation), lookups + [primary, domains])
        else if !h.patchHelperOk then
          Plan(Failure(PatchHelperInit), lookups + [primary, domains, NewPatchHelper])
        else
          Plan(Success(Clients(LinodeClient(keys.value.api), LinodeClient(keys.value.dns))),
               lookups + [primary, domains, NewPatchHelper])
  }

  /** Construction succeeds exactly when validation, the apiToken lookup, both client
      constructions and the patch helper all succeed. */
  lemma ConstructionSucceedsIff(apiKey: Token, dnsKey: Token, p: MachineScopeParams, h: Helpers)
    ensures PlanMachineScope(apiKey, dnsKey, p, h).outcome.Success? <==>
              && Complete(p)
              && var keys := ResolveKeys(apiKey, dnsKey, SourceOf(p), h.credentialData);
              && keys.Some?
              && h.clientAccepts(keys.value.api)
              && h.clientAccepts(keys.value.dns)
              && h.patchHelperOk
  {
  }

  /** Past credential resolution the first failure ends construction: a rejected primary
      token stops before the domains client; a rejected domains token stops before the
      patch helper; both report ClientCreation; a failed patch helper, after both clients,
      reports PatchHelperInit. */
  lemma FirstFailureEndsConstruction(apiKey: Token, dnsKey: Token, p: MachineScopeParams, h: Helpers)
    requires Complete(p)
    requires ResolveKeys(apiKey, dnsKey, SourceOf(p), h.credentialData).Some?
    ensures var plan := PlanMachineScope(apiKey, dnsKey, p, h);
            var keys := ResolveKeys(apiKey, dnsKey, SourceOf(p), h.credentialData).value;
            var lookups := LookupCalls(SourceOf(p), h.credentialData);
            && (!h.clientAccepts(keys.api) ==>
                  plan == Plan(Failure(ClientCreation), lookups + [CreateLinodeClient(keys.api)]))
            && (h.clientAccepts(keys.api) && !h.clientAccepts(keys.dns) ==>
                  plan == Plan(Failure(ClientCreation),
                               lookups + [CreateLinodeClient(keys.api), CreateLinodeClient(keys.dns)]))
            && (plan.outcome == Failure(ClientCreation) ==>
                  && |plan.calls| > 0
                  && plan.calls[|plan.calls| - 1].CreateLinodeClient?
                  && !h.clientAccepts(plan.calls[|plan.calls| - 1].token)
                  && forall i :: 0 <= i < |plan.calls| - 1 && plan.calls[i].CreateLinodeClient? ==>
                       h.clientAccepts(plan.calls[i].token))
            && (plan.outcome == Failure(PatchHelperInit) <==>
                  h.clientAccepts(keys.api) && h.clientAccepts(keys.dns) && !h.patchHelperOk)
            && (plan.outcome == Failure(PatchHelperInit) ==>
                  plan.calls == lookups + [CreateLinodeClient(keys.api), CreateLinodeClient(keys.dns),
                                           NewPatchHelper])
  {
  }

  /** A selected reference whose apiToken cannot be read ends construction after that
      single lookup: no dnsToken lookup, no client, no patch helper. */
  lemma MissingApiTokenBuildsNoClient(apiKey: Token, dnsKey: Token, p: MachineScopeParams, h: Helpers)
    requires Complete(p) && SourceOf(p).SecretRef?
    requires h.credentialData(SourceOf(p).ref, SourceOf(p).defaultNamespace, ApiTokenKey).None?
    ensures PlanMachineScope(apiKey, dnsKey, p, h)
         == Plan(Failure(CredentialsFromSecretRef),
                 [GetCredentialData(SourceOf(p).ref, SourceOf(p).defaultNamespace, ApiTokenKey)])
  {
  }

  /** Without any reference the controller's keys reach the two clients unchanged: no
      secret is read and an empty dnsKey is not replaced by apiKey. */
  lemma ControllerKeysPassedThrough(apiKey: Token, dnsKey: Token, p: MachineScopeParams, h: Helpers)
    requires Complete(p)
    requires p.linodeMachine.credentialsRef.None? && p.linodeCluster.credentialsRef.None?
    ensures var plan := PlanMachineScope(apiKey, dnsKey, p, h);
            && (forall i :: 0 <= i < |plan.calls| ==> !plan.calls[i].GetCredentialData?)
            && 1 <= |plan.calls| && plan.calls[0] == CreateLinodeClient(apiKey)
            && (2 <= |plan.calls| ==> plan.calls[1] == CreateLinodeClient(dnsKey))
            && (plan.outcome.Success? ==>
                  plan.outcome.value == Clients(LinodeClient(apiKey), LinodeClient(dnsKey)))
  {
  }

  /** With a reference selected, the primary client gets apiToken and the domains client
      gets dnsToken when that lookup returned something non-empty, apiToken otherwise. */
  lemma SecretRefTokensReachClients(apiKey: Token, dnsKey: Token, p: MachineScopeParams, h: Helpers)
    requires Complete(p) && SourceOf(p).SecretRef?
    ensures var plan := PlanMachineScope(apiKey, dnsKey, p, h);
            var src := SourceOf(p);
            var api := h.credentialData(src.ref, src.defaultNamespace, ApiTokenKey);
            var dns := h.credentialData(src.ref, src.defaultNamespace, DnsTokenKey);
            plan.outcome.Success? ==>
              && api.Some?
              && plan.outcome.value.primary == LinodeClient(api.value)
              && plan.outcome.value.domains
                 == LinodeClient(if dns.Some? && dns.value != [] then dns.value else api.value)
  {
  }

  // ---------------------------------------------------------------- the scope

  /** MachineScope: the objects of one reconcile, its two clients, and the number of
      patches it has written through its patch helper. */
  class MachineScope {
    const client: K8sClient
    const cluster: Cluster
    const machine: Machine
    const linodeClient: LinodeClient
    const linodeDomainsClient: LinodeClient
    const linodeCluster: LinodeCluster
    const linodeMachine: LinodeMachine
    /** Every PatchHelper.Patch issued since construction, failed ones included. */
    var patchWrites: nat

    constructor (client: K8sClient, cluster: Cluster, machine: Machine,
                 linodeClient: LinodeClient, linodeDomainsClient: LinodeClient,
                 linodeCluster: LinodeCluster, linodeMachine: LinodeMachine)
      ensures this.client == client && this.cluster == cluster && this.machine == machine
      ensures this.linodeClient == linodeClient && this.linodeDomainsClient == linodeDomainsClient
      ensures this.linodeCluster == linodeCluster && this.linodeMachine == linodeMachine
      ensures patchWrites == 0
    {
      this.client := client;
      this.cluster := cluster;
      this.machine := machine;
      this.linodeClient := linodeClient;
      this.linodeDomainsClient := linodeDomainsClient;
      this.linodeCluster := linodeCluster;
      this.linodeMachine := linodeMachine;
      patchWrites := 0;
    }

    /** PatchObject: one write of the LinodeMachine; `reply` is the control plane's answer. */
    method PatchObject(reply: Option<RemoteError>) returns (err: Option<RemoteError>)
      modifies this`patchWrites
      ensures patchWrites == old(patchWrites) + 1
      ensures err == reply
    {
      patchWrites := patchWrites + 1;
      err := reply;
    }

    /** Close persists the LinodeMachine through PatchObject. */
    method Close(reply: Option<RemoteError>) returns (err: Option<RemoteError>)
      modifies this`patchWrites
      ensures patchWrites == old(patchWrites) + 1
      ensures err == reply
    {
      err := PatchObject(reply);
    }

    /** AddFinalizer: add MachineFinalizer to the LinodeMachine in place and patch only
        when the list changed. */
    method AddFinalizer(reply: Option<RemoteError>) returns (err: Option<RemoteError>)
      modifies this`patchWrites, linodeMachine`finalizers
      ensures linodeMachine.finalizers
           == Finalizers.AddFinalizer(old(linodeMachine.finalizers), MachineFinalizer).finalizers
      ensures MachineFinalizer in linodeMachine.finalizers
      ensures MachineFinalizer !in old(linodeMachine.finalizers) ==>
                patchWrites == old(patchWrites) + 1 && err == reply
      ensures MachineFinalizer in old(linodeMachine.finalizers) ==>
                patchWrites == old(patchWrites) && err.None? &&
                linodeMachine.finalizers == old(linodeMachine.finalizers)
      ensures Finalizers.NoDuplicates(old(linodeMachine.finalizers)) ==>
                Finalizers.NoDuplicates(linodeMachine.finalizers) &&
                Finalizers.Count(linodeMachine.finalizers, MachineFinalizer) == 1
    {
      ghost var before := linodeMachine.finalizers;
      var u := Finalizers.AddFinalizer(linodeMachine.finalizers, MachineFinalizer);
      linodeMachine.finalizers := u.finalizers;
      if Finalizers.NoDuplicates(before) {
        Finalizers.AddFinalizerOnce(before, MachineFinalizer);
      }
      if u.changed {
        err := Close(reply);
      } else {
        err := None;
      }
    }

    /** The secret the bootstrap payload is read from: the Machine's dataSecretName,
        in the LinodeMachine's namespace. */
    function BootstrapSecretKey(): NamespacedName
      requires machine.dataSecretName.Some?
    {
      NamespacedName(linodeMachine.namespace, machine.dataSecretName.value)
    }

    /** GetBootstrapData: a missing secret name, a failed fetch and a missing "value" key
        are three distinct failures, checked in that order; otherwise the stored bytes.
        `secrets` is what the control-plane client's Get sees at the moment of the call:
        the payload is fetched afresh each time, never cached in the scope. */
    function GetBootstrapData(secrets: SecretStore): (r: Result<seq<byte>, BootstrapError>)
      ensures r == Failure(DataSecretNameMissing) <==> machine.dataSecretName.None?
      ensures r == Failure(DataSecretNotFound) <==>
                machine.dataSecretName.Some? && BootstrapSecretKey() !in secrets
      ensures r == Failure(DataSecretValueMissing) <==>
                && machine.dataSecretName.Some?
                && BootstrapSecretKey() in secrets
                && BootstrapValueKey !in secrets[BootstrapSecretKey()]
      ensures r.Success? ==>
                && machine.dataSecretName.Some?
                && BootstrapSecretKey() in secrets
                && BootstrapValueKey in secrets[BootstrapSecretKey()]
                && r.value == secrets[BootstrapSecretKey()][BootstrapValueKey]
    {
      if machine.dataSecretName.None? then Failure(DataSecretNameMissing)
      else
        var key := BootstrapSecretKey();
        if key !in secrets then Failure(DataSecretNotFound)
        else if BootstrapValueKey !in secrets[key] then Failure(DataSecretValueMissing)
        else Success(secrets[key][BootstrapValueKey])
    }

    /** What the credentials-ref finalizer operations act on: nothing unless the
        LinodeMachine itself carries a reference, and then that reference, resolved against
        the LinodeMachine's namespace, whatever the LinodeCluster carries. */
    function CredentialsFinalizerTarget(toFinalizer: (string, string) -> string)
      : (t: Option<CredentialsFinalizerRequest>)
      ensures t.None? <==> linodeMachine.credentialsRef.None?
      ensures t.Some? ==>
                && t.value.ref == linodeMachine.credentialsRef.value
                && t.value.defaultNamespace == linodeMachine.namespace
                && t.value.finalizer == toFinalizer(linodeMachine.namespace, linodeMachine.name)
    {
      match linodeMachine.credentialsRef
      case None => None
      case Some(ref) =>
        Some(CredentialsFinalizerRequest(ref, linodeMachine.namespace,
                                         toFinalizer(linodeMachine.namespace, linodeMachine.name)))
    }

    /** AddCredentialsRefFinalizer: success without a request when the LinodeMachine has no
        reference; otherwise the reply to the request for its own reference. */
    function AddCredentialsRefFinalizer(h: Helpers): (err: Option<RemoteError>)
      ensures linodeMachine.credentialsRef.None? ==> err.None?
      ensures linodeMachine.credentialsRef.Some? ==>
                err == h.addCredentialsFinalizer(CredentialsFinalizerTarget(h.toFinalizer).value)
    {
      match CredentialsFinalizerTarget(h.toFinalizer)
      case None => None
      case Some(request) => h.addCredentialsFinalizer(request)
    }

    /** RemoveCredentialsRefFinalizer: the same guard, releasing instead of protecting. */
    function RemoveCredentialsRefFinalizer(h: Helpers): (err: Option<RemoteError>)
      ensures linodeMachine.credentialsRef.None? ==> err.None?
      ensures linodeMachine.credentialsRef.Some? ==>
                err == h.removeCredentialsFinalizer(CredentialsFinalizerTarget(h.toFinalizer).value)
    {
      match CredentialsFinalizerTarget(h.toFinalizer)
      case None => None
      case Some(request) => h.removeCredentialsFinalizer(request)
    }
  }

  /** Bootstrap data depends only on the one secret named by the Machine, in the
      LinodeMachine's namespace, as it is at the call; with no name the store is not read. */
  lemma BootstrapDataReadsOnlyNamedSecret(s: MachineScope, secrets1: SecretStore, secrets2: SecretStore)
    requires s.machine.dataSecretName.Some? ==>
               (s.BootstrapSecretKey() in secrets1 <==> s.BootstrapSecretKey() in secrets2)
    requires s.machine.dataSecretName.Some? && s.BootstrapSecretKey() in secrets1 ==>
               secrets1[s.BootstrapSecretKey()] == secrets2[s.BootstrapSecretKey()]
    ensures s.GetBootstrapData(secrets1) == s.GetBootstrapData(secrets2)
  {
  }

  // ---------------------------------------------------------------- NewMachineScope

  /**
   * NewMachineScope, step by step: validate, select the credentials, overwrite the keys
   * from the secret (falling back to apiToken for the domains key), build both clients and
   * the patch helper, and only then allocate the scope. `calls` records the external calls.
   */
  method NewMachineScope(apiKey: Token, dnsKey: Token, params: MachineScopeParams, h: Helpers)
    returns (scope: MachineScope?, err: Option<ScopeError>, ghost calls: seq<ExternalCall>)
    ensures var plan := PlanMachineScope(apiKey, dnsKey, params, h);
            && calls == plan.calls
            && (scope == null <==> plan.outcome.Failure?)
            && (plan.outcome.Failure? ==> err == Some(plan.outcome.error))
            && (plan.outcome.Success? ==>
                  && err.None? && scope != null && fresh(scope)
                  && scope.client == params.client
                  && scope.cluster == params.cluster && scope.machine == params.machine
                  && scope.linodeCluster == params.linodeCluster
                  && scope.linodeMachine == params.linodeMachine
                  && scope.linodeClient == plan.outcome.value.primary
                  && scope.linodeDomainsClient == plan.outcome.value.domains
                  && scope.patchWrites == 0)
  {
    calls := [];
    scope := null;
    err := ValidateMachineScopeParams(params);
    if err.Some? {
      return;
    }

    var source := SourceOf(params);
    var primaryKey, domainsKey := apiKey, dnsKey;
    if source.SecretRef? {
      var apiToken := h.credentialData(source.ref, source.defaultNamespace, ApiTokenKey);
      calls := calls + [GetCredentialData(source.ref, source.defaultNamespace, ApiTokenKey)];
      if apiToken.None? {
        err := Some(CredentialsFromSecretRef);
        return;
      }
      primaryKey := apiToken.value;

      var dnsToken := h.credentialData(source.ref, source.defaultNamespace, DnsTokenKey);
      calls := calls + [GetCredentialData(source.ref, source.defaultNamespace, DnsTokenKey)];
      if dnsToken.None? || |dnsToken.value| == 0 {
        dnsToken := apiToken;
      }
      domainsKey := dnsToken.value;
    }

    calls := calls + [CreateLinodeClient(primaryKey)];
    if !h.clientAccepts(primaryKey) {
      err := Some(ClientCreation);
      return;
    }
    var linodeClient := LinodeClient(primaryKey);

    calls := calls + [CreateLinodeClient(domainsKey)];
    if !h.clientAccepts(domainsKey) {
      err := Some(ClientCreation);
      return;
    }
    var linodeDomainsClient := LinodeClient(domainsKey);

    calls := calls + [NewPatchHelper];
    if !h.patchHelperOk {
      err := Some(PatchHelperInit);
      return;
    }

    scope := new MachineScope(params.client, params.cluster, params.machine, linodeClient,
                              linodeDomainsClient, params.linodeCluster, params.linodeMachine);
  }
}
