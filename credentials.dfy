/**
 * Credential resolution for a machine scope: which secret reference overrides the
 * controller's keys, and which tokens the two Linode clients are then built with.
 */
module Credentials {
  import opened Wrappers
  import opened ApiTypes

  /** The secret keys the tokens are read from. */
  const ApiTokenKey: string := "apiToken"
  const DnsTokenKey: string := "dnsToken"

  /** Which object supplied the selected reference. */
  datatype Owner = LinodeMachineOwner | LinodeClusterOwner

  /** Where the credentials come from: a secret reference, with the namespace a lookup
      defaults to, or the keys the controller was started with. */
  datatype CredentialSource =
    | ControllerKeys
    | SecretRef(owner: Owner, ref: SecretReference, defaultNamespace: string)

  /** getCredentialDataFromRef as seen from here: the bytes stored under a key of the
      referenced secret (the namespace argument is the default), or None on any error. */
  type CredentialLookup = (SecretReference, string, string) -> Option<Token>

  /** The keys the primary and the domains client are built with. */
  datatype Keys = Keys(api: Token, dns: Token)

  /** The precedence switch: the LinodeMachine's reference, else the LinodeCluster's,
      else the controller's keys; a selected reference defaults to its owner's namespace. */
  function SelectCredentials(machineRef: Option<SecretReference>, machineNamespace: string,
                             clusterRef: Option<SecretReference>, clusterNamespace: string)
    : (s: CredentialSource)
    ensures s.ControllerKeys? <==> machineRef.None? && clusterRef.None?
    ensures s.SecretRef? && s.owner == LinodeMachineOwner <==> machineRef.Some?
    ensures s.SecretRef? && s.owner == LinodeMachineOwner ==>
              s.ref == machineRef.value && s.defaultNamespace == machineNamespace
    ensures s.SecretRef? && s.owner == LinodeClusterOwner ==>
              s.ref == clusterRef.value && s.defaultNamespace == clusterNamespace
  {
    if machineRef.Some? then SecretRef(LinodeMachineOwner, machineRef.value, machineNamespace)
    else if clusterRef.Some? then SecretRef(LinodeClusterOwner, clusterRef.value, clusterNamespace)
    else ControllerKeys
  }

  /** One link of the precedence chain: an object's optional override and its namespace. */
  datatype Candidate = Candidate(owner: Owner, ref: Option<SecretReference>, namespace: string)

  /** Reference definition of "evaluated top to bottom, first match wins". */
  function FirstMatch(chain: seq<Candidate>): (s: CredentialSource)
  {
    if chain == [] then ControllerKeys
    else if chain[0].ref.Some? then SecretRef(chain[0].owner, chain[0].ref.value, chain[0].namespace)
    else FirstMatch(chain[1..])
  }

  /** The precedence switch is the first match over the chain [LinodeMachine, LinodeCluster]. */
  lemma SelectCredentialsIsFirstMatch(machineRef: Option<SecretReference>, machineNamespace: string,
                                      clusterRef: Option<SecretReference>, clusterNamespace: string)
    ensures SelectCredentials(machineRef, machineNamespace, clusterRef, clusterNamespace)
         == FirstMatch([Candidate(LinodeMachineOwner, machineRef, machineNamespace),
                        Candidate(LinodeClusterOwner, clusterRef, clusterNamespace)])
  {
    var chain := [Candidate(LinodeMachineOwner, machineRef, machineNamespace),
                  Candidate(LinodeClusterOwner, clusterRef, clusterNamespace)];
    var rest := [Candidate(LinodeClusterOwner, clusterRef, clusterNamespace)];
    assert chain[1..] == rest && rest[1..] == [];
    assert FirstMatch(rest) == (if clusterRef.Some? then SecretRef(LinodeClusterOwner, clusterRef.value, clusterNamespace)
                                else ControllerKeys);
  }

  /** A LinodeMachine override hides whatever the LinodeCluster carries. */
  lemma MachineRefShadowsClusterRef(machineRef: SecretReference, machineNamespace: string,
                                    clusterRef1: Option<SecretReference>, clusterNamespace1: string,
                                    clusterRef2: Option<SecretReference>, clusterNamespace2: string)
    ensures SelectCredentials(Some(machineRef), machineNamespace, clusterRef1, clusterNamespace1)
         == SelectCredentials(Some(machineRef), machineNamespace, clusterRef2, clusterNamespace2)
  {
  }

  /** The domains token: the dnsToken lookup when it succeeded with a non-empty value,
      otherwise (an error or an empty value) the api token. */
  function DomainsToken(apiToken: Token, dnsLookup: Option<Token>): (t: Token)
    ensures dnsLookup.Some? && dnsLookup.value != [] ==> t == dnsLookup.value
    ensures dnsLookup.None? || dnsLookup.value == [] ==> t == apiToken
    ensures t == [] ==> apiToken == []
  {
    if dnsLookup.None? || |dnsLookup.value| == 0 then apiToken else dnsLookup.value
  }

  /** The keys after resolution, or None when the mandatory apiToken lookup failed. */
  function ResolveKeys(apiKey: Token, dnsKey: Token, source: CredentialSource,
                       lookup: CredentialLookup): (r: Option<Keys>)
    ensures source.ControllerKeys? ==> r == Some(Keys(apiKey, dnsKey))
    ensures source.SecretRef? ==>
              (r.None? <==> lookup(source.ref, source.defaultNamespace, ApiTokenKey).None?)
    ensures source.SecretRef? && r.Some? ==>
              r.value.api == lookup(source.ref, source.defaultNamespace, ApiTokenKey).value
    ensures source.SecretRef? && r.Some? ==>
              var dns := lookup(source.ref, source.defaultNamespace, DnsTokenKey);
              r.value.dns == (if dns.Some? && dns.value != [] then dns.value else r.value.api)
  {
    match source
    case ControllerKeys => Some(Keys(apiKey, dnsKey))
    case SecretRef(_, ref, ns) =>
      var apiToken := lookup(ref, ns, ApiTokenKey);
      if apiToken.None? then None
      else Some(Keys(apiToken.value, DomainsToken(apiToken.value, lookup(ref, ns, DnsTokenKey))))
  }

  /** A secret holding apiToken = X and no usable dnsToken resolves to X for both clients. */
  lemma DnsFallsBackToApiToken(apiKey: Token, dnsKey: Token, source: CredentialSource,
                               lookup: CredentialLookup, x: Token)
    requires source.SecretRef?
    requires lookup(source.ref, source.defaultNamespace, ApiTokenKey) == Some(x)
    requires lookup(source.ref, source.defaultNamespace, DnsTokenKey) in {None, Some([])}
    ensures ResolveKeys(apiKey, dnsKey, source, lookup) == Some(Keys(x, x))
  {
  }
}
