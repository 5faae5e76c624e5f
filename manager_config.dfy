/** `APIManagerConfig` and `HostTrustPolicy`: plain configuration values
    fixed when they are created. */
module ManagerConfig {
  import opened Trust
  import opened Logging

  /** `HostTrustPolicy`: the trust policy to use for one host. */
  datatype HostTrustPolicy = HostTrustPolicy(host: string, trustPolicy: APITrustPolicyType)

  /** `HostTrustPolicy.init(host:trustPolicy:)`: stores both unchanged; the
      policy defaults to `none`, which disables evaluation. */
  function MakeHostTrustPolicy(host: string, trustPolicy: APITrustPolicyType := APITrustPolicyType.None)
    : (p: HostTrustPolicy)
    ensures p.host == host && p.trustPolicy == trustPolicy
  {
    HostTrustPolicy(host, trustPolicy)
  }

  /** `APIManagerConfig`. */
  datatype APIManagerConfig = APIManagerConfig(eventMonitors: seq<EventMonitor>,
                                               serverTrustPolicies: seq<HostTrustPolicy>)

  /** `APIManagerConfig.init(eventMonitors:serverTrustPolicies:)`, both lists
      defaulting to empty. */
  function MakeConfig(eventMonitors: seq<EventMonitor> := [], serverTrustPolicies: seq<HostTrustPolicy> := [])
    : (c: APIManagerConfig)
    ensures c.eventMonitors == eventMonitors && c.serverTrustPolicies == serverTrustPolicies
  {
    APIManagerConfig(eventMonitors, serverTrustPolicies)
  }

  /** `APIManagerConfig()` has no monitors and no host policies. */
  lemma DefaultConfigIsEmpty()
    ensures MakeConfig().eventMonitors == [] && MakeConfig().serverTrustPolicies == []
  {
  }

  /** A `HostTrustPolicy` built with the default policy selects the disabled
      evaluator: certificates are not checked for that host. */
  lemma DefaultHostTrustPolicyIsDisabled(host: string)
    ensures ServerTrustEvaluator(MakeHostTrustPolicy(host).trustPolicy) == DisabledEvaluator
  {
  }
}
