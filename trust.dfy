/** Server trust: the five trust policies a request may declare, the
    certificate and key providers they carry, and the Alamofire evaluator
    each policy selects. */
module Trust {

  /** Opaque handles to `SecCertificate`, `SecKey` and the raw value of
      `RevocationTrustEvaluator.Options`. */
  type Certificate = nat
  type PublicKey = nat
  type RevocationOptions = nat

  /** `PinnedCertificatesProvider`. */
  datatype PinnedCertificatesProvider = PinnedCertificatesProvider(certificates: seq<Certificate>,
                                                                   acceptSelfSignedCertificates: bool)

  /** `PublicKeysProvider`: it has no default for `keys` (the default that
      was evidently meant for it is declared on `PinnedCertificatesProvider`
      instead), so every provider states its keys. */
  datatype PublicKeysProvider = PublicKeysProvider(keys: seq<PublicKey>)

  /** `APITrustPolicyType`: exactly five policies. `None` disables
      evaluation and must never be used in production. */
  datatype APITrustPolicyType =
    | None
    | Host
    | Revocation(options: RevocationOptions)
    | PinnedCertificates(certificatesProvider: PinnedCertificatesProvider)
    | PublicKeys(keysProvider: PublicKeysProvider)

  /** The certificates and public keys found in the app's main bundle
      (`Bundle.main.af`), which the model takes as given. */
  datatype Bundle = Bundle(certificates: seq<Certificate>, publicKeys: seq<PublicKey>)

  /** A `PinnedCertificatesProvider` that keeps both protocol defaults: the
      bundle's certificates, and self-signed certificates refused. */
  function DefaultPinnedCertificatesProvider(bundle: Bundle): (p: PinnedCertificatesProvider)
    ensures p.certificates == bundle.certificates
    ensures !p.acceptSelfSignedCertificates
  {
    PinnedCertificatesProvider(bundle.certificates, false)
  }

  /** The Alamofire `ServerTrustEvaluating` values the library builds. */
  datatype Evaluator =
    | DisabledEvaluator
    | DefaultEvaluator
    | RevocationEvaluator(options: RevocationOptions)
    | PinnedCertificatesEvaluator(certificates: seq<Certificate>, acceptSelfSignedCertificates: bool)
    | PublicKeysEvaluator(keys: seq<PublicKey>)

  /** `serverTrustEvaluator()`: one evaluator per policy, carrying the
      policy's options, certificates, self-signed flag or keys unchanged. */
  function ServerTrustEvaluator(policy: APITrustPolicyType): (e: Evaluator)
    ensures e.DisabledEvaluator? <==> policy.None?
    ensures e.DefaultEvaluator? <==> policy.Host?
    ensures e.RevocationEvaluator? <==> policy.Revocation?
    ensures e.PinnedCertificatesEvaluator? <==> policy.PinnedCertificates?
    ensures e.PublicKeysEvaluator? <==> policy.PublicKeys?
    ensures policy.Revocation? ==> e.options == policy.options
    ensures policy.PinnedCertificates? ==>
              e.certificates == policy.certificatesProvider.certificates
              && e.acceptSelfSignedCertificates == policy.certificatesProvider.acceptSelfSignedCertificates
    ensures policy.PublicKeys? ==> e.keys == policy.keysProvider.keys
  {
    match policy
    case None => DisabledEvaluator
    case Host => DefaultEvaluator
    case Revocation(options) => RevocationEvaluator(options)
    case PinnedCertificates(provider) =>
      PinnedCertificatesEvaluator(provider.certificates, provider.acceptSelfSignedCertificates)
    case PublicKeys(provider) => PublicKeysEvaluator(provider.keys)
  }

  /** The selection loses nothing a policy carries: two policies select the
      same evaluator exactly when they are the same policy (providers being
      compared by what they provide). */
  lemma ServerTrustEvaluatorInjective(p: APITrustPolicyType, q: APITrustPolicyType)
    ensures ServerTrustEvaluator(p) == ServerTrustEvaluator(q) <==> p == q
  {
    if ServerTrustEvaluator(p) == ServerTrustEvaluator(q) {
      match p {
        case None =>
        case Host =>
        case Revocation(o) =>
        case PinnedCertificates(cp) =>
          assert q.certificatesProvider == PinnedCertificatesProvider(cp.certificates, cp.acceptSelfSignedCertificates);
        case PublicKeys(kp) =>
          assert q.keysProvider == PublicKeysProvider(kp.keys);
      }
    }
  }
}
