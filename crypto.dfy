/** The algorithm identifiers the configuration talks about: cipher suites,
    signature-and-hash algorithms, groups (curves), certificate types and the
    extended-master-secret mode. Each carries as plain data what the connector
    asks of it (is it recommended? does the running platform support it?). */
module Crypto {

  /** Key exchange of a cipher suite (the kinds this configuration distinguishes). */
  datatype KeyExchangeAlgorithm =
    | NullKeyExchange   // only TLS_NULL_WITH_NULL_NULL
    | Psk               // plain pre-shared key
    | EcdhePsk          // pre-shared key with ephemeral ECDH
    | EcDiffieHellman   // ECDHE_ECDSA and the anonymous ECDH suites
    | OtherKeyExchange

  /** Kind of key the server certificate of a suite must carry. */
  datatype CertificateKeyAlgorithm = NoCertificate | Ec | Rsa | Dsa

  /** A cipher suite. `recommended` and `supported` are the answers of
      `isRecommended()` and `isSupported()` for this suite. */
  datatype CipherSuite = CipherSuite(
    code: nat,
    keyExchange: KeyExchangeAlgorithm,
    certificateKeyAlgorithm: CertificateKeyAlgorithm,
    recommended: bool,
    supported: bool)
  {
    predicate IsPskBased() { keyExchange == Psk || keyExchange == EcdhePsk }
    predicate IsEccBased() { keyExchange == EcdhePsk || keyExchange == EcDiffieHellman }
    predicate RequiresServerCertificateMessage() { certificateKeyAlgorithm != NoCertificate }
    /** TLS_NULL_WITH_NULL_NULL, which the connector refuses. */
    predicate IsNullCipherSuite() { keyExchange == NullKeyExchange }
  }

  datatype SignatureAndHashAlgorithm = SignatureAndHashAlgorithm(hash: nat, signature: nat, recommended: bool)

  /** A named group (curve); `usable` is the answer of `isUsable()`. */
  datatype SupportedGroup = SupportedGroup(id: nat, recommended: bool, usable: bool)

  datatype CertificateType = X509 | RawPublicKey

  datatype ExtendedMasterSecretMode = NoneMode | OptionalMode | EnabledMode | RequiredMode

  /** `CipherSuite.containsPskBasedCipherSuite`. */
  predicate ContainsPskBasedCipherSuite(suites: seq<CipherSuite>) {
    exists i :: 0 <= i < |suites| && suites[i].IsPskBased()
  }

  /** `suites.contains(CipherSuite.TLS_NULL_WITH_NULL_NULL)`. */
  predicate ContainsNullCipherSuite(suites: seq<CipherSuite>) {
    exists i :: 0 <= i < |suites| && suites[i].IsNullCipherSuite()
  }

  /** A suite the catalogue getters hand out: supported, and recommended when
      only recommended suites are asked for. */
  predicate Offered(s: CipherSuite, recommendedOnly: bool) {
    s.supported && (recommendedOnly ==> s.recommended)
  }

  /** `CipherSuite.getEcdsaCipherSuites(recommendedOnly)` over the catalogue
      `catalog` (the enum's values, in declaration order). */
  function GetEcdsaCipherSuites(catalog: seq<CipherSuite>, recommendedOnly: bool): (r: seq<CipherSuite>)
    ensures forall s :: s in r <==> s in catalog && s.certificateKeyAlgorithm == Ec && Offered(s, recommendedOnly)
    ensures |r| <= |catalog|
  {
    if catalog == [] then []
    else
      var s := catalog[0];
      (if s.certificateKeyAlgorithm == Ec && Offered(s, recommendedOnly) then [s] else [])
      + GetEcdsaCipherSuites(catalog[1..], recommendedOnly)
  }

  /** `CipherSuite.getCipherSuitesByKeyExchangeAlgorithm(recommendedOnly, kx)`. */
  function GetCipherSuitesByKeyExchangeAlgorithm(catalog: seq<CipherSuite>, recommendedOnly: bool,
                                                 kx: KeyExchangeAlgorithm): (r: seq<CipherSuite>)
    ensures forall s :: s in r <==> s in catalog && s.keyExchange == kx && Offered(s, recommendedOnly)
    ensures |r| <= |catalog|
  {
    if catalog == [] then []
    else
      var s := catalog[0];
      (if s.keyExchange == kx && Offered(s, recommendedOnly) then [s] else [])
      + GetCipherSuitesByKeyExchangeAlgorithm(catalog[1..], recommendedOnly, kx)
  }
}

/** Sequence helpers: `ListUtils.addIfAbsent` and what it promises. */
module ListUtils {

  /** `a` is `b` with some elements left out, the rest in the same order. */
  predicate Subsequence<T(==)>(a: seq<T>, b: seq<T>)
    decreases |b|
  {
    if a == [] then true
    else if b == [] then false
    else if a[0] == b[0] then Subsequence(a[1..], b[1..])
    else Subsequence(a, b[1..])
  }

  /** `ListUtils.addIfAbsent`: append the elements of `additional` that the
      list does not yet contain, in order, each once. */
  function AddIfAbsent<T(==,!new)>(list: seq<T>, additional: seq<T>): (r: seq<T>)
    ensures |list| <= |r| && r[..|list|] == list
    ensures forall x :: x in r <==> x in list || x in additional
    ensures forall i :: |list| <= i < |r| ==> r[i] !in list
    ensures forall i, j :: |list| <= i < j < |r| ==> r[i] != r[j]
    ensures Subsequence(r[|list|..], additional)
    decreases |additional|
  {
    if additional == [] then list
    else
      var x := additional[0];
      var next := if x in list then list else list + [x];
      var r := AddIfAbsent(next, additional[1..]);
      assert x !in list ==> r[|list|] == x && r[|list|..][1..] == r[|next|..];
      r
  }
}
