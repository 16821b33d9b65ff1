/** What `Builder.build()` does, step by step, as functions of the collected
    options: the default fill, the cipher-suite derivation, the one-pass
    classification of the suites with its credential checks, the
    signature/group derivation and the final consistency checks. `Finalize`
    composes them; `Builder.Build` is proved to compute exactly `Finalize`. */
module BuildSpec {
  import opened Wrappers
  import opened Crypto
  import opened Credentials
  import opened ListUtils
  import opened ConfigOptions
  import opened ListChecks

  /** Step 1: every unset option receives its documented default. Defaults
      that depend on other options read the already defaulted value. */
  function WithDefaults(o: Options, p: Platform): Options {
    var maxRetransmissions := o.maxRetransmissions.GetOr(DEFAULT_MAX_RETRANSMISSIONS);
    var wanted := o.clientAuthenticationWanted.GetOr(false);
    var clientOnly := o.clientOnly.GetOr(false);
    var serverOnly := o.serverOnly.GetOr(false);
    var window := o.useExtendedWindowFilter.GetOr(0);
    var helloVerify := o.useHelloVerifyRequest.GetOr(true);
    o.(
      enableReuseAddress := Some(o.enableReuseAddress.GetOr(false)),
      useTruncatedCertificatePathForClientsCertificateMessage :=
        Some(o.useTruncatedCertificatePathForClientsCertificateMessage.GetOr(true)),
      useTruncatedCertificatePathForValidation := Some(o.useTruncatedCertificatePathForValidation.GetOr(true)),
      earlyStopRetransmission := Some(o.earlyStopRetransmission.GetOr(true)),
      retransmissionTimeout := Some(o.retransmissionTimeout.GetOr(DEFAULT_RETRANSMISSION_TIMEOUT_MS)),
      additionalTimeoutForEcc := Some(o.additionalTimeoutForEcc.GetOr(DEFAULT_ADDITIONAL_TIMEOUT_FOR_ECC_MS)),
      maxRetransmissions := Some(maxRetransmissions),
      backOffRetransmission := Some(o.backOffRetransmission.GetOr(JavaDiv(maxRetransmissions, 2))),
      maxFragmentedHandshakeMessageLength :=
        Some(o.maxFragmentedHandshakeMessageLength.GetOr(DEFAULT_MAX_FRAGMENTED_HANDSHAKE_MESSAGE_LENGTH)),
      clientAuthenticationWanted := Some(wanted),
      clientOnly := Some(clientOnly),
      recommendedCipherSuitesOnly := Some(o.recommendedCipherSuitesOnly.GetOr(true)),
      recommendedSupportedGroupsOnly := Some(o.recommendedSupportedGroupsOnly.GetOr(true)),
      clientAuthenticationRequired :=
        Some(o.clientAuthenticationRequired.GetOr(if clientOnly then false else !wanted)),
      serverOnly := Some(serverOnly),
      defaultHandshakeMode :=
        Some(o.defaultHandshakeMode.GetOr(if serverOnly then HANDSHAKE_MODE_NONE else HANDSHAKE_MODE_AUTO)),
      useServerSessionId := Some(o.useServerSessionId.GetOr(true)),
      outboundMessageBufferSize := Some(o.outboundMessageBufferSize.GetOr(DEFAULT_OUTBOUND_MESSAGE_BUFFER_SIZE)),
      maxDeferredProcessedOutgoingApplicationDataMessages :=
        Some(o.maxDeferredProcessedOutgoingApplicationDataMessages.GetOr(
          DEFAULT_MAX_DEFERRED_PROCESSED_APPLICATION_DATA_MESSAGES)),
      maxDeferredProcessedIncomingRecordsSize :=
        Some(o.maxDeferredProcessedIncomingRecordsSize.GetOr(DEFAULT_MAX_DEFERRED_PROCESSED_INCOMING_RECORDS_SIZE)),
      maxConnections := Some(o.maxConnections.GetOr(DEFAULT_MAX_CONNECTIONS)),
      connectionThreadCount := Some(o.connectionThreadCount.GetOr(DefaultExecutorThreadPoolSize(p))),
      receiverThreadCount := Some(o.receiverThreadCount.GetOr(DefaultReceiverThreads(p))),
      staleConnectionThreshold := Some(o.staleConnectionThreshold.GetOr(DEFAULT_STALE_CONNECTION_TRESHOLD)),
      maxTransmissionUnitLimit := Some(o.maxTransmissionUnitLimit.GetOr(DEFAULT_MAX_TRANSMISSION_UNIT_LIMIT)),
      sniEnabled := Some(o.sniEnabled.GetOr(false)),
      extendedMasterSecretMode := Some(o.extendedMasterSecretMode.GetOr(EnabledMode)),
      useExtendedWindowFilter := Some(window),
      useAntiReplayFilter := Some(o.useAntiReplayFilter.GetOr(window == 0)),
      useCidUpdateAddressOnNewerRecordFilter := Some(o.useCidUpdateAddressOnNewerRecordFilter.GetOr(true)),
      verifyPeersOnResumptionThreshold :=
        Some(o.verifyPeersOnResumptionThreshold.GetOr(DEFAULT_VERIFY_PEERS_ON_RESUMPTION_THRESHOLD_IN_PERCENT)),
      useHelloVerifyRequest := Some(helloVerify),
      useHelloVerifyRequestForPsk := Some(o.useHelloVerifyRequestForPsk.GetOr(helloVerify)))
  }

  /** A server-only configuration without client authentication has no use
      for a certificate verifier. */
  predicate VerifierUnused(d: Options) {
    && IsTrue(d.serverOnly)
    && !IsTrue(d.clientAuthenticationRequired)
    && !IsTrue(d.clientAuthenticationWanted)
    && d.advancedCertificateVerifier != null
  }

  /** Unset group and signature lists become empty lists. */
  function WithEmptyLists(d: Options): Options {
    d.(supportedGroups := Some(d.supportedGroups.GetOr([])),
       supportedSignatureAlgorithms := Some(d.supportedSignatureAlgorithms.GetOr([])))
  }

  /** `determineCipherSuitesFromConfig`, before the preselection: ECDSA suites
      for certificate credentials, then ECDHE_PSK suites if the PSK store
      supports ECDHE, then plain PSK suites for any PSK store. */
  function CandidateCipherSuites(d: Options, p: Platform): seq<CipherSuite> {
    var recommendedOnly := d.recommendedCipherSuitesOnly.GetOr(true);
    var store := d.advancedPskStore;
    (if d.certificateIdentityProvider != null || d.advancedCertificateVerifier != null
     then GetEcdsaCipherSuites(p.cipherSuites, recommendedOnly) else [])
    + (if store != null && store.ecdhePskSupported
       then GetCipherSuitesByKeyExchangeAlgorithm(p.cipherSuites, recommendedOnly, EcdhePsk) else [])
    + (if store != null
       then GetCipherSuitesByKeyExchangeAlgorithm(p.cipherSuites, recommendedOnly, Psk) else [])
  }

  /** The preselected suites that are candidates, in preselected order. */
  function Preselect(preselected: seq<CipherSuite>, candidates: seq<CipherSuite>): seq<CipherSuite> {
    if preselected == [] then []
    else
      var last := preselected[|preselected| - 1];
      Preselect(preselected[..|preselected| - 1], candidates) + (if last in candidates then [last] else [])
  }

  function DerivedCipherSuites(d: Options, p: Platform): seq<CipherSuite> {
    var candidates := CandidateCipherSuites(d, p);
    if d.preselectedCipherSuites.Some? then Preselect(d.preselectedCipherSuites.value, candidates)
    else candidates
  }

  /** The suites are derived only when none (or an empty list) was supplied. */
  function WithCipherSuites(d: Options, p: Platform): Options {
    if d.supportedCipherSuites.None? || |d.supportedCipherSuites.value| == 0
    then d.(supportedCipherSuites := Some(DerivedCipherSuites(d, p)))
    else d
  }

  /** `verifyPskBasedCipherConfig`. */
  function VerifyPskBasedCipherConfig(d: Options, suite: CipherSuite): Outcome<Error> {
    if d.advancedPskStore == null then Fail(PskStoreMissing)
    else if !d.advancedPskStore.ecdhePskSupported && suite.IsEccBased() then Fail(PskStoreWithoutEcdhe)
    else Pass
  }

  /** `verifyCertificateBasedCipherConfig`: an identity (unless client only)
      whose keys fit the suite when a helper is configured, and a verifier
      whenever the peer's certificate must be checked. */
  function VerifyCertificateBasedCipherConfig(d: Options, suite: CipherSuite): Outcome<Error> {
    var provider := d.certificateIdentityProvider;
    var helper := d.certificateConfigurationHelper;
    if provider == null && !IsTrue(d.clientOnly) then Fail(IdentityMissing)
    else if provider != null && helper != null && suite.certificateKeyAlgorithm !in helper.supportedKeyAlgorithms
    then Fail(KeyAlgorithmMismatch)
    else if (IsTrue(d.clientOnly) || IsTrue(d.clientAuthenticationRequired) || IsTrue(d.clientAuthenticationWanted))
            && d.advancedCertificateVerifier == null
    then Fail(VerifierMissing)
    else Pass
  }

  /** The `psk`, `certifacte` and `ecc` flags of the classification loop. */
  datatype Capabilities = Capabilities(psk: bool, certificate: bool, ecc: bool)

  const NoCapabilities := Capabilities(false, false, false)

  /** One iteration of the classification loop. */
  function ClassifyStep(d: Options, caps: Capabilities, suite: CipherSuite): Result<Capabilities, Error> {
    var ecc := caps.ecc || suite.IsEccBased();
    if suite.IsPskBased() then
      match VerifyPskBasedCipherConfig(d, suite)
      case Fail(e) => Err(e)
      case Pass => Ok(caps.(psk := true, ecc := ecc))
    else if suite.RequiresServerCertificateMessage() then
      match VerifyCertificateBasedCipherConfig(d, suite)
      case Fail(e) => Err(e)
      case Pass => Ok(caps.(certificate := true, ecc := ecc))
    else Ok(caps.(ecc := ecc))
  }

  /** The classification loop over `suites`, left to right; the first failing
      check ends it. */
  function Classify(d: Options, suites: seq<CipherSuite>): Result<Capabilities, Error> {
    if suites == [] then Ok(NoCapabilities)
    else
      match Classify(d, suites[..|suites| - 1])
      case Err(e) => Err(e)
      case Ok(caps) => ClassifyStep(d, caps, suites[|suites| - 1])
  }

  /** The first failure ends the loop: once a prefix fails, the whole list
      fails the same way. */
  lemma {:induction false} ClassifyKeepsFirstFailure(d: Options, suites: seq<CipherSuite>, k: nat)
    requires k <= |suites| && Classify(d, suites[..k]).Err?
    ensures Classify(d, suites) == Classify(d, suites[..k])
    decreases |suites| - k
  {
    if k < |suites| {
      var init := suites[..|suites| - 1];
      assert init[..k] == suites[..k];
      ClassifyKeepsFirstFailure(d, init, k);
    } else {
      assert suites[..k] == suites;
    }
  }

  /** A helper is set up from the identity provider and/or the verifier when
      none was configured and one of them can fill it; `h` is that helper. */
  function WithHelper(d: Options, h: CertificateHelper): Options {
    var provider := d.certificateIdentityProvider;
    var verifier := d.advancedCertificateVerifier;
    if d.certificateConfigurationHelper == null
       && ((provider != null && provider.isConfigurationHelperSetup)
           || (verifier != null && verifier.isConfigurationHelperSetup))
    then d.(certificateConfigurationHelper := h)
    else d
  }

  /** Signature algorithms and groups: filled from the defaults (plus the
      helper's) when ECC is used and they are empty; refused when ECC is not
      used and they are not empty. */
  function WithEccLists(d: Options, ecc: bool, p: Platform): Result<Options, Error> {
    if ecc then
      Ok(d.(supportedSignatureAlgorithms := Some(EccSignatureAlgorithms(d, p)),
            supportedGroups := Some(EccGroups(d, p))))
    else match NoEccLists(d)
      case Fail(e) => Err(e)
      case Pass => Ok(d)
  }

  /** The configured signature algorithms, or, when there are none, the
      platform's defaults extended by the helper's. */
  function EccSignatureAlgorithms(d: Options, p: Platform): seq<SignatureAndHashAlgorithm> {
    var signatures := d.supportedSignatureAlgorithms.GetOr([]);
    var helper := d.certificateConfigurationHelper;
    if signatures != [] then signatures
    else if helper != null then AddIfAbsent(p.defaultSignatureAndHashAlgorithms, helper.defaultSignatureAndHashAlgorithms)
    else p.defaultSignatureAndHashAlgorithms
  }

  /** The configured groups, or, when there are none, the platform's
      preferred groups extended by the helper's defaults. */
  function EccGroups(d: Options, p: Platform): seq<SupportedGroup> {
    var groups := d.supportedGroups.GetOr([]);
    var helper := d.certificateConfigurationHelper;
    if groups != [] then groups
    else if helper != null then AddIfAbsent(p.preferredGroups, helper.defaultSupportedGroups)
    else p.preferredGroups
  }

  /** Without an ECC suite, configured signature algorithms or groups are an
      error. */
  function NoEccLists(d: Options): Outcome<Error> {
    if d.supportedSignatureAlgorithms.GetOr([]) != [] then Fail(SignatureAlgorithmsWithoutEccCipherSuite)
    else if d.supportedGroups.GetOr([]) != [] then Fail(GroupsWithoutEccCipherSuite)
    else Pass
  }

  /** The key usage an X.509 identity must allow for the connector's role(s). */
  function VerifyKeyUsage(d: Options, helper: CertificateHelper): Outcome<Error> {
    if IsTrue(d.clientOnly) then (if helper.usableForClients then Pass else Fail(NoClientKeyUsage))
    else if IsTrue(d.serverOnly) then (if helper.usableForServers then Pass else Fail(NoServerKeyUsage))
    else if !helper.usableForClients then Fail(NoClientKeyUsage)
    else if !helper.usableForServers then Fail(NoServerKeyUsage)
    else Pass
  }

  /** The checks after the signature/group derivation, in source order. */
  function FinalChecks(d: Options, certificate: bool): Outcome<Error> {
    var provider := d.certificateIdentityProvider;
    var helper := d.certificateConfigurationHelper;
    var signatures := d.supportedSignatureAlgorithms.GetOr([]);
    var groups := d.supportedGroups.GetOr([]);
    if !certificate && provider != null then Fail(IdentityWithoutCertificateCipherSuite)
    else if !certificate && d.advancedCertificateVerifier != null then Fail(TrustWithoutCertificateCipherSuite)
    else if IsTrue(d.recommendedSupportedGroupsOnly) && !AllGroupsRecommended(groups)
    then Fail(NotRecommendedSupportedGroups)
    else if helper != null && !helper.acceptsSignatureAndHashAlgorithms(signatures)
    then Fail(SignatureAlgorithmsRejectedByCertificate)
    else if helper != null && !helper.acceptsSupportedGroups(groups) then Fail(GroupsRejectedByCertificate)
    else if helper != null && provider != null && X509 in provider.supportedCertificateTypes
            && VerifyKeyUsage(d, helper).Fail?
    then VerifyKeyUsage(d, helper)
    else if IsTrue(d.useHelloVerifyRequest) && !IsTrue(d.useHelloVerifyRequestForPsk)
            && !ContainsPskBasedCipherSuite(d.supportedCipherSuites.GetOr([]))
    then Fail(NoPskCipherSuiteForHelloVerifyRequestForPsk)
    else Pass
  }

  /** The builder's configuration after `build()`, and whether it threw. */
  datatype Built = Built(state: Options, outcome: Outcome<Error>)

  /** `build()`: `h` is the helper that the identity provider / verifier
      would set up when none is configured. */
  function Finalize(o: Options, p: Platform, h: CertificateHelper): Built {
    var d1 := WithDefaults(o, p);
    if VerifierUnused(d1) then Built(d1, Fail(VerifierUnusedWithoutClientAuthentication))
    else
      var d2 := WithCipherSuites(WithEmptyLists(d1), p);
      var suites := d2.supportedCipherSuites.GetOr([]);
      if |suites| == 0 then Built(d2, Fail(NoCipherSuites))
      else if !AllSupported(suites) then Built(d2, Fail(CipherSuiteNotSupported))
      else
        match Classify(d2, suites)
        case Err(e) => Built(d2, Fail(e))
        case Ok(caps) =>
          if !caps.psk && d2.advancedPskStore != null then Built(d2, Fail(PskStoreWithoutPskCipherSuite))
          else
            var d3 := WithHelper(d2, h);
            match WithEccLists(d3, caps.ecc, p)
            case Err(e) => Built(d3, Fail(e))
            case Ok(d4) => Built(d4, FinalChecks(d4, caps.certificate))
  }

  /** Defaulting respects the setters' ranges: every default lies in its
      range, back-off is half of a positive retransmission count, the roles
      and client-authentication defaults never contradict each other, the
      anti-replay default is off whenever the extended window is on, and a
      server-only configuration defaults to handshake mode "none". */
  lemma DefaultsKeepAdmissible(o: Options, p: Platform)
    requires Admissible(o)
    ensures Admissible(WithDefaults(o, p))
  {
    var maxRetransmissions := o.maxRetransmissions.GetOr(DEFAULT_MAX_RETRANSMISSIONS);
    assert JavaDiv(maxRetransmissions, 2) >= 0;
  }

  /** `build()` keeps the setters' ranges, whether it fails or not. */
  lemma FinalizeKeepsAdmissible(o: Options, p: Platform, h: CertificateHelper)
    requires Admissible(o)
    ensures Admissible(Finalize(o, p, h).state)
  {
    var d1 := WithDefaults(o, p);
    DefaultsKeepAdmissible(o, p);
    var d2 := WithCipherSuites(WithEmptyLists(d1), p);
    ListsKeepAdmissible(d1, d2);
    var d3 := WithHelper(d2, h);
    ListsKeepAdmissible(d2, d3);
    var caps := Classify(d2, d2.supportedCipherSuites.GetOr([]));
    if caps.Ok? && WithEccLists(d3, caps.value.ecc, p).Ok? {
      ListsKeepAdmissible(d3, WithEccLists(d3, caps.value.ecc, p).value);
    }
  }

  /** The ranges do not concern the cipher suites, the signature
      algorithms, the groups or the certificate helper. */
  lemma ListsKeepAdmissible(d: Options, e: Options)
    requires Admissible(d)
    requires e == d.(supportedCipherSuites := e.supportedCipherSuites,
                     supportedSignatureAlgorithms := e.supportedSignatureAlgorithms,
                     supportedGroups := e.supportedGroups,
                     certificateConfigurationHelper := e.certificateConfigurationHelper)
    ensures Admissible(e)
  {
  }
}
