/** The state of a DTLS connector configuration as a value: one slot per
    option, each unset (`None` / `null`) or explicitly set; plus the named
    failures of the builder, the platform facts it depends on, and the
    documented default values. */
module ConfigOptions {
  import opened Wrappers
  import opened Crypto
  import opened Credentials

  /** The options of `DtlsConnectorConfig` (same names; see README for the
      handful of fields that are not modelled). */
  datatype Options = Options(
    advancedCertificateVerifier: CertificateVerifier?,
    earlyStopRetransmission: Option<bool>,
    enableReuseAddress: Option<bool>,
    recordSizeLimit: Option<int>,
    maxFragmentLengthCode: Option<int>,
    maxFragmentedHandshakeMessageLength: Option<int>,
    enableMultiRecordMessages: Option<bool>,
    enableMultiHandshakeMessageRecords: Option<bool>,
    retransmissionTimeout: Option<int>,
    additionalTimeoutForEcc: Option<int>,
    backOffRetransmission: Option<int>,
    maxRetransmissions: Option<int>,
    maxTransmissionUnit: Option<int>,
    maxTransmissionUnitLimit: Option<int>,
    clientAuthenticationWanted: Option<bool>,
    clientAuthenticationRequired: Option<bool>,
    serverOnly: Option<bool>,
    defaultHandshakeMode: Option<string>,
    advancedPskStore: PskStore?,
    certificateIdentityProvider: CertificateProvider?,
    certificateConfigurationHelper: CertificateHelper?,
    preselectedCipherSuites: Option<seq<CipherSuite>>,
    supportedCipherSuites: Option<seq<CipherSuite>>,
    supportedSignatureAlgorithms: Option<seq<SignatureAndHashAlgorithm>>,
    supportedGroups: Option<seq<SupportedGroup>>,
    outboundMessageBufferSize: Option<int>,
    maxDeferredProcessedOutgoingApplicationDataMessages: Option<int>,
    maxDeferredProcessedIncomingRecordsSize: Option<int>,
    maxConnections: Option<int>,
    staleConnectionThreshold: Option<int>,
    connectionThreadCount: Option<int>,
    receiverThreadCount: Option<int>,
    socketReceiveBufferSize: Option<int>,
    socketSendBufferSize: Option<int>,
    healthStatusInterval: Option<int>,
    autoResumptionTimeoutMillis: Option<int>,
    sniEnabled: Option<bool>,
    extendedMasterSecretMode: Option<ExtendedMasterSecretMode>,
    verifyPeersOnResumptionThreshold: Option<int>,
    useHelloVerifyRequestForPsk: Option<bool>,
    useHelloVerifyRequest: Option<bool>,
    useServerSessionId: Option<bool>,
    useAntiReplayFilter: Option<bool>,
    useExtendedWindowFilter: Option<int>,
    useCidUpdateAddressOnNewerRecordFilter: Option<bool>,
    useTruncatedCertificatePathForClientsCertificateMessage: Option<bool>,
    useTruncatedCertificatePathForValidation: Option<bool>,
    clientOnly: Option<bool>,
    recommendedCipherSuitesOnly: Option<bool>,
    recommendedSupportedGroupsOnly: Option<bool>,
    recommendedSignatureAndHashAlgorithmsOnly: Option<bool>)

  /** A new builder's configuration: nothing set. */
  const Unset := Options(
    advancedCertificateVerifier := null,
    earlyStopRetransmission := None,
    enableReuseAddress := None,
    recordSizeLimit := None,
    maxFragmentLengthCode := None,
    maxFragmentedHandshakeMessageLength := None,
    enableMultiRecordMessages := None,
    enableMultiHandshakeMessageRecords := None,
    retransmissionTimeout := None,
    additionalTimeoutForEcc := None,
    backOffRetransmission := None,
    maxRetransmissions := None,
    maxTransmissionUnit := None,
    maxTransmissionUnitLimit := None,
    clientAuthenticationWanted := None,
    clientAuthenticationRequired := None,
    serverOnly := None,
    defaultHandshakeMode := None,
    advancedPskStore := null,
    certificateIdentityProvider := null,
    certificateConfigurationHelper := null,
    preselectedCipherSuites := None,
    supportedCipherSuites := None,
    supportedSignatureAlgorithms := None,
    supportedGroups := None,
    outboundMessageBufferSize := None,
    maxDeferredProcessedOutgoingApplicationDataMessages := None,
    maxDeferredProcessedIncomingRecordsSize := None,
    maxConnections := None,
    staleConnectionThreshold := None,
    connectionThreadCount := None,
    receiverThreadCount := None,
    socketReceiveBufferSize := None,
    socketSendBufferSize := None,
    healthStatusInterval := None,
    autoResumptionTimeoutMillis := None,
    sniEnabled := None,
    extendedMasterSecretMode := None,
    verifyPeersOnResumptionThreshold := None,
    useHelloVerifyRequestForPsk := None,
    useHelloVerifyRequest := None,
    useServerSessionId := None,
    useAntiReplayFilter := None,
    useExtendedWindowFilter := None,
    useCidUpdateAddressOnNewerRecordFilter := None,
    useTruncatedCertificatePathForClientsCertificateMessage := None,
    useTruncatedCertificatePathForValidation := None,
    clientOnly := None,
    recommendedCipherSuitesOnly := None,
    recommendedSupportedGroupsOnly := None,
    recommendedSignatureAndHashAlgorithmsOnly := None)

  /** Each exception the builder throws, one constructor per distinct check. */
  datatype Error =
    // setters
    | RecordSizeLimitOutOfRange
    | MaxFragmentLengthCodeInvalid
    | ClientOnlyContradictsServerOnly
    | ClientOnlyContradictsClientAuthentication
    | ClientOnlyContradictsServerSessionId
    | ClientOnlyContradictsHelloVerifyRequestForPsk
    | ClientOnlyContradictsHelloVerifyRequest
    | ServerOnlyContradictsClientOnly
    | ServerOnlyContradictsDefaultHandshakeMode
    | UnknownDefaultHandshakeMode
    | DefaultHandshakeModeForServerOnly
    | OutboundMessageBufferSizeTooSmall
    | NegativeBackOffRetransmission
    | MaxRetransmissionsTooSmall
    | MtuLimitAlreadySet
    | MtuAlreadySet
    | ClientAuthenticationForClientOnly
    | ClientAuthenticationAlreadyRequired
    | ClientAuthenticationAlreadyWanted
    | NoPreselectedCipherSuite
    | NullSupportedCipherSuites
    | NoSupportedCipherSuite
    | NullCipherSuite
    | NoPskCipherSuiteWithoutHelloVerifyRequest
    | NotRecommendedCipherSuites
    | NotRecommendedSignatureAndHashAlgorithms
    | NotRecommendedSupportedGroups
    | NullSupportedGroups
    | NoSupportedGroup
    | GroupNotUsable
    | NegativeRetransmissionTimeout
    | NegativeAdditionalTimeoutForEcc
    | NullCertificateVerifier
    | NegativeMaxDeferredOutgoingMessages
    | NegativeMaxDeferredIncomingRecordsSize
    | MaxConnectionsTooSmall
    | StaleConnectionThresholdTooSmall
    | AutoResumptionTimeoutTooSmall
    | HelloVerifyRequestAlreadyDisabled
    | ResumptionThresholdOutOfRange
    | HelloVerifyRequestForClientOnly
    | HelloVerifyRequestGenerallyDisabled
    | NoPskCipherSuiteToDisableHelloVerifyRequest
    | HelloVerifyRequestEnabledForPsk
    | ResumptionThresholdAlreadySet
    | ServerSessionIdForClientOnly
    | ExtendedWindowFilterActive
    | AntiReplayFilterActive
    // build()
    | VerifierUnusedWithoutClientAuthentication
    | NoCipherSuites
    | CipherSuiteNotSupported
    | PskStoreMissing
    | PskStoreWithoutEcdhe
    | IdentityMissing
    | KeyAlgorithmMismatch
    | VerifierMissing
    | PskStoreWithoutPskCipherSuite
    | SignatureAlgorithmsWithoutEccCipherSuite
    | GroupsWithoutEccCipherSuite
    | IdentityWithoutCertificateCipherSuite
    | TrustWithoutCertificateCipherSuite
    | SignatureAlgorithmsRejectedByCertificate
    | GroupsRejectedByCertificate
    | NoClientKeyUsage
    | NoServerKeyUsage
    | NoPskCipherSuiteForHelloVerifyRequestForPsk

  /** What the running platform contributes: the processor count (thread-pool
      defaults), the cipher-suite catalogue in declaration order,
      `SignatureAndHashAlgorithm.DEFAULT` and `SupportedGroup.getPreferredGroups()`. */
  datatype Platform = Platform(
    availableProcessors: nat,
    cipherSuites: seq<CipherSuite>,
    defaultSignatureAndHashAlgorithms: seq<SignatureAndHashAlgorithm>,
    preferredGroups: seq<SupportedGroup>)

  // Documented defaults (DtlsConnectorConfig's DEFAULT_* constants).
  const DEFAULT_MAX_DEFERRED_PROCESSED_APPLICATION_DATA_MESSAGES := 10
  const DEFAULT_MAX_CONNECTIONS := 150000
  const DEFAULT_MAX_FRAGMENTED_HANDSHAKE_MESSAGE_LENGTH := 8192
  const DEFAULT_MAX_DEFERRED_PROCESSED_INCOMING_RECORDS_SIZE := 8192
  const DEFAULT_STALE_CONNECTION_TRESHOLD := 30 * 60
  const DEFAULT_RETRANSMISSION_TIMEOUT_MS := 2000
  const DEFAULT_ADDITIONAL_TIMEOUT_FOR_ECC_MS := 0
  const DEFAULT_MAX_RETRANSMISSIONS := 4
  const DEFAULT_VERIFY_PEERS_ON_RESUMPTION_THRESHOLD_IN_PERCENT := 30
  /** `RecordLayer.DEFAULT_ETH_MTU`. */
  const DEFAULT_MAX_TRANSMISSION_UNIT_LIMIT := 1500
  const DEFAULT_OUTBOUND_MESSAGE_BUFFER_SIZE := 100000

  /** `DtlsEndpointContext.HANDSHAKE_MODE_AUTO` and `HANDSHAKE_MODE_NONE`. */
  const HANDSHAKE_MODE_AUTO: string := "auto"
  const HANDSHAKE_MODE_NONE: string := "none"

  function DefaultExecutorThreadPoolSize(p: Platform): int { 6 * p.availableProcessors }
  function DefaultReceiverThreads(p: Platform): int { (p.availableProcessors + 1) / 2 }

  /** Java's `int / int` (truncates toward zero). */
  function JavaDiv(a: int, b: int): (q: int)
    requires b > 0
    ensures a >= 0 ==> 0 <= q && q * b <= a < q * b + b
    ensures a < 0 ==> q <= 0 && q * b >= a > q * b - b
  {
    if a >= 0 then a / b else -((-a) / b)
  }

  predicate IsTrue(b: Option<bool>) { b == Some(true) }
  predicate IsFalse(b: Option<bool>) { b == Some(false) }

  predicate InRange(v: Option<int>, lo: int, hi: int) { v.None? || lo <= v.value <= hi }
  predicate AtLeast(v: Option<int>, lo: int) { v.None? || lo <= v.value }

  /** What the setters guarantee of every configuration a builder holds, and
      what `build()` keeps: the per-option ranges, and the role and filter
      contradictions that no sequence of setter calls can produce. */
  predicate Admissible(o: Options) {
    && InRange(o.recordSizeLimit, 64, 65535)
    && InRange(o.maxFragmentLengthCode, 1, 4)
    && AtLeast(o.outboundMessageBufferSize, 1)
    && AtLeast(o.backOffRetransmission, 0)
    && AtLeast(o.maxRetransmissions, 1)
    && AtLeast(o.retransmissionTimeout, 0)
    && AtLeast(o.additionalTimeoutForEcc, 0)
    && AtLeast(o.maxDeferredProcessedOutgoingApplicationDataMessages, 0)
    && AtLeast(o.maxDeferredProcessedIncomingRecordsSize, 0)
    && AtLeast(o.maxConnections, 1)
    && AtLeast(o.staleConnectionThreshold, 1)
    && AtLeast(o.autoResumptionTimeoutMillis, 1)
    && InRange(o.verifyPeersOnResumptionThreshold, 0, 100)
    && (o.defaultHandshakeMode.None? || o.defaultHandshakeMode.value in {HANDSHAKE_MODE_AUTO, HANDSHAKE_MODE_NONE})
    && !(IsTrue(o.clientOnly) && IsTrue(o.serverOnly))
    && !(IsTrue(o.clientAuthenticationWanted) && IsTrue(o.clientAuthenticationRequired))
    && (IsTrue(o.useAntiReplayFilter) ==> o.useExtendedWindowFilter.GetOr(0) == 0)
    && (IsTrue(o.serverOnly) ==> o.defaultHandshakeMode.GetOr(HANDSHAKE_MODE_NONE) == HANDSHAKE_MODE_NONE)
  }

  /** Cross-option facts the setters keep while a configuration is being
      assembled (`build()` then fills in defaults that need not respect
      them): an MTU and an MTU limit exclude each other; a client-only
      configuration has no server-side options; HELLO_VERIFY_REQUEST disabled
      excludes a resumption threshold and HELLO_VERIFY_REQUEST for PSK; and
      HELLO_VERIFY_REQUEST for PSK disabled needs a PSK suite among the
      supported ones. */
  predicate Coherent(o: Options) {
    && !(o.maxTransmissionUnit.Some? && o.maxTransmissionUnitLimit.Some?)
    && (IsTrue(o.clientOnly) ==>
          && o.clientAuthenticationWanted.None? && o.clientAuthenticationRequired.None?
          && !IsFalse(o.useServerSessionId)
          && !IsFalse(o.useHelloVerifyRequestForPsk) && !IsFalse(o.useHelloVerifyRequest))
    && (IsFalse(o.useHelloVerifyRequest) ==>
          o.verifyPeersOnResumptionThreshold.None? && !IsTrue(o.useHelloVerifyRequestForPsk))
    && (IsFalse(o.useHelloVerifyRequestForPsk) && o.supportedCipherSuites.Some? ==>
          ContainsPskBasedCipherSuite(o.supportedCipherSuites.value))
  }
}
