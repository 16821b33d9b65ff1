/** `DtlsConnectorConfig`: the object whose fields the builder fills in
    place. Every field is unset (`None` / `null`) or set; `Model()` reads them
    all as one `Options` value. */
module ConnectorConfig {
  import opened Wrappers
  import opened Crypto
  import opened Credentials
  import opened ConfigOptions

  /** What `clone()` copies as written: every field except
      `backOffRetransmission` and `recommendedSignatureAndHashAlgorithmsOnly`,
      which the copy leaves unset. `Clone` below copies every field. */
  function Cloned(o: Options): (c: Options)
    ensures c.backOffRetransmission.None? && c.recommendedSignatureAndHashAlgorithmsOnly.None?
    ensures c.(backOffRetransmission := o.backOffRetransmission,
               recommendedSignatureAndHashAlgorithmsOnly := o.recommendedSignatureAndHashAlgorithmsOnly) == o
  {
    o.(backOffRetransmission := None, recommendedSignatureAndHashAlgorithmsOnly := None)
  }

  class DtlsConnectorConfig {
    var advancedCertificateVerifier: CertificateVerifier?
    var earlyStopRetransmission: Option<bool>
    var enableReuseAddress: Option<bool>
    var recordSizeLimit: Option<int>
    var maxFragmentLengthCode: Option<int>
    var maxFragmentedHandshakeMessageLength: Option<int>
    var enableMultiRecordMessages: Option<bool>
    var enableMultiHandshakeMessageRecords: Option<bool>
    var retransmissionTimeout: Option<int>
    var additionalTimeoutForEcc: Option<int>
    var backOffRetransmission: Option<int>
    var maxRetransmissions: Option<int>
    var maxTransmissionUnit: Option<int>
    var maxTransmissionUnitLimit: Option<int>
    var clientAuthenticationWanted: Option<bool>
    var clientAuthenticationRequired: Option<bool>
    var serverOnly: Option<bool>
    var defaultHandshakeMode: Option<string>
    var advancedPskStore: PskStore?
    var certificateIdentityProvider: CertificateProvider?
    var certificateConfigurationHelper: CertificateHelper?
    var preselectedCipherSuites: Option<seq<CipherSuite>>
    var supportedCipherSuites: Option<seq<CipherSuite>>
    var supportedSignatureAlgorithms: Option<seq<SignatureAndHashAlgorithm>>
    var supportedGroups: Option<seq<SupportedGroup>>
    var outboundMessageBufferSize: Option<int>
    var maxDeferredProcessedOutgoingApplicationDataMessages: Option<int>
    var maxDeferredProcessedIncomingRecordsSize: Option<int>
    var maxConnections: Option<int>
    var staleConnectionThreshold: Option<int>
    var connectionThreadCount: Option<int>
    var receiverThreadCount: Option<int>
    var socketReceiveBufferSize: Option<int>
    var socketSendBufferSize: Option<int>
    var healthStatusInterval: Option<int>
    var autoResumptionTimeoutMillis: Option<int>
    var sniEnabled: Option<bool>
    var extendedMasterSecretMode: Option<ExtendedMasterSecretMode>
    var verifyPeersOnResumptionThreshold: Option<int>
    var useHelloVerifyRequestForPsk: Option<bool>
    var useHelloVerifyRequest: Option<bool>
    var useServerSessionId: Option<bool>
    var useAntiReplayFilter: Option<bool>
    var useExtendedWindowFilter: Option<int>
    var useCidUpdateAddressOnNewerRecordFilter: Option<bool>
    var useTruncatedCertificatePathForClientsCertificateMessage: Option<bool>
    var useTruncatedCertificatePathForValidation: Option<bool>
    var clientOnly: Option<bool>
    var recommendedCipherSuitesOnly: Option<bool>
    var recommendedSupportedGroupsOnly: Option<bool>
    var recommendedSignatureAndHashAlgorithmsOnly: Option<bool>

    /** The configuration of a new builder: nothing set. */
    constructor ()
      ensures Model() == Unset
    {
      advancedCertificateVerifier := null;
      earlyStopRetransmission := None;
      enableReuseAddress := None;
      recordSizeLimit := None;
      maxFragmentLengthCode := None;
      maxFragmentedHandshakeMessageLength := None;
      enableMultiRecordMessages := None;
      enableMultiHandshakeMessageRecords := None;
      retransmissionTimeout := None;
      additionalTimeoutForEcc := None;
      backOffRetransmission := None;
      maxRetransmissions := None;
      maxTransmissionUnit := None;
      maxTransmissionUnitLimit := None;
      clientAuthenticationWanted := None;
      clientAuthenticationRequired := None;
      serverOnly := None;
      defaultHandshakeMode := None;
      advancedPskStore := null;
      certificateIdentityProvider := null;
      certificateConfigurationHelper := null;
      preselectedCipherSuites := None;
      supportedCipherSuites := None;
      supportedSignatureAlgorithms := None;
      supportedGroups := None;
      outboundMessageBufferSize := None;
      maxDeferredProcessedOutgoingApplicationDataMessages := None;
      maxDeferredProcessedIncomingRecordsSize := None;
      maxConnections := None;
      staleConnectionThreshold := None;
      connectionThreadCount := None;
      receiverThreadCount := None;
      socketReceiveBufferSize := None;
      socketSendBufferSize := None;
      healthStatusInterval := None;
      autoResumptionTimeoutMillis := None;
      sniEnabled := None;
      extendedMasterSecretMode := None;
      verifyPeersOnResumptionThreshold := None;
      useHelloVerifyRequestForPsk := None;
      useHelloVerifyRequest := None;
      useServerSessionId := None;
      useAntiReplayFilter := None;
      useExtendedWindowFilter := None;
      useCidUpdateAddressOnNewerRecordFilter := None;
      useTruncatedCertificatePathForClientsCertificateMessage := None;
      useTruncatedCertificatePathForValidation := None;
      clientOnly := None;
      recommendedCipherSuitesOnly := None;
      recommendedSupportedGroupsOnly := None;
      recommendedSignatureAndHashAlgorithmsOnly := None;
    }

    /** All fields, as a value. */
    function Model(): Options
      reads this
    {
      Options(
        advancedCertificateVerifier := advancedCertificateVerifier,
        earlyStopRetransmission := earlyStopRetransmission,
        enableReuseAddress := enableReuseAddress,
        recordSizeLimit := recordSizeLimit,
        maxFragmentLengthCode := maxFragmentLengthCode,
        maxFragmentedHandshakeMessageLength := maxFragmentedHandshakeMessageLength,
        enableMultiRecordMessages := enableMultiRecordMessages,
        enableMultiHandshakeMessageRecords := enableMultiHandshakeMessageRecords,
        retransmissionTimeout := retransmissionTimeout,
        additionalTimeoutForEcc := additionalTimeoutForEcc,
        backOffRetransmission := backOffRetransmission,
        maxRetransmissions := maxRetransmissions,
        maxTransmissionUnit := maxTransmissionUnit,
        maxTransmissionUnitLimit := maxTransmissionUnitLimit,
        clientAuthenticationWanted := clientAuthenticationWanted,
        clientAuthenticationRequired := clientAuthenticationRequired,
        serverOnly := serverOnly,
        defaultHandshakeMode := defaultHandshakeMode,
        advancedPskStore := advancedPskStore,
        certificateIdentityProvider := certificateIdentityProvider,
        certificateConfigurationHelper := certificateConfigurationHelper,
        preselectedCipherSuites := preselectedCipherSuites,
        supportedCipherSuites := supportedCipherSuites,
        supportedSignatureAlgorithms := supportedSignatureAlgorithms,
        supportedGroups := supportedGroups,
        outboundMessageBufferSize := outboundMessageBufferSize,
        maxDeferredProcessedOutgoingApplicationDataMessages := maxDeferredProcessedOutgoingApplicationDataMessages,
        maxDeferredProcessedIncomingRecordsSize := maxDeferredProcessedIncomingRecordsSize,
        maxConnections := maxConnections,
        staleConnectionThreshold := staleConnectionThreshold,
        connectionThreadCount := connectionThreadCount,
        receiverThreadCount := receiverThreadCount,
        socketReceiveBufferSize := socketReceiveBufferSize,
        socketSendBufferSize := socketSendBufferSize,
        healthStatusInterval := healthStatusInterval,
        autoResumptionTimeoutMillis := autoResumptionTimeoutMillis,
        sniEnabled := sniEnabled,
        extendedMasterSecretMode := extendedMasterSecretMode,
        verifyPeersOnResumptionThreshold := verifyPeersOnResumptionThreshold,
        useHelloVerifyRequestForPsk := useHelloVerifyRequestForPsk,
        useHelloVerifyRequest := useHelloVerifyRequest,
        useServerSessionId := useServerSessionId,
        useAntiReplayFilter := useAntiReplayFilter,
        useExtendedWindowFilter := useExtendedWindowFilter,
        useCidUpdateAddressOnNewerRecordFilter := useCidUpdateAddressOnNewerRecordFilter,
        useTruncatedCertificatePathForClientsCertificateMessage := useTruncatedCertificatePathForClientsCertificateMessage,
        useTruncatedCertificatePathForValidation := useTruncatedCertificatePathForValidation,
        clientOnly := clientOnly,
        recommendedCipherSuitesOnly := recommendedCipherSuitesOnly,
        recommendedSupportedGroupsOnly := recommendedSupportedGroupsOnly,
        recommendedSignatureAndHashAlgorithmsOnly := recommendedSignatureAndHashAlgorithmsOnly)
    }

    /** A fresh object whose fields hold `o`. */
    constructor Of(o: Options)
      ensures Model() == o
    {
      advancedCertificateVerifier := o.advancedCertificateVerifier;
      earlyStopRetransmission := o.earlyStopRetransmission;
      enableReuseAddress := o.enableReuseAddress;
      recordSizeLimit := o.recordSizeLimit;
      maxFragmentLengthCode := o.maxFragmentLengthCode;
      maxFragmentedHandshakeMessageLength := o.maxFragmentedHandshakeMessageLength;
      enableMultiRecordMessages := o.enableMultiRecordMessages;
      enableMultiHandshakeMessageRecords := o.enableMultiHandshakeMessageRecords;
      retransmissionTimeout := o.retransmissionTimeout;
      additionalTimeoutForEcc := o.additionalTimeoutForEcc;
      backOffRetransmission := o.backOffRetransmission;
      maxRetransmissions := o.maxRetransmissions;
      maxTransmissionUnit := o.maxTransmissionUnit;
      maxTransmissionUnitLimit := o.maxTransmissionUnitLimit;
      clientAuthenticationWanted := o.clientAuthenticationWanted;
      clientAuthenticationRequired := o.clientAuthenticationRequired;
      serverOnly := o.serverOnly;
      defaultHandshakeMode := o.defaultHandshakeMode;
      advancedPskStore := o.advancedPskStore;
      certificateIdentityProvider := o.certificateIdentityProvider;
      certificateConfigurationHelper := o.certificateConfigurationHelper;
      preselectedCipherSuites := o.preselectedCipherSuites;
      supportedCipherSuites := o.supportedCipherSuites;
      supportedSignatureAlgorithms := o.supportedSignatureAlgorithms;
      supportedGroups := o.supportedGroups;
      outboundMessageBufferSize := o.outboundMessageBufferSize;
      maxDeferredProcessedOutgoingApplicationDataMessages := o.maxDeferredProcessedOutgoingApplicationDataMessages;
      maxDeferredProcessedIncomingRecordsSize := o.maxDeferredProcessedIncomingRecordsSize;
      maxConnections := o.maxConnections;
      staleConnectionThreshold := o.staleConnectionThreshold;
      connectionThreadCount := o.connectionThreadCount;
      receiverThreadCount := o.receiverThreadCount;
      socketReceiveBufferSize := o.socketReceiveBufferSize;
      socketSendBufferSize := o.socketSendBufferSize;
      healthStatusInterval := o.healthStatusInterval;
      autoResumptionTimeoutMillis := o.autoResumptionTimeoutMillis;
      sniEnabled := o.sniEnabled;
      extendedMasterSecretMode := o.extendedMasterSecretMode;
      verifyPeersOnResumptionThreshold := o.verifyPeersOnResumptionThreshold;
      useHelloVerifyRequestForPsk := o.useHelloVerifyRequestForPsk;
      useHelloVerifyRequest := o.useHelloVerifyRequest;
      useServerSessionId := o.useServerSessionId;
      useAntiReplayFilter := o.useAntiReplayFilter;
      useExtendedWindowFilter := o.useExtendedWindowFilter;
      useCidUpdateAddressOnNewerRecordFilter := o.useCidUpdateAddressOnNewerRecordFilter;
      useTruncatedCertificatePathForClientsCertificateMessage := o.useTruncatedCertificatePathForClientsCertificateMessage;
      useTruncatedCertificatePathForValidation := o.useTruncatedCertificatePathForValidation;
      clientOnly := o.clientOnly;
      recommendedCipherSuitesOnly := o.recommendedCipherSuitesOnly;
      recommendedSupportedGroupsOnly := o.recommendedSupportedGroupsOnly;
      recommendedSignatureAndHashAlgorithmsOnly := o.recommendedSignatureAndHashAlgorithmsOnly;
    }

    /** `clone()`, corrected to copy every field: a fresh object with the
        same options. */
    method Clone() returns (cloned: DtlsConnectorConfig)
      ensures fresh(cloned)
      ensures cloned.Model() == Model()
    {
      cloned := new DtlsConnectorConfig.Of(Model());
    }
  }
}
