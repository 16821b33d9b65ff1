/** The body of `Builder.build()`, step by step, over the configuration the
    builder fills. Each step writes a few fields of `c` and states the new
    `Model()` as a function of the old one; `BuildConfig` chains the steps and
    is proved to reach exactly the state and outcome `Finalize` describes. */
module BuildSteps {
  import opened Wrappers
  import opened Crypto
  import opened Credentials
  import opened ConfigOptions
  import opened ListChecks
  import opened ListUtils
  import opened BuildSpec
  import opened ConnectorConfig

  // ---- defaults, in source order; storing `Some(f.GetOr(d))` is "if unset, set to d" ----

  /** Address reuse and certificate path truncation. */
  method FillSocketDefaults(c: DtlsConnectorConfig)
    modifies c`enableReuseAddress, c`useTruncatedCertificatePathForClientsCertificateMessage,
             c`useTruncatedCertificatePathForValidation
    ensures c.Model() == old(c.Model()).(
              enableReuseAddress := Some(old(c.enableReuseAddress).GetOr(false)),
              useTruncatedCertificatePathForClientsCertificateMessage :=
                Some(old(c.useTruncatedCertificatePathForClientsCertificateMessage).GetOr(true)),
              useTruncatedCertificatePathForValidation :=
                Some(old(c.useTruncatedCertificatePathForValidation).GetOr(true)))
  {
    c.enableReuseAddress := Some(c.enableReuseAddress.GetOr(false));
    c.useTruncatedCertificatePathForClientsCertificateMessage :=
      Some(c.useTruncatedCertificatePathForClientsCertificateMessage.GetOr(true));
    c.useTruncatedCertificatePathForValidation := Some(c.useTruncatedCertificatePathForValidation.GetOr(true));
  }

  /** Early stop and the retransmission timeouts. */
  method FillTimeoutDefaults(c: DtlsConnectorConfig)
    modifies c`earlyStopRetransmission, c`retransmissionTimeout, c`additionalTimeoutForEcc
    ensures c.Model() == old(c.Model()).(
              earlyStopRetransmission := Some(old(c.earlyStopRetransmission).GetOr(true)),
              retransmissionTimeout := Some(old(c.retransmissionTimeout).GetOr(DEFAULT_RETRANSMISSION_TIMEOUT_MS)),
              additionalTimeoutForEcc := Some(old(c.additionalTimeoutForEcc).GetOr(
                DEFAULT_ADDITIONAL_TIMEOUT_FOR_ECC_MS)))
  {
    c.earlyStopRetransmission := Some(c.earlyStopRetransmission.GetOr(true));
    c.retransmissionTimeout := Some(c.retransmissionTimeout.GetOr(DEFAULT_RETRANSMISSION_TIMEOUT_MS));
    c.additionalTimeoutForEcc := Some(c.additionalTimeoutForEcc.GetOr(DEFAULT_ADDITIONAL_TIMEOUT_FOR_ECC_MS));
  }

  /** Retransmission count, back-off (half the count, read after the count
      got its default) and the fragmented message limit. */
  method FillRetransmissionDefaults(c: DtlsConnectorConfig)
    modifies c`maxRetransmissions, c`backOffRetransmission, c`maxFragmentedHandshakeMessageLength
    ensures c.Model() == old(c.Model()).(
              maxRetransmissions := Some(old(c.maxRetransmissions).GetOr(DEFAULT_MAX_RETRANSMISSIONS)),
              backOffRetransmission := Some(old(c.backOffRetransmission).GetOr(
                JavaDiv(old(c.maxRetransmissions).GetOr(DEFAULT_MAX_RETRANSMISSIONS), 2))),
              maxFragmentedHandshakeMessageLength := Some(old(c.maxFragmentedHandshakeMessageLength).GetOr(
                DEFAULT_MAX_FRAGMENTED_HANDSHAKE_MESSAGE_LENGTH)))
  {
    c.maxRetransmissions := Some(c.maxRetransmissions.GetOr(DEFAULT_MAX_RETRANSMISSIONS));
    c.backOffRetransmission := Some(c.backOffRetransmission.GetOr(JavaDiv(c.maxRetransmissions.value, 2)));
    c.maxFragmentedHandshakeMessageLength := Some(c.maxFragmentedHandshakeMessageLength.GetOr(
      DEFAULT_MAX_FRAGMENTED_HANDSHAKE_MESSAGE_LENGTH));
  }

  /** Client authentication wanted and client only. */
  method FillClientRoleDefaults(c: DtlsConnectorConfig)
    modifies c`clientAuthenticationWanted, c`clientOnly
    ensures c.Model() == old(c.Model()).(
              clientAuthenticationWanted := Some(old(c.clientAuthenticationWanted).GetOr(false)),
              clientOnly := Some(old(c.clientOnly).GetOr(false)))
  {
    c.clientAuthenticationWanted := Some(c.clientAuthenticationWanted.GetOr(false));
    c.clientOnly := Some(c.clientOnly.GetOr(false));
  }

  /** The "recommended only" switches for cipher suites and groups. */
  method FillRecommendedDefaults(c: DtlsConnectorConfig)
    modifies c`recommendedCipherSuitesOnly, c`recommendedSupportedGroupsOnly
    ensures c.Model() == old(c.Model()).(
              recommendedCipherSuitesOnly := Some(old(c.recommendedCipherSuitesOnly).GetOr(true)),
              recommendedSupportedGroupsOnly := Some(old(c.recommendedSupportedGroupsOnly).GetOr(true)))
  {
    c.recommendedCipherSuitesOnly := Some(c.recommendedCipherSuitesOnly.GetOr(true));
    c.recommendedSupportedGroupsOnly := Some(c.recommendedSupportedGroupsOnly.GetOr(true));
  }

  /** Client authentication required: never for a client only, otherwise
      unless merely wanted. The client role defaults come first. */
  method FillClientAuthenticationDefault(c: DtlsConnectorConfig)
    requires c.clientOnly.Some? && c.clientAuthenticationWanted.Some?
    modifies c`clientAuthenticationRequired
    ensures c.Model() == old(c.Model()).(clientAuthenticationRequired := Some(
              old(c.clientAuthenticationRequired).GetOr(
                if old(c.clientOnly).value then false else !old(c.clientAuthenticationWanted).value)))
  {
    if c.clientAuthenticationRequired.None? {
      c.clientAuthenticationRequired := Some(if c.clientOnly.value then false else !c.clientAuthenticationWanted.value);
    }
  }

  /** Server only, and the handshake mode: "none" for a server only. */
  method FillServerRoleDefaults(c: DtlsConnectorConfig)
    modifies c`serverOnly, c`defaultHandshakeMode
    ensures c.Model() == old(c.Model()).(
              serverOnly := Some(old(c.serverOnly).GetOr(false)),
              defaultHandshakeMode := Some(old(c.defaultHandshakeMode).GetOr(
                if old(c.serverOnly).GetOr(false) then HANDSHAKE_MODE_NONE else HANDSHAKE_MODE_AUTO)))
  {
    c.serverOnly := Some(c.serverOnly.GetOr(false));
    c.defaultHandshakeMode := Some(c.defaultHandshakeMode.GetOr(
      if c.serverOnly.value then HANDSHAKE_MODE_NONE else HANDSHAKE_MODE_AUTO));
  }

  /** Server session ids and the outbound buffer. */
  method FillSessionDefaults(c: DtlsConnectorConfig)
    modifies c`useServerSessionId, c`outboundMessageBufferSize
    ensures c.Model() == old(c.Model()).(
              useServerSessionId := Some(old(c.useServerSessionId).GetOr(true)),
              outboundMessageBufferSize := Some(old(c.outboundMessageBufferSize).GetOr(
                DEFAULT_OUTBOUND_MESSAGE_BUFFER_SIZE)))
  {
    c.useServerSessionId := Some(c.useServerSessionId.GetOr(true));
    c.outboundMessageBufferSize := Some(c.outboundMessageBufferSize.GetOr(DEFAULT_OUTBOUND_MESSAGE_BUFFER_SIZE));
  }

  /** Deferred processing limits and the connection store size. */
  method FillDeferredDefaults(c: DtlsConnectorConfig)
    modifies c`maxDeferredProcessedOutgoingApplicationDataMessages, c`maxDeferredProcessedIncomingRecordsSize,
             c`maxConnections
    ensures c.Model() == old(c.Model()).(
              maxDeferredProcessedOutgoingApplicationDataMessages := Some(old(c.maxDeferredProcessedOutgoingApplicationDataMessages).GetOr(
                DEFAULT_MAX_DEFERRED_PROCESSED_APPLICATION_DATA_MESSAGES)),
              maxDeferredProcessedIncomingRecordsSize := Some(old(c.maxDeferredProcessedIncomingRecordsSize).GetOr(
                DEFAULT_MAX_DEFERRED_PROCESSED_INCOMING_RECORDS_SIZE)),
              maxConnections := Some(old(c.maxConnections).GetOr(DEFAULT_MAX_CONNECTIONS)))
  {
    c.maxDeferredProcessedOutgoingApplicationDataMessages := Some(c.maxDeferredProcessedOutgoingApplicationDataMessages.GetOr(
      DEFAULT_MAX_DEFERRED_PROCESSED_APPLICATION_DATA_MESSAGES));
    c.maxDeferredProcessedIncomingRecordsSize := Some(c.maxDeferredProcessedIncomingRecordsSize.GetOr(
      DEFAULT_MAX_DEFERRED_PROCESSED_INCOMING_RECORDS_SIZE));
    c.maxConnections := Some(c.maxConnections.GetOr(DEFAULT_MAX_CONNECTIONS));
  }

  /** The thread counts, which depend on the platform's processor count,
      and the stale connection threshold. */
  method FillThreadDefaults(c: DtlsConnectorConfig, platform: Platform)
    modifies c`connectionThreadCount, c`receiverThreadCount, c`staleConnectionThreshold
    ensures c.Model() == old(c.Model()).(
              connectionThreadCount := Some(old(c.connectionThreadCount).GetOr(
                DefaultExecutorThreadPoolSize(platform))),
              receiverThreadCount := Some(old(c.receiverThreadCount).GetOr(DefaultReceiverThreads(platform))),
              staleConnectionThreshold := Some(old(c.staleConnectionThreshold).GetOr(
                DEFAULT_STALE_CONNECTION_TRESHOLD)))
  {
    c.connectionThreadCount := Some(c.connectionThreadCount.GetOr(DefaultExecutorThreadPoolSize(platform)));
    c.receiverThreadCount := Some(c.receiverThreadCount.GetOr(DefaultReceiverThreads(platform)));
    c.staleConnectionThreshold := Some(c.staleConnectionThreshold.GetOr(DEFAULT_STALE_CONNECTION_TRESHOLD));
  }

  /** The MTU limit, SNI and extended master secret. */
  method FillExtensionDefaults(c: DtlsConnectorConfig)
    modifies c`maxTransmissionUnitLimit, c`sniEnabled, c`extendedMasterSecretMode
    ensures c.Model() == old(c.Model()).(
              maxTransmissionUnitLimit := Some(old(c.maxTransmissionUnitLimit).GetOr(
                DEFAULT_MAX_TRANSMISSION_UNIT_LIMIT)),
              sniEnabled := Some(old(c.sniEnabled).GetOr(false)),
              extendedMasterSecretMode := Some(old(c.extendedMasterSecretMode).GetOr(EnabledMode)))
  {
    c.maxTransmissionUnitLimit := Some(c.maxTransmissionUnitLimit.GetOr(DEFAULT_MAX_TRANSMISSION_UNIT_LIMIT));
    c.sniEnabled := Some(c.sniEnabled.GetOr(false));
    c.extendedMasterSecretMode := Some(c.extendedMasterSecretMode.GetOr(EnabledMode));
  }

  /** The replay filters (anti-replay on exactly when no extended window is
      set) and the address update filter. */
  method FillFilterDefaults(c: DtlsConnectorConfig)
    modifies c`useExtendedWindowFilter, c`useAntiReplayFilter, c`useCidUpdateAddressOnNewerRecordFilter
    ensures c.Model() == old(c.Model()).(
              useExtendedWindowFilter := Some(old(c.useExtendedWindowFilter).GetOr(0)),
              useAntiReplayFilter := Some(old(c.useAntiReplayFilter).GetOr(
                old(c.useExtendedWindowFilter).GetOr(0) == 0)),
              useCidUpdateAddressOnNewerRecordFilter := Some(old(c.useCidUpdateAddressOnNewerRecordFilter).GetOr(true)))
  {
    c.useExtendedWindowFilter := Some(c.useExtendedWindowFilter.GetOr(0));
    c.useAntiReplayFilter := Some(c.useAntiReplayFilter.GetOr(c.useExtendedWindowFilter.value == 0));
    c.useCidUpdateAddressOnNewerRecordFilter := Some(c.useCidUpdateAddressOnNewerRecordFilter.GetOr(true));
  }

  /** The resumption threshold and HELLO_VERIFY_REQUEST (for PSK as in
      general). */
  method FillHelloVerifyDefaults(c: DtlsConnectorConfig)
    modifies c`verifyPeersOnResumptionThreshold, c`useHelloVerifyRequest, c`useHelloVerifyRequestForPsk
    ensures c.Model() == old(c.Model()).(
              verifyPeersOnResumptionThreshold := Some(old(c.verifyPeersOnResumptionThreshold).GetOr(
                DEFAULT_VERIFY_PEERS_ON_RESUMPTION_THRESHOLD_IN_PERCENT)),
              useHelloVerifyRequest := Some(old(c.useHelloVerifyRequest).GetOr(true)),
              useHelloVerifyRequestForPsk := Some(old(c.useHelloVerifyRequestForPsk).GetOr(
                old(c.useHelloVerifyRequest).GetOr(true))))
  {
    c.verifyPeersOnResumptionThreshold := Some(c.verifyPeersOnResumptionThreshold.GetOr(
      DEFAULT_VERIFY_PEERS_ON_RESUMPTION_THRESHOLD_IN_PERCENT));
    c.useHelloVerifyRequest := Some(c.useHelloVerifyRequest.GetOr(true));
    c.useHelloVerifyRequestForPsk := Some(c.useHelloVerifyRequestForPsk.GetOr(c.useHelloVerifyRequest.value));
  }

  /** Every unset option receives its default, later defaults reading the
      earlier ones. */
  method FillDefaults(c: DtlsConnectorConfig, platform: Platform)
    modifies c
    ensures c.Model() == WithDefaults(old(c.Model()), platform)
  {
    FillSocketDefaults(c);
    FillTimeoutDefaults(c);
    FillRetransmissionDefaults(c);
    FillClientRoleDefaults(c);
    FillRecommendedDefaults(c);
    FillClientAuthenticationDefault(c);
    FillServerRoleDefaults(c);
    FillSessionDefaults(c);
    FillDeferredDefaults(c);
    FillThreadDefaults(c, platform);
    FillExtensionDefaults(c);
    FillFilterDefaults(c);
    FillHelloVerifyDefaults(c);
  }

  // ---- cipher suites ----

  /** The preselection loop of `determineCipherSuitesFromConfig`: the
      preselected suites that are candidates, in preselected order. */
  method PreselectCipherSuites(preselected: seq<CipherSuite>, candidates: seq<CipherSuite>)
    returns (r: seq<CipherSuite>)
    ensures r == Preselect(preselected, candidates)
  {
    r := [];
    for i := 0 to |preselected|
      invariant r == Preselect(preselected[..i], candidates)
    {
      assert preselected[..i + 1][..i] == preselected[..i];
      if preselected[i] in candidates {
        r := r + [preselected[i]];
      }
    }
    assert preselected[..|preselected|] == preselected;
  }

  /** The first half of `determineCipherSuitesFromConfig`: ECDSA suites for
      certificate credentials, then ECDHE_PSK suites if the PSK store supports
      ECDHE, then plain PSK suites for any PSK store. */
  method CandidateCipherSuitesOf(c: DtlsConnectorConfig, platform: Platform) returns (ciphers: seq<CipherSuite>)
    ensures ciphers == CandidateCipherSuites(c.Model(), platform)
  {
    var recommendedOnly := c.recommendedCipherSuitesOnly.GetOr(true);
    ciphers := [];
    if c.certificateIdentityProvider != null || c.advancedCertificateVerifier != null {
      ciphers := ciphers + GetEcdsaCipherSuites(platform.cipherSuites, recommendedOnly);
    }
    if c.advancedPskStore != null {
      if c.advancedPskStore.ecdhePskSupported {
        ciphers := ciphers + GetCipherSuitesByKeyExchangeAlgorithm(platform.cipherSuites, recommendedOnly, EcdhePsk);
      }
      ciphers := ciphers + GetCipherSuitesByKeyExchangeAlgorithm(platform.cipherSuites, recommendedOnly, Psk);
    }
  }

  /** `determineCipherSuitesFromConfig`: the suites the credentials call
      for, narrowed to the preselection (in its order) when there is one. */
  method DetermineCipherSuitesFromConfig(c: DtlsConnectorConfig, platform: Platform)
    modifies c`supportedCipherSuites
    ensures c.Model() == old(c.Model()).(supportedCipherSuites := Some(DerivedCipherSuites(old(c.Model()), platform)))
  {
    var ciphers := CandidateCipherSuitesOf(c, platform);
    if c.preselectedCipherSuites.Some? {
      ciphers := PreselectCipherSuites(c.preselectedCipherSuites.value, ciphers);
    }
    c.supportedCipherSuites := Some(ciphers);
  }

  /** The classification loop of `build()`: each PSK suite is checked
      against the PSK store, each certificate suite against the certificate
      credentials, and the kinds met are recorded. */
  method ClassifyCipherSuites(c: DtlsConnectorConfig, suites: seq<CipherSuite>) returns (r: Result<Capabilities, Error>)
    ensures r == Classify(c.Model(), suites)
  {
    var d := c.Model();
    var psk, certificate, ecc := false, false, false;
    for i := 0 to |suites|
      invariant Classify(d, suites[..i]) == Ok(Capabilities(psk, certificate, ecc))
    {
      var suite := suites[i];
      assert suites[..i + 1][..i] == suites[..i];
      if suite.IsPskBased() {
        var checked := VerifyPskBasedCipherConfig(d, suite);
        if checked.Fail? {
          ClassifyKeepsFirstFailure(d, suites, i + 1);
          return Err(checked.error);
        }
        psk := true;
      } else if suite.RequiresServerCertificateMessage() {
        var checked := VerifyCertificateBasedCipherConfig(d, suite);
        if checked.Fail? {
          ClassifyKeepsFirstFailure(d, suites, i + 1);
          return Err(checked.error);
        }
        certificate := true;
      }
      if suite.IsEccBased() {
        ecc := true;
      }
    }
    assert suites[..|suites|] == suites;
    return Ok(Capabilities(psk, certificate, ecc));
  }

  // ---- certificate helper, signature algorithms and groups ----

  /** Without a configured helper, the identity provider and the verifier
      that can set one up fill `helper`, which then becomes the
      configuration's helper. */
  method SetUpCertificateHelper(c: DtlsConnectorConfig, helper: CertificateHelper)
    modifies c`certificateConfigurationHelper
    ensures c.Model() == WithHelper(old(c.Model()), helper)
  {
    var provider := c.certificateIdentityProvider;
    var verifier := c.advancedCertificateVerifier;
    if c.certificateConfigurationHelper == null {
      if provider != null && provider.isConfigurationHelperSetup {
        c.certificateConfigurationHelper := helper;
      }
      if verifier != null && verifier.isConfigurationHelperSetup {
        c.certificateConfigurationHelper := helper;
      }
    }
  }

  /** The signature algorithms for an ECC suite: the configured ones, or
      the platform's defaults extended by the helper's. */
  method EccSignatureAlgorithmsOf(c: DtlsConnectorConfig, platform: Platform)
    returns (signatures: seq<SignatureAndHashAlgorithm>)
    ensures signatures == EccSignatureAlgorithms(c.Model(), platform)
  {
    signatures := c.supportedSignatureAlgorithms.GetOr([]);
    if |signatures| == 0 {
      signatures := platform.defaultSignatureAndHashAlgorithms;
      if c.certificateConfigurationHelper != null {
        signatures := AddIfAbsent(signatures, c.certificateConfigurationHelper.defaultSignatureAndHashAlgorithms);
      }
    }
  }

  /** The groups for an ECC suite: the configured ones, or the platform's
      preferred groups extended by the helper's defaults. */
  method EccGroupsOf(c: DtlsConnectorConfig, platform: Platform) returns (groups: seq<SupportedGroup>)
    ensures groups == EccGroups(c.Model(), platform)
  {
    groups := c.supportedGroups.GetOr([]);
    if |groups| == 0 {
      groups := platform.preferredGroups;
      if c.certificateConfigurationHelper != null {
        groups := AddIfAbsent(groups, c.certificateConfigurationHelper.defaultSupportedGroups);
      }
    }
  }

  /** With an ECC suite in use, empty signature algorithm and group lists
      receive the defaults. */
  method DeriveEccLists(c: DtlsConnectorConfig, platform: Platform)
    modifies c`supportedSignatureAlgorithms, c`supportedGroups
    ensures c.Model() == WithEccLists(old(c.Model()), true, platform).value
  {
    var signatures := EccSignatureAlgorithmsOf(c, platform);
    var groups := EccGroupsOf(c, platform);
    c.supportedSignatureAlgorithms := Some(signatures);
    c.supportedGroups := Some(groups);
  }

  /** Without an ECC suite, signature algorithms and groups must not be
      configured. */
  method CheckNoEccLists(c: DtlsConnectorConfig) returns (r: Outcome<Error>)
    ensures r == NoEccLists(c.Model())
  {
    if |c.supportedSignatureAlgorithms.GetOr([])| != 0 {
      return Fail(SignatureAlgorithmsWithoutEccCipherSuite);
    }
    if |c.supportedGroups.GetOr([])| != 0 {
      return Fail(GroupsWithoutEccCipherSuite);
    }
    return Pass;
  }

  /** The checks that end `build()`: credentials without a certificate
      suite, recommended groups, the helper's verdict on the lists, the key
      usage of an X.509 identity, and the HELLO_VERIFY_REQUEST rule for
      PSK. */
  method CheckConsistency(c: DtlsConnectorConfig, certificate: bool) returns (r: Outcome<Error>)
    ensures r == FinalChecks(c.Model(), certificate)
  {
    var provider := c.certificateIdentityProvider;
    var helper := c.certificateConfigurationHelper;
    var signatures := c.supportedSignatureAlgorithms.GetOr([]);
    var groups := c.supportedGroups.GetOr([]);
    if !certificate {
      if provider != null {
        return Fail(IdentityWithoutCertificateCipherSuite);
      }
      if c.advancedCertificateVerifier != null {
        return Fail(TrustWithoutCertificateCipherSuite);
      }
    }
    if IsTrue(c.recommendedSupportedGroupsOnly) {
      r := VerifyRecommendedSupportedGroupsOnly(groups);
      if r.Fail? {
        return;
      }
    }
    if helper != null {
      if !helper.acceptsSignatureAndHashAlgorithms(signatures) {
        return Fail(SignatureAlgorithmsRejectedByCertificate);
      }
      if !helper.acceptsSupportedGroups(groups) {
        return Fail(GroupsRejectedByCertificate);
      }
      if provider != null && X509 in provider.supportedCertificateTypes {
        if IsTrue(c.clientOnly) {
          if !helper.usableForClients {
            return Fail(NoClientKeyUsage);
          }
        } else if IsTrue(c.serverOnly) {
          if !helper.usableForServers {
            return Fail(NoServerKeyUsage);
          }
        } else {
          if !helper.usableForClients {
            return Fail(NoClientKeyUsage);
          }
          if !helper.usableForServers {
            return Fail(NoServerKeyUsage);
          }
        }
      }
    }
    if IsTrue(c.useHelloVerifyRequest) && !IsTrue(c.useHelloVerifyRequestForPsk)
       && !ContainsPskBasedCipherSuite(c.supportedCipherSuites.GetOr([])) {
      return Fail(NoPskCipherSuiteForHelloVerifyRequestForPsk);
    }
    return Pass;
  }

  // ---- the whole of build() ----

  /** Unset groups and signature algorithms become empty lists. */
  method FillEmptyLists(c: DtlsConnectorConfig)
    modifies c`supportedGroups, c`supportedSignatureAlgorithms
    ensures c.Model() == WithEmptyLists(old(c.Model()))
  {
    c.supportedGroups := Some(c.supportedGroups.GetOr([]));
    c.supportedSignatureAlgorithms := Some(c.supportedSignatureAlgorithms.GetOr([]));
  }

  /** Defaults, the unused-verifier check, empty lists for unset groups and
      signature algorithms, and the derived cipher suites when none were
      given. */
  method Prepare(c: DtlsConnectorConfig, platform: Platform) returns (r: Outcome<Error>)
    modifies c
    ensures r == (if VerifierUnused(WithDefaults(old(c.Model()), platform))
                  then Fail(VerifierUnusedWithoutClientAuthentication) else Pass)
    ensures c.Model() == if r.Fail? then WithDefaults(old(c.Model()), platform)
                         else WithCipherSuites(WithEmptyLists(WithDefaults(old(c.Model()), platform)), platform)
  {
    FillDefaults(c, platform);
    if IsTrue(c.serverOnly) && !IsTrue(c.clientAuthenticationRequired)
       && !IsTrue(c.clientAuthenticationWanted) && c.advancedCertificateVerifier != null {
      return Fail(VerifierUnusedWithoutClientAuthentication);
    }
    FillEmptyLists(c);
    if c.supportedCipherSuites.None? || |c.supportedCipherSuites.value| == 0 {
      DetermineCipherSuitesFromConfig(c, platform);
    }
    return Pass;
  }

  /** `build()` on `c`: reaches exactly the state `Finalize` describes, and
      fails exactly when and as `Finalize` does. On failure `c` keeps what
      was filled in up to the failing check. */
  method BuildConfig(c: DtlsConnectorConfig, platform: Platform, helper: CertificateHelper) returns (r: Outcome<Error>)
    modifies c
    ensures c.Model() == Finalize(old(c.Model()), platform, helper).state
    ensures r == Finalize(old(c.Model()), platform, helper).outcome
  {
    r := Prepare(c, platform);
    if r.Fail? {
      return;
    }
    if c.supportedCipherSuites.None? || |c.supportedCipherSuites.value| == 0 {
      return Fail(NoCipherSuites);
    }
    var suites := c.supportedCipherSuites.value;
    r := VerifyCipherSuitesSupported(suites);
    if r.Fail? {
      return;
    }
    var classified := ClassifyCipherSuites(c, suites);
    if classified.Err? {
      return Fail(classified.error);
    }
    var caps := classified.value;
    if !caps.psk && c.advancedPskStore != null {
      return Fail(PskStoreWithoutPskCipherSuite);
    }
    SetUpCertificateHelper(c, helper);
    if caps.ecc {
      DeriveEccLists(c, platform);
    } else {
      r := CheckNoEccLists(c);
      if r.Fail? {
        return;
      }
    }
    r := CheckConsistency(c, caps.certificate);
  }
}
