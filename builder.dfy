/** `DtlsConnectorConfig.Builder`: owns one `DtlsConnectorConfig` and fills
    its fields in place. Every setter first checks its argument and the
    options already set, and either throws (`Fail`) leaving the configuration
    as it was, or stores the value. `Build` completes the configuration as
    `Finalize` describes and hands out the very object it filled. */
module ConfigBuilder {
  import opened Wrappers
  import opened Crypto
  import opened Credentials
  import opened ConfigOptions
  import opened ListChecks
  import opened ListUtils
  import opened BuildSpec
  import opened ConnectorConfig
  import opened BuildSteps

  class Builder {
    const config: DtlsConnectorConfig

    /** The ranges the setters enforce; `build()` keeps them. */
    ghost predicate Valid()
      reads this, config
    {
      Admissible(config.Model())
    }

    /** The cross-option facts the setters keep until `build()`. */
    ghost predicate Coherent()
      reads this, config
    {
      ConfigOptions.Coherent(config.Model())
    }

    /** `builder()`: a builder over a fresh, empty configuration. */
    constructor ()
      ensures Valid() && Coherent()
      ensures fresh(config) && config.Model() == Unset
    {
      config := new DtlsConnectorConfig();
    }

    /** `builder(config)`, corrected: a builder over a full copy of
        `initial`. As written it copies through `clone()`, which leaves the
        back-off and the signature algorithm switch unset (`Cloned`). Every
        configuration came from a builder, so it satisfies the setters'
        ranges. */
    constructor FromConfig(initial: DtlsConnectorConfig)
      requires Admissible(initial.Model())
      ensures Valid()
      ensures fresh(config) && config.Model() == initial.Model()
    {
      var copy := initial.Clone();
      config := copy;
    }

    // ---- setters without checks: they store their argument ----

    method SetEnableAddressReuse(enable: bool)
      requires Valid()
      modifies config`enableReuseAddress
      ensures Valid() && (old(Coherent()) ==> Coherent())
      ensures config.Model() == old(config.Model()).(enableReuseAddress := Some(enable))
    {
      config.enableReuseAddress := Some(enable);
    }

    method SetMaxFragmentedHandshakeMessageLength(length: Option<int>)
      requires Valid()
      modifies config`maxFragmentedHandshakeMessageLength
      ensures Valid() && (old(Coherent()) ==> Coherent())
      ensures config.Model() == old(config.Model()).(maxFragmentedHandshakeMessageLength := length)
    {
      config.maxFragmentedHandshakeMessageLength := length;
    }

    method SetEnableMultiRecordMessages(enable: bool)
      requires Valid()
      modifies config`enableMultiRecordMessages
      ensures Valid() && (old(Coherent()) ==> Coherent())
      ensures config.Model() == old(config.Model()).(enableMultiRecordMessages := Some(enable))
    {
      config.enableMultiRecordMessages := Some(enable);
    }

    method SetEnableMultiHandshakeMessageRecords(enable: bool)
      requires Valid()
      modifies config`enableMultiHandshakeMessageRecords
      ensures Valid() && (old(Coherent()) ==> Coherent())
      ensures config.Model() == old(config.Model()).(enableMultiHandshakeMessageRecords := Some(enable))
    {
      config.enableMultiHandshakeMessageRecords := Some(enable);
    }

    method SetSocketReceiveBufferSize(size: Option<int>)
      requires Valid()
      modifies config`socketReceiveBufferSize
      ensures Valid() && (old(Coherent()) ==> Coherent())
      ensures config.Model() == old(config.Model()).(socketReceiveBufferSize := size)
    {
      config.socketReceiveBufferSize := size;
    }

    method SetSocketSendBufferSize(size: Option<int>)
      requires Valid()
      modifies config`socketSendBufferSize
      ensures Valid() && (old(Coherent()) ==> Coherent())
      ensures config.Model() == old(config.Model()).(socketSendBufferSize := size)
    {
      config.socketSendBufferSize := size;
    }

    method SetHealthStatusInterval(seconds: Option<int>)
      requires Valid()
      modifies config`healthStatusInterval
      ensures Valid() && (old(Coherent()) ==> Coherent())
      ensures config.Model() == old(config.Model()).(healthStatusInterval := seconds)
    {
      config.healthStatusInterval := seconds;
    }

    method SetEarlyStopRetransmission(activate: bool)
      requires Valid()
      modifies config`earlyStopRetransmission
      ensures Valid() && (old(Coherent()) ==> Coherent())
      ensures config.Model() == old(config.Model()).(earlyStopRetransmission := Some(activate))
    {
      config.earlyStopRetransmission := Some(activate);
    }

    method SetAdvancedPskStore(store: PskStore?)
      requires Valid()
      modifies config`advancedPskStore
      ensures Valid() && (old(Coherent()) ==> Coherent())
      ensures config.Model() == old(config.Model()).(advancedPskStore := store)
    {
      config.advancedPskStore := store;
    }

    method SetCertificateIdentityProvider(provider: CertificateProvider?)
      requires Valid()
      modifies config`certificateIdentityProvider
      ensures Valid() && (old(Coherent()) ==> Coherent())
      ensures config.Model() == old(config.Model()).(certificateIdentityProvider := provider)
    {
      config.certificateIdentityProvider := provider;
    }

    method SetConnectionThreadCount(threadCount: int)
      requires Valid()
      modifies config`connectionThreadCount
      ensures Valid() && (old(Coherent()) ==> Coherent())
      ensures config.Model() == old(config.Model()).(connectionThreadCount := Some(threadCount))
    {
      config.connectionThreadCount := Some(threadCount);
    }

    method SetReceiverThreadCount(threadCount: int)
      requires Valid()
      modifies config`receiverThreadCount
      ensures Valid() && (old(Coherent()) ==> Coherent())
      ensures config.Model() == old(config.Model()).(receiverThreadCount := Some(threadCount))
    {
      config.receiverThreadCount := Some(threadCount);
    }

    method SetSniEnabled(flag: bool)
      requires Valid()
      modifies config`sniEnabled
      ensures Valid() && (old(Coherent()) ==> Coherent())
      ensures config.Model() == old(config.Model()).(sniEnabled := Some(flag))
    {
      config.sniEnabled := Some(flag);
    }

    method SetExtendedMasterSecretMode(mode: Option<ExtendedMasterSecretMode>)
      requires Valid()
      modifies config`extendedMasterSecretMode
      ensures Valid() && (old(Coherent()) ==> Coherent())
      ensures config.Model() == old(config.Model()).(extendedMasterSecretMode := mode)
    {
      config.extendedMasterSecretMode := mode;
    }

    method SetCidUpdateAddressOnNewerRecordFilter(enable: bool)
      requires Valid()
      modifies config`useCidUpdateAddressOnNewerRecordFilter
      ensures Valid() && (old(Coherent()) ==> Coherent())
      ensures config.Model() == old(config.Model()).(useCidUpdateAddressOnNewerRecordFilter := Some(enable))
    {
      config.useCidUpdateAddressOnNewerRecordFilter := Some(enable);
    }

    method SetUseTruncatedCertificatePathForClientsCertificateMessage(enable: bool)
      requires Valid()
      modifies config`useTruncatedCertificatePathForClientsCertificateMessage
      ensures Valid() && (old(Coherent()) ==> Coherent())
      ensures config.Model() == old(config.Model()).(useTruncatedCertificatePathForClientsCertificateMessage := Some(enable))
    {
      config.useTruncatedCertificatePathForClientsCertificateMessage := Some(enable);
    }

    method SetUseTruncatedCertificatePathForValidation(enable: bool)
      requires Valid()
      modifies config`useTruncatedCertificatePathForValidation
      ensures Valid() && (old(Coherent()) ==> Coherent())
      ensures config.Model() == old(config.Model()).(useTruncatedCertificatePathForValidation := Some(enable))
    {
      config.useTruncatedCertificatePathForValidation := Some(enable);
    }

    method SetCertificateHelper(helper: CertificateHelper?)
      requires Valid()
      modifies config`certificateConfigurationHelper
      ensures Valid() && (old(Coherent()) ==> Coherent())
      ensures config.Model() == old(config.Model()).(certificateConfigurationHelper := helper)
    {
      config.certificateConfigurationHelper := helper;
    }

    // ---- "recommended only" switches: stored first, then the list already
    //      set is checked against the new switch ----

    method SetRecommendedCipherSuitesOnly(recommendedOnly: bool) returns (r: Outcome<Error>)
      requires Valid()
      modifies config`recommendedCipherSuitesOnly
      ensures Valid() && (old(Coherent()) ==> Coherent())
      ensures config.Model() == old(config.Model()).(recommendedCipherSuitesOnly := Some(recommendedOnly))
      ensures r.Fail? <==> recommendedOnly && config.supportedCipherSuites.Some?
                           && !AllCipherSuitesRecommended(config.supportedCipherSuites.value)
      ensures r.Fail? ==> r.error == NotRecommendedCipherSuites
    {
      config.recommendedCipherSuitesOnly := Some(recommendedOnly);
      r := Pass;
      if recommendedOnly && config.supportedCipherSuites.Some? {
        r := VerifyRecommendedCipherSuitesOnly(config.supportedCipherSuites.value);
      }
    }

    method SetRecommendedSupportedGroupsOnly(recommendedOnly: bool) returns (r: Outcome<Error>)
      requires Valid()
      modifies config`recommendedSupportedGroupsOnly
      ensures Valid() && (old(Coherent()) ==> Coherent())
      ensures config.Model() == old(config.Model()).(recommendedSupportedGroupsOnly := Some(recommendedOnly))
      ensures r.Fail? <==> recommendedOnly && config.supportedGroups.Some?
                           && !AllGroupsRecommended(config.supportedGroups.value)
      ensures r.Fail? ==> r.error == NotRecommendedSupportedGroups
    {
      config.recommendedSupportedGroupsOnly := Some(recommendedOnly);
      r := Pass;
      if recommendedOnly && config.supportedGroups.Some? {
        r := VerifyRecommendedSupportedGroupsOnly(config.supportedGroups.value);
      }
    }

    method SetRecommendedSignatureAndHashAlgorithmsOnly(recommendedOnly: bool) returns (r: Outcome<Error>)
      requires Valid()
      modifies config`recommendedSignatureAndHashAlgorithmsOnly
      ensures Valid() && (old(Coherent()) ==> Coherent())
      ensures config.Model() == old(config.Model()).(recommendedSignatureAndHashAlgorithmsOnly := Some(recommendedOnly))
      ensures r.Fail? <==> recommendedOnly && config.supportedSignatureAlgorithms.Some?
                           && !AllSignatureAndHashAlgorithmsRecommended(config.supportedSignatureAlgorithms.value)
      ensures r.Fail? ==> r.error == NotRecommendedSignatureAndHashAlgorithms
    {
      config.recommendedSignatureAndHashAlgorithmsOnly := Some(recommendedOnly);
      r := Pass;
      if recommendedOnly && config.supportedSignatureAlgorithms.Some? {
        r := VerifyRecommendedSignatureAndHashAlgorithmsOnly(config.supportedSignatureAlgorithms.value);
      }
    }

    // ---- roles ----

    /** `setClientOnly`: refused once the configuration has anything only a
        server uses. */
    method SetClientOnly() returns (r: Outcome<Error>)
      requires Valid()
      modifies config`clientOnly
      ensures Valid() && (old(Coherent()) ==> Coherent())
      ensures r == if IsTrue(config.serverOnly) then Fail(ClientOnlyContradictsServerOnly)
                   else if config.clientAuthenticationRequired.Some? || config.clientAuthenticationWanted.Some?
                   then Fail(ClientOnlyContradictsClientAuthentication)
                   else if IsFalse(config.useServerSessionId) then Fail(ClientOnlyContradictsServerSessionId)
                   else if IsFalse(config.useHelloVerifyRequestForPsk)
                   then Fail(ClientOnlyContradictsHelloVerifyRequestForPsk)
                   else if IsFalse(config.useHelloVerifyRequest) then Fail(ClientOnlyContradictsHelloVerifyRequest)
                   else Pass
      ensures config.Model() == if r.Pass? then old(config.Model()).(clientOnly := Some(true)) else old(config.Model())
    {
      if IsTrue(config.serverOnly) {
        return Fail(ClientOnlyContradictsServerOnly);
      } else if config.clientAuthenticationRequired.Some? || config.clientAuthenticationWanted.Some? {
        return Fail(ClientOnlyContradictsClientAuthentication);
      } else if IsFalse(config.useServerSessionId) {
        return Fail(ClientOnlyContradictsServerSessionId);
      } else if IsFalse(config.useHelloVerifyRequestForPsk) {
        return Fail(ClientOnlyContradictsHelloVerifyRequestForPsk);
      } else if IsFalse(config.useHelloVerifyRequest) {
        return Fail(ClientOnlyContradictsHelloVerifyRequest);
      }
      config.clientOnly := Some(true);
      return Pass;
    }

    /** `setServerOnly`: enabling it is refused for a client-only
        configuration and for a handshake mode other than "none". */
    method SetServerOnly(enable: bool) returns (r: Outcome<Error>)
      requires Valid()
      modifies config`serverOnly
      ensures Valid() && (old(Coherent()) ==> Coherent())
      ensures r == if enable && IsTrue(config.clientOnly) then Fail(ServerOnlyContradictsClientOnly)
                   else if enable && config.defaultHandshakeMode.Some?
                           && config.defaultHandshakeMode.value != HANDSHAKE_MODE_NONE
                   then Fail(ServerOnlyContradictsDefaultHandshakeMode)
                   else Pass
      ensures config.Model() == if r.Pass? then old(config.Model()).(serverOnly := Some(enable)) else old(config.Model())
    {
      if enable {
        if IsTrue(config.clientOnly) {
          return Fail(ServerOnlyContradictsClientOnly);
        }
        if config.defaultHandshakeMode.Some? && config.defaultHandshakeMode.value != HANDSHAKE_MODE_NONE {
          return Fail(ServerOnlyContradictsDefaultHandshakeMode);
        }
      }
      config.serverOnly := Some(enable);
      return Pass;
    }

    /** `setDefaultHandshakeMode`: unset, "auto" or "none"; only "none" for
        a server-only configuration. */
    method SetDefaultHandshakeMode(mode: Option<string>) returns (r: Outcome<Error>)
      requires Valid()
      modifies config`defaultHandshakeMode
      ensures Valid() && (old(Coherent()) ==> Coherent())
      ensures r == if mode.Some? && mode.value != HANDSHAKE_MODE_AUTO && mode.value != HANDSHAKE_MODE_NONE
                   then Fail(UnknownDefaultHandshakeMode)
                   else if IsTrue(config.serverOnly) && mode.Some? && mode.value != HANDSHAKE_MODE_NONE
                   then Fail(DefaultHandshakeModeForServerOnly)
                   else Pass
      ensures config.Model() == if r.Pass? then old(config.Model()).(defaultHandshakeMode := mode) else old(config.Model())
    {
      if mode.Some? {
        if mode.value != HANDSHAKE_MODE_AUTO && mode.value != HANDSHAKE_MODE_NONE {
          return Fail(UnknownDefaultHandshakeMode);
        }
      }
      if IsTrue(config.serverOnly) && mode.Some? && mode.value != HANDSHAKE_MODE_NONE {
        return Fail(DefaultHandshakeModeForServerOnly);
      }
      config.defaultHandshakeMode := mode;
      return Pass;
    }

    // ---- record layer ----

    /** `setRecordSizeLimit`: unset, or within [64, 65535]. */
    method SetRecordSizeLimit(limit: Option<int>) returns (r: Outcome<Error>)
      requires Valid()
      modifies config`recordSizeLimit
      ensures Valid() && (old(Coherent()) ==> Coherent())
      ensures r == if InRange(limit, 64, 65535) then Pass else Fail(RecordSizeLimitOutOfRange)
      ensures config.Model() == if r.Pass? then old(config.Model()).(recordSizeLimit := limit) else old(config.Model())
    {
      if limit.Some? {
        if limit.value < 64 || limit.value > 65535 {
          return Fail(RecordSizeLimitOutOfRange);
        }
      }
      config.recordSizeLimit := limit;
      return Pass;
    }

    /** `setMaxFragmentLengthCode`: unset, or one of the codes 1 to 4 of
        section 4 of RFC 6066. */
    method SetMaxFragmentLengthCode(code: Option<int>) returns (r: Outcome<Error>)
      requires Valid()
      modifies config`maxFragmentLengthCode
      ensures Valid() && (old(Coherent()) ==> Coherent())
      ensures r == if InRange(code, 1, 4) then Pass else Fail(MaxFragmentLengthCodeInvalid)
      ensures config.Model() == if r.Pass? then old(config.Model()).(maxFragmentLengthCode := code) else old(config.Model())
    {
      if code.Some? && (code.value < 1 || code.value > 4) {
        return Fail(MaxFragmentLengthCodeInvalid);
      }
      config.maxFragmentLengthCode := code;
      return Pass;
    }

    method SetOutboundMessageBufferSize(capacity: int) returns (r: Outcome<Error>)
      requires Valid()
      modifies config`outboundMessageBufferSize
      ensures Valid() && (old(Coherent()) ==> Coherent())
      ensures r == if capacity >= 1 then Pass else Fail(OutboundMessageBufferSizeTooSmall)
      ensures config.Model() == if r.Pass? then old(config.Model()).(outboundMessageBufferSize := Some(capacity))
                                else old(config.Model())
    {
      if capacity < 1 {
        return Fail(OutboundMessageBufferSizeTooSmall);
      }
      config.outboundMessageBufferSize := Some(capacity);
      return Pass;
    }

    // ---- retransmission ----

    method SetBackOffRetransmission(count: Option<int>) returns (r: Outcome<Error>)
      requires Valid()
      modifies config`backOffRetransmission
      ensures Valid() && (old(Coherent()) ==> Coherent())
      ensures r == if AtLeast(count, 0) then Pass else Fail(NegativeBackOffRetransmission)
      ensures config.Model() == if r.Pass? then old(config.Model()).(backOffRetransmission := count) else old(config.Model())
    {
      if count.Some? && count.value < 0 {
        return Fail(NegativeBackOffRetransmission);
      }
      config.backOffRetransmission := count;
      return Pass;
    }

    method SetMaxRetransmissions(count: int) returns (r: Outcome<Error>)
      requires Valid()
      modifies config`maxRetransmissions
      ensures Valid() && (old(Coherent()) ==> Coherent())
      ensures r == if count >= 1 then Pass else Fail(MaxRetransmissionsTooSmall)
      ensures config.Model() == if r.Pass? then old(config.Model()).(maxRetransmissions := Some(count)) else old(config.Model())
    {
      if count < 1 {
        return Fail(MaxRetransmissionsTooSmall);
      }
      config.maxRetransmissions := Some(count);
      return Pass;
    }

    method SetRetransmissionTimeout(timeout: int) returns (r: Outcome<Error>)
      requires Valid()
      modifies config`retransmissionTimeout
      ensures Valid() && (old(Coherent()) ==> Coherent())
      ensures r == if timeout >= 0 then Pass else Fail(NegativeRetransmissionTimeout)
      ensures config.Model() == if r.Pass? then old(config.Model()).(retransmissionTimeout := Some(timeout)) else old(config.Model())
    {
      if timeout < 0 {
        return Fail(NegativeRetransmissionTimeout);
      }
      config.retransmissionTimeout := Some(timeout);
      return Pass;
    }

    method SetAdditionalTimeoutForEcc(timeout: int) returns (r: Outcome<Error>)
      requires Valid()
      modifies config`additionalTimeoutForEcc
      ensures Valid() && (old(Coherent()) ==> Coherent())
      ensures r == if timeout >= 0 then Pass else Fail(NegativeAdditionalTimeoutForEcc)
      ensures config.Model() == if r.Pass? then old(config.Model()).(additionalTimeoutForEcc := Some(timeout)) else old(config.Model())
    {
      if timeout < 0 {
        return Fail(NegativeAdditionalTimeoutForEcc);
      }
      config.additionalTimeoutForEcc := Some(timeout);
      return Pass;
    }

    // ---- MTU: an absolute MTU and an MTU limit exclude each other ----

    method SetMaxTransmissionUnit(mtu: int) returns (r: Outcome<Error>)
      requires Valid()
      modifies config`maxTransmissionUnit
      ensures Valid() && (old(Coherent()) ==> Coherent())
      ensures r == if config.maxTransmissionUnitLimit.None? then Pass else Fail(MtuLimitAlreadySet)
      ensures config.Model() == if r.Pass? then old(config.Model()).(maxTransmissionUnit := Some(mtu)) else old(config.Model())
    {
      if config.maxTransmissionUnitLimit.Some? {
        return Fail(MtuLimitAlreadySet);
      }
      config.maxTransmissionUnit := Some(mtu);
      return Pass;
    }

    method SetMaxTransmissionUnitLimit(limit: int) returns (r: Outcome<Error>)
      requires Valid()
      modifies config`maxTransmissionUnitLimit
      ensures Valid() && (old(Coherent()) ==> Coherent())
      ensures r == if config.maxTransmissionUnit.None? then Pass else Fail(MtuAlreadySet)
      ensures config.Model() == if r.Pass? then old(config.Model()).(maxTransmissionUnitLimit := Some(limit)) else old(config.Model())
    {
      if config.maxTransmissionUnit.Some? {
        return Fail(MtuAlreadySet);
      }
      config.maxTransmissionUnitLimit := Some(limit);
      return Pass;
    }

    // ---- client authentication: wanted and required exclude each other ----

    method SetClientAuthenticationWanted(wanted: bool) returns (r: Outcome<Error>)
      requires Valid()
      modifies config`clientAuthenticationWanted
      ensures Valid() && (old(Coherent()) ==> Coherent())
      ensures r == if IsTrue(config.clientOnly) then Fail(ClientAuthenticationForClientOnly)
                   else if wanted && IsTrue(config.clientAuthenticationRequired)
                   then Fail(ClientAuthenticationAlreadyRequired)
                   else Pass
      ensures config.Model() == if r.Pass? then old(config.Model()).(clientAuthenticationWanted := Some(wanted))
                                else old(config.Model())
    {
      if IsTrue(config.clientOnly) {
        return Fail(ClientAuthenticationForClientOnly);
      }
      if wanted && IsTrue(config.clientAuthenticationRequired) {
        return Fail(ClientAuthenticationAlreadyRequired);
      }
      config.clientAuthenticationWanted := Some(wanted);
      return Pass;
    }

    method SetClientAuthenticationRequired(required: bool) returns (r: Outcome<Error>)
      requires Valid()
      modifies config`clientAuthenticationRequired
      ensures Valid() && (old(Coherent()) ==> Coherent())
      ensures r == if IsTrue(config.clientOnly) then Fail(ClientAuthenticationForClientOnly)
                   else if required && IsTrue(config.clientAuthenticationWanted)
                   then Fail(ClientAuthenticationAlreadyWanted)
                   else Pass
      ensures config.Model() == if r.Pass? then old(config.Model()).(clientAuthenticationRequired := Some(required))
                                else old(config.Model())
    {
      if IsTrue(config.clientOnly) {
        return Fail(ClientAuthenticationForClientOnly);
      }
      if required && IsTrue(config.clientAuthenticationWanted) {
        return Fail(ClientAuthenticationAlreadyWanted);
      }
      config.clientAuthenticationRequired := Some(required);
      return Pass;
    }

    // ---- cipher suites, signature algorithms, groups ----

    /** `setPreselectedCipherSuites`: `None` clears the preselection; a list
        must be non-empty, free of the NULL suite, and hold a PSK suite when
        HELLO_VERIFY_REQUEST for PSK is disabled. */
    method SetPreselectedCipherSuites(suites: Option<seq<CipherSuite>>) returns (r: Outcome<Error>)
      requires Valid()
      modifies config`preselectedCipherSuites
      ensures Valid() && (old(Coherent()) ==> Coherent())
      ensures r == if suites.None? then Pass
                   else if |suites.value| == 0 then Fail(NoPreselectedCipherSuite)
                   else if ContainsNullCipherSuite(suites.value) then Fail(NullCipherSuite)
                   else if IsFalse(config.useHelloVerifyRequestForPsk) && !ContainsPskBasedCipherSuite(suites.value)
                   then Fail(NoPskCipherSuiteWithoutHelloVerifyRequest)
                   else Pass
      ensures config.Model() == if r.Pass? then old(config.Model()).(preselectedCipherSuites := suites)
                                else old(config.Model())
    {
      if suites.Some? {
        if |suites.value| == 0 {
          return Fail(NoPreselectedCipherSuite);
        } else if ContainsNullCipherSuite(suites.value) {
          return Fail(NullCipherSuite);
        } else if IsFalse(config.useHelloVerifyRequestForPsk) {
          if !ContainsPskBasedCipherSuite(suites.value) {
            return Fail(NoPskCipherSuiteWithoutHelloVerifyRequest);
          }
        }
      }
      config.preselectedCipherSuites := suites;
      return Pass;
    }

    /** `setSupportedCipherSuites`: a non-empty list without the NULL suite,
        with a PSK suite when HELLO_VERIFY_REQUEST for PSK is disabled, only
        recommended suites unless that was switched off, and only suites the
        platform supports. */
    method SetSupportedCipherSuites(suites: Option<seq<CipherSuite>>) returns (r: Outcome<Error>)
      requires Valid()
      modifies config`supportedCipherSuites
      ensures Valid() && (old(Coherent()) ==> Coherent())
      ensures r == if suites.None? then Fail(NullSupportedCipherSuites)
                   else if |suites.value| == 0 then Fail(NoSupportedCipherSuite)
                   else if ContainsNullCipherSuite(suites.value) then Fail(NullCipherSuite)
                   else if IsFalse(config.useHelloVerifyRequestForPsk) && !ContainsPskBasedCipherSuite(suites.value)
                   then Fail(NoPskCipherSuiteWithoutHelloVerifyRequest)
                   else if !IsFalse(config.recommendedCipherSuitesOnly) && !AllCipherSuitesRecommended(suites.value)
                   then Fail(NotRecommendedCipherSuites)
                   else if !AllSupported(suites.value) then Fail(CipherSuiteNotSupported)
                   else Pass
      ensures config.Model() == if r.Pass? then old(config.Model()).(supportedCipherSuites := suites)
                                else old(config.Model())
    {
      if suites.None? {
        return Fail(NullSupportedCipherSuites);
      }
      var list := suites.value;
      if |list| == 0 {
        return Fail(NoSupportedCipherSuite);
      }
      if ContainsNullCipherSuite(list) {
        return Fail(NullCipherSuite);
      }
      if IsFalse(config.useHelloVerifyRequestForPsk) {
        if !ContainsPskBasedCipherSuite(list) {
          return Fail(NoPskCipherSuiteWithoutHelloVerifyRequest);
        }
      }
      if config.recommendedCipherSuitesOnly.None? || config.recommendedCipherSuitesOnly.value {
        r := VerifyRecommendedCipherSuitesOnly(list);
        if r.Fail? {
          return;
        }
      }
      r := VerifyCipherSuitesSupported(list);
      if r.Fail? {
        return;
      }
      config.supportedCipherSuites := suites;
    }

    /** `setSupportedSignatureAlgorithms`: `None` clears the list; a list must
        be recommended unless that was switched off. */
    method SetSupportedSignatureAlgorithms(algorithms: Option<seq<SignatureAndHashAlgorithm>>) returns (r: Outcome<Error>)
      requires Valid()
      modifies config`supportedSignatureAlgorithms
      ensures Valid() && (old(Coherent()) ==> Coherent())
      ensures r == if algorithms.Some? && !IsFalse(config.recommendedSignatureAndHashAlgorithmsOnly)
                      && !AllSignatureAndHashAlgorithmsRecommended(algorithms.value)
                   then Fail(NotRecommendedSignatureAndHashAlgorithms)
                   else Pass
      ensures config.Model() == if r.Pass? then old(config.Model()).(supportedSignatureAlgorithms := algorithms)
                                else old(config.Model())
    {
      if algorithms.Some? && (config.recommendedSignatureAndHashAlgorithmsOnly.None?
                              || config.recommendedSignatureAndHashAlgorithmsOnly.value) {
        r := VerifyRecommendedSignatureAndHashAlgorithmsOnly(algorithms.value);
        if r.Fail? {
          return;
        }
      }
      config.supportedSignatureAlgorithms := algorithms;
      return Pass;
    }

    /** `setSupportedGroups`: a non-empty list, recommended unless that was
        switched off, of groups the platform can use. */
    method SetSupportedGroups(groups: Option<seq<SupportedGroup>>) returns (r: Outcome<Error>)
      requires Valid()
      modifies config`supportedGroups
      ensures Valid() && (old(Coherent()) ==> Coherent())
      ensures r == if groups.None? then Fail(NullSupportedGroups)
                   else if |groups.value| == 0 then Fail(NoSupportedGroup)
                   else if !IsFalse(config.recommendedSupportedGroupsOnly) && !AllGroupsRecommended(groups.value)
                   then Fail(NotRecommendedSupportedGroups)
                   else if !AllUsable(groups.value) then Fail(GroupNotUsable)
                   else Pass
      ensures config.Model() == if r.Pass? then old(config.Model()).(supportedGroups := groups)
                                else old(config.Model())
    {
      if groups.None? {
        return Fail(NullSupportedGroups);
      }
      var list := groups.value;
      if |list| == 0 {
        return Fail(NoSupportedGroup);
      }
      if config.recommendedSupportedGroupsOnly.None? || config.recommendedSupportedGroupsOnly.value {
        r := VerifyRecommendedSupportedGroupsOnly(list);
        if r.Fail? {
          return;
        }
      }
      r := VerifyGroupsUsable(list);
      if r.Fail? {
        return;
      }
      config.supportedGroups := groups;
    }

    // ---- credentials ----

    method SetAdvancedCertificateVerifier(verifier: CertificateVerifier?) returns (r: Outcome<Error>)
      requires Valid()
      modifies config`advancedCertificateVerifier
      ensures Valid() && (old(Coherent()) ==> Coherent())
      ensures r == if verifier != null then Pass else Fail(NullCertificateVerifier)
      ensures config.Model() == if r.Pass? then old(config.Model()).(advancedCertificateVerifier := verifier)
                                else old(config.Model())
    {
      if verifier == null {
        return Fail(NullCertificateVerifier);
      }
      config.advancedCertificateVerifier := verifier;
      return Pass;
    }

    // ---- connection store and deferred processing ----

    method SetMaxDeferredProcessedOutgoingApplicationDataMessages(count: int) returns (r: Outcome<Error>)
      requires Valid()
      modifies config`maxDeferredProcessedOutgoingApplicationDataMessages
      ensures Valid() && (old(Coherent()) ==> Coherent())
      ensures r == if count >= 0 then Pass else Fail(NegativeMaxDeferredOutgoingMessages)
      ensures config.Model() == if r.Pass? then old(config.Model()).(maxDeferredProcessedOutgoingApplicationDataMessages := Some(count))
                                else old(config.Model())
    {
      if count < 0 {
        return Fail(NegativeMaxDeferredOutgoingMessages);
      }
      config.maxDeferredProcessedOutgoingApplicationDataMessages := Some(count);
      return Pass;
    }

    method SetMaxDeferredProcessedIncomingRecordsSize(size: int) returns (r: Outcome<Error>)
      requires Valid()
      modifies config`maxDeferredProcessedIncomingRecordsSize
      ensures Valid() && (old(Coherent()) ==> Coherent())
      ensures r == if size >= 0 then Pass else Fail(NegativeMaxDeferredIncomingRecordsSize)
      ensures config.Model() == if r.Pass? then old(config.Model()).(maxDeferredProcessedIncomingRecordsSize := Some(size))
                                else old(config.Model())
    {
      if size < 0 {
        return Fail(NegativeMaxDeferredIncomingRecordsSize);
      }
      config.maxDeferredProcessedIncomingRecordsSize := Some(size);
      return Pass;
    }

    method SetMaxConnections(maxConnections: int) returns (r: Outcome<Error>)
      requires Valid()
      modifies config`maxConnections
      ensures Valid() && (old(Coherent()) ==> Coherent())
      ensures r == if maxConnections >= 1 then Pass else Fail(MaxConnectionsTooSmall)
      ensures config.Model() == if r.Pass? then old(config.Model()).(maxConnections := Some(maxConnections))
                                else old(config.Model())
    {
      if maxConnections < 1 {
        return Fail(MaxConnectionsTooSmall);
      }
      config.maxConnections := Some(maxConnections);
      return Pass;
    }

    method SetStaleConnectionThreshold(threshold: int) returns (r: Outcome<Error>)
      requires Valid()
      modifies config`staleConnectionThreshold
      ensures Valid() && (old(Coherent()) ==> Coherent())
      ensures r == if threshold >= 1 then Pass else Fail(StaleConnectionThresholdTooSmall)
      ensures config.Model() == if r.Pass? then old(config.Model()).(staleConnectionThreshold := Some(threshold))
                                else old(config.Model())
    {
      if threshold < 1 {
        return Fail(StaleConnectionThresholdTooSmall);
      }
      config.staleConnectionThreshold := Some(threshold);
      return Pass;
    }

    method SetAutoResumptionTimeoutMillis(timeout: Option<int>) returns (r: Outcome<Error>)
      requires Valid()
      modifies config`autoResumptionTimeoutMillis
      ensures Valid() && (old(Coherent()) ==> Coherent())
      ensures r == if AtLeast(timeout, 1) then Pass else Fail(AutoResumptionTimeoutTooSmall)
      ensures config.Model() == if r.Pass? then old(config.Model()).(autoResumptionTimeoutMillis := timeout)
                                else old(config.Model())
    {
      if timeout.Some? && timeout.value < 1 {
        return Fail(AutoResumptionTimeoutTooSmall);
      }
      config.autoResumptionTimeoutMillis := timeout;
      return Pass;
    }

    // ---- HELLO_VERIFY_REQUEST (section 4.2.1 of RFC 6347) ----

    /** `setVerifyPeersOnResumptionThreshold`: a percentage, only while
        HELLO_VERIFY_REQUEST is not disabled. */
    method SetVerifyPeersOnResumptionThreshold(threshold: int) returns (r: Outcome<Error>)
      requires Valid()
      modifies config`verifyPeersOnResumptionThreshold
      ensures Valid() && (old(Coherent()) ==> Coherent())
      ensures r == if IsFalse(config.useHelloVerifyRequest) then Fail(HelloVerifyRequestAlreadyDisabled)
                   else if threshold < 0 || threshold > 100 then Fail(ResumptionThresholdOutOfRange)
                   else Pass
      ensures config.Model() == if r.Pass? then old(config.Model()).(verifyPeersOnResumptionThreshold := Some(threshold))
                                else old(config.Model())
    {
      if IsFalse(config.useHelloVerifyRequest) {
        return Fail(HelloVerifyRequestAlreadyDisabled);
      }
      if threshold < 0 || threshold > 100 {
        return Fail(ResumptionThresholdOutOfRange);
      }
      config.verifyPeersOnResumptionThreshold := Some(threshold);
      return Pass;
    }

    /** `setUseHelloVerifyRequestForPsk`: a server-side option; it cannot be
        enabled while HELLO_VERIFY_REQUEST is disabled, nor disabled when the
        supported suites hold no PSK suite. */
    method SetUseHelloVerifyRequestForPsk(enable: bool) returns (r: Outcome<Error>)
      requires Valid()
      modifies config`useHelloVerifyRequestForPsk
      ensures Valid() && (old(Coherent()) ==> Coherent())
      ensures r == if IsTrue(config.clientOnly) then Fail(HelloVerifyRequestForClientOnly)
                   else if IsFalse(config.useHelloVerifyRequest) && enable then Fail(HelloVerifyRequestGenerallyDisabled)
                   else if !enable && config.supportedCipherSuites.Some?
                           && !ContainsPskBasedCipherSuite(config.supportedCipherSuites.value)
                   then Fail(NoPskCipherSuiteToDisableHelloVerifyRequest)
                   else Pass
      ensures config.Model() == if r.Pass? then old(config.Model()).(useHelloVerifyRequestForPsk := Some(enable))
                                else old(config.Model())
    {
      if IsTrue(config.clientOnly) {
        return Fail(HelloVerifyRequestForClientOnly);
      }
      if IsFalse(config.useHelloVerifyRequest) && enable {
        return Fail(HelloVerifyRequestGenerallyDisabled);
      }
      if !enable {
        if config.supportedCipherSuites.Some? {
          if !ContainsPskBasedCipherSuite(config.supportedCipherSuites.value) {
            return Fail(NoPskCipherSuiteToDisableHelloVerifyRequest);
          }
        }
      }
      config.useHelloVerifyRequestForPsk := Some(enable);
      return Pass;
    }

    /** `setUseHelloVerifyRequest`: a server-side option; it cannot be
        disabled while it is enabled for PSK or a resumption threshold is
        set. */
    method SetUseHelloVerifyRequest(enable: bool) returns (r: Outcome<Error>)
      requires Valid()
      modifies config`useHelloVerifyRequest
      ensures Valid() && (old(Coherent()) ==> Coherent())
      ensures r == if IsTrue(config.clientOnly) then Fail(HelloVerifyRequestForClientOnly)
                   else if !enable && IsTrue(config.useHelloVerifyRequestForPsk) then Fail(HelloVerifyRequestEnabledForPsk)
                   else if !enable && config.verifyPeersOnResumptionThreshold.Some? then Fail(ResumptionThresholdAlreadySet)
                   else Pass
      ensures config.Model() == if r.Pass? then old(config.Model()).(useHelloVerifyRequest := Some(enable))
                                else old(config.Model())
    {
      if IsTrue(config.clientOnly) {
        return Fail(HelloVerifyRequestForClientOnly);
      }
      if !enable {
        if IsTrue(config.useHelloVerifyRequestForPsk) {
          return Fail(HelloVerifyRequestEnabledForPsk);
        }
        if config.verifyPeersOnResumptionThreshold.Some? {
          return Fail(ResumptionThresholdAlreadySet);
        }
      }
      config.useHelloVerifyRequest := Some(enable);
      return Pass;
    }

    method SetUseServerSessionId(flag: bool) returns (r: Outcome<Error>)
      requires Valid()
      modifies config`useServerSessionId
      ensures Valid() && (old(Coherent()) ==> Coherent())
      ensures r == if IsTrue(config.clientOnly) && !flag then Fail(ServerSessionIdForClientOnly) else Pass
      ensures config.Model() == if r.Pass? then old(config.Model()).(useServerSessionId := Some(flag))
                                else old(config.Model())
    {
      if IsTrue(config.clientOnly) && !flag {
        return Fail(ServerSessionIdForClientOnly);
      }
      config.useServerSessionId := Some(flag);
      return Pass;
    }

    // ---- replay filters (section 4.1.2.6 of RFC 6347): the anti-replay
    //      filter and the extended window filter exclude each other ----

    method SetUseAntiReplayFilter(enable: bool) returns (r: Outcome<Error>)
      requires Valid()
      modifies config`useAntiReplayFilter
      ensures Valid() && (old(Coherent()) ==> Coherent())
      ensures r == if enable && config.useExtendedWindowFilter.Some? && config.useExtendedWindowFilter.value != 0
                   then Fail(ExtendedWindowFilterActive) else Pass
      ensures config.Model() == if r.Pass? then old(config.Model()).(useAntiReplayFilter := Some(enable))
                                else old(config.Model())
    {
      if enable && config.useExtendedWindowFilter.Some? && config.useExtendedWindowFilter.value != 0 {
        return Fail(ExtendedWindowFilterActive);
      }
      config.useAntiReplayFilter := Some(enable);
      return Pass;
    }

    method SetUseExtendedWindowFilter(level: int) returns (r: Outcome<Error>)
      requires Valid()
      modifies config`useExtendedWindowFilter
      ensures Valid() && (old(Coherent()) ==> Coherent())
      ensures r == if level != 0 && IsTrue(config.useAntiReplayFilter) then Fail(AntiReplayFilterActive) else Pass
      ensures config.Model() == if r.Pass? then old(config.Model()).(useExtendedWindowFilter := Some(level))
                                else old(config.Model())
    {
      if level != 0 && IsTrue(config.useAntiReplayFilter) {
        return Fail(AntiReplayFilterActive);
      }
      config.useExtendedWindowFilter := Some(level);
      return Pass;
    }
  
    // ---- build() ----

    /** `build()`: completes the configuration in place exactly as
        `Finalize` describes and returns the builder's own configuration
        object, or reports the first check that failed (the configuration
        then keeps what was filled in up to that point). */
    method Build(platform: Platform, helper: CertificateHelper) returns (r: Result<DtlsConnectorConfig, Error>)
      requires Valid()
      modifies config
      ensures Valid()
      ensures config.Model() == Finalize(old(config.Model()), platform, helper).state
      ensures Finalize(old(config.Model()), platform, helper).outcome == if r.Ok? then Pass else Fail(r.error)
      ensures r.Ok? ==> r.value == config
    {
      FinalizeKeepsAdmissible(config.Model(), platform, helper);
      var outcome := BuildConfig(config, platform, helper);
      if outcome.Fail? {
        return Err(outcome.error);
      }
      return Ok(config);
    }
  }
}
