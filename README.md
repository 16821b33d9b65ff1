# DTLS connector configuration builder

A model, in Dafny, of the configuration builder of the Scandium DTLS
connector (`DtlsConnectorConfig` and its `Builder`). An application fills a
configuration through the builder's setters. Each setter either checks its
argument against the options already set or stores it unchecked. `build()`
then completes the configuration:

- it fills every unset option with its default, some defaults depending on
  others;
- it derives the cipher suites from the credentials when none were given,
  narrowed to the preselected suites, in their order;
- it checks every suite against the PSK store, the certificate identity and
  the certificate verifier;
- it sets up the certificate helper;
- for ECC suites, it fills the signature algorithms and groups from the
  platform's defaults, and refuses them without an ECC suite;
- it ends with the cross-checks of the credentials, the groups, key usage
  and HELLO_VERIFY_REQUEST for PSK.

The model is imperative, like the source:

- `DtlsConnectorConfig` is a class with one field per option.
  - Each field is `None` or a null reference while unset.
  - `Model()` reads the whole object as one `Options` value.
- `Builder` is a class that owns one configuration. Each setter is a method
  that changes only its own field. It returns `Pass`, or `Fail(reason)`
  where the source throws.
- `build()` runs as a chain of steps (module `BuildSteps`).
  - Each step writes a few fields and states the new state as a function of
    the old one.
  - The chain is proved to reach exactly the state and outcome of the pure
    function `Finalize` (module `BuildSpec`).
  - What `build()` promises is proved about `Finalize` (module
    `BuildProperties`).
- A failing `build()` leaves the configuration as filled up to the check
  that failed, as in the source.

The setters keep two invariants:

- `Admissible`: the per-option ranges, which `build()` also keeps.
- `Coherent`: the cross-option rules. Examples are that an MTU excludes an
  MTU limit, and that a client-only configuration has no server options.

Collaborators the builder only queries are classes with fixed answers
(module `Credentials`):

- the PSK store;
- the certificate provider;
- the certificate verifier;
- the certificate configuration helper.

The running platform is a parameter (`Platform`). It supplies:

- the processor count;
- the cipher suite catalogue, with each suite's `isSupported()` answer;
- the default signature algorithms;
- the preferred groups.

## Model

| member | source | states |
|---|---|---|
| ConfigBuilder.Builder.constructor | scandium-core/src/main/java/org/eclipse/californium/scandium/config/DtlsConnectorConfig.java:1565-1567 | a new builder holds a fresh configuration with nothing set, which meets every setter rule |
| ConfigBuilder.Builder.FromConfig | scandium-core/src/main/java/org/eclipse/californium/scandium/config/DtlsConnectorConfig.java:1575-1577 | corrected `builder(config)` (see Findings): a builder over a fresh, full copy of the given configuration, with every option equal to the original's; as written, the copy is `Cloned` |
| ConnectorConfig.Cloned | scandium-core/src/main/java/org/eclipse/californium/scandium/config/DtlsConnectorConfig.java:1435-1497 | the copy `clone()` makes as written: every option except the back-off and the "recommended signature algorithms only" switch, which are left unset |
| ConnectorConfig.DtlsConnectorConfig.Clone | scandium-core/src/main/java/org/eclipse/californium/scandium/config/DtlsConnectorConfig.java:1435-1497 | corrected `clone()`: a fresh configuration object with every option equal to this one's (see Findings) |
| ConfigBuilder.Builder.SetEnableAddressReuse | scandium-core/src/main/java/org/eclipse/californium/scandium/config/DtlsConnectorConfig.java:1608-1611 | stores address reuse and changes no other option; keeps the setters' ranges (`Valid`) and their cross-option rules (`Coherent`) |
| ConfigBuilder.Builder.SetMaxFragmentedHandshakeMessageLength | scandium-core/src/main/java/org/eclipse/californium/scandium/config/DtlsConnectorConfig.java:1825-1828 | stores the fragmented handshake message limit (unset allowed) and changes no other option; keeps the setters' ranges (`Valid`) and their cross-option rules (`Coherent`) |
| ConfigBuilder.Builder.SetEnableMultiRecordMessages | scandium-core/src/main/java/org/eclipse/californium/scandium/config/DtlsConnectorConfig.java:1837-1840 | stores multiple records per datagram and changes no other option; keeps the setters' ranges (`Valid`) and their cross-option rules (`Coherent`) |
| ConfigBuilder.Builder.SetEnableMultiHandshakeMessageRecords | scandium-core/src/main/java/org/eclipse/californium/scandium/config/DtlsConnectorConfig.java:1849-1852 | stores multiple handshake messages per record and changes no other option; keeps the setters' ranges (`Valid`) and their cross-option rules (`Coherent`) |
| ConfigBuilder.Builder.SetSocketReceiveBufferSize | scandium-core/src/main/java/org/eclipse/californium/scandium/config/DtlsConnectorConfig.java:1892-1895 | stores the socket receive buffer size and changes no other option; keeps the setters' ranges (`Valid`) and their cross-option rules (`Coherent`) |
| ConfigBuilder.Builder.SetSocketSendBufferSize | scandium-core/src/main/java/org/eclipse/californium/scandium/config/DtlsConnectorConfig.java:1904-1907 | stores the socket send buffer size and changes no other option; keeps the setters' ranges (`Valid`) and their cross-option rules (`Coherent`) |
| ConfigBuilder.Builder.SetHealthStatusInterval | scandium-core/src/main/java/org/eclipse/californium/scandium/config/DtlsConnectorConfig.java:1916-1919 | stores the health status interval and changes no other option; keeps the setters' ranges (`Valid`) and their cross-option rules (`Coherent`) |
| ConfigBuilder.Builder.SetEarlyStopRetransmission | scandium-core/src/main/java/org/eclipse/californium/scandium/config/DtlsConnectorConfig.java:2514-2517 | stores early stop of retransmission and changes no other option; keeps the setters' ranges (`Valid`) and their cross-option rules (`Coherent`) |
| ConfigBuilder.Builder.SetAdvancedPskStore | scandium-core/src/main/java/org/eclipse/californium/scandium/config/DtlsConnectorConfig.java:2579-2582 | stores the PSK store and changes no other option; keeps the setters' ranges (`Valid`) and their cross-option rules (`Coherent`) |
| ConfigBuilder.Builder.SetCertificateIdentityProvider | scandium-core/src/main/java/org/eclipse/californium/scandium/config/DtlsConnectorConfig.java:2603-2606 | stores the certificate identity provider and changes no other option; keeps the setters' ranges (`Valid`) and their cross-option rules (`Coherent`) |
| ConfigBuilder.Builder.SetConnectionThreadCount | scandium-core/src/main/java/org/eclipse/californium/scandium/config/DtlsConnectorConfig.java:2767-2770 | stores the connection thread count and changes no other option; keeps the setters' ranges (`Valid`) and their cross-option rules (`Coherent`) |
| ConfigBuilder.Builder.SetReceiverThreadCount | scandium-core/src/main/java/org/eclipse/californium/scandium/config/DtlsConnectorConfig.java:2781-2784 | stores the receiver thread count and changes no other option; keeps the setters' ranges (`Valid`) and their cross-option rules (`Coherent`) |
| ConfigBuilder.Builder.SetSniEnabled | scandium-core/src/main/java/org/eclipse/californium/scandium/config/DtlsConnectorConfig.java:2822-2825 | stores SNI and changes no other option; keeps the setters' ranges (`Valid`) and their cross-option rules (`Coherent`) |
| ConfigBuilder.Builder.SetExtendedMasterSecretMode | scandium-core/src/main/java/org/eclipse/californium/scandium/config/DtlsConnectorConfig.java:2847-2850 | stores the extended master secret mode and changes no other option; keeps the setters' ranges (`Valid`) and their cross-option rules (`Coherent`) |
| ConfigBuilder.Builder.SetCidUpdateAddressOnNewerRecordFilter | scandium-core/src/main/java/org/eclipse/californium/scandium/config/DtlsConnectorConfig.java:3037-3040 | stores the address update filter and changes no other option; keeps the setters' ranges (`Valid`) and their cross-option rules (`Coherent`) |
| ConfigBuilder.Builder.SetUseTruncatedCertificatePathForClientsCertificateMessage | scandium-core/src/main/java/org/eclipse/californium/scandium/config/DtlsConnectorConfig.java:3055-3058 | stores certificate path truncation for the client's certificate message and changes no other option; keeps the setters' ranges (`Valid`) and their cross-option rules (`Coherent`) |
| ConfigBuilder.Builder.SetUseTruncatedCertificatePathForValidation | scandium-core/src/main/java/org/eclipse/californium/scandium/config/DtlsConnectorConfig.java:3071-3074 | stores certificate path truncation for validation and changes no other option; keeps the setters' ranges (`Valid`) and their cross-option rules (`Coherent`) |
| ConfigBuilder.Builder.SetCertificateHelper | scandium-core/src/main/java/org/eclipse/californium/scandium/config/DtlsConnectorConfig.java:3137-3140 | stores the certificate configuration helper and changes no other option; keeps the setters' ranges (`Valid`) and their cross-option rules (`Coherent`) |
| ConfigBuilder.Builder.SetRecommendedCipherSuitesOnly | scandium-core/src/main/java/org/eclipse/californium/scandium/config/DtlsConnectorConfig.java:1621-1627 | stores the switch, then fails exactly when it is on and the cipher suites already set hold a non-recommended one; keeps the setters' ranges (`Valid`) and their cross-option rules (`Coherent`) |
| ConfigBuilder.Builder.SetRecommendedSupportedGroupsOnly | scandium-core/src/main/java/org/eclipse/californium/scandium/config/DtlsConnectorConfig.java:1639-1645 | stores the switch, then fails exactly when it is on and the groups already set hold a non-recommended one; keeps the setters' ranges (`Valid`) and their cross-option rules (`Coherent`) |
| ConfigBuilder.Builder.SetRecommendedSignatureAndHashAlgorithmsOnly | scandium-core/src/main/java/org/eclipse/californium/scandium/config/DtlsConnectorConfig.java:1658-1664 | stores the switch, then fails exactly when it is on and the signature algorithms already set hold a non-recommended one; keeps the setters' ranges (`Valid`) and their cross-option rules (`Coherent`) |
| ConfigBuilder.Builder.SetClientOnly | scandium-core/src/main/java/org/eclipse/californium/scandium/config/DtlsConnectorConfig.java:1681-1700 | refused for a server-only configuration, after client authentication was set, or when server session ids, HELLO_VERIFY_REQUEST or HELLO_VERIFY_REQUEST for PSK were disabled (first matching reason); otherwise marks the configuration client only; on failure nothing changes, on success only this option does; keeps the setters' ranges (`Valid`) and their cross-option rules (`Coherent`) |
| ConfigBuilder.Builder.SetServerOnly | scandium-core/src/main/java/org/eclipse/californium/scandium/config/DtlsConnectorConfig.java:1712-1724 | enabling is refused for a client-only configuration and for a handshake mode other than "none"; otherwise stores the flag; on failure nothing changes, on success only this option does; keeps the setters' ranges (`Valid`) and their cross-option rules (`Coherent`) |
| ConfigBuilder.Builder.SetDefaultHandshakeMode | scandium-core/src/main/java/org/eclipse/californium/scandium/config/DtlsConnectorConfig.java:1741-1756 | accepts only unset, "auto" or "none", and only "none" (or unset) for a server-only configuration; on failure nothing changes, on success only this option does; keeps the setters' ranges (`Valid`) and their cross-option rules (`Coherent`) |
| ConfigBuilder.Builder.SetRecordSizeLimit | scandium-core/src/main/java/org/eclipse/californium/scandium/config/DtlsConnectorConfig.java:1769-1778 | accepts unset or a limit in 64..65535; on failure nothing changes, on success only this option does; keeps the setters' ranges (`Valid`) and their cross-option rules (`Coherent`) |
| ConfigBuilder.Builder.SetMaxFragmentLengthCode | scandium-core/src/main/java/org/eclipse/californium/scandium/config/DtlsConnectorConfig.java:1810-1817 | accepts unset or a code in 1..4; on failure nothing changes, on success only this option does; keeps the setters' ranges (`Valid`) and their cross-option rules (`Coherent`) |
| ConfigBuilder.Builder.SetOutboundMessageBufferSize | scandium-core/src/main/java/org/eclipse/californium/scandium/config/DtlsConnectorConfig.java:1940-1947 | accepts a capacity of at least 1; on failure nothing changes, on success only this option does; keeps the setters' ranges (`Valid`) and their cross-option rules (`Coherent`) |
| ConfigBuilder.Builder.SetBackOffRetransmission | scandium-core/src/main/java/org/eclipse/californium/scandium/config/DtlsConnectorConfig.java:1974-1980 | accepts unset or a non-negative count; on failure nothing changes, on success only this option does; keeps the setters' ranges (`Valid`) and their cross-option rules (`Coherent`) |
| ConfigBuilder.Builder.SetMaxRetransmissions | scandium-core/src/main/java/org/eclipse/californium/scandium/config/DtlsConnectorConfig.java:1989-1996 | accepts a count of at least 1; on failure nothing changes, on success only this option does; keeps the setters' ranges (`Valid`) and their cross-option rules (`Coherent`) |
| ConfigBuilder.Builder.SetMaxTransmissionUnit | scandium-core/src/main/java/org/eclipse/californium/scandium/config/DtlsConnectorConfig.java:2007-2013 | refused once an MTU limit is set; on failure nothing changes, on success only this option does; keeps the setters' ranges (`Valid`) and their cross-option rules (`Coherent`) |
| ConfigBuilder.Builder.SetMaxTransmissionUnitLimit | scandium-core/src/main/java/org/eclipse/californium/scandium/config/DtlsConnectorConfig.java:2033-2039 | refused once an MTU is set; on failure nothing changes, on success only this option does; keeps the setters' ranges (`Valid`) and their cross-option rules (`Coherent`) |
| ConfigBuilder.Builder.SetClientAuthenticationWanted | scandium-core/src/main/java/org/eclipse/californium/scandium/config/DtlsConnectorConfig.java:2059-2068 | refused for a client-only configuration, and wanting is refused while authentication is required; on failure nothing changes, on success only this option does; keeps the setters' ranges (`Valid`) and their cross-option rules (`Coherent`) |
| ConfigBuilder.Builder.SetClientAuthenticationRequired | scandium-core/src/main/java/org/eclipse/californium/scandium/config/DtlsConnectorConfig.java:2086-2095 | refused for a client-only configuration, and requiring is refused while authentication is wanted; on failure nothing changes, on success only this option does; keeps the setters' ranges (`Valid`) and their cross-option rules (`Coherent`) |
| ConfigBuilder.Builder.SetPreselectedCipherSuites | scandium-core/src/main/java/org/eclipse/californium/scandium/config/DtlsConnectorConfig.java:2161-2176 | unset clears the preselection; a list must be non-empty, free of the NULL suite, and hold a PSK suite when HELLO_VERIFY_REQUEST for PSK is disabled; on failure nothing changes, on success only this option does; keeps the setters' ranges (`Valid`) and their cross-option rules (`Coherent`) |
| ConfigBuilder.Builder.SetSupportedCipherSuites | scandium-core/src/main/java/org/eclipse/californium/scandium/config/DtlsConnectorConfig.java:2251-2278 | a list must be given, be non-empty, be free of the NULL suite, hold a PSK suite when HELLO_VERIFY_REQUEST for PSK is disabled, be all recommended unless that switch is off, and be all supported (first failing reason); on failure nothing changes, on success only this option does; keeps the setters' ranges (`Valid`) and their cross-option rules (`Coherent`) |
| ConfigBuilder.Builder.SetSupportedSignatureAlgorithms | scandium-core/src/main/java/org/eclipse/californium/scandium/config/DtlsConnectorConfig.java:2351-2358 | unset clears the list; a list must be all recommended unless that switch is off; on failure nothing changes, on success only this option does; keeps the setters' ranges (`Valid`) and their cross-option rules (`Coherent`) |
| ConfigBuilder.Builder.SetSupportedGroups | scandium-core/src/main/java/org/eclipse/californium/scandium/config/DtlsConnectorConfig.java:2446-2464 | a list must be given, be non-empty, be all recommended unless that switch is off, and be all usable; on failure nothing changes, on success only this option does; keeps the setters' ranges (`Valid`) and their cross-option rules (`Coherent`) |
| ConfigBuilder.Builder.SetRetransmissionTimeout | scandium-core/src/main/java/org/eclipse/californium/scandium/config/DtlsConnectorConfig.java:2528-2534 | accepts a non-negative timeout; on failure nothing changes, on success only this option does; keeps the setters' ranges (`Valid`) and their cross-option rules (`Coherent`) |
| ConfigBuilder.Builder.SetAdditionalTimeoutForEcc | scandium-core/src/main/java/org/eclipse/californium/scandium/config/DtlsConnectorConfig.java:2557-2563 | accepts a non-negative timeout; on failure nothing changes, on success only this option does; keeps the setters' ranges (`Valid`) and their cross-option rules (`Coherent`) |
| ConfigBuilder.Builder.SetAdvancedCertificateVerifier | scandium-core/src/main/java/org/eclipse/californium/scandium/config/DtlsConnectorConfig.java:2625-2631 | refuses a null verifier; on failure nothing changes, on success only this option does; keeps the setters' ranges (`Valid`) and their cross-option rules (`Coherent`) |
| ConfigBuilder.Builder.SetMaxDeferredProcessedOutgoingApplicationDataMessages | scandium-core/src/main/java/org/eclipse/californium/scandium/config/DtlsConnectorConfig.java:2662-2670 | accepts a non-negative count; on failure nothing changes, on success only this option does; keeps the setters' ranges (`Valid`) and their cross-option rules (`Coherent`) |
| ConfigBuilder.Builder.SetMaxDeferredProcessedIncomingRecordsSize | scandium-core/src/main/java/org/eclipse/californium/scandium/config/DtlsConnectorConfig.java:2686-2693 | accepts a non-negative size; on failure nothing changes, on success only this option does; keeps the setters' ranges (`Valid`) and their cross-option rules (`Coherent`) |
| ConfigBuilder.Builder.SetMaxConnections | scandium-core/src/main/java/org/eclipse/californium/scandium/config/DtlsConnectorConfig.java:2713-2719 | accepts at least 1; on failure nothing changes, on success only this option does; keeps the setters' ranges (`Valid`) and their cross-option rules (`Coherent`) |
| ConfigBuilder.Builder.SetStaleConnectionThreshold | scandium-core/src/main/java/org/eclipse/californium/scandium/config/DtlsConnectorConfig.java:2735-2741 | accepts at least 1; on failure nothing changes, on success only this option does; keeps the setters' ranges (`Valid`) and their cross-option rules (`Coherent`) |
| ConfigBuilder.Builder.SetAutoResumptionTimeoutMillis | scandium-core/src/main/java/org/eclipse/californium/scandium/config/DtlsConnectorConfig.java:2802-2808 | accepts unset or at least 1; on failure nothing changes, on success only this option does; keeps the setters' ranges (`Valid`) and their cross-option rules (`Coherent`) |
| ConfigBuilder.Builder.SetVerifyPeersOnResumptionThreshold | scandium-core/src/main/java/org/eclipse/californium/scandium/config/DtlsConnectorConfig.java:2870-2879 | refused while HELLO_VERIFY_REQUEST is disabled, and outside 0..100; on failure nothing changes, on success only this option does; keeps the setters' ranges (`Valid`) and their cross-option rules (`Coherent`) |
| ConfigBuilder.Builder.SetUseHelloVerifyRequestForPsk | scandium-core/src/main/java/org/eclipse/californium/scandium/config/DtlsConnectorConfig.java:2906-2923 | refused for a client-only configuration, enabling refused while HELLO_VERIFY_REQUEST is disabled, disabling refused when the supported suites hold no PSK suite; on failure nothing changes, on success only this option does; keeps the setters' ranges (`Valid`) and their cross-option rules (`Coherent`) |
| ConfigBuilder.Builder.SetUseHelloVerifyRequest | scandium-core/src/main/java/org/eclipse/californium/scandium/config/DtlsConnectorConfig.java:2948-2962 | refused for a client-only configuration; disabling refused while it is enabled for PSK or a resumption threshold is set; on failure nothing changes, on success only this option does; keeps the setters' ranges (`Valid`) and their cross-option rules (`Coherent`) |
| ConfigBuilder.Builder.SetUseServerSessionId | scandium-core/src/main/java/org/eclipse/californium/scandium/config/DtlsConnectorConfig.java:2974-2980 | disabling refused for a client-only configuration; on failure nothing changes, on success only this option does; keeps the setters' ranges (`Valid`) and their cross-option rules (`Coherent`) |
| ConfigBuilder.Builder.SetUseAntiReplayFilter | scandium-core/src/main/java/org/eclipse/californium/scandium/config/DtlsConnectorConfig.java:2990-2996 | enabling refused while a non-zero extended window filter is set; on failure nothing changes, on success only this option does; keeps the setters' ranges (`Valid`) and their cross-option rules (`Coherent`) |
| ConfigBuilder.Builder.SetUseExtendedWindowFilter | scandium-core/src/main/java/org/eclipse/californium/scandium/config/DtlsConnectorConfig.java:3016-3022 | a non-zero level refused while the anti-replay filter is on; on failure nothing changes, on success only this option does; keeps the setters' ranges (`Valid`) and their cross-option rules (`Coherent`) |
| ConfigBuilder.Builder.Build | scandium-core/src/main/java/org/eclipse/californium/scandium/config/DtlsConnectorConfig.java:3164-3418 | completes the configuration in place exactly as `Finalize` describes, fails exactly when and with the reason `Finalize` gives, returns the builder's own configuration on success, and keeps the setters' ranges |
| BuildSteps.FillDefaults | scandium-core/src/main/java/org/eclipse/californium/scandium/config/DtlsConnectorConfig.java:3170-3276 | every unset option gets its default (`WithDefaults`), in source order, later defaults reading the earlier ones |
| BuildSteps.FillSocketDefaults | scandium-core/src/main/java/org/eclipse/californium/scandium/config/DtlsConnectorConfig.java:3170-3178 | address reuse off, both certificate path truncations on, unless set; nothing else changes |
| BuildSteps.FillTimeoutDefaults | scandium-core/src/main/java/org/eclipse/californium/scandium/config/DtlsConnectorConfig.java:3179-3187 | early stop on, 2000 ms timeout, 0 ms extra for ECC, unless set; nothing else changes |
| BuildSteps.FillRetransmissionDefaults | scandium-core/src/main/java/org/eclipse/californium/scandium/config/DtlsConnectorConfig.java:3188-3196 | 4 retransmissions, back-off half the (defaulted) count truncated toward zero, 8192 bytes fragmented message limit, unless set; nothing else changes |
| BuildSteps.FillClientRoleDefaults | scandium-core/src/main/java/org/eclipse/californium/scandium/config/DtlsConnectorConfig.java:3197-3202 | client authentication not wanted, not client only, unless set; nothing else changes |
| BuildSteps.FillRecommendedDefaults | scandium-core/src/main/java/org/eclipse/californium/scandium/config/DtlsConnectorConfig.java:3203-3208 | recommended cipher suites and groups only, unless set; nothing else changes |
| BuildSteps.FillClientAuthenticationDefault | scandium-core/src/main/java/org/eclipse/californium/scandium/config/DtlsConnectorConfig.java:3209-3215 | client authentication required is false for a client only and otherwise the negation of wanted, unless set; nothing else changes |
| BuildSteps.FillServerRoleDefaults | scandium-core/src/main/java/org/eclipse/californium/scandium/config/DtlsConnectorConfig.java:3216-3225 | not server only; handshake mode "none" for a server only and "auto" otherwise, unless set; nothing else changes |
| BuildSteps.FillSessionDefaults | scandium-core/src/main/java/org/eclipse/californium/scandium/config/DtlsConnectorConfig.java:3226-3231 | server session ids on and a 100000 byte outbound buffer, unless set; nothing else changes |
| BuildSteps.FillDeferredDefaults | scandium-core/src/main/java/org/eclipse/californium/scandium/config/DtlsConnectorConfig.java:3232-3240 | the deferred processing limits and 150000 connections, unless set; nothing else changes |
| BuildSteps.FillThreadDefaults | scandium-core/src/main/java/org/eclipse/californium/scandium/config/DtlsConnectorConfig.java:3241-3249 | 6 connection threads per processor, half the processors (rounded up) receiving, a 30 minute stale threshold, unless set; nothing else changes |
| BuildSteps.FillExtensionDefaults | scandium-core/src/main/java/org/eclipse/californium/scandium/config/DtlsConnectorConfig.java:3250-3258 | MTU limit 1500, SNI off, extended master secret enabled, unless set; nothing else changes |
| BuildSteps.FillFilterDefaults | scandium-core/src/main/java/org/eclipse/californium/scandium/config/DtlsConnectorConfig.java:3259-3267 | extended window 0, anti-replay on exactly when the window is 0, address update filter on, unless set; nothing else changes |
| BuildSteps.FillHelloVerifyDefaults | scandium-core/src/main/java/org/eclipse/californium/scandium/config/DtlsConnectorConfig.java:3268-3276 | resumption threshold 30 %, HELLO_VERIFY_REQUEST on, for PSK as in general, unless set; nothing else changes |
| BuildSteps.FillEmptyLists | scandium-core/src/main/java/org/eclipse/californium/scandium/config/DtlsConnectorConfig.java:3284-3289 | unset groups and signature algorithms become empty lists; nothing else changes |
| BuildSteps.CandidateCipherSuitesOf | scandium-core/src/main/java/org/eclipse/californium/scandium/config/DtlsConnectorConfig.java:3500-3515 | the suites the credentials call for, in order: ECDSA ones for certificate credentials, ECDHE_PSK ones for a PSK store with ECDHE, PSK ones for a PSK store |
| BuildSteps.PreselectCipherSuites | scandium-core/src/main/java/org/eclipse/californium/scandium/config/DtlsConnectorConfig.java:3516-3523 | the preselection loop yields `Preselect`: the preselected suites that are candidates, in preselected order |
| BuildSteps.DetermineCipherSuitesFromConfig | scandium-core/src/main/java/org/eclipse/californium/scandium/config/DtlsConnectorConfig.java:3497-3526 | stores the derived suites (`DerivedCipherSuites`) as the supported cipher suites and changes nothing else |
| BuildSteps.Prepare | scandium-core/src/main/java/org/eclipse/californium/scandium/config/DtlsConnectorConfig.java:3165-3299 | defaults; fails exactly when a verifier is configured for a server only that neither requires nor wants client authentication; otherwise empty lists and derived suites when none were set |
| BuildSteps.ClassifyCipherSuites | scandium-core/src/main/java/org/eclipse/californium/scandium/config/DtlsConnectorConfig.java:3312-3326 | the classification loop yields `Classify`: the first failing credential check, or which kinds (PSK, certificate, ECC) occur |
| BuildSteps.SetUpCertificateHelper | scandium-core/src/main/java/org/eclipse/californium/scandium/config/DtlsConnectorConfig.java:3332-3345 | without a configured helper, the helper set up by the identity provider or verifier becomes the configuration's helper; nothing else changes |
| BuildSteps.EccSignatureAlgorithmsOf | scandium-core/src/main/java/org/eclipse/californium/scandium/config/DtlsConnectorConfig.java:3347-3354 | the configured signature algorithms, or when empty the platform defaults extended by the helper's |
| BuildSteps.EccGroupsOf | scandium-core/src/main/java/org/eclipse/californium/scandium/config/DtlsConnectorConfig.java:3355-3362 | the configured groups, or when empty the preferred groups extended by the helper's |
| BuildSteps.DeriveEccLists | scandium-core/src/main/java/org/eclipse/californium/scandium/config/DtlsConnectorConfig.java:3346-3362 | with an ECC suite, both lists become what `WithEccLists` gives; nothing else changes |
| BuildSteps.CheckNoEccLists | scandium-core/src/main/java/org/eclipse/californium/scandium/config/DtlsConnectorConfig.java:3363-3371 | without an ECC suite, fails exactly when signature algorithms or groups are configured |
| BuildSteps.CheckConsistency | scandium-core/src/main/java/org/eclipse/californium/scandium/config/DtlsConnectorConfig.java:3373-3413 | the closing checks (`FinalChecks`): credentials without a certificate suite, recommended groups, the helper's verdicts, key usage per role, HELLO_VERIFY_REQUEST for PSK |
| BuildSteps.BuildConfig | scandium-core/src/main/java/org/eclipse/californium/scandium/config/DtlsConnectorConfig.java:3164-3418 | the whole of `build()` on the configuration: exactly the state and outcome of `Finalize` |
| ListChecks.VerifyRecommendedCipherSuitesOnly | scandium-core/src/main/java/org/eclipse/californium/scandium/config/DtlsConnectorConfig.java:3449-3463 | passes exactly when every suite is recommended |
| ListChecks.VerifyRecommendedSupportedGroupsOnly | scandium-core/src/main/java/org/eclipse/californium/scandium/config/DtlsConnectorConfig.java:3465-3479 | passes exactly when every group is recommended |
| ListChecks.VerifyRecommendedSignatureAndHashAlgorithmsOnly | scandium-core/src/main/java/org/eclipse/californium/scandium/config/DtlsConnectorConfig.java:3481-3495 | passes exactly when every signature algorithm is recommended |
| ListChecks.VerifyCipherSuitesSupported | scandium-core/src/main/java/org/eclipse/californium/scandium/config/DtlsConnectorConfig.java:3306-3310 | passes exactly when every suite is supported by the platform |
| ListChecks.VerifyGroupsUsable | scandium-core/src/main/java/org/eclipse/californium/scandium/config/DtlsConnectorConfig.java:2446-2464 | passes exactly when every group is usable on the platform |
| Crypto.GetEcdsaCipherSuites | scandium-core/src/main/java/org/eclipse/californium/scandium/config/DtlsConnectorConfig.java:3503-3506 | a suite is returned exactly when it is in the catalogue, has ECDSA keys, is supported, and is recommended when only recommended suites are asked for |
| Crypto.GetCipherSuitesByKeyExchangeAlgorithm | scandium-core/src/main/java/org/eclipse/californium/scandium/config/DtlsConnectorConfig.java:3508-3515 | a suite is returned exactly when it is in the catalogue, uses the key exchange, is supported, and is recommended when asked |
| ListUtils.AddIfAbsent | scandium-core/src/main/java/org/eclipse/californium/scandium/config/DtlsConnectorConfig.java:3348-3361 | keeps the list as a prefix and appends, in their order in `additional`, exactly its elements missing from the list, each once |
| ConfigOptions.JavaDiv | scandium-core/src/main/java/org/eclipse/californium/scandium/config/DtlsConnectorConfig.java:3191-3193 | Java integer division: the quotient truncated toward zero |
| BuildSpec.ClassifyKeepsFirstFailure | scandium-core/src/main/java/org/eclipse/californium/scandium/config/DtlsConnectorConfig.java:3315-3326 | once a prefix of the suites fails its check, the whole list fails with the same reason |
| BuildSpec.DefaultsKeepAdmissible | scandium-core/src/main/java/org/eclipse/californium/scandium/config/DtlsConnectorConfig.java:3170-3276 | the defaults lie within every setter's range and never contradict the role and filter rules |
| BuildSpec.FinalizeKeepsAdmissible | scandium-core/src/main/java/org/eclipse/californium/scandium/config/DtlsConnectorConfig.java:3164-3418 | `build()` keeps the setters' ranges, whether it fails or not |
| BuildProperties.PreselectIsOrderedFilter | scandium-core/src/main/java/org/eclipse/californium/scandium/config/DtlsConnectorConfig.java:3516-3523 | the preselection keeps exactly the preselected suites that are candidates, in preselected order (a subsequence) |
| BuildProperties.PreselectNothing | scandium-core/src/main/java/org/eclipse/californium/scandium/config/DtlsConnectorConfig.java:3516-3523 | nothing is preselected out of no candidates |
| BuildProperties.DerivedSuitesFollowCredentials | scandium-core/src/main/java/org/eclipse/californium/scandium/config/DtlsConnectorConfig.java:3497-3526 | every derived suite is a supported catalogue suite (recommended when required) justified by a credential, and the derived list is a subsequence of the preselection |
| BuildProperties.DerivedSuitesComplete | scandium-core/src/main/java/org/eclipse/californium/scandium/config/DtlsConnectorConfig.java:3497-3515 | without a preselection every suite the credentials call for is derived |
| BuildProperties.NoCredentialsNoCipherSuites | scandium-core/src/main/java/org/eclipse/californium/scandium/config/DtlsConnectorConfig.java:3297-3305 | with no suites, PSK store, identity or verifier, `build()` fails for want of cipher suites |
| BuildProperties.DefaultsOnlyFillGaps | scandium-core/src/main/java/org/eclipse/californium/scandium/config/DtlsConnectorConfig.java:3170-3276 | after the defaults every defaulted option is set, options set before are kept, and credentials and suites are untouched |
| BuildProperties.DependentDefaults | scandium-core/src/main/java/org/eclipse/californium/scandium/config/DtlsConnectorConfig.java:3188-3276 | the defaults that read other options: back-off is half the retransmissions, client authentication required unless client only or wanted, anti-replay exactly without an extended window, HELLO_VERIFY_REQUEST for PSK follows the general one, handshake mode by role |
| BuildProperties.ClassifyCharacterized | scandium-core/src/main/java/org/eclipse/californium/scandium/config/DtlsConnectorConfig.java:3315-3326 | the loop passes exactly when every suite passes its credential check, and its flags say exactly whether a PSK, certificate or ECC suite occurs |
| BuildProperties.SuccessfulBuildIsComplete | scandium-core/src/main/java/org/eclipse/californium/scandium/config/DtlsConnectorConfig.java:3164-3418 | after a successful `build()` every defaulted option and all three lists are set, and the cipher suites are non-empty and supported |
| BuildProperties.SuccessfulBuildHasCredentials | scandium-core/src/main/java/org/eclipse/californium/scandium/config/DtlsConnectorConfig.java:3306-3330 | after a successful `build()` every PSK suite has a PSK store (with ECDHE for an ECC suite), every certificate suite its identity and verifier, and a PSK store a PSK suite |
| BuildProperties.SuccessfulBuildPassedFinalChecks | scandium-core/src/main/java/org/eclipse/californium/scandium/config/DtlsConnectorConfig.java:3373-3413 | after a successful `build()` certificate credentials come with a certificate suite, the HELLO_VERIFY_REQUEST rule for PSK holds, and "recommended groups only" holds of the groups |
| BuildProperties.EccListsAfterBuild | scandium-core/src/main/java/org/eclipse/californium/scandium/config/DtlsConnectorConfig.java:3346-3371 | after a successful `build()` an ECC suite brings non-empty signature algorithms and groups (given non-empty platform defaults), and without one both are empty |
| BuildProperties.BuildOnlyAddsListsAndHelper | scandium-core/src/main/java/org/eclipse/californium/scandium/config/DtlsConnectorConfig.java:3277-3418 | after the defaults, `build()` changes only the cipher suites, the signature algorithms, the groups and the helper |
| BuildProperties.ClonedLosesBackOff | scandium-core/src/main/java/org/eclipse/californium/scandium/config/DtlsConnectorConfig.java:1435-1497 | as written: a configuration built with 4 retransmissions and back-off 0, copied and built again, has back-off 2 |
| BuildProperties.RebuildingCopyKeepsOptions | scandium-core/src/main/java/org/eclipse/californium/scandium/config/DtlsConnectorConfig.java:1575-1577 | a built configuration is complete: defaulting it again changes nothing, so building a full copy keeps the back-off and the signature algorithm switch |
| BuildProperties.ClassifyIgnoresLists | scandium-core/src/main/java/org/eclipse/californium/scandium/config/DtlsConnectorConfig.java:3315-3326 | the classification loop gives the same result whatever the three lists hold |
| BuildProperties.BuiltIsPrepared | scandium-core/src/main/java/org/eclipse/californium/scandium/config/DtlsConnectorConfig.java:3164-3299 | building a successfully built configuration again sets no default, no empty list and no derived suite, and does not refuse its verifier |
| BuildProperties.RebuildingBuiltConfigurationIsIdentity | scandium-core/src/main/java/org/eclipse/californium/scandium/config/DtlsConnectorConfig.java:3164-3418 | building a full copy of a successfully built configuration succeeds and gives the same configuration, field for field, when `build()` did not set up the helper itself |
| BuildProperties.RebuildChecksSetUpHelper | scandium-core/src/main/java/org/eclipse/californium/scandium/config/DtlsConnectorConfig.java:3332-3345 | when `build()` set up the helper, building a full copy fails on a certificate suite whose key algorithm that helper does not support |

## Left out

- The bind address (`setAddress`), the logging tag, the health handler, the
  connection listener, the session store, the resumption verifier, the
  cipher suite selector, the application level info supplier, the
  connection id generator and the protocol version for HELLO_VERIFY_REQUEST.
  Their setters store a reference that nothing else in the builder checks.
  For the same reason the default selector and resumption verifier that
  `build()` instantiates are not modelled.
- The `String...` and `...` (varargs) overloads of the list setters. They
  only convert to a list and call the list setter, which is modelled. The
  lookup of suites, algorithms and groups by name is not modelled.
- The catalogue queries of `CipherSuite`, `SignatureAndHashAlgorithm` and
  `SupportedGroup` are modelled as filters over the platform's catalogue:
  - `getEcdsaCipherSuites` and `getCipherSuitesByKeyExchangeAlgorithm` keep
    supported suites, and recommended ones when asked;
  - `isPskBased`, `isEccBased` and `requiresServerCertificateMessage` follow
    the key exchange and the certificate key algorithm.

  CipherSuite.java is not part of this model.
- The certificate helper's checks (`verifySignatureAndHashAlgorithmsConfiguration`,
  `verifySupportedGroupsConfiguration`, `canBeUsedForAuthentication`,
  `getSupportedKeyAlgorithms`) are fixed answers of the helper object. The
  way `setupConfigurationHelper` reads the certificate is not modelled.
  - The helper that `build()` creates is a parameter of `Build`.
- Exception messages become one `Error` value per throw site.
  - An `IllegalArgumentException` and an `IllegalStateException` are not
    told apart.
- The unmodifiable list wrappers (`ListUtils.init`, `Collections.emptyList`)
  are plain sequences.
- Integers are unbounded. The setters' Java `int`/`long` widths and the
  `Integer`-to-`int` unboxing are not modelled.
- `ConfigBuilder.Builder.FromConfig`: assumes the copied configuration meets the setters'
  ranges. Every configuration comes from a builder, but the precondition
  states it rather than deriving it.
- `getIncompleteConfig` and the configuration's getters only expose fields
  and are not modelled.
- The key check of `verifyCertificateBasedCipherConfig` (keys must fit the
  suite) runs in the classification loop, before `build()` sets up the
  helper. It therefore only applies to a helper set through
  `setCertificateHelper`. The model keeps this order.
  `BuildProperties.RebuildChecksSetUpHelper` shows the consequence when a
  built configuration is built again.
- BuildProperties.RebuildingBuiltConfigurationIsIdentity: claims the full
  round trip only when `build()` did not set up the certificate helper
  itself. Otherwise the rebuild applies the key check that the first build
  skipped, and it can fail (`RebuildChecksSetUpHelper`).
  `RebuildingCopyKeepsOptions` still holds in every case.
- `DEFAULT_MAX_TRANSMISSION_UNIT_LIMIT` is `RecordLayer.DEFAULT_ETH_MTU`,
  taken as 1500 (the Ethernet MTU). RecordLayer.java is not part of this
  model.
- `TlsServerConnector` and `TcpConfig` are not part of this model.

## Findings

| source | as written | input that shows it | evidently intended | confidence | as-written member | corrected member |
|---|---|---|---|---|---|---|
| scandium-core/src/main/java/org/eclipse/californium/scandium/config/DtlsConnectorConfig.java:1435-1497 | `clone()` copies every option except `backOffRetransmission` and `recommendedSignatureAndHashAlgorithmsOnly`, so `builder(config)` starts from a configuration that has lost both | a configuration built with `setMaxRetransmissions(4)` and `setBackOffRetransmission(0)`: `builder(config).build()` gives back-off 2 | the copy `clone()` documents: every option, so that building the copy keeps them | medium, not executed | ConnectorConfig.Cloned, BuildProperties.ClonedLosesBackOff | ConnectorConfig.DtlsConnectorConfig.Clone, ConfigBuilder.Builder.FromConfig, BuildProperties.RebuildingCopyKeepsOptions, BuildProperties.RebuildingBuiltConfigurationIsIdentity |
