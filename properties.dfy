/** What `build()` promises about the configuration it completes, stated over
    `Finalize` and the functions it is made of. */
module BuildProperties {
  import opened Wrappers
  import opened Crypto
  import opened Credentials
  import opened ConfigOptions
  import opened ListChecks
  import opened ListUtils
  import opened BuildSpec
  import opened ConnectorConfig

  // ---- the preselection ----

  /** Appending to the longer sequence keeps a subsequence. */
  lemma {:induction false} SubsequenceAppend<T>(a: seq<T>, b: seq<T>, x: T)
    requires Subsequence(a, b)
    ensures Subsequence(a, b + [x])
    decreases |b|
  {
    if a != [] {
      assert (b + [x])[0] == b[0] && (b + [x])[1..] == b[1..] + [x];
      if a[0] == b[0] {
        SubsequenceAppend(a[1..], b[1..], x);
      } else {
        SubsequenceAppend(a, b[1..], x);
      }
    }
  }

  /** Appending the same element to both keeps a subsequence. */
  lemma {:induction false} SubsequenceAppendBoth<T>(a: seq<T>, b: seq<T>, x: T)
    requires Subsequence(a, b)
    ensures Subsequence(a + [x], b + [x])
    decreases |b|
  {
    if a == [] {
      SubsequenceLast(b, x);
      assert a + [x] == [x];
    } else {
      assert (b + [x])[0] == b[0] && (b + [x])[1..] == b[1..] + [x];
      assert (a + [x])[0] == a[0] && (a + [x])[1..] == a[1..] + [x];
      if a[0] == b[0] {
        SubsequenceAppendBoth(a[1..], b[1..], x);
      } else {
        SubsequenceAppendBoth(a, b[1..], x);
      }
    }
  }

  lemma {:induction false} SubsequenceLast<T>(b: seq<T>, x: T)
    ensures Subsequence([x], b + [x])
    decreases |b|
  {
    if b != [] {
      assert (b + [x])[1..] == b[1..] + [x];
      if b[0] != x {
        SubsequenceLast(b[1..], x);
      } else {
        assert [x][1..] == [];
      }
    } else {
      assert [x][1..] == [] && ([] + [x])[1..] == [];
    }
  }

  /** The preselection keeps exactly the preselected suites that are
      candidates, in preselected order. */
  lemma {:induction false} PreselectIsOrderedFilter(preselected: seq<CipherSuite>, candidates: seq<CipherSuite>)
    ensures forall s :: s in Preselect(preselected, candidates) <==> s in preselected && s in candidates
    ensures Subsequence(Preselect(preselected, candidates), preselected)
  {
    if preselected != [] {
      var init := preselected[..|preselected| - 1];
      var last := preselected[|preselected| - 1];
      PreselectIsOrderedFilter(init, candidates);
      assert preselected == init + [last];
      var r := Preselect(init, candidates);
      if last in candidates {
        assert Preselect(preselected, candidates) == r + [last];
        SubsequenceAppendBoth(r, init, last);
      } else {
        assert Preselect(preselected, candidates) == r;
        SubsequenceAppend(r, init, last);
      }
    }
  }

  /** Nothing is preselected out of no candidates. */
  lemma {:induction false} PreselectNothing(preselected: seq<CipherSuite>)
    ensures Preselect(preselected, []) == []
  {
    if preselected != [] {
      PreselectNothing(preselected[..|preselected| - 1]);
    }
  }

  // ---- the derived cipher suites ----

  /** A derived suite is a supported catalogue suite (recommended unless
      non-recommended suites are allowed), and it is there because of the
      credentials: an ECDSA suite for certificate credentials, an ECDHE_PSK
      suite for a PSK store with ECDHE support, a PSK suite for a PSK store. */
  lemma DerivedSuitesFollowCredentials(d: Options, p: Platform)
    ensures forall s :: s in DerivedCipherSuites(d, p) ==>
              && s in p.cipherSuites
              && Offered(s, d.recommendedCipherSuitesOnly.GetOr(true))
              && (|| (s.certificateKeyAlgorithm == Ec
                      && (d.certificateIdentityProvider != null || d.advancedCertificateVerifier != null))
                  || (s.keyExchange == EcdhePsk && d.advancedPskStore != null && d.advancedPskStore.ecdhePskSupported)
                  || (s.keyExchange == Psk && d.advancedPskStore != null))
    ensures d.preselectedCipherSuites.Some? ==>
              Subsequence(DerivedCipherSuites(d, p), d.preselectedCipherSuites.value)
  {
    if d.preselectedCipherSuites.Some? {
      PreselectIsOrderedFilter(d.preselectedCipherSuites.value, CandidateCipherSuites(d, p));
    }
  }

  /** Without a preselection every suite the credentials call for is
      derived. */
  lemma DerivedSuitesComplete(d: Options, p: Platform, s: CipherSuite)
    requires d.preselectedCipherSuites.None?
    requires s in p.cipherSuites && Offered(s, d.recommendedCipherSuitesOnly.GetOr(true))
    requires || (s.certificateKeyAlgorithm == Ec
                 && (d.certificateIdentityProvider != null || d.advancedCertificateVerifier != null))
             || (s.keyExchange == EcdhePsk && d.advancedPskStore != null && d.advancedPskStore.ecdhePskSupported)
             || (s.keyExchange == Psk && d.advancedPskStore != null)
    ensures s in DerivedCipherSuites(d, p)
  {
  }

  /** Without any credentials and without configured suites there is nothing
      to derive, and `build()` fails for want of cipher suites. */
  lemma NoCredentialsNoCipherSuites(o: Options, p: Platform, h: CertificateHelper)
    requires o.supportedCipherSuites.None? || o.supportedCipherSuites.value == []
    requires o.advancedPskStore == null && o.certificateIdentityProvider == null
    requires o.advancedCertificateVerifier == null
    ensures Finalize(o, p, h).outcome == Fail(NoCipherSuites)
  {
    var d2 := WithCipherSuites(WithEmptyLists(WithDefaults(o, p)), p);
    assert CandidateCipherSuites(WithEmptyLists(WithDefaults(o, p)), p) == [];
    if o.preselectedCipherSuites.Some? {
      PreselectNothing(o.preselectedCipherSuites.value);
    }
    assert d2.supportedCipherSuites == Some([]);
  }

  // ---- defaults ----

  /** The options `build()` always sets, whether it fails afterwards or not. */
  predicate Defaulted(d: Options) {
    && d.enableReuseAddress.Some? && d.useTruncatedCertificatePathForClientsCertificateMessage.Some?
    && d.useTruncatedCertificatePathForValidation.Some? && d.earlyStopRetransmission.Some?
    && d.retransmissionTimeout.Some? && d.additionalTimeoutForEcc.Some? && d.maxRetransmissions.Some?
    && d.backOffRetransmission.Some? && d.maxFragmentedHandshakeMessageLength.Some?
    && d.clientAuthenticationWanted.Some? && d.clientOnly.Some? && d.recommendedCipherSuitesOnly.Some?
    && d.recommendedSupportedGroupsOnly.Some? && d.clientAuthenticationRequired.Some? && d.serverOnly.Some?
    && d.defaultHandshakeMode.Some? && d.useServerSessionId.Some? && d.outboundMessageBufferSize.Some?
    && d.maxDeferredProcessedOutgoingApplicationDataMessages.Some?
    && d.maxDeferredProcessedIncomingRecordsSize.Some? && d.maxConnections.Some?
    && d.connectionThreadCount.Some? && d.receiverThreadCount.Some? && d.staleConnectionThreshold.Some?
    && d.maxTransmissionUnitLimit.Some? && d.sniEnabled.Some? && d.extendedMasterSecretMode.Some?
    && d.useExtendedWindowFilter.Some? && d.useAntiReplayFilter.Some?
    && d.useCidUpdateAddressOnNewerRecordFilter.Some? && d.verifyPeersOnResumptionThreshold.Some?
    && d.useHelloVerifyRequest.Some? && d.useHelloVerifyRequestForPsk.Some?
  }

  /** Every option among those above that was set in `o` has the same value
      in `d`. */
  predicate KeepsSet(o: Options, d: Options) {
    && (o.enableReuseAddress.Some? ==> d.enableReuseAddress == o.enableReuseAddress)
    && (o.useTruncatedCertificatePathForClientsCertificateMessage.Some? ==> d.useTruncatedCertificatePathForClientsCertificateMessage == o.useTruncatedCertificatePathForClientsCertificateMessage)
    && (o.useTruncatedCertificatePathForValidation.Some? ==> d.useTruncatedCertificatePathForValidation == o.useTruncatedCertificatePathForValidation)
    && (o.earlyStopRetransmission.Some? ==> d.earlyStopRetransmission == o.earlyStopRetransmission)
    && (o.retransmissionTimeout.Some? ==> d.retransmissionTimeout == o.retransmissionTimeout)
    && (o.additionalTimeoutForEcc.Some? ==> d.additionalTimeoutForEcc == o.additionalTimeoutForEcc)
    && (o.maxRetransmissions.Some? ==> d.maxRetransmissions == o.maxRetransmissions)
    && (o.backOffRetransmission.Some? ==> d.backOffRetransmission == o.backOffRetransmission)
    && (o.maxFragmentedHandshakeMessageLength.Some? ==> d.maxFragmentedHandshakeMessageLength == o.maxFragmentedHandshakeMessageLength)
    && (o.clientAuthenticationWanted.Some? ==> d.clientAuthenticationWanted == o.clientAuthenticationWanted)
    && (o.clientOnly.Some? ==> d.clientOnly == o.clientOnly)
    && (o.recommendedCipherSuitesOnly.Some? ==> d.recommendedCipherSuitesOnly == o.recommendedCipherSuitesOnly)
    && (o.recommendedSupportedGroupsOnly.Some? ==> d.recommendedSupportedGroupsOnly == o.recommendedSupportedGroupsOnly)
    && (o.clientAuthenticationRequired.Some? ==> d.clientAuthenticationRequired == o.clientAuthenticationRequired)
    && (o.serverOnly.Some? ==> d.serverOnly == o.serverOnly)
    && (o.defaultHandshakeMode.Some? ==> d.defaultHandshakeMode == o.defaultHandshakeMode)
    && (o.useServerSessionId.Some? ==> d.useServerSessionId == o.useServerSessionId)
    && (o.outboundMessageBufferSize.Some? ==> d.outboundMessageBufferSize == o.outboundMessageBufferSize)
    && (o.maxDeferredProcessedOutgoingApplicationDataMessages.Some? ==> d.maxDeferredProcessedOutgoingApplicationDataMessages == o.maxDeferredProcessedOutgoingApplicationDataMessages)
    && (o.maxDeferredProcessedIncomingRecordsSize.Some? ==> d.maxDeferredProcessedIncomingRecordsSize == o.maxDeferredProcessedIncomingRecordsSize)
    && (o.maxConnections.Some? ==> d.maxConnections == o.maxConnections)
    && (o.connectionThreadCount.Some? ==> d.connectionThreadCount == o.connectionThreadCount)
    && (o.receiverThreadCount.Some? ==> d.receiverThreadCount == o.receiverThreadCount)
    && (o.staleConnectionThreshold.Some? ==> d.staleConnectionThreshold == o.staleConnectionThreshold)
    && (o.maxTransmissionUnitLimit.Some? ==> d.maxTransmissionUnitLimit == o.maxTransmissionUnitLimit)
    && (o.sniEnabled.Some? ==> d.sniEnabled == o.sniEnabled)
    && (o.extendedMasterSecretMode.Some? ==> d.extendedMasterSecretMode == o.extendedMasterSecretMode)
    && (o.useExtendedWindowFilter.Some? ==> d.useExtendedWindowFilter == o.useExtendedWindowFilter)
    && (o.useAntiReplayFilter.Some? ==> d.useAntiReplayFilter == o.useAntiReplayFilter)
    && (o.useCidUpdateAddressOnNewerRecordFilter.Some? ==> d.useCidUpdateAddressOnNewerRecordFilter == o.useCidUpdateAddressOnNewerRecordFilter)
    && (o.verifyPeersOnResumptionThreshold.Some? ==> d.verifyPeersOnResumptionThreshold == o.verifyPeersOnResumptionThreshold)
    && (o.useHelloVerifyRequest.Some? ==> d.useHelloVerifyRequest == o.useHelloVerifyRequest)
    && (o.useHelloVerifyRequestForPsk.Some? ==> d.useHelloVerifyRequestForPsk == o.useHelloVerifyRequestForPsk)
  }

  /** Defaulting sets every option above. */
  lemma DefaultsAreSet(o: Options, p: Platform)
    ensures Defaulted(WithDefaults(o, p))
  {
  }

  /** Defaulting sets every option above and never overrides one that was
      set. */
  lemma DefaultsOnlyFillGaps(o: Options, p: Platform)
    ensures Defaulted(WithDefaults(o, p))
    ensures var d := WithDefaults(o, p);
      && KeepsSet(o, d)
      && d.supportedCipherSuites == o.supportedCipherSuites
      && d.advancedPskStore == o.advancedPskStore
      && d.certificateIdentityProvider == o.certificateIdentityProvider
      && d.advancedCertificateVerifier == o.advancedCertificateVerifier
  {
  }

  /** The dependent defaults: back-off is half the (defaulted) retransmission
      count, truncated, and never negative; client authentication is
      required unless the connector is client only or it is merely wanted;
      anti-replay is on exactly when the (defaulted) extended window is 0;
      HELLO_VERIFY_REQUEST for PSK follows HELLO_VERIFY_REQUEST. */
  lemma DependentDefaults(o: Options, p: Platform)
    requires Admissible(o)
    ensures var d := WithDefaults(o, p);
      && (o.backOffRetransmission.None? ==>
            d.backOffRetransmission.value * 2 <= d.maxRetransmissions.value < d.backOffRetransmission.value * 2 + 2
            && d.backOffRetransmission.value >= 0)
      && (o.maxRetransmissions.None? && o.backOffRetransmission.None? ==> d.backOffRetransmission == Some(2))
      && (o.clientAuthenticationRequired.None? ==>
            d.clientAuthenticationRequired.value == (!d.clientOnly.value && !d.clientAuthenticationWanted.value))
      && (o.useAntiReplayFilter.None? ==> (d.useAntiReplayFilter.value <==> d.useExtendedWindowFilter.value == 0))
      && (o.useAntiReplayFilter.None? && o.useExtendedWindowFilter.None? ==> d.useAntiReplayFilter == Some(true))
      && (o.useHelloVerifyRequestForPsk.None? ==> d.useHelloVerifyRequestForPsk == d.useHelloVerifyRequest)
      && (o.defaultHandshakeMode.None? ==>
            d.defaultHandshakeMode.value == if d.serverOnly.value then HANDSHAKE_MODE_NONE else HANDSHAKE_MODE_AUTO)
  {
    var maxRetransmissions := o.maxRetransmissions.GetOr(DEFAULT_MAX_RETRANSMISSIONS);
    assert JavaDiv(maxRetransmissions, 2) * 2 <= maxRetransmissions < JavaDiv(maxRetransmissions, 2) * 2 + 2;
  }

  // ---- the classification loop ----

  /** `suites` holds a suite that uses ECC. */
  predicate ContainsEccBasedCipherSuite(suites: seq<CipherSuite>) {
    exists i :: 0 <= i < |suites| && suites[i].IsEccBased()
  }

  /** `suites` holds a suite, other than a PSK one, whose server sends a
      certificate. */
  predicate ContainsCertificateBasedCipherSuite(suites: seq<CipherSuite>) {
    exists i :: 0 <= i < |suites| && !suites[i].IsPskBased() && suites[i].RequiresServerCertificateMessage()
  }

  /** The credential check the loop applies to one suite. */
  predicate SuiteAccepted(d: Options, s: CipherSuite) {
    && (s.IsPskBased() ==> VerifyPskBasedCipherConfig(d, s).Pass?)
    && (!s.IsPskBased() && s.RequiresServerCertificateMessage() ==> VerifyCertificateBasedCipherConfig(d, s).Pass?)
  }

  /** The loop succeeds exactly when every suite passes its check, and then
      its flags say whether a PSK suite, a certificate suite and an ECC suite
      occur. */
  lemma {:induction false} ClassifyCharacterized(d: Options, suites: seq<CipherSuite>)
    ensures Classify(d, suites).Ok? <==> forall i :: 0 <= i < |suites| ==> SuiteAccepted(d, suites[i])
    ensures Classify(d, suites).Ok? ==>
              && (Classify(d, suites).value.psk <==> ContainsPskBasedCipherSuite(suites))
              && (Classify(d, suites).value.certificate <==> ContainsCertificateBasedCipherSuite(suites))
              && (Classify(d, suites).value.ecc <==> ContainsEccBasedCipherSuite(suites))
  {
    if suites != [] {
      var init := suites[..|suites| - 1];
      var last := suites[|suites| - 1];
      ClassifyCharacterized(d, init);
      assert forall i :: 0 <= i < |init| ==> init[i] == suites[i];
      if Classify(d, init).Ok? {
        var caps := Classify(d, init).value;
        assert ContainsPskBasedCipherSuite(suites) <==> ContainsPskBasedCipherSuite(init) || last.IsPskBased() by {
          if ContainsPskBasedCipherSuite(suites) {
            var i :| 0 <= i < |suites| && suites[i].IsPskBased();
            if i < |init| { assert init[i].IsPskBased(); }
          }
        }
        assert ContainsCertificateBasedCipherSuite(suites)
               <==> ContainsCertificateBasedCipherSuite(init)
                    || (!last.IsPskBased() && last.RequiresServerCertificateMessage()) by {
          if ContainsCertificateBasedCipherSuite(suites) {
            var i :| 0 <= i < |suites| && !suites[i].IsPskBased() && suites[i].RequiresServerCertificateMessage();
            if i < |init| { assert !init[i].IsPskBased() && init[i].RequiresServerCertificateMessage(); }
          }
        }
        assert ContainsEccBasedCipherSuite(suites) <==> ContainsEccBasedCipherSuite(init) || last.IsEccBased() by {
          if ContainsEccBasedCipherSuite(suites) {
            var i :| 0 <= i < |suites| && suites[i].IsEccBased();
            if i < |init| { assert init[i].IsEccBased(); }
          }
        }
      } else {
        var i :| 0 <= i < |init| && !SuiteAccepted(d, init[i]);
        assert !SuiteAccepted(d, suites[i]);
      }
    }
  }

  // ---- a successful build() ----

  /** The configuration after defaults, empty lists and the derived cipher
      suites: what the classification loop sees. */
  function Prepared(o: Options, p: Platform): Options {
    WithCipherSuites(WithEmptyLists(WithDefaults(o, p)), p)
  }

  /** `e` differs from `d` at most in the helper and the two ECC lists. */
  predicate SameCredentialsAndSuites(d: Options, e: Options) {
    e == d.(certificateConfigurationHelper := e.certificateConfigurationHelper,
            supportedSignatureAlgorithms := e.supportedSignatureAlgorithms,
            supportedGroups := e.supportedGroups)
  }

  /** The steps a successful `build()` went through. */
  lemma SuccessUnfolded(o: Options, p: Platform, h: CertificateHelper)
    requires Finalize(o, p, h).outcome.Pass?
    ensures var d2 := Prepared(o, p);
      var suites := d2.supportedCipherSuites.GetOr([]);
      var s := Finalize(o, p, h).state;
      && !VerifierUnused(WithDefaults(o, p))
      && suites != [] && AllSupported(suites)
      && Classify(d2, suites).Ok?
      && !(!Classify(d2, suites).value.psk && d2.advancedPskStore != null)
      && WithEccLists(WithHelper(d2, h), Classify(d2, suites).value.ecc, p).Ok?
      && s == WithEccLists(WithHelper(d2, h), Classify(d2, suites).value.ecc, p).value
      && FinalChecks(s, Classify(d2, suites).value.certificate).Pass?
      && SameCredentialsAndSuites(d2, s)
  {
  }

  /** After a successful `build()` the options are all set, and the cipher
      suites are non-empty and supported. */
  lemma SuccessfulBuildIsComplete(o: Options, p: Platform, h: CertificateHelper)
    requires Finalize(o, p, h).outcome.Pass?
    ensures var s := Finalize(o, p, h).state;
      && Defaulted(s)
      && s.supportedCipherSuites.Some? && s.supportedSignatureAlgorithms.Some? && s.supportedGroups.Some?
      && s.supportedCipherSuites.value != [] && AllSupported(s.supportedCipherSuites.value)
  {
    SuccessUnfolded(o, p, h);
    DefaultsAreSet(o, p);
    var d1 := WithDefaults(o, p);
    var d2 := Prepared(o, p);
    assert d2 == d1.(supportedCipherSuites := d2.supportedCipherSuites,
                     supportedSignatureAlgorithms := d2.supportedSignatureAlgorithms,
                     supportedGroups := d2.supportedGroups);
    DefaultedKept(d1, d2);
    DefaultedKept(d2, Finalize(o, p, h).state);
  }

  /** The defaults do not concern the lists or the helper. */
  lemma DefaultedKept(d: Options, e: Options)
    requires Defaulted(d)
    requires e == d.(supportedCipherSuites := e.supportedCipherSuites,
                     certificateConfigurationHelper := e.certificateConfigurationHelper,
                     supportedSignatureAlgorithms := e.supportedSignatureAlgorithms,
                     supportedGroups := e.supportedGroups)
    ensures Defaulted(e)
  {
  }

  /** After a successful `build()` every PSK suite has a PSK store (with
      ECDHE support for an ECC suite), every certificate suite has its
      identity (unless client only) and, where the peer's certificate is
      checked, a verifier; and a PSK store comes with a PSK suite. */
  lemma {:induction false} SuccessfulBuildHasCredentials(o: Options, p: Platform, h: CertificateHelper)
    requires Finalize(o, p, h).outcome.Pass?
    ensures var s := Finalize(o, p, h).state;
      var suites := s.supportedCipherSuites.GetOr([]);
      && (forall i :: 0 <= i < |suites| && suites[i].IsPskBased() ==>
            s.advancedPskStore != null && (suites[i].IsEccBased() ==> s.advancedPskStore.ecdhePskSupported))
      && (forall i :: 0 <= i < |suites| && !suites[i].IsPskBased() && suites[i].RequiresServerCertificateMessage() ==>
            && (s.certificateIdentityProvider != null || IsTrue(s.clientOnly))
            && (IsTrue(s.clientOnly) || IsTrue(s.clientAuthenticationRequired) || IsTrue(s.clientAuthenticationWanted)
                ==> s.advancedCertificateVerifier != null))
      && (s.advancedPskStore != null ==> ContainsPskBasedCipherSuite(suites))
  {
    SuccessUnfolded(o, p, h);
    var d2 := Prepared(o, p);
    var suites := d2.supportedCipherSuites.GetOr([]);
    ClassifyCharacterized(d2, suites);
    assert forall i :: 0 <= i < |suites| ==> SuiteAccepted(d2, suites[i]);
  }

  /** After a successful `build()`, certificate credentials come with a
      certificate suite, HELLO_VERIFY_REQUEST without it for PSK comes with a
      PSK suite, and "recommended groups only" holds of the groups. */
  lemma {:induction false} SuccessfulBuildPassedFinalChecks(o: Options, p: Platform, h: CertificateHelper)
    requires Finalize(o, p, h).outcome.Pass?
    ensures var s := Finalize(o, p, h).state;
      var suites := s.supportedCipherSuites.GetOr([]);
      && (s.certificateIdentityProvider != null || s.advancedCertificateVerifier != null ==>
            ContainsCertificateBasedCipherSuite(suites))
      && (IsTrue(s.useHelloVerifyRequest) && !IsTrue(s.useHelloVerifyRequestForPsk) ==>
            ContainsPskBasedCipherSuite(suites))
      && (IsTrue(s.recommendedSupportedGroupsOnly) ==> AllGroupsRecommended(s.supportedGroups.GetOr([])))
  {
    SuccessUnfolded(o, p, h);
    var d2 := Prepared(o, p);
    ClassifyCharacterized(d2, d2.supportedCipherSuites.GetOr([]));
  }

  /** After a successful `build()`, an ECC suite brings non-empty signature
      algorithms and groups (given non-empty platform defaults), and without
      one both lists are empty. */
  lemma {:induction false} EccListsAfterBuild(o: Options, p: Platform, h: CertificateHelper)
    requires Finalize(o, p, h).outcome.Pass?
    ensures var s := Finalize(o, p, h).state;
      var suites := s.supportedCipherSuites.GetOr([]);
      && (ContainsEccBasedCipherSuite(suites) && p.defaultSignatureAndHashAlgorithms != [] && p.preferredGroups != [] ==>
            s.supportedSignatureAlgorithms.GetOr([]) != [] && s.supportedGroups.GetOr([]) != [])
      && (!ContainsEccBasedCipherSuite(suites) ==>
            s.supportedSignatureAlgorithms == Some([]) && s.supportedGroups == Some([]))
  {
    SuccessUnfolded(o, p, h);
    var d2 := Prepared(o, p);
    ClassifyCharacterized(d2, d2.supportedCipherSuites.GetOr([]));
  }

  // ---- copying a configuration: `builder(config)` and `build()` again ----

  /** `e` differs from `d` at most in the cipher suites, the signature
      algorithms, the groups and the helper. */
  predicate ListsAndHelperOnly(d: Options, e: Options) {
    e == d.(supportedCipherSuites := e.supportedCipherSuites,
            supportedSignatureAlgorithms := e.supportedSignatureAlgorithms,
            supportedGroups := e.supportedGroups,
            certificateConfigurationHelper := e.certificateConfigurationHelper)
  }

  /** `build()` changes nothing after the defaults except the cipher suites,
      the signature algorithms, the groups and the helper. */
  lemma BuildOnlyAddsListsAndHelper(o: Options, p: Platform, h: CertificateHelper)
    ensures ListsAndHelperOnly(WithDefaults(o, p), Finalize(o, p, h).state)
  {
    var d1 := WithDefaults(o, p);
    if !VerifierUnused(d1) {
      var d2 := Prepared(o, p);
      assert ListsAndHelperOnly(d1, d2);
      var d3 := WithHelper(d2, h);
      assert ListsAndHelperOnly(d1, d3);
      var caps := Classify(d2, d2.supportedCipherSuites.GetOr([]));
      if caps.Ok? && WithEccLists(d3, caps.value.ecc, p).Ok? {
        assert ListsAndHelperOnly(d1, WithEccLists(d3, caps.value.ecc, p).value);
      }
    }
  }

  /** As written, `clone()` drops the back-off: a configuration built with
      4 retransmissions and back-off 0, copied and built again, ends up with
      back-off 2. */
  lemma {:induction false} ClonedLosesBackOff(o: Options, p: Platform, h: CertificateHelper)
    requires o.maxRetransmissions == Some(4) && o.backOffRetransmission == Some(0)
    ensures Finalize(o, p, h).state.backOffRetransmission == Some(0)
    ensures Finalize(Cloned(Finalize(o, p, h).state), p, h).state.backOffRetransmission == Some(2)
  {
    var s := Finalize(o, p, h).state;
    BuildOnlyAddsListsAndHelper(o, p, h);
    BuildOnlyAddsListsAndHelper(Cloned(s), p, h);
    assert Cloned(s).maxRetransmissions == Some(4);
  }

  /** With every field copied, a built configuration is already complete:
      defaulting it again changes nothing, so building the copy keeps every
      option, the back-off and the "recommended signature algorithms only"
      switch included. */
  lemma {:induction false} RebuildingCopyKeepsOptions(o: Options, p: Platform, h: CertificateHelper)
    ensures var s := Finalize(o, p, h).state;
      && WithDefaults(s, p) == s
      && Finalize(s, p, h).state.backOffRetransmission == s.backOffRetransmission
      && Finalize(s, p, h).state.recommendedSignatureAndHashAlgorithmsOnly == s.recommendedSignatureAndHashAlgorithmsOnly
  {
    var s := Finalize(o, p, h).state;
    DefaultsAreSet(o, p);
    BuildOnlyAddsListsAndHelper(o, p, h);
    DefaultedKept(WithDefaults(o, p), s);
    BuildOnlyAddsListsAndHelper(s, p, h);
  }

  /** The classification loop does not read the three lists. */
  lemma {:induction false} ClassifyIgnoresLists(d: Options, e: Options, suites: seq<CipherSuite>)
    requires e == d.(supportedCipherSuites := e.supportedCipherSuites,
                     supportedSignatureAlgorithms := e.supportedSignatureAlgorithms,
                     supportedGroups := e.supportedGroups)
    ensures Classify(d, suites) == Classify(e, suites)
  {
    if suites != [] {
      ClassifyIgnoresLists(d, e, suites[..|suites| - 1]);
    }
  }

  /** A successfully built configuration is its own preparation: building
      it again sets no default, no empty list and no derived suite, and
      does not refuse its verifier. */
  lemma BuiltIsPrepared(o: Options, p: Platform, h: CertificateHelper)
    requires Finalize(o, p, h).outcome.Pass?
    ensures var s := Finalize(o, p, h).state;
      && Prepared(s, p) == s && !VerifierUnused(s)
      && s.supportedCipherSuites == Prepared(o, p).supportedCipherSuites
  {
    SuccessUnfolded(o, p, h);
    SuccessfulBuildIsComplete(o, p, h);
    RebuildingCopyKeepsOptions(o, p, h);
    BuildOnlyAddsListsAndHelper(o, p, h);
  }

  /** Building a full copy of a successfully built configuration gives the
      very same configuration, and succeeds, provided `build()` did not set
      up the certificate helper itself. */
  lemma {:induction false} RebuildingBuiltConfigurationIsIdentity(o: Options, p: Platform, h: CertificateHelper)
    requires Finalize(o, p, h).outcome.Pass?
    requires Finalize(o, p, h).state.certificateConfigurationHelper == o.certificateConfigurationHelper
    ensures Finalize(Finalize(o, p, h).state, p, h) == Built(Finalize(o, p, h).state, Pass)
  {
    var s := Finalize(o, p, h).state;
    SuccessUnfolded(o, p, h);
    BuiltIsPrepared(o, p, h);
    var d2 := Prepared(o, p);
    var suites := d2.supportedCipherSuites.GetOr([]);
    ClassifyIgnoresLists(d2, s, suites);
    var caps := Classify(d2, suites).value;
    assert WithHelper(s, h) == s;
    if caps.ecc {
      assert WithEccLists(s, true, p) == Ok(s);
    } else {
      assert WithEccLists(s, false, p) == Ok(s);
    }
  }

  /** When `build()` did set up the helper, building a full copy applies the
      key check the first build skipped: a certificate suite whose key
      algorithm the helper does not support now fails the build. */
  lemma {:induction false} RebuildChecksSetUpHelper(o: Options, p: Platform, h: CertificateHelper, i: nat)
    requires Finalize(o, p, h).outcome.Pass?
    requires Finalize(o, p, h).state.certificateConfigurationHelper != o.certificateConfigurationHelper
    requires Finalize(o, p, h).state.certificateIdentityProvider != null
    requires var suites := Finalize(o, p, h).state.supportedCipherSuites.GetOr([]);
      && i < |suites| && !suites[i].IsPskBased() && suites[i].RequiresServerCertificateMessage()
      && suites[i].certificateKeyAlgorithm !in h.supportedKeyAlgorithms
    ensures Finalize(Finalize(o, p, h).state, p, h).outcome.Fail?
  {
    var s := Finalize(o, p, h).state;
    SuccessUnfolded(o, p, h);
    BuiltIsPrepared(o, p, h);
    var suites := s.supportedCipherSuites.GetOr([]);
    assert !SuiteAccepted(s, suites[i]);
    ClassifyCharacterized(s, suites);
  }
}
