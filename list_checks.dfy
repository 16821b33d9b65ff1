/** The checks the builder runs over whole lists. The "recommended only"
    gates (`verifyRecommendedCipherSuitesOnly`,
    `verifyRecommendedSupportedGroupsOnly`,
    `verifyRecommendedSignatureAndHashAlgorithmsOnly`) walk their list, collect
    the elements that are not recommended (the source collects their names
    into the exception message) and throw when they collected any. The
    platform checks throw at the first suite that is not supported or the
    first group that is not usable. */
module ListChecks {
  import opened Wrappers
  import opened Crypto
  import opened ConfigOptions

  predicate AllCipherSuitesRecommended(suites: seq<CipherSuite>) {
    forall i :: 0 <= i < |suites| ==> suites[i].recommended
  }

  predicate AllGroupsRecommended(groups: seq<SupportedGroup>) {
    forall i :: 0 <= i < |groups| ==> groups[i].recommended
  }

  predicate AllSignatureAndHashAlgorithmsRecommended(algorithms: seq<SignatureAndHashAlgorithm>) {
    forall i :: 0 <= i < |algorithms| ==> algorithms[i].recommended
  }

  method VerifyRecommendedCipherSuitesOnly(suites: seq<CipherSuite>) returns (r: Outcome<Error>)
    ensures r.Pass? <==> AllCipherSuitesRecommended(suites)
    ensures r.Fail? ==> r.error == NotRecommendedCipherSuites
  {
    var rejected: seq<CipherSuite> := [];
    for i := 0 to |suites|
      invariant forall s :: s in rejected <==> s in suites[..i] && !s.recommended
    {
      if !suites[i].recommended {
        rejected := rejected + [suites[i]];
      }
      assert suites[..i + 1] == suites[..i] + [suites[i]];
    }
    assert suites[..|suites|] == suites;
    if |rejected| > 0 {
      assert rejected[0] in suites && !rejected[0].recommended;
      var k :| 0 <= k < |suites| && suites[k] == rejected[0];
      r := Fail(NotRecommendedCipherSuites);
    } else {
      r := Pass;
      forall i | 0 <= i < |suites| ensures suites[i].recommended {
        assert suites[i] in suites;
      }
    }
  }

  method VerifyRecommendedSupportedGroupsOnly(groups: seq<SupportedGroup>) returns (r: Outcome<Error>)
    ensures r.Pass? <==> AllGroupsRecommended(groups)
    ensures r.Fail? ==> r.error == NotRecommendedSupportedGroups
  {
    var rejected: seq<SupportedGroup> := [];
    for i := 0 to |groups|
      invariant forall g :: g in rejected <==> g in groups[..i] && !g.recommended
    {
      if !groups[i].recommended {
        rejected := rejected + [groups[i]];
      }
      assert groups[..i + 1] == groups[..i] + [groups[i]];
    }
    assert groups[..|groups|] == groups;
    if |rejected| > 0 {
      assert rejected[0] in groups && !rejected[0].recommended;
      var k :| 0 <= k < |groups| && groups[k] == rejected[0];
      r := Fail(NotRecommendedSupportedGroups);
    } else {
      r := Pass;
      forall i | 0 <= i < |groups| ensures groups[i].recommended {
        assert groups[i] in groups;
      }
    }
  }

  method VerifyRecommendedSignatureAndHashAlgorithmsOnly(algorithms: seq<SignatureAndHashAlgorithm>)
    returns (r: Outcome<Error>)
    ensures r.Pass? <==> AllSignatureAndHashAlgorithmsRecommended(algorithms)
    ensures r.Fail? ==> r.error == NotRecommendedSignatureAndHashAlgorithms
  {
    var rejected: seq<SignatureAndHashAlgorithm> := [];
    for i := 0 to |algorithms|
      invariant forall a :: a in rejected <==> a in algorithms[..i] && !a.recommended
    {
      if !algorithms[i].recommended {
        rejected := rejected + [algorithms[i]];
      }
      assert algorithms[..i + 1] == algorithms[..i] + [algorithms[i]];
    }
    assert algorithms[..|algorithms|] == algorithms;
    if |rejected| > 0 {
      assert rejected[0] in algorithms && !rejected[0].recommended;
      var k :| 0 <= k < |algorithms| && algorithms[k] == rejected[0];
      r := Fail(NotRecommendedSignatureAndHashAlgorithms);
    } else {
      r := Pass;
      forall i | 0 <= i < |algorithms| ensures algorithms[i].recommended {
        assert algorithms[i] in algorithms;
      }
    }
  }

  predicate AllSupported(suites: seq<CipherSuite>) {
    forall i :: 0 <= i < |suites| ==> suites[i].supported
  }

  predicate AllUsable(groups: seq<SupportedGroup>) {
    forall i :: 0 <= i < |groups| ==> groups[i].usable
  }

  /** The `isSupported()` loop of `setSupportedCipherSuites` and `build()`. */
  method VerifyCipherSuitesSupported(suites: seq<CipherSuite>) returns (r: Outcome<Error>)
    ensures r.Pass? <==> AllSupported(suites)
    ensures r.Fail? ==> r.error == CipherSuiteNotSupported
  {
    for i := 0 to |suites|
      invariant AllSupported(suites[..i])
    {
      if !suites[i].supported {
        return Fail(CipherSuiteNotSupported);
      }
    }
    assert suites[..|suites|] == suites;
    return Pass;
  }

  /** The `isUsable()` loop of `setSupportedGroups`. */
  method VerifyGroupsUsable(groups: seq<SupportedGroup>) returns (r: Outcome<Error>)
    ensures r.Pass? <==> AllUsable(groups)
    ensures r.Fail? ==> r.error == GroupNotUsable
  {
    for i := 0 to |groups|
      invariant AllUsable(groups[..i])
    {
      if !groups[i].usable {
        return Fail(GroupNotUsable);
      }
    }
    assert groups[..|groups|] == groups;
    return Pass;
  }
}
