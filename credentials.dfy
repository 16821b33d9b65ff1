/** The credential objects a configuration refers to. Their own code is not
    part of this model: each is an object (compared by identity, as in the
    source) whose answers to the questions the configuration asks are fixed
    when it is created. */
module Credentials {
  import opened Crypto

  /** `AdvancedPskStore`: only `hasEcdhePskSupported()` is consulted. */
  class PskStore {
    const ecdhePskSupported: bool

    constructor (ecdhePskSupported: bool)
      ensures this.ecdhePskSupported == ecdhePskSupported
    {
      this.ecdhePskSupported := ecdhePskSupported;
    }
  }

  /** `CertificateProvider`: its certificate types, and whether it is also a
      `ConfigurationHelperSetup` that fills a `CertificateConfigurationHelper`. */
  class CertificateProvider {
    const supportedCertificateTypes: seq<CertificateType>
    const isConfigurationHelperSetup: bool

    constructor (types: seq<CertificateType>, helperSetup: bool)
      ensures supportedCertificateTypes == types && isConfigurationHelperSetup == helperSetup
    {
      supportedCertificateTypes := types;
      isConfigurationHelperSetup := helperSetup;
    }
  }

  /** `NewAdvancedCertificateVerifier`: only whether it is also a
      `ConfigurationHelperSetup`. */
  class CertificateVerifier {
    const isConfigurationHelperSetup: bool

    constructor (helperSetup: bool)
      ensures isConfigurationHelperSetup == helperSetup
    {
      isConfigurationHelperSetup := helperSetup;
    }
  }

  /** `CertificateConfigurationHelper`, described by its answers:
      `getSupportedKeyAlgorithms()`, `getDefaultSignatureAndHashAlgorithms()`,
      `getDefaultSupportedGroups()`, `canBeUsedForAuthentication(true/false)`
      and whether `verifySignatureAndHashAlgorithmsConfiguration(list)` /
      `verifySupportedGroupsConfiguration(list)` accept a list. */
  class CertificateHelper {
    const supportedKeyAlgorithms: set<CertificateKeyAlgorithm>
    const defaultSignatureAndHashAlgorithms: seq<SignatureAndHashAlgorithm>
    const defaultSupportedGroups: seq<SupportedGroup>
    const usableForClients: bool
    const usableForServers: bool
    const acceptsSignatureAndHashAlgorithms: seq<SignatureAndHashAlgorithm> -> bool
    const acceptsSupportedGroups: seq<SupportedGroup> -> bool

    constructor (keyAlgorithms: set<CertificateKeyAlgorithm>,
                 signatures: seq<SignatureAndHashAlgorithm>, groups: seq<SupportedGroup>,
                 forClients: bool, forServers: bool,
                 signaturesOk: seq<SignatureAndHashAlgorithm> -> bool, groupsOk: seq<SupportedGroup> -> bool)
      ensures supportedKeyAlgorithms == keyAlgorithms
      ensures defaultSignatureAndHashAlgorithms == signatures && defaultSupportedGroups == groups
      ensures usableForClients == forClients && usableForServers == forServers
      ensures acceptsSignatureAndHashAlgorithms == signaturesOk && acceptsSupportedGroups == groupsOk
    {
      supportedKeyAlgorithms := keyAlgorithms;
      defaultSignatureAndHashAlgorithms := signatures;
      defaultSupportedGroups := groups;
      usableForClients := forClients;
      usableForServers := forServers;
      acceptsSignatureAndHashAlgorithms := signaturesOk;
      acceptsSupportedGroups := groupsOk;
    }
  }
}
