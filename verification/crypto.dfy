/**
 * The provider-level contracts: choosing and running a key exchange over a
 * named group, and the client configuration builder steps that follow
 * `WantsVerifier`.
 */
module Crypto {
  import opened Base

  // ---------------------------------------------------------------------
  // Key exchange

  /** A TLS named group, by its wire code (section 4.2.7 of RFC 8446). */
  type NamedGroup = u16

  /** A key-exchange group the backend supports; all that matters here is its name. */
  datatype SupportedGroup = SupportedGroup(name: NamedGroup)

  /** Secure randomness was not available. */
  datatype GetRandomFailed = GetRandomFailed

  datatype KeyExchangeError =
    | UnsupportedGroup
    | KeyExchangeFailed(cause: GetRandomFailed)

  /** The failure `complete` reports: a handshake failure that says nothing more. */
  datatype Error = HandshakeFailure

  /**
   * An in-progress key exchange: its group, its public key, and the backend's
   * agreement with the private key, which yields the shared secret from a peer
   * public key or fails on an unusable one.
   */
  datatype KeyExchange = KeyExchange(group: NamedGroup, pubKey: seq<u8>, agree: seq<u8> -> Result<seq<u8>, ()>) {

    /**
     * Completes the exchange: the shared secret is handed to `f` and `f`'s
     * result is returned; any failure becomes `HandshakeFailure`.
     */
    function Complete<T>(peer: seq<u8>, f: seq<u8> -> Result<T, ()>): (r: Result<T, Error>)
      ensures r.Ok? <==> agree(peer).Ok? && f(agree(peer).value).Ok?
      ensures r.Ok? ==> r.value == f(agree(peer).value).value
    {
      match agree(peer)
      case Err(_) => Err(HandshakeFailure)
      case Ok(secret) =>
        match f(secret)
        case Ok(t) => Ok(t)
        case Err(_) => Err(HandshakeFailure)
    }
  }

  /** The position of the first group in `supported` named `name`, if any. */
  function FindGroup(name: NamedGroup, supported: seq<SupportedGroup>): (r: Option<nat>)
    ensures r.None? <==> forall i | 0 <= i < |supported| :: supported[i].name != name
    ensures r.Some? ==> r.value < |supported| && supported[r.value].name == name
    ensures r.Some? ==> forall j | 0 <= j < r.value :: supported[j].name != name
  {
    if supported == [] then None
    else if supported[0].name == name then Some(0)
    else match FindGroup(name, supported[1..])
      case None => None
      case Some(i) => Some(i + 1)
  }

  /** `start`'s outcome as `choose` reports it: a randomness failure is wrapped. */
  function Started(s: Result<KeyExchange, GetRandomFailed>): Result<KeyExchange, KeyExchangeError> {
    match s
    case Ok(kx) => Ok(kx)
    case Err(e) => Err(KeyExchangeFailed(e))
  }

  /** `start` runs the exchange in the group it was given, whenever it succeeds. */
  ghost predicate StartsInGroup(start: SupportedGroup -> Result<KeyExchange, GetRandomFailed>) {
    forall g :: start(g).Ok? ==> start(g).value.group == g.name
  }

  /**
   * `choose`: starts a key exchange in the supported group named `name`, or
   * reports that no supported group has that name. `start` is the backend's
   * key generation, which draws on randomness and may fail.
   */
  function Choose(name: NamedGroup, supported: seq<SupportedGroup>,
                  start: SupportedGroup -> Result<KeyExchange, GetRandomFailed>): (r: Result<KeyExchange, KeyExchangeError>)
    ensures r == Err(UnsupportedGroup) <==> forall g | g in supported :: g.name != name
    ensures forall i | 0 <= i < |supported| && supported[i].name == name
                       && (forall j | 0 <= j < i :: supported[j].name != name) ::
              r == Started(start(supported[i]))
    ensures r.Err? && r.error.KeyExchangeFailed? ==> exists g | g in supported :: g.name == name && start(g).Err?
    ensures StartsInGroup(start) && r.Ok? ==> r.value.group == name
  {
    match FindGroup(name, supported)
    case None => Err(UnsupportedGroup)
    case Some(i) => Started(start(supported[i]))
  }

  // ---------------------------------------------------------------------
  // Client configuration builder

  /** A cipher suite, by its wire code. */
  datatype SupportedCipherSuite = SupportedCipherSuite(suite: u16)

  /** The protocol versions enabled. */
  datatype EnabledVersions = EnabledVersions(tls12: bool, tls13: bool)

  /** A shared server-certificate verifier object, identified by its handle. */
  datatype ServerCertVerifier = ServerCertVerifier(handle: nat)

  /** The client-certificate resolver: the one that always declines, or a caller's own. */
  datatype ResolvesClientCert = FailResolveClientCert | CustomResolver(handle: nat)

  /** Session resumption settings: the default, or a caller's own. */
  datatype Resumption = DefaultResumption | CustomResumption(handle: nat)

  /** Where key material is logged: nowhere, or a caller's own log. */
  datatype KeyLog = NoKeyLog | CustomKeyLog(handle: nat)

  /** Builder state before a certificate verifier is chosen. */
  datatype WantsVerifier = WantsVerifier(
    cipherSuites: seq<SupportedCipherSuite>,
    kxGroups: seq<SupportedGroup>,
    versions: EnabledVersions)

  /** Builder state before the client-authentication policy is chosen. */
  datatype WantsClientCert = WantsClientCert(
    cipherSuites: seq<SupportedCipherSuite>,
    kxGroups: seq<SupportedGroup>,
    versions: EnabledVersions,
    verifier: ServerCertVerifier)

  datatype ClientConfig = ClientConfig(
    cipherSuites: seq<SupportedCipherSuite>,
    kxGroups: seq<SupportedGroup>,
    alpnProtocols: seq<seq<u8>>,
    resumption: Resumption,
    maxFragmentSize: Option<nat>,
    clientAuthCertResolver: ResolvesClientCert,
    versions: EnabledVersions,
    enableSni: bool,
    verifier: ServerCertVerifier,
    keyLog: KeyLog,
    enableSecretExtraction: bool,
    enableEarlyData: bool)

  /** The settings every freshly built client configuration starts with. */
  predicate HasClientDefaults(c: ClientConfig) {
    && c.alpnProtocols == []
    && c.resumption == DefaultResumption
    && c.maxFragmentSize == None
    && c.enableSni
    && c.keyLog == NoKeyLog
    && !c.enableSecretExtraction
    && !c.enableEarlyData
  }

  /** `WantsVerifier -> WantsClientCert`: installs `verifier`, keeps everything chosen so far. */
  function WithCustomCertificateVerifier(b: WantsVerifier, verifier: ServerCertVerifier): (r: WantsClientCert)
    ensures r.cipherSuites == b.cipherSuites && r.kxGroups == b.kxGroups && r.versions == b.versions
    ensures r.verifier == verifier
  {
    WantsClientCert(b.cipherSuites, b.kxGroups, b.versions, verifier)
  }

  /** `WantsClientCert -> ClientConfig` with the given resolver and the client defaults. */
  function WithClientCertResolver(b: WantsClientCert, resolver: ResolvesClientCert): (c: ClientConfig)
    ensures c.cipherSuites == b.cipherSuites && c.kxGroups == b.kxGroups && c.versions == b.versions
    ensures c.verifier == b.verifier && c.clientAuthCertResolver == resolver
    ensures HasClientDefaults(c)
  {
    ClientConfig(
      cipherSuites := b.cipherSuites,
      kxGroups := b.kxGroups,
      alpnProtocols := [],
      resumption := DefaultResumption,
      maxFragmentSize := None,
      clientAuthCertResolver := resolver,
      versions := b.versions,
      enableSni := true,
      verifier := b.verifier,
      keyLog := NoKeyLog,
      enableSecretExtraction := false,
      enableEarlyData := false)
  }

  /** `WantsClientCert -> ClientConfig` with the resolver that never offers a certificate. */
  function WithNoClientAuth(b: WantsClientCert): (c: ClientConfig)
    ensures c == WithClientCertResolver(b, FailResolveClientCert)
    ensures c.clientAuthCertResolver == FailResolveClientCert
  {
    WithClientCertResolver(b, FailResolveClientCert)
  }

  /**
   * The whole continuation: a configuration reached from `WantsVerifier`
   * carries that state's suites, groups and versions, the verifier supplied
   * on the way, the chosen resolver and the client defaults; and two
   * configurations built this way are equal exactly when their inputs are.
   */
  lemma ClientConfigFromWantsVerifier(w: WantsVerifier, v: ServerCertVerifier, resolver: ResolvesClientCert,
                                      w': WantsVerifier, v': ServerCertVerifier, resolver': ResolvesClientCert)
    ensures var c := WithClientCertResolver(WithCustomCertificateVerifier(w, v), resolver);
            && c.cipherSuites == w.cipherSuites && c.kxGroups == w.kxGroups && c.versions == w.versions
            && c.verifier == v && c.clientAuthCertResolver == resolver && HasClientDefaults(c)
    ensures WithClientCertResolver(WithCustomCertificateVerifier(w, v), resolver)
              == WithClientCertResolver(WithCustomCertificateVerifier(w', v'), resolver')
            <==> w == w' && v == v' && resolver == resolver'
  {
  }
}
