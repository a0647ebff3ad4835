/**
 * The test-network bootstrap of the operator's common controller package.
 * `NewCertKeyIdString` makes one node identity: an RSA key, a self-signed
 * certificate and a node ID derived from that certificate. `NewNetwork`
 * makes `networkSize` identities and registers each one as an initial staker
 * of a genesis document decoded from a template.
 *
 * Each of the two methods is proved against a specification function
 * (`Generate`, `Assembled`). The lemmas below state what those functions
 * promise.
 */
module NetworkConfig {
  import opened Wrappers
  import opened Foreign
  import opened GenesisDoc

  /** One node's PEM certificate, PEM private key and prefixed node ID. */
  datatype KeyPair = KeyPair(cert: string, key: string, id: string)

  /** The serialised genesis document and the key pairs, in generation order. */
  datatype Network = Network(genesis: string, keyPairs: seq<KeyPair>)

  const RsaBits: nat := 4096
  const DelegationFee: nat := 5000
  /** The allocation whose address receives every staker's rewards. */
  const RewardAllocation: nat := 1
  const CertificateBlockType: string := "CERTIFICATE"
  const PrivateKeyBlockType: string := "RSA PRIVATE KEY"

  // ---------------------------------------------------------------------
  // Identity generation
  // ---------------------------------------------------------------------

  /** The fallible library calls of the generator, in the order it makes them. */
  datatype Stage =
    | KeyGeneration
    | CertificateCreation
    | CertificateEncoding
    | KeyMarshalling
    | KeyEncoding
    | IdDerivation

  const Stages: seq<Stage> :=
    [KeyGeneration, CertificateCreation, CertificateEncoding, KeyMarshalling, KeyEncoding, IdDerivation]

  /** The text each stage puts in front of the library's error when it wraps it. */
  function Context(s: Stage): string {
    match s
    case KeyGeneration => "couldn't generate rsa key"
    case CertificateCreation => "couldn't create certificate"
    case CertificateEncoding => "couldn't write cert file"
    case KeyMarshalling => "couldn't marshal private key"
    case KeyEncoding => "couldn't write private key"
    case IdDerivation => "problem deriving node ID from certificate"
  }

  /** The error the generator returns: the failing stage and the wrapped library error. */
  datatype GenError = GenError(stage: Stage, cause: LibError) {
    /** The error text, as `fmt.Errorf("<context>: %w", cause)` renders it. */
    function Message(): string {
      Context(stage) + ": " + cause.message
    }
  }

  /** Characters 0, 9 and 15 of a stage's context text. */
  function ContextKey(s: Stage): (char, char, char)
    requires |Context(s)| > 15
  {
    (Context(s)[0], Context(s)[9], Context(s)[15])
  }

  /** The six context texts differ in characters 0, 9 or 15. */
  lemma ContextKeyInjective(s1: Stage, s2: Stage)
    ensures |Context(s1)| > 15 && |Context(s2)| > 15
    ensures ContextKey(s1) == ContextKey(s2) ==> s1 == s2
  {
  }

  /** The error text tells which stage failed and keeps the library's message. */
  lemma MessageIdentifiesError(e1: GenError, e2: GenError)
    requires e1.Message() == e2.Message()
    ensures e1 == e2
  {
    var m := e1.Message();
    ContextKeyInjective(e1.stage, e2.stage);
    assert ContextKey(e1.stage) == (m[0], m[9], m[15]) == ContextKey(e2.stage);
    assert m[|Context(e1.stage)| + 2..] == e1.cause.message;
    assert m[|Context(e2.stage)| + 2..] == e2.cause.message;
  }

  /** The certificate template: serial 0, valid from `time.Date(2020, January, 0)` (Go reads day 0 as
      31 December 2019) until 100 years after `now`, for signatures and key and data encipherment. */
  function StakingTemplate(lib: Library, now: Instant): CertTemplate {
    CertTemplate(
      serialNumber := 0,
      notBefore := Instant(2020, 1, 0, 0, 0, 0, 0),
      notAfter := lib.addDate(now, 100, 0, 0),
      keyUsage := KeyUsageKeyEncipherment | KeyUsageDigitalSignature | KeyUsageDataEncipherment,
      basicConstraintsValid := true)
  }

  /** The first two stages: a 4096-bit key and the DER certificate it signs for itself. */
  function Certified(lib: Library, e: Entropy): Result<(PrivateKey, Bytes), GenError> {
    match e.generateKey(RsaBits)
    case Failure(c) => Failure(GenError(KeyGeneration, c))
    case Success(key) =>
      var template := StakingTemplate(lib, e.now);
      match e.createCertificate(template, template, key.publicKey, key)
      case Failure(c) => Failure(GenError(CertificateCreation, c))
      case Success(der) => Success((key, der))
  }

  /** The node ID of a DER certificate: its address hash as a short ID, with the node prefix. */
  function NodeId(lib: Library, certBytes: Bytes): Fallible<string> {
    match lib.toShortId(lib.pubkeyBytesToAddress(certBytes))
    case Failure(c) => Failure(c)
    case Success(short) => Success(lib.prefixedString(short, lib.nodeIdPrefix))
  }

  /** What one call of the generator returns: the first failure, or the key pair's three strings. */
  function Generate(lib: Library, e: Entropy): Result<KeyPair, GenError> {
    match Certified(lib, e)
    case Failure(err) => Failure(err)
    case Success((key, der)) =>
      match lib.pemEncode(PemBlock(CertificateBlockType, der))
      case Failure(c) => Failure(GenError(CertificateEncoding, c))
      case Success(certPem) =>
        match lib.marshalPkcs8(key)
        case Failure(c) => Failure(GenError(KeyMarshalling, c))
        case Success(privBytes) =>
          match lib.pemEncode(PemBlock(PrivateKeyBlockType, privBytes))
          case Failure(c) => Failure(GenError(KeyEncoding, c))
          case Success(keyPem) =>
            match NodeId(lib, der)
            case Failure(c) => Failure(GenError(IdDerivation, c))
            case Success(id) => Success(KeyPair(certPem, keyPem, id))
  }

  /** A successful generation made all three strings from one key and one certificate,
      and the node ID was computed from the certificate's DER bytes. */
  lemma GeneratedIdentity(lib: Library, e: Entropy)
    requires Generate(lib, e).Success?
    ensures Certified(lib, e).Success?
    ensures var (key, der) := Certified(lib, e).value;
            var kp := Generate(lib, e).value;
            && lib.pemEncode(PemBlock(CertificateBlockType, der)) == Success(kp.cert)
            && lib.marshalPkcs8(key).Success?
            && lib.pemEncode(PemBlock(PrivateKeyBlockType, lib.marshalPkcs8(key).value)) == Success(kp.key)
            && NodeId(lib, der) == Success(kp.id)
  {
  }

  /**
   * A failure is reported at the first stage whose library call failed: for
   * each stage, the failure names it exactly when every earlier call succeeded
   * and its own call failed. The reported cause is that call's error.
   */
  lemma FailureStage(lib: Library, e: Entropy)
    requires Generate(lib, e).Failure?
    ensures var err := Generate(lib, e).error;
            var s := err.stage;
            var template := StakingTemplate(lib, e.now);
            && (s == KeyGeneration <==> e.generateKey(RsaBits).Failure?)
            && (s == KeyGeneration ==> err.cause == e.generateKey(RsaBits).error)
            && (s == CertificateCreation <==>
                  && e.generateKey(RsaBits).Success?
                  && var key := e.generateKey(RsaBits).value;
                     e.createCertificate(template, template, key.publicKey, key).Failure?)
            && (s == CertificateCreation ==>
                  var key := e.generateKey(RsaBits).value;
                  err.cause == e.createCertificate(template, template, key.publicKey, key).error)
            && (s == CertificateEncoding <==>
                  && Certified(lib, e).Success?
                  && lib.pemEncode(PemBlock(CertificateBlockType, Certified(lib, e).value.1)).Failure?)
            && (s == CertificateEncoding ==>
                  err.cause == lib.pemEncode(PemBlock(CertificateBlockType, Certified(lib, e).value.1)).error)
            && (s == KeyMarshalling <==>
                  && Certified(lib, e).Success?
                  && lib.pemEncode(PemBlock(CertificateBlockType, Certified(lib, e).value.1)).Success?
                  && lib.marshalPkcs8(Certified(lib, e).value.0).Failure?)
            && (s == KeyMarshalling ==> err.cause == lib.marshalPkcs8(Certified(lib, e).value.0).error)
            && (s == KeyEncoding <==>
                  && Certified(lib, e).Success?
                  && lib.pemEncode(PemBlock(CertificateBlockType, Certified(lib, e).value.1)).Success?
                  && lib.marshalPkcs8(Certified(lib, e).value.0).Success?
                  && lib.pemEncode(PemBlock(PrivateKeyBlockType, lib.marshalPkcs8(Certified(lib, e).value.0).value)).Failure?)
            && (s == KeyEncoding ==>
                  err.cause == lib.pemEncode(PemBlock(PrivateKeyBlockType, lib.marshalPkcs8(Certified(lib, e).value.0).value)).error)
            && (s == IdDerivation <==>
                  && Certified(lib, e).Success?
                  && lib.pemEncode(PemBlock(CertificateBlockType, Certified(lib, e).value.1)).Success?
                  && lib.marshalPkcs8(Certified(lib, e).value.0).Success?
                  && lib.pemEncode(PemBlock(PrivateKeyBlockType, lib.marshalPkcs8(Certified(lib, e).value.0).value)).Success?
                  && NodeId(lib, Certified(lib, e).value.1).Failure?)
            && (s == IdDerivation ==> err.cause == NodeId(lib, Certified(lib, e).value.1).error)
  {
  }

  /** Two generations whose certificates have the same DER bytes get the same node ID. */
  lemma NodeIdDependsOnlyOnCertificate(lib: Library, e1: Entropy, e2: Entropy)
    requires Generate(lib, e1).Success? && Generate(lib, e2).Success?
    requires Certified(lib, e1).value.1 == Certified(lib, e2).value.1
    ensures Generate(lib, e1).value.id == Generate(lib, e2).value.id
  {
  }

  /** A `bytes.Buffer` that the generator only writes to. */
  class Buffer {
    var contents: string

    constructor ()
      ensures contents == []
    {
      contents := [];
    }

    method WriteString(s: string)
      modifies this
      ensures contents == old(contents) + s
    {
      contents := contents + s;
    }
  }

  /**
   * The generator's six fallible library calls, one method per call site. Each
   * returns the library's answer and appends its stage to `log`, so `log` is
   * the sequence of calls that were actually made.
   */
  class LibraryCalls {
    const lib: Library
    const e: Entropy
    ghost var log: seq<Stage>

    constructor (lib: Library, e: Entropy)
      ensures this.lib == lib && this.e == e && log == []
    {
      this.lib := lib;
      this.e := e;
      log := [];
    }

    method GenerateKey(bits: nat) returns (r: Fallible<PrivateKey>)
      modifies this
      ensures r == e.generateKey(bits) && log == old(log) + [KeyGeneration]
    {
      r := e.generateKey(bits);
      log := log + [KeyGeneration];
    }

    method CreateCertificate(template: CertTemplate, parent: CertTemplate, pub: PublicKey, priv: PrivateKey)
      returns (r: Fallible<Bytes>)
      modifies this
      ensures r == e.createCertificate(template, parent, pub, priv) && log == old(log) + [CertificateCreation]
    {
      r := e.createCertificate(template, parent, pub, priv);
      log := log + [CertificateCreation];
    }

    method EncodeCertificate(certBytes: Bytes) returns (r: Fallible<string>)
      modifies this
      ensures r == lib.pemEncode(PemBlock(CertificateBlockType, certBytes)) && log == old(log) + [CertificateEncoding]
    {
      r := lib.pemEncode(PemBlock(CertificateBlockType, certBytes));
      log := log + [CertificateEncoding];
    }

    method MarshalPkcs8(key: PrivateKey) returns (r: Fallible<Bytes>)
      modifies this
      ensures r == lib.marshalPkcs8(key) && log == old(log) + [KeyMarshalling]
    {
      r := lib.marshalPkcs8(key);
      log := log + [KeyMarshalling];
    }

    method EncodeKey(privBytes: Bytes) returns (r: Fallible<string>)
      modifies this
      ensures r == lib.pemEncode(PemBlock(PrivateKeyBlockType, privBytes)) && log == old(log) + [KeyEncoding]
    {
      r := lib.pemEncode(PemBlock(PrivateKeyBlockType, privBytes));
      log := log + [KeyEncoding];
    }

    method ToShortId(address: Bytes) returns (r: Fallible<ShortId>)
      modifies this
      ensures r == lib.toShortId(address) && log == old(log) + [IdDerivation]
    {
      r := lib.toShortId(address);
      log := log + [IdDerivation];
    }
  }

  /**
   * One identity. Each stage's failure returns three empty strings and the
   * wrapped error at once. `ran` is what the call appends to `calls.log`: a
   * prefix of `Stages` that ends at the failing stage, or all of them.
   */
  method NewCertKeyIdString(lib: Library, e: Entropy, calls: LibraryCalls)
    returns (cert: string, key: string, id: string, err: Option<GenError>, ghost ran: seq<Stage>)
    requires calls.lib == lib && calls.e == e
    modifies calls
    ensures calls.log == old(calls.log) + ran
    ensures 0 < |ran| <= |Stages| && ran == Stages[..|ran|]
    ensures err.None? ==> ran == Stages && Generate(lib, e) == Success(KeyPair(cert, key, id))
    ensures err.Some? ==> && ran[|ran| - 1] == err.value.stage
                          && Generate(lib, e) == Failure(err.value)
                          && cert == "" && key == "" && id == ""
  {
    cert, key, id, err := "", "", "", None;
    ghost var log0 := calls.log;

    var rsaKey := calls.GenerateKey(RsaBits);
    assert calls.log == log0 + Stages[..1];
    if rsaKey.Failure? {
      err, ran := Some(GenError(KeyGeneration, rsaKey.error)), calls.log[|log0|..];
      return;
    }

    var template := StakingTemplate(lib, e.now);
    var certBytes := calls.CreateCertificate(template, template, rsaKey.value.publicKey, rsaKey.value);
    assert calls.log == log0 + Stages[..2];
    if certBytes.Failure? {
      err, ran := Some(GenError(CertificateCreation, certBytes.error)), calls.log[|log0|..];
      return;
    }

    var certBuff := new Buffer();
    var certPem := calls.EncodeCertificate(certBytes.value);
    assert calls.log == log0 + Stages[..3];
    if certPem.Failure? {
      err, ran := Some(GenError(CertificateEncoding, certPem.error)), calls.log[|log0|..];
      return;
    }
    certBuff.WriteString(certPem.value);

    var privBytes := calls.MarshalPkcs8(rsaKey.value);
    assert calls.log == log0 + Stages[..4];
    if privBytes.Failure? {
      err, ran := Some(GenError(KeyMarshalling, privBytes.error)), calls.log[|log0|..];
      return;
    }

    var keyBuff := new Buffer();
    var keyPem := calls.EncodeKey(privBytes.value);
    assert calls.log == log0 + Stages[..5];
    if keyPem.Failure? {
      err, ran := Some(GenError(KeyEncoding, keyPem.error)), calls.log[|log0|..];
      return;
    }
    keyBuff.WriteString(keyPem.value);

    var shortId := calls.ToShortId(lib.pubkeyBytesToAddress(certBytes.value));
    assert calls.log == log0 + Stages[..6];
    if shortId.Failure? {
      err, ran := Some(GenError(IdDerivation, shortId.error)), calls.log[|log0|..];
      return;
    }
    var fullId := lib.prefixedString(shortId.value, lib.nodeIdPrefix);
    assert Certified(lib, e) == Success((rsaKey.value, certBytes.value));
    assert NodeId(lib, certBytes.value) == Success(fullId);
    assert certBuff.contents == certPem.value && keyBuff.contents == keyPem.value;

    cert, key, id, ran := certBuff.contents, keyBuff.contents, fullId, calls.log[|log0|..];
  }

  // ---------------------------------------------------------------------
  // Network assembly
  // ---------------------------------------------------------------------

  /** The key pair an iteration appends: its error is dropped, leaving empty strings. */
  function KeyPairOf(r: Result<KeyPair, GenError>): KeyPair {
    match r
    case Success(kp) => kp
    case Failure(_) => KeyPair("", "", "")
  }

  /** How many times `for i := 0; i < networkSize; i++` runs. */
  function Iterations(networkSize: int): nat {
    if networkSize > 0 then networkSize else 0
  }

  /** The key pairs of the first `k` iterations; iteration `i` draws `draws(i)`. */
  function KeyPairs(lib: Library, draws: nat -> Entropy, k: nat): (kps: seq<KeyPair>)
    ensures |kps| == k
  {
    if k == 0 then [] else KeyPairs(lib, draws, k - 1) + [KeyPairOf(Generate(lib, draws(k - 1)))]
  }

  /** The address of allocation 1, the reward address of every new staker. */
  function RewardAddress(g: Genesis): string
    requires |g.allocations| > RewardAllocation
  {
    g.allocations[RewardAllocation].avaxAddr
  }

  /** The staker entry appended for one key pair. */
  function StakerFor(kp: KeyPair, reward: string): InitialStaker {
    InitialStaker(kp.id, reward, DelegationFee)
  }

  /** The staker entries appended for `kps`, one per key pair, in the same order. */
  function Stakers(kps: seq<KeyPair>, reward: string): (s: seq<InitialStaker>)
    ensures |s| == |kps|
  {
    if kps == [] then [] else Stakers(kps[..|kps| - 1], reward) + [StakerFor(kps[|kps| - 1], reward)]
  }

  /** The template once the loop has appended a staker for each of `kps`.
      Allocation 1 is read only when the loop body runs. */
  function WithStakers(template: Genesis, kps: seq<KeyPair>): Genesis
    requires kps != [] ==> |template.allocations| > RewardAllocation
  {
    if kps == [] then template
    else template.(initialStakers := template.initialStakers + Stakers(kps, RewardAddress(template)))
  }

  /** One more iteration appends one more staker and changes nothing else. */
  lemma WithStakersAppend(template: Genesis, kps: seq<KeyPair>, kp: KeyPair)
    requires |template.allocations| > RewardAllocation
    ensures WithStakers(template, kps + [kp])
         == WithStakers(template, kps).(initialStakers := WithStakers(template, kps).initialStakers
                                                           + [StakerFor(kp, RewardAddress(template))])
  {
  }

  /** `string(data)` for `data, _ := json.Marshal(g)`: a failed marshal leaves `data` nil. */
  function Serialize(lib: Library, g: Genesis): string {
    match lib.marshalGenesis(g)
    case Success(text) => text
    case Failure(_) => ""
  }

  /** Indexing allocation 1 from a shorter table panics, and the loop reads it once it runs at all. */
  predicate TemplateFits(lib: Library, genesisJson: string, networkSize: int) {
    networkSize > 0 ==> |lib.unmarshalGenesis(genesisJson).allocations| > RewardAllocation
  }

  /** The network `NewNetwork` returns. */
  function Assembled(lib: Library, draws: nat -> Entropy, genesisJson: string, networkSize: int): Network
    requires TemplateFits(lib, genesisJson, networkSize)
  {
    var kps := KeyPairs(lib, draws, Iterations(networkSize));
    Network(Serialize(lib, WithStakers(lib.unmarshalGenesis(genesisJson), kps)), kps)
  }

  /**
   * Decodes the template, runs the generator `networkSize` times, and appends
   * each result to both lists. Generation errors are dropped. Then it
   * serialises the document.
   */
  method NewNetwork(lib: Library, draws: nat -> Entropy, genesisJson: string, networkSize: int)
    returns (n: Network)
    requires TemplateFits(lib, genesisJson, networkSize)
    ensures n == Assembled(lib, draws, genesisJson, networkSize)
  {
    n := Network("", []);
    var g := lib.unmarshalGenesis(genesisJson);
    ghost var template := g;
    var i := 0;
    while i < networkSize
      invariant 0 <= i <= Iterations(networkSize)
      invariant n == Network("", KeyPairs(lib, draws, i))
      invariant g == WithStakers(template, n.keyPairs)
    {
      var calls := new LibraryCalls(lib, draws(i));
      var cert, key, id, err, ran := NewCertKeyIdString(lib, draws(i), calls);
      assert KeyPair(cert, key, id) == KeyPairOf(Generate(lib, draws(i)));
      WithStakersAppend(template, n.keyPairs, KeyPair(cert, key, id));
      n := n.(keyPairs := n.keyPairs + [KeyPair(cert, key, id)]);
      g := g.(initialStakers := g.initialStakers + [InitialStaker(id, g.allocations[RewardAllocation].avaxAddr, DelegationFee)]);
      i := i + 1;
    }
    n := n.(genesis := Serialize(lib, g));
  }

  // ---------------------------------------------------------------------
  // Properties of the assembled network
  // ---------------------------------------------------------------------

  /** Iteration `i` contributes the `i`-th key pair. */
  lemma {:induction false} KeyPairsAt(lib: Library, draws: nat -> Entropy, k: nat, i: nat)
    requires i < k
    ensures KeyPairs(lib, draws, k)[i] == KeyPairOf(Generate(lib, draws(i)))
  {
    if i < k - 1 {
      KeyPairsAt(lib, draws, k - 1, i);
    }
  }

  /** The `i`-th appended staker belongs to the `i`-th key pair. */
  lemma {:induction false} StakersAt(kps: seq<KeyPair>, reward: string, i: nat)
    requires i < |kps|
    ensures Stakers(kps, reward)[i] == InitialStaker(kps[i].id, reward, DelegationFee)
  {
    if i < |kps| - 1 {
      StakersAt(kps[..|kps| - 1], reward, i);
    }
  }

  /** One key pair per requested node; none for a zero or negative count. */
  lemma KeyPairCount(lib: Library, draws: nat -> Entropy, genesisJson: string, networkSize: int)
    requires TemplateFits(lib, genesisJson, networkSize)
    ensures |Assembled(lib, draws, genesisJson, networkSize).keyPairs| == Iterations(networkSize)
    ensures networkSize <= 0 ==>
              Assembled(lib, draws, genesisJson, networkSize)
                == Network(Serialize(lib, lib.unmarshalGenesis(genesisJson)), [])
  {
  }

  /** Key pairs come in generation order, and a failed generation leaves an empty key pair. */
  lemma KeyPairsInGenerationOrder(lib: Library, draws: nat -> Entropy, genesisJson: string, networkSize: int, i: nat)
    requires TemplateFits(lib, genesisJson, networkSize)
    requires i < networkSize
    ensures Assembled(lib, draws, genesisJson, networkSize).keyPairs[i] == KeyPairOf(Generate(lib, draws(i)))
    ensures Generate(lib, draws(i)).Failure? ==>
              Assembled(lib, draws, genesisJson, networkSize).keyPairs[i] == KeyPair("", "", "")
  {
    KeyPairsAt(lib, draws, networkSize, i);
  }

  /**
   * The serialised document is the template with the staker list extended by
   * one entry per key pair. The template's own stakers stay as a prefix, and
   * allocations and all other fields stay the same.
   */
  lemma GenesisExtendsTemplate(lib: Library, draws: nat -> Entropy, genesisJson: string, networkSize: int)
    requires TemplateFits(lib, genesisJson, networkSize)
    ensures var template := lib.unmarshalGenesis(genesisJson);
            var n := Assembled(lib, draws, genesisJson, networkSize);
            var doc := WithStakers(template, n.keyPairs);
            && n.genesis == Serialize(lib, doc)
            && |doc.initialStakers| == |template.initialStakers| + Iterations(networkSize)
            && doc.initialStakers[..|template.initialStakers|] == template.initialStakers
            && doc.allocations == template.allocations
            && doc.otherFields == template.otherFields
  {
  }

  /**
   * Staker `base + i` of the document has the node ID of key pair `i`, the fee
   * 5000 and the address of allocation 1. For a failed generation that node ID
   * is empty.
   */
  lemma StakersMatchKeyPairs(lib: Library, draws: nat -> Entropy, genesisJson: string, networkSize: int, i: nat)
    requires TemplateFits(lib, genesisJson, networkSize)
    requires i < networkSize
    ensures var template := lib.unmarshalGenesis(genesisJson);
            var n := Assembled(lib, draws, genesisJson, networkSize);
            var doc := WithStakers(template, n.keyPairs);
            var base := |template.initialStakers|;
            && base + i < |doc.initialStakers|
            && doc.initialStakers[base + i]
                 == InitialStaker(n.keyPairs[i].id, template.allocations[RewardAllocation].avaxAddr, DelegationFee)
            && (Generate(lib, draws(i)).Failure? ==> doc.initialStakers[base + i].nodeId == "")
  {
    var template := lib.unmarshalGenesis(genesisJson);
    var kps := Assembled(lib, draws, genesisJson, networkSize).keyPairs;
    StakersAt(kps, RewardAddress(template), i);
    KeyPairsAt(lib, draws, networkSize, i);
  }
}
