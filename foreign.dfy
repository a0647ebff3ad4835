/**
 * Stand-ins for the library code the network configuration calls into:
 * crypto/rsa, crypto/x509, encoding/pem, time, avalanchego's hashing and ids
 * packages, and encoding/json applied to the genesis document. Their
 * behaviour is not visible, so each one is a total function
 * passed in as data. Deterministic calls are fields of `Library`. The
 * per-call randomness (`rand.Reader`) and wall clock (`time.Now`) are fields of `Entropy`.
 */
module Foreign {
  import opened Wrappers
  import opened GenesisDoc

  type Bytes = seq<bv8>

  /** The `error` value a library call hands back. */
  datatype LibError = LibError(message: string)

  /** A library result: the value, or the library's error. */
  type Fallible<T> = Result<T, LibError>

  /** An RSA key as `rsa.GenerateKey` returns it: the public half and the private material. */
  datatype PublicKey = PublicKey(modulus: nat, exponent: nat)
  datatype PrivateKey = PrivateKey(publicKey: PublicKey, secret: Bytes)

  /** The arguments of a `time.Date` call, in UTC (Go normalises out-of-range fields itself). */
  datatype Instant = Instant(year: int, month: int, day: int, hour: int, minute: int, second: int, nanosecond: int)

  /** x509 key-usage bits, in the order Go declares them (`1 << iota`). */
  type KeyUsage = bv32
  const KeyUsageDigitalSignature: KeyUsage := 1
  const KeyUsageKeyEncipherment: KeyUsage := 4
  const KeyUsageDataEncipherment: KeyUsage := 8

  /** The fields of the `x509.Certificate` template that the generator sets. */
  datatype CertTemplate = CertTemplate(
    serialNumber: int,
    notBefore: Instant,
    notAfter: Instant,
    keyUsage: KeyUsage,
    basicConstraintsValid: bool)

  /** A `pem.Block` without headers. */
  datatype PemBlock = PemBlock(blockType: string, bytes: Bytes)

  /** An `ids.ShortID`. */
  datatype ShortId = ShortId(bytes: Bytes)

  /** The deterministic library functions. */
  datatype Library = Library(
    // time.Time.AddDate(years, months, days)
    addDate: (Instant, int, int, int) -> Instant,
    // x509.MarshalPKCS8PrivateKey
    marshalPkcs8: PrivateKey -> Fallible<Bytes>,
    // pem.Encode into an empty bytes.Buffer: the text written, or the error
    pemEncode: PemBlock -> Fallible<string>,
    // hashing.PubkeyBytesToAddress
    pubkeyBytesToAddress: Bytes -> Bytes,
    // ids.ToShortID
    toShortId: Bytes -> Fallible<ShortId>,
    // ids.ShortID.PrefixedString(prefix)
    prefixedString: (ShortId, string) -> string,
    // constants.NodeIDPrefix
    nodeIdPrefix: string,
    // json.Unmarshal into a zero Genesis: the document it leaves behind (its error is discarded)
    unmarshalGenesis: string -> Genesis,
    // json.Marshal of a Genesis
    marshalGenesis: Genesis -> Fallible<string>)

  /** What one call of the identity generator draws from its environment. */
  datatype Entropy = Entropy(
    // rsa.GenerateKey(rand.Reader, bits)
    generateKey: nat -> Fallible<PrivateKey>,
    // x509.CreateCertificate(rand.Reader, template, parent, pub, priv): the DER bytes
    createCertificate: (CertTemplate, CertTemplate, PublicKey, PrivateKey) -> Fallible<Bytes>,
    // time.Now()
    now: Instant)
}
