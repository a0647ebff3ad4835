# Test-network bootstrap of the operator's common controllers

This project models `controllers/common/network_config.go`, the code that
builds the bootstrap material for a local test network:

- `newCertKeyIdString` makes one node identity. It generates a 4096-bit RSA
  key and a self-signed x509 certificate, PEM-encodes the certificate and the
  PKCS#8 private key, and derives the node ID from the certificate's DER
  bytes. Any failing library call returns three empty strings and a wrapped
  error straight away.
- `NewNetwork` decodes the genesis template and calls the generator
  `networkSize` times. Each call appends a `KeyPair` to the network and an
  initial staker to the genesis document. The staker has the new node ID, the
  address of allocation 1 and a delegation fee of 5000. The function then
  serialises the document.

Files:

- `wrappers.dfy`: `Option` and `Result`.
- `genesis.dfy`: the genesis document. Only the allocation list and the
  staker list are named fields.
- `foreign.dfy`: stand-ins for the library calls. `Library` holds the
  deterministic functions (PEM, PKCS#8, address hashing, short IDs, ID
  prefixing, `AddDate`, JSON decode and encode of the genesis document).
  `Entropy` holds what one generator call draws from its environment: the
  key-generation and certificate-signing outcomes for this call's randomness,
  and the current time.
- `network_config.dfy`: the core.
  - `NewCertKeyIdString` is a method with the source's early returns, its
    two buffers (`Buffer`) and its six fallible library calls (`LibraryCalls`).
    It is proved against the specification function `Generate`.
  - `NewNetwork` is a method with the source's loop. It is proved against
    `Assembled`.
  - The lemmas about `Generate` and `Assembled` state the properties.

Design decisions:

- Iteration `i` of the loop draws `draws(i)`. Every call therefore gets its
  own randomness and clock reading.
- The generator makes its six fallible library calls through a
  `LibraryCalls` object that the caller passes in. `NewNetwork` creates a
  fresh one for each iteration. Each of the object's methods returns the
  library's answer and appends that call's stage to a ghost `log`. The
  generator's contract says that `calls.log` grows by exactly its ghost
  out-parameter `ran`. So its statement that `ran` stops at the failing stage
  is about the calls that were actually made.
- `StakingTemplate` is the certificate template of lines 78-84. It has serial
  number 0. Not-before is the literal date `time.Date(2020, January, 0)`.
  Not-after is `addDate(now, 100, 0, 0)`. The key-usage bits are
  key encipherment, digital signature and data encipherment (1 | 4 | 8). Basic
  constraints are marked valid.
- `Serialize` is `string(data)` for `data, _ := json.Marshal(g)` at lines
  61-62. A failed marshal leaves `data` nil, so the genesis string is empty.
- Indexing `g.Allocations[1]` from a table with fewer than two entries panics
  in Go. The model turns this into the requirement `TemplateFits`: when the
  loop body runs, the decoded template has at least two allocations.

Generation errors are not propagated. The code drops them
(`cert, key, id, _ :=`) and keeps going, so a failed iteration appends an
empty key pair and a staker with an empty node ID. `KeyPairsInGenerationOrder`
and `StakersMatchKeyPairs` state this behaviour.

## Model

| member | source | states |
|---|---|---|
| NetworkConfig.NewCertKeyIdString | controllers/common/network_config.go:70-112 | The call object's log grows by exactly `ran`, the calls made. `ran` is a prefix of the six stages, in source order. On success all six ran and the three strings are those of `Generate`. On failure the last call made is the failing stage, all three strings are empty, and the error is the one `Generate` gives. |
| NetworkConfig.GeneratedIdentity | controllers/common/network_config.go:85-111 | A successful generation returns the "CERTIFICATE" PEM encoding of the certificate DER. The private key is the "RSA PRIVATE KEY" PEM encoding of the key's PKCS#8 bytes. The ID is the prefixed short ID of the address hash of the same certificate DER. |
| NetworkConfig.FailureStage | controllers/common/network_config.go:72-108 | For each of the six stages, a failure names that stage exactly when every earlier call succeeded and its own call failed. The wrapped cause is that call's error. |
| NetworkConfig.MessageIdentifiesError | controllers/common/network_config.go:72-108 | Two errors with the same text are the same error. The wrapped text names the failing stage and keeps the library's message. |
| NetworkConfig.NodeIdDependsOnlyOnCertificate | controllers/common/network_config.go:105-109 | Two successful generations whose certificates have the same DER bytes produce the same node ID, whatever their keys or PEM texts. |
| NetworkConfig.KeyPairs | controllers/common/network_config.go:50-58 | After `k` iterations there are exactly `k` key pairs. |
| NetworkConfig.KeyPairsAt | controllers/common/network_config.go:50-58 | Key pair `i` is the result of the `i`-th generator call, with the error dropped. |
| NetworkConfig.Stakers | controllers/common/network_config.go:59 | One staker entry is appended per key pair. |
| NetworkConfig.StakersAt | controllers/common/network_config.go:59 | Appended staker `i` has key pair `i`'s ID, the shared reward address and delegation fee 5000. |
| NetworkConfig.WithStakersAppend | controllers/common/network_config.go:59 | One more loop iteration appends exactly one staker to the document and changes nothing else. |
| NetworkConfig.NewNetwork | controllers/common/network_config.go:46-68 | The loop returns exactly the network `Assembled` describes: the generated key pairs, and the serialisation of the template with their stakers appended. |
| NetworkConfig.KeyPairCount | controllers/common/network_config.go:46-60 | There are `max(networkSize, 0)` key pairs. For a zero or negative size there are none, and the genesis is the serialised template unchanged. |
| NetworkConfig.KeyPairsInGenerationOrder | controllers/common/network_config.go:50-58 | Key pair `i` comes from the `i`-th generation. When that generation failed, the key pair has empty `Cert`, `Key` and `Id`. |
| NetworkConfig.GenesisExtendsTemplate | controllers/common/network_config.go:48-62 | The returned genesis is the serialisation of the final document. That document's staker list is the template's list grown by `max(networkSize, 0)` entries, with the template's entries as an unchanged prefix. Its allocations and all other fields equal the template's. |
| NetworkConfig.StakersMatchKeyPairs | controllers/common/network_config.go:51-59 | Staker `base + i` has key pair `i`'s node ID, allocation 1's address and fee 5000. When generation `i` failed, that node ID is empty. |

## Left out

- RSA key generation, x509 certificate creation, PKCS#8 marshalling, PEM encoding, `hashing.PubkeyBytesToAddress`, `ids.ToShortID` and `PrefixedString`: these are library calls, modelled as uninterpreted total functions (fields of `Library` and `Entropy`).
- `rand.Reader` and `time.Now`: nondeterministic inputs, supplied per call through `Entropy`. Go's normalisation of `time.Date` fields and the arithmetic of `AddDate` belong to the library. The model keeps the literal `time.Date` arguments and an uninterpreted `addDate`.
- The value of `constants.NodeIDPrefix`, the text of `localGenesisConfigJSON` and the Genesis type's other fields are not part of this model. They are parameters or uninterpreted fields.
- JSON decoding and encoding: `json.Unmarshal` is the document it leaves behind, with its error dropped as in the source. `json.Marshal` is a fallible function, and its dropped error leaves an empty genesis string.
- The `fmt.Print` diagnostics: output only, with no effect on the result.
- Self-signature validity, and the uniqueness of node IDs across nodes (so also "each node ID appears exactly once among the stakers"): these hold only for the real cryptographic primitives, or only with high probability, and uniqueness also needs every generation to succeed: each failed generation appends a staker with the empty node ID.
- The panic from reading allocation 1 of a shorter table is excluded by the requirement `TemplateFits`, not modelled as an outcome.
- Fail-fast propagation of generation errors is not modelled: the code drops them (`cert, key, id, _ :=`).
