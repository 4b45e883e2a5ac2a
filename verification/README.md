# rustls crypto core, modelled in Dafny

This project models the core of rustls's pluggable cryptography layer:

- `Output`, the fixed-capacity (64-byte) digest value, and its constructor, which zero-fills a buffer and copies the digest bytes into its prefix;
- the incremental, forkable hash context as the *ring* backend implements it: `update`, `fork`, `fork_finish` (a non-destructive checkpoint) and `finish` (which consumes the context), plus the one-shot `compute` and the precomputed `compute_empty`;
- key-exchange group selection (`choose`) and completion (`complete`);
- the client configuration builder steps `WantsVerifier → WantsClientCert → ClientConfig`.

Files, one module each:

- `base.dfy` (`Base`): `u8`, `u16`, `Option`, `Result`.
- `hash.dfy` (`CryptoHash`): `HASH_MAX_OUTPUT`, `HashAlgorithm`, `Output`, `OutputOf` (the value `Output::new` builds) and `NewOutput` (`Output::new` itself: an array and a copy loop).
- `ring_digest.dfy` (`RingDigest`): a stand-in for the foreign `ring::digest` API. An `Algorithm` carries its output length and its digest function, which stays uninterpreted. A ring context is a value holding the bytes it has absorbed, so cloning it is copying it.
- `ring_hash.dfy` (`RingHash`): the backend `Hash` record, the `SHA256`/`SHA384` statics and the `Context` class. A `Context` holds the wrapped ring context and a `live` flag that `finish` clears.
- `context_laws.dfy` (`ContextLaws`): the laws the context promises, written as client programs: the prefix/fork law, fork independence, the checkpoint law, and `fork_finish` = fork then finish. It also proves that updating message by message equals one update with the concatenation.
- `crypto.dfy` (`Crypto`): named groups, `KeyExchangeError`, `FindGroup`/`Choose`, `KeyExchange.Complete` and the builder steps.

The real digest functions (SHA-256, SHA-384) belong to the *ring* crate, so the model takes the descriptor `ring::digest::Algorithm` as a parameter. `Sha256(alg)` and `Sha384(alg)` build the two statics from it. The statics hold compiled-in digests of the empty input. The claim that each literal equals the real empty-input digest is a fact about SHA-2, and SHA-2 is not modelled. So `Hash.EmptyLiteralIsDigest()` states that claim as a hypothesis, and `ComputeEmpty`'s contract depends on it.

## Model

| member | source | states |
|---|---|---|
| `CryptoHash.Output.AsRef` | rustls/src/crypto/hash.rs:35-39 | the view has exactly `used` bytes, namely the buffer's first `used` bytes |
| `CryptoHash.OutputOf` | rustls/src/crypto/hash.rs:18-32 | for input of at most 64 bytes, `Output::new` keeps the invariant `used <= 64`; `as_ref` gives back exactly the input (round trip); every buffer byte past `used` is zero |
| `CryptoHash.OutputOfInjective` | rustls/src/crypto/hash.rs:25-39 | two outputs built by `new` are equal exactly when their input bytes are equal |
| `CryptoHash.NewOutput` | rustls/src/crypto/hash.rs:24-32 | zero-filling a 64-byte array and copying the input into its prefix yields exactly `OutputOf(bytes)`; the input must fit, otherwise the slice copy panics |
| `RingHash.DigestOutput` | rustls/src/crypto/ring/hash.rs:54-58 | the output of hashing `data` is valid, its bytes are the algorithm's digest of `data`, and its length is the algorithm's `output_len` |
| `RingHash.FromDigest` | rustls/src/crypto/ring/hash.rs:31-35 | converting a ring digest to `Output` preserves its bytes (through `Output::new`) |
| `RingHash.Hash.AlgorithmId` | rustls/src/crypto/ring/hash.rs:38-40 | `algorithm()` returns the stored identifier; `Sha256`/`Sha384` prove it is `SHA256`/`SHA384` for the two statics |
| `RingHash.Hash.OutputLen` | rustls/src/crypto/ring/hash.rs:42-44 | `output_len()` is within the 64-byte cap and is the length of every digest the algorithm produces; `Compute` proves it is the length of every output |
| `RingHash.Hash.Start` | rustls/src/crypto/ring/hash.rs:46-48 | `start` gives a new live context for this hash's algorithm that has absorbed nothing |
| `RingHash.Hash.ComputeEmpty` | rustls/src/crypto/ring/hash.rs:50-52 | `compute_empty` returns exactly the stored literal; if the literal is the digest of the empty input, it equals `compute([])` |
| `RingHash.Hash.Compute` | rustls/src/crypto/ring/hash.rs:54-58 | one-shot hashing (fresh context, one update, finish) returns the digest of `bytes`, of length `output_len` |
| `RingHash.Hash.DefaultComputeEmpty` | rustls/src/crypto/hash.rs:8-10 | the interface's default `compute_empty` is the digest of the empty input, i.e. `compute([])` |
| `RingHash.Sha256` | rustls/src/crypto/ring/hash.rs:11-19 | the `SHA256` static carries `HashAlgorithm::SHA256`, ring's SHA-256 descriptor and a 32-byte literal, matching `output_len` and within the 64-byte cap |
| `RingHash.Sha384` | rustls/src/crypto/ring/hash.rs:20-29 | the `SHA384` static carries `HashAlgorithm::SHA384`, ring's SHA-384 descriptor and a 48-byte literal, matching `output_len` and within the 64-byte cap |
| `RingHash.Context.constructor` | rustls/src/crypto/ring/hash.rs:61 | wrapping a ring context gives a live context in exactly that state |
| `RingHash.Context.Update` | rustls/src/crypto/ring/hash.rs:64-66 | `update(d)` appends `d` to the absorbed input; the algorithm and liveness do not change |
| `RingHash.Context.Fork` | rustls/src/crypto/ring/hash.rs:68-70 | `fork` returns a new live context, distinct from this one, with the same algorithm and absorbed prefix |
| `RingHash.Context.ForkFinish` | rustls/src/crypto/ring/hash.rs:72-74 | `fork_finish` returns the digest of the input so far and leaves the context unchanged and live |
| `RingHash.Context.Finish` | rustls/src/crypto/ring/hash.rs:76-78 | `finish` returns the digest of everything added and ends the context's life |
| `ContextLaws.ForkExtendsPrefix` | rustls/src/crypto/hash.rs:45-47 | prefix law: `start().update(P).fork().update(Q).finish() == compute(P ++ Q)` |
| `ContextLaws.ForkIsIndependent` | rustls/src/crypto/hash.rs:45-47 | after a fork, updating the original with Q and the fork with R gives digests of P ++ Q and P ++ R: neither side sees the other's updates |
| `ContextLaws.CheckpointKeepsContextLive` | rustls/src/crypto/hash.rs:49-55 | after `update(X)`, `fork_finish` gives the digest of X, and the same context, updated with Y and finished, gives the digest of X ++ Y |
| `ContextLaws.ForkFinishIsForkThenFinish` | rustls/src/crypto/hash.rs:49-58 | `fork_finish` gives the same output as forking and finishing the fork, and leaves the original live with its prefix unchanged |
| `ContextLaws.UpdateAllIsConcat` | rustls/src/crypto/hash.rs:42-43 | any number of updates, one per message, leave a ring context as one update with the concatenated messages |
| `ContextLaws.TranscriptHash` | rustls/src/crypto/hash.rs:41-58 | a fresh context updated with each message of a transcript in turn and then finished gives the digest of the concatenated messages |
| `ContextLaws.TranscriptDigest` | rustls/src/crypto/hash.rs:57-58 | finishing a fresh context updated message by message gives the digest of the concatenated transcript |
| `Crypto.KeyExchange.Complete` | rustls/src/crypto/mod.rs:62-66 | `complete` succeeds exactly when agreement yields a shared secret and the caller's closure succeeds on it, and then returns the closure's value; any failure becomes the handshake error |
| `Crypto.FindGroup` | rustls/src/crypto/mod.rs:41-51 | finds nothing exactly when no supported group has the name; otherwise returns the first position whose group has the name |
| `Crypto.Choose` | rustls/src/crypto/mod.rs:41-60 | `choose` fails with `UnsupportedGroup` exactly when no supported group has the name, including for an empty list; otherwise it is `start` on the first matching group, and a randomness failure there becomes `KeyExchangeFailed`; a successful exchange runs in the requested group if `start` keeps the group |
| `Crypto.WithCustomCertificateVerifier` | rustls/src/crypto/mod.rs:104-120 | `WantsVerifier → WantsClientCert` keeps the cipher suites, key-exchange groups and versions unchanged and installs the given verifier |
| `Crypto.WithClientCertResolver` | rustls/src/crypto/mod.rs:141-162 | `WantsClientCert → ClientConfig` copies suites, groups, versions and verifier, installs the given resolver, and sets the defaults: no ALPN protocols, default resumption, no maximum fragment size, SNI on, no key log, secret extraction off, early data off |
| `Crypto.WithNoClientAuth` | rustls/src/crypto/mod.rs:136-139 | `with_no_client_auth` is exactly `with_client_cert_resolver` with the always-failing resolver |
| `Crypto.ClientConfigFromWantsVerifier` | rustls/src/crypto/mod.rs:104-163 | a configuration reached from `WantsVerifier` through both steps carries that state's suites, groups and versions, the verifier given on the way, the chosen resolver and the defaults, and two such configurations are equal exactly when their inputs are |

## Left out

- SHA-256 and SHA-384 (FIPS 180-4, sections 6.2 and 6.5) live in the foreign *ring* crate. The digest function is an uninterpreted parameter (`RingDigest.Algorithm.digest`). Whether the compiled-in empty-input literals are correct is a hypothesis (`Hash.EmptyLiteralIsDigest`), not a proof.
- The internal block state of a ring digest context is represented only by the bytes absorbed so far. That state is a function of those bytes, so nothing observable is lost.
- `CryptoProvider::ticket_generator` and `fill_random`: they draw on system entropy, so they are I/O. `default_cipher_suites` is a per-backend static table and only its signature appears here.
- `KeyExchange::start`: the ephemeral key generation and its randomness belong to the backend. `Choose` takes it as a parameter that may fail with `GetRandomFailed`. The ECDH arithmetic behind `complete` is the `agree` field of a `KeyExchange`, and the zeroisation of secrets is not modelled. `all_kx_groups` is a backend static table, and the backends are not part of this model.
- `Choose`: the interface documents only a signature and a contract. The model's reference picks the first supported group with the requested name. Groups with duplicate names are not otherwise distinguished.
- `Crypto.KeyExchange.Complete`: `crate::Error` is not part of this model, so both agreement failure and closure failure map to a single `HandshakeFailure` kind. Which concrete `Error` variant a backend reports is not modelled.
- `HashAlgorithm` and `NamedGroup` are defined in `msgs/enums.rs`, which is not part of this model. They appear here as their TLS registry values.
- The behaviour of `ServerCertVerifier`, `ResolvesClientCert` and `FailResolveClientCert`, `Resumption::default`, `EnabledVersions`, key logs, and the `cipher`/`hmac` submodules. These are defined in files not part of this model, so they are opaque values identified by a handle.
- `ConfigBuilder` and its `PhantomData` side marker: the model keeps only the builder's state records. `#[cfg(feature = ...)]` gating is not modelled, so `enable_secret_extraction` is always present and always false.
- `Send`/`Sync`/`'static` bounds, `Arc`, `Box<dyn …>` dispatch and the trait machinery: the one backend is modelled directly.
- Crypto.ClientConfigFromWantsVerifier: proves only that the builder path carries the right fields. In the source, `WantsClientCert`'s fields are private, so a `ClientConfig` can only be reached through `with_custom_certificate_verifier`. The model's datatype constructors are public, so it does not capture that no other path builds a `WantsClientCert` or a `ClientConfig`.
- Crypto.KeyExchange.Complete: `complete` takes the exchange by value, so it can run once, and the private key never leaves it. The model's `KeyExchange` is a value with a public `agree` field. So it does not capture single use, or that only the caller's closure sees the shared secret.
- Use of a context after `finish`: Rust's ownership forbids it statically. The model states the same rule as a `live` precondition.
