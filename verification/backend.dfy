/** The `Backend` capability interface: the operations every cryptography
    provider offers. Rust's trait is written here as a record of operations,
    one field per trait method. The provider's state `S` stands for whatever
    lies behind `&self`: the keyring, a source of randomness, and anything
    else the provider consults. Every operation except the two static
    descriptors takes that state and returns its successor, so nothing here
    makes a provider deterministic or stateless. Only the signatures are
    fixed; no behaviour is promised, because no provider is part of this
    model. */
module QpgpBackend {
  import opened Wrappers
  import opened QpgpTypes
  import QpgpErrors

  /** Every backend operation returns its value or a `QpgpError`. */
  type Outcome<T> = Result<T, QpgpErrors.QpgpError>

  datatype Backend<!S> = Backend(
    name: string,
    supportsPqc: bool,
    listKeys: S -> (S, Outcome<seq<KeyMeta>>),
    generateKey: (S, KeyGenParams) -> (S, Outcome<KeyMeta>),
    importKey: (S, Bytes) -> (S, Outcome<KeyMeta>),
    exportKey: (S, KeyId, bool, bool) -> (S, Outcome<Bytes>),
    encrypt: (S, EncryptRequest) -> (S, Outcome<Bytes>),
    decrypt: (S, DecryptRequest) -> (S, Outcome<Bytes>),
    sign: (S, SignRequest) -> (S, Outcome<Bytes>),
    verify: (S, VerifyRequest) -> (S, Outcome<VerifyResult>),
    revokeKey: (S, RevokeRequest) -> (S, Outcome<RevokeResult>),
    rotateKey: (S, RotateRequest) -> (S, Outcome<RotateResult>)
  )
}
