# QPGP core value layer in Dafny

A model of the pure value layer of the `qpgp-core` crate. This crate provides a
policy-driven abstraction over OpenPGP key management and messaging, and lets
callers choose between classical and post-quantum (PQC) algorithms. The model
covers the following:

- the `PqcPolicy` enum (`Disabled`, `Preferred`, `Required`) and the `PqcLevel`
  enum (`Baseline`, `High`), with their `Default` values;
- the identifier wrappers `KeyId` and `UserId`, and their derived, exact
  equality;
- the records `KeyMeta`, `KeyGenParams`, the request records
  (`EncryptRequest`, `DecryptRequest`, `SignRequest`, `VerifyRequest`,
  `RevokeRequest`, `RotateRequest`) and the result records (`VerifyResult`,
  `RevokeResult`, `RotateResult`), plus the closed enum `RevocationReason`.
  These are plain datatypes. Byte buffers are opaque `seq<bv8>` and secrets
  are opaque strings;
- the closed error taxonomy `QpgpError` with its constructor
  `not_implemented` and its `Display` rendering;
- the `Backend` trait, as signatures only.

Files:

- `wrappers.dfy`: module `Wrappers`, with `Option` and `Result` standing in
  for Rust's types of the same names.
- `types.dfy`: module `QpgpTypes`, holding the enums, defaults, identifiers
  and records, and equality of identifiers.
- `errors.dfy`: module `QpgpErrors`, holding `QpgpError`, `not_implemented`
  and `Display`. It also defines `ParseDisplay`, an independent inverse of the
  rendering, used to prove that rendering loses no information.
- `backend.dfy`: module `QpgpBackend`. Here the `Backend` trait is a record
  with one field per trait method. `name` and `supportsPqc` are plain values.
  Every other operation is a function value that takes the provider's state
  `S`, which stands for whatever lies behind `&self` (the keyring, a source
  of randomness). It returns the successor state and a
  `Result<_, QpgpError>`. So two key generations may give different keys, and
  a listing may change after an import. No behaviour is promised.

`QpgpError::NotImplemented` holds a `&'static str` in the source and an
ordinary `string` here. Rust's `String` is UTF-8 bytes, while a Dafny `string`
is a sequence of characters. Neither the rendering nor equality depends on the
difference, because both are exact and neither normalises anything.

## Model

| member | source | states |
|---|---|---|
| `QpgpTypes.DefaultPqcPolicy` | qpgp-core/src/lib.rs:3-9 | The default policy is `Required`. It is neither `Disabled` nor `Preferred`, the two policies that admit classical algorithms. |
| `QpgpTypes.DefaultPqcLevel` | qpgp-core/src/lib.rs:11-16 | The default post-quantum level is `Baseline`, not `High`. |
| `QpgpTypes.StringsEqual` | qpgp-core/src/lib.rs:18-22 | A character-by-character comparison answers true exactly when the two strings are identical. Identical strings have the same length. |
| `QpgpTypes.KeyIdEquals` | qpgp-core/src/lib.rs:18-19 | Two `KeyId`s are equal exactly when their wrapped strings are equal, with no normalisation. |
| `QpgpTypes.UserIdEquals` | qpgp-core/src/lib.rs:21-22 | Two `UserId`s are equal exactly when their wrapped strings are equal, with no normalisation. |
| `QpgpTypes.KeyIdsAreCaseSensitive` | qpgp-core/src/lib.rs:18-19 | Any selector that holds an ASCII upper-case letter differs from its lower-cased copy, so selectors are not case-folded. |
| `QpgpTypes.KeyIdsAreNotTrimmed` | qpgp-core/src/lib.rs:18-19 | Any selector with a leading space differs from the same selector without it, so selectors are not trimmed. |
| `QpgpErrors.NotImplementedError` | qpgp-core/src/lib.rs:131-135 | `not_implemented(m)` is the `NotImplemented` variant carrying exactly `m`, and it renders as `"not implemented: " + m`. |
| `QpgpErrors.Display` | qpgp-core/src/lib.rs:137-146 | Every rendering ends with the payload verbatim. The payload follows a non-empty prefix that ends in `": "`, so the text is longer than the payload. |
| `QpgpErrors.DisplayIsPrefixThenPayload` | qpgp-core/src/lib.rs:139-144 | Each rendering is the variant's fixed prefix followed by the payload. |
| `QpgpErrors.PrefixesAreIncomparable` | qpgp-core/src/lib.rs:139-144 | No variant's prefix is a prefix of another variant's rendering, whatever that variant's payload. |
| `QpgpErrors.ParseDisplayInvertsDisplay` | qpgp-core/src/lib.rs:139-144 | Parsing any error's rendering gives that same error back: its variant and its payload. |
| `QpgpErrors.DisplayInvertsParseDisplay` | qpgp-core/src/lib.rs:139-144 | Any text that parses as an error is exactly that error's rendering. |
| `QpgpErrors.DisplayMatchesParse` | qpgp-core/src/lib.rs:139-144 | A text is the rendering of `e` if and only if it parses as `e`. |
| `QpgpErrors.DisplayIsInjective` | qpgp-core/src/lib.rs:139-144 | Two errors render to the same text only if they have the same variant and the same payload. |
| `QpgpErrors.PayloadIsRecoverable` | qpgp-core/src/lib.rs:139-144 | Dropping the variant's prefix from the rendering gives back the payload unchanged. |
| `QpgpErrors.DisplayTableExamples` | encrypto-core/tests/errors.rs:4-16 | The four renderings asserted by the `encrypto-core` crate's test of `EncryptoError`, whose rendering table is the same as `QpgpError`'s: `"not implemented: feature"`, `"invalid input: bad input"`, `"backend error: oops"` and `"io error: disk"`. |

## Left out

- `Backend` trait methods (qpgp-core/src/lib.rs:150-167): only their
  signatures are modelled. The cryptography, keyring storage and import/export
  belong to an external provider whose code is not part of this model, so no
  postcondition is stated for any of them. The provider's state is an
  abstract type parameter, so nothing is said about what it holds.
- `OPENPGP_PQC_DRAFT` (qpgp-core/src/lib.rs:24): kept as the constant
  `OpenPgpPqcDraft` and nothing more. It names a profile; no packet format is
  implemented.
- The policy × capability decision (which algorithm tier a policy selects,
  given whether the provider supports PQC) is not modelled. It has no code in
  this crate and lives in the provider.
- The command-line rules are not modelled: fingerprints of 40 or 64 hex
  characters, full fingerprints for `encrypt`, an absolute `ENCRYPTO_HOME`,
  and the default key generation algorithm. They live in the CLI and provider
  crates, which are not part of this model. The process-spawning CLI tests are
  left out for the same reason.
- The mapping of `RevocationReason` onto OpenPGP's revocation reason codes is
  not modelled. The enum is declared, but the mapping is done by the provider.
- The contents of byte buffers and secrets are unconstrained: plaintext,
  ciphertext, signatures, certificates and passphrases.
- QpgpErrors.Display: gives the text that `to_string` produces. The source
  writes into a `fmt::Formatter` and passes on any write failure of that
  formatter as `fmt::Result`. That failure path belongs to the formatter, not
  to `QpgpError`, and is not modelled.
- The `Debug` and `Clone` derives, and `std::error::Error`, are not
  modelled; they add no behaviour. The difference runs the other way for
  equality: every Dafny datatype has structural `==`, but in the source only
  the enums and `KeyId`/`UserId` derive `PartialEq`. `QpgpError` and the
  records from `KeyMeta` to `RotateResult` do not. So the `a == b` in
  `DisplayIsInjective` is the model's structural equality, not a Rust
  operation.
