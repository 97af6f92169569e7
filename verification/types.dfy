/** The value layer of `qpgp-core`: post-quantum policy and level, key and
    user identifiers, key metadata, and the request and result records
    exchanged with a backend. None of these records has behaviour of its own;
    byte buffers and secrets are opaque. */
module QpgpTypes {
  import opened Wrappers

  /** An octet of a plaintext, ciphertext, signature or certificate. */
  type Byte = bv8

  /** Rust's `Vec<u8>`: opaque bytes, unconstrained by this model. */
  type Bytes = seq<Byte>

  /** Label of the post-quantum OpenPGP profile the library declares
      conformance to. It is a name only; no packet format is modelled. */
  const OpenPgpPqcDraft: string := "draft-ietf-openpgp-pqc-17"

  /** Whether post-quantum algorithms are never used, used when available,
      or demanded. */
  datatype PqcPolicy = Disabled | Preferred | Required

  /** Strength of the post-quantum algorithms a key generation asks for. */
  datatype PqcLevel = Baseline | High

  /** The policy a request carries when the caller does not choose one:
      the library is post-quantum first, so the default demands post-quantum
      algorithms and is neither of the two policies that admit classical ones. */
  function DefaultPqcPolicy(): (p: PqcPolicy)
    ensures p.Required?
    ensures p != Disabled && p != Preferred
  {
    Required
  }

  /** The post-quantum strength used when the caller does not choose one. */
  function DefaultPqcLevel(): (l: PqcLevel)
    ensures l.Baseline?
    ensures l != High
  {
    Baseline
  }

  /** A key selector: a fingerprint or other key handle, kept as written. */
  datatype KeyId = KeyId(value: string)

  /** A user identity such as `Name <email>`, kept as written. */
  datatype UserId = UserId(value: string)

  /** Character-by-character comparison of two strings. The derived equality
      of a Rust `String` compares UTF-8 bytes; since UTF-8 encodes each
      character one-to-one, comparing characters gives the same answer. There
      is no case folding, trimming or other normalisation. */
  method StringsEqual(a: string, b: string) returns (r: bool)
    ensures r <==> a == b
    ensures r ==> |a| == |b|
  {
    if |a| != |b| {
      return false;
    }
    var i := 0;
    while i < |a|
      invariant 0 <= i <= |a|
      invariant a[..i] == b[..i]
    {
      if a[i] != b[i] {
        return false;
      }
      i := i + 1;
    }
    assert a == a[..i] && b == b[..i];
    return true;
  }

  /** The derived `PartialEq` of `KeyId`: two selectors are equal exactly
      when their wrapped strings are. */
  method KeyIdEquals(a: KeyId, b: KeyId) returns (r: bool)
    ensures r <==> a == b
    ensures r <==> a.value == b.value
  {
    r := StringsEqual(a.value, b.value);
  }

  /** The derived `PartialEq` of `UserId`: two identities are equal exactly
      when their wrapped strings are. */
  method UserIdEquals(a: UserId, b: UserId) returns (r: bool)
    ensures r <==> a == b
    ensures r <==> a.value == b.value
  {
    r := StringsEqual(a.value, b.value);
  }

  /** The ASCII lower-case form of a character; every other character is
      kept as it is. */
  function AsciiLower(c: char): char {
    if 'A' <= c <= 'Z' then (c as int + 32) as char else c
  }

  /** The ASCII lower-case form of a string, character by character. */
  function AsciiLowerString(s: string): string {
    seq(|s|, j requires 0 <= j < |s| => AsciiLower(s[j]))
  }

  /** A selector holding an ASCII upper-case letter differs from its
      lower-cased form: selectors are not case-folded. */
  lemma KeyIdsAreCaseSensitive(s: string, i: nat)
    requires i < |s| && 'A' <= s[i] <= 'Z'
    ensures KeyId(s) != KeyId(AsciiLowerString(s))
  {
  }

  /** A selector with a leading space differs from the selector without it:
      selectors are not trimmed. */
  lemma KeyIdsAreNotTrimmed(s: string)
    ensures KeyId(" " + s) != KeyId(s)
  {
    assert |" " + s| != |s|;
  }

  /** Snapshot of one key as the provider reports it. */
  datatype KeyMeta = KeyMeta(
    keyId: KeyId,
    userId: Option<UserId>,
    algo: string,
    createdUtc: Option<string>,
    hasSecret: bool
  )

  /** Parameters of a key generation. */
  datatype KeyGenParams = KeyGenParams(
    userId: UserId,
    algo: Option<string>,
    pqcPolicy: PqcPolicy,
    pqcLevel: PqcLevel,
    passphrase: Option<string>,
    allowUnprotected: bool
  )

  datatype EncryptRequest = EncryptRequest(
    recipients: seq<KeyId>,
    plaintext: Bytes,
    armor: bool,
    pqcPolicy: PqcPolicy,
    compat: bool
  )

  datatype DecryptRequest = DecryptRequest(
    ciphertext: Bytes,
    pqcPolicy: PqcPolicy
  )

  datatype SignRequest = SignRequest(
    signer: KeyId,
    message: Bytes,
    armor: bool,
    cleartext: bool,
    pqcPolicy: PqcPolicy
  )

  datatype VerifyRequest = VerifyRequest(
    message: Bytes,
    signature: Bytes,
    cleartext: bool,
    pqcPolicy: PqcPolicy
  )

  /** Outcome of a verification: validity, and the signer and message
      recovered from the signature when there are any. */
  datatype VerifyResult = VerifyResult(
    valid: bool,
    signer: Option<KeyId>,
    message: Option<Bytes>
  )

  /** Why a key is revoked. */
  datatype RevocationReason =
    | Unspecified
    | KeyCompromised
    | KeySuperseded
    | KeyRetired
    | UserIdInvalid

  datatype RevokeRequest = RevokeRequest(
    keyId: KeyId,
    reason: RevocationReason,
    message: Option<string>,
    armor: bool
  )

  datatype RevokeResult = RevokeResult(updatedCert: Bytes)

  datatype RotateRequest = RotateRequest(
    keyId: KeyId,
    newUserId: Option<UserId>,
    pqcPolicy: PqcPolicy,
    pqcLevel: PqcLevel,
    passphrase: Option<string>,
    allowUnprotected: bool,
    revokeOld: bool
  )

  /** The replacement key and whether the old key was revoked. */
  datatype RotateResult = RotateResult(
    newKey: KeyMeta,
    oldKeyRevoked: bool
  )
}
