/** Envelope encryption of src/omp/cloud/security.py with idealised cryptography: a ciphertext
    is a value that remembers its key, its associated data and its plaintext, and opens only
    under the same key and the same associated data. */
module Envelope {
  import opened Domain

  datatype CloudError = MissingKey | BadValue | Forbidden | KmsUnavailable

  datatype Outcome<+T> = Done(value: T) | Failed(error: CloudError) {
    predicate IsFailure() { Failed? }
    function PropagateFailure<U>(): Outcome<U> requires Failed? { Failed(error) }
    function Extract(): T requires Done? { value }
  }

  function Need(condition: bool, error: CloudError): Outcome<()> {
    if condition then Done(()) else Failed(error)
  }

  type Tenant = nat
  type Uuid = nat

  datatype Field = ContentField | ProvenanceField

  datatype Aad = Aad(tenant: Tenant, record: Uuid, field: Field, keyVersion: int)

  /** `Noise` is any byte string that no encryption produced. */
  datatype Ciphertext = Sealed(dek: nat, nonce: nat, aad: Aad, plaintext: string) | Noise(bytes: seq<nat>)

  datatype WrappedKey = Wrapped(master: nat, tenant: Tenant, keyVersion: int, dek: nat) | Junk(raw: seq<nat>)

  datatype Envelope = Envelope(keyVersion: int, wrapped: WrappedKey, body: Ciphertext)

  /** The key service: its master key, and whether it answers for a tenant and key version. */
  datatype Kms = Kms(master: nat, wraps: (Tenant, int) -> bool, unwraps: (Tenant, int) -> bool)

  function Wrap(kms: Kms, tenant: Tenant, keyVersion: int, dek: nat): Outcome<WrappedKey> {
    var _ :- Need(keyVersion >= 1 && kms.wraps(tenant, keyVersion), KmsUnavailable);
    Done(Wrapped(kms.master, tenant, keyVersion, dek))
  }

  function Unwrap(kms: Kms, tenant: Tenant, keyVersion: int, w: WrappedKey): Outcome<nat> {
    var _ :- Need(keyVersion >= 1 && kms.unwraps(tenant, keyVersion), KmsUnavailable);
    var _ :- Need(w.Wrapped? && w.master == kms.master && w.tenant == tenant && w.keyVersion == keyVersion,
                  KmsUnavailable);
    Done(w.dek)
  }

  /** `dek` and `nonce` are the random values of this call. */
  function Encrypt(kms: Kms, tenant: Tenant, record: Uuid, field: Field, text: string, keyVersion: int, dek: nat,
                   nonce: nat): Outcome<Envelope> {
    var _ :- Need(keyVersion >= 1, BadValue);
    var w :- Wrap(kms, tenant, keyVersion, dek);
    Done(Envelope(keyVersion, w, Sealed(dek, nonce, Aad(tenant, record, field, keyVersion), text)))
  }

  function Decrypt(kms: Kms, tenant: Tenant, record: Uuid, field: Field, e: Envelope): Outcome<string> {
    var _ :- Need(e.keyVersion >= 1, Forbidden);
    var dek :- Unwrap(kms, tenant, e.keyVersion, e.wrapped);
    var _ :- Need(e.body.Sealed? && e.body.dek == dek && e.body.aad == Aad(tenant, record, field, e.keyVersion),
                  Forbidden);
    Done(e.body.plaintext)
  }

  function Rewrap(kms: Kms, tenant: Tenant, record: Uuid, field: Field, e: Envelope, keyVersion: int, dek: nat,
                  nonce: nat): Outcome<Envelope> {
    var _ :- Need(keyVersion >= 1, BadValue);
    var text :- Decrypt(kms, tenant, record, field, e);
    Encrypt(kms, tenant, record, field, text, keyVersion, dek, nonce)
  }

  /** What the envelope says to the holder of the master key, availability aside. */
  function Meaning(master: nat, tenant: Tenant, record: Uuid, field: Field, e: Envelope): Option<string> {
    if e.keyVersion >= 1 && e.wrapped.Wrapped? && e.wrapped.master == master && e.wrapped.tenant == tenant
       && e.wrapped.keyVersion == e.keyVersion && e.body.Sealed? && e.body.dek == e.wrapped.dek
       && e.body.aad == Aad(tenant, record, field, e.keyVersion)
    then Some(e.body.plaintext) else None
  }

  /** Decrypting returns the meaning exactly when the envelope has one and the key service
      answers for its version. */
  lemma DecryptIsMeaning(kms: Kms, tenant: Tenant, record: Uuid, field: Field, e: Envelope)
    ensures Decrypt(kms, tenant, record, field, e).Done? <==>
              Meaning(kms.master, tenant, record, field, e).Some? && kms.unwraps(tenant, e.keyVersion)
    ensures Decrypt(kms, tenant, record, field, e).Done? ==>
              Meaning(kms.master, tenant, record, field, e) == Some(Decrypt(kms, tenant, record, field, e).value)
  {
  }

  /** Round trip, and binding: the meaning is there for its own tenant, record and field and for
      no other. */
  lemma EncryptMeans(kms: Kms, tenant: Tenant, record: Uuid, field: Field, text: string, keyVersion: int, dek: nat,
                     nonce: nat)
    requires Encrypt(kms, tenant, record, field, text, keyVersion, dek, nonce).Done?
    ensures
      var e := Encrypt(kms, tenant, record, field, text, keyVersion, dek, nonce).value;
      && e.keyVersion == keyVersion
      && Meaning(kms.master, tenant, record, field, e) == Some(text)
      && forall t, r, f :: Meaning(kms.master, t, r, f, e).Some? ==> t == tenant && r == record && f == field
  {
  }

  /** Rotation keeps the meaning and lands on the target version. */
  lemma RewrapKeepsMeaning(kms: Kms, tenant: Tenant, record: Uuid, field: Field, e: Envelope, keyVersion: int,
                           dek: nat, nonce: nat)
    requires Rewrap(kms, tenant, record, field, e, keyVersion, dek, nonce).Done?
    ensures
      var n := Rewrap(kms, tenant, record, field, e, keyVersion, dek, nonce).value;
      && n.keyVersion == keyVersion
      && Meaning(kms.master, tenant, record, field, n) == Meaning(kms.master, tenant, record, field, e)
      && Meaning(kms.master, tenant, record, field, n).Some?
  {
    DecryptIsMeaning(kms, tenant, record, field, e);
    EncryptMeans(kms, tenant, record, field, Decrypt(kms, tenant, record, field, e).value, keyVersion, dek, nonce);
  }
}
