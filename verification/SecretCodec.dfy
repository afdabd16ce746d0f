/**
 * Encrypting an integration's secret under the current key and reading it
 * back with whichever configured key its stored key id names. The cipher is a
 * parameter: any keyed codec whose `open` undoes its `seal`.
 */
module SecretCodec {
  import opened Prelude
  import opened IntegrationsKey

  type Plain = nat

  /** IV, authentication tag and ciphertext together. */
  type Blob = nat

  /** The additional authenticated data: the row's uuid and type. */
  datatype Binding = Binding(uuid: nat, typ: string)

  datatype Codec = Codec(seal: (Key, nat, Binding, Plain) -> Blob, open: (Key, Binding, Blob) -> Option<Plain>) {
    ghost predicate RoundTrips() {
      forall k: Key, iv: nat, b: Binding, p: Plain :: open(k, b, seal(k, iv, b, p)) == Some(p)
    }
  }

  /** The four stored secret columns. */
  datatype Secret = Secret(keyId: KeyId, blob: Blob)

  /** The key set and cipher a process runs with. */
  datatype Vault = Vault(keys: KeySet, codec: Codec) {
    ghost predicate Valid() { keys.WellFormed() && codec.RoundTrips() }

    function Encrypt(p: Plain, b: Binding, iv: nat): Secret {
      Secret(keys.current.keyId, codec.seal(keys.current.key, iv, b, p))
    }

    /** `None` for an unknown key id or a cipher failure. */
    function Decrypt(s: Secret, b: Binding): Option<Plain> {
      if s.keyId in keys.byId then codec.open(keys.byId[s.keyId], b, s.blob) else None
    }

    function Reencrypt(s: Secret, b: Binding, iv: nat): Option<Secret> {
      match Decrypt(s, b)
      case None => None
      case Some(p) => Some(Encrypt(p, b, iv))
    }

    /** What is encrypted comes back, under the current key. */
    lemma EncryptRoundTrips(p: Plain, b: Binding, iv: nat)
      requires Valid()
      ensures Decrypt(Encrypt(p, b, iv), b) == Some(p) && keys.IsCurrent(Encrypt(p, b, iv).keyId)
    {
      assert keys.current in keys.Entries();
    }

    /** Re-encryption succeeds exactly on decryptable secrets, and keeps their plaintext. */
    lemma ReencryptKeepsPlaintext(s: Secret, b: Binding, iv: nat)
      requires Valid()
      ensures Reencrypt(s, b, iv).Some? <==> Decrypt(s, b).Some?
      ensures Reencrypt(s, b, iv).Some? ==>
        && Decrypt(Reencrypt(s, b, iv).value, b) == Decrypt(s, b)
        && keys.IsCurrent(Reencrypt(s, b, iv).value.keyId)
    {
      if Decrypt(s, b).Some? {
        EncryptRoundTrips(Decrypt(s, b).value, b, iv);
      }
    }
  }
}
