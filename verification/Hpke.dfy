// HPKE (mode_base, RFC 9180 section 5.1.1) as symbolic terms: a sealed box opens to its body
// under the recipient's private key and the same info string, and to nothing otherwise.
module Hpke {
  import opened Common

  type Bytes = seq<nat>

  datatype PublicKey = PublicKey(id: nat)
  datatype PrivateKey = PrivateKey(id: nat)

  function PublicOf(sk: PrivateKey): PublicKey { PublicKey(sk.id) }

  // The SHA-256 fingerprint of a public key, taken as collision free.
  datatype Fingerprint = FingerprintOf(pk: PublicKey)

  // Domain-separated info strings.
  datatype Info =
    | BindInfo(pod: string, boot: string)
    | RestoreInfo(pod: string, boot: string)
    | ComponentInfo(computer: string, component: string, objectId: string, epoch: int, generation: int,
                    fingerprint: Fingerprint)

  datatype Payload =
    | BindPayload(key: Bytes, restoreKey: Option<(int, Bytes)>, brokerGrant: string)
    | LeasePayload(brokerGrant: string)
    | SecretsPayload(challenge: string, secrets: map<string, Bytes>)
    | ComponentSecret(secret: Bytes)

  // `enc` is the encapsulated key: fresh randomness, so sealing twice gives two ciphertexts.
  datatype Sealed = Sealed(recipient: PublicKey, info: Info, enc: nat, body: Payload)

  function Open(sk: PrivateKey, box: Sealed, enc: nat, info: Info): Option<Payload> {
    if PublicOf(sk) == box.recipient && enc == box.enc && info == box.info then Some(box.body) else None
  }
}
