/**
  The challenge-response gate that the authenticating relay runs on every new
  connection, and the pieces of it that the dialing channel runs on its side.

  RSA-OAEP with SHA-256 and MGF1-SHA256 (RFC 8017, section 7.1; MGF1 in
  appendix B.2.1) is modelled symbolically: a ciphertext remembers the key it was
  sealed for and the plaintext it carries, so that decrypting with the matching
  private key gives the plaintext back and decrypting with any other key fails,
  as an OAEP "decryption error" does.
*/
module Challenge {
  import opened Wrappers

  newtype byte = b: int | 0 <= b < 256
  type Bytes = seq<byte>

  /** Length of the random secret drawn for every connection attempt. */
  const SecretLength: nat := 128

  /** Output length, in bytes, of SHA-256: the OAEP hash and the MGF1 hash. */
  const HashLength: nat := 32

  /** Smallest RSA modulus, in bytes, whose OAEP encoding has room for a secret (RFC 8017, 7.1.1 step 1.b). */
  const MinModulusLength: nat := SecretLength + 2 * HashLength + 2

  type Secret = s: Bytes | |s| == SecretLength witness seq(SecretLength, _ => 0 as byte)

  /** A transport message: the websocket library delivers either bytes or text. */
  datatype Payload = Binary(bytes: Bytes) | Text(text: string)

  /** An RSA key pair member; `owner` names the key pair, `modulusLength` is k in bytes. */
  datatype PublicKey = PublicKey(owner: nat, modulusLength: nat)
  datatype PrivateKey = PrivateKey(owner: nat, modulusLength: nat)

  /** A sealed OAEP ciphertext, opaque to everyone but the holder of the matching private key. */
  datatype Ciphertext = Sealed(owner: nat, modulusLength: nat, plaintext: Bytes)

  predicate Matches(pub: PublicKey, priv: PrivateKey) {
    pub.owner == priv.owner && pub.modulusLength == priv.modulusLength
  }

  /** RSAES-OAEP-ENCRYPT: fails ("message too long") when the message does not fit the modulus. */
  function Encrypt(key: PublicKey, message: Bytes): (r: Option<Ciphertext>)
    ensures r.Some? <==> |message| + 2 * HashLength + 2 <= key.modulusLength
  {
    if |message| + 2 * HashLength + 2 <= key.modulusLength then
      Some(Sealed(key.owner, key.modulusLength, message))
    else
      None
  }

  /** RSAES-OAEP-DECRYPT: None stands for the "decryption error" (a ValueError in the source). */
  function Decrypt(key: PrivateKey, sealed: Ciphertext): (r: Option<Bytes>)
    ensures r.Some? <==> sealed.owner == key.owner && sealed.modulusLength == key.modulusLength
  {
    if sealed.owner == key.owner && sealed.modulusLength == key.modulusLength then
      Some(sealed.plaintext)
    else
      None
  }

  /** Decrypting with the matching private key inverts encryption. */
  lemma DecryptInvertsEncrypt(pub: PublicKey, priv: PrivateKey, message: Bytes)
    requires Matches(pub, priv)
    requires Encrypt(pub, message).Some?
    ensures Decrypt(priv, Encrypt(pub, message).value) == Some(message)
  {
  }

  /** A private key that does not match the sealing key cannot open the challenge. */
  lemma WrongKeyCannotDecrypt(pub: PublicKey, priv: PrivateKey, message: Bytes)
    requires !Matches(pub, priv)
    requires Encrypt(pub, message).Some?
    ensures Decrypt(priv, Encrypt(pub, message).value) == None
  {
  }

  /** Every secret fits a key of at least MinModulusLength bytes, so sealing the challenge cannot fail. */
  lemma SecretAlwaysSealable(key: PublicKey, secret: Secret)
    requires key.modulusLength >= MinModulusLength
    ensures Encrypt(key, secret).Some?
  {
  }

  /** How the relay judges the reply to its challenge. */
  datatype Verdict = Admitted | Rejected | PeerGone

  /**
    The relay's comparison `key != decrypted_key`: only a binary reply equal to
    the secret admits; a closed connection before any reply leaves; anything
    else (other bytes, or text, which never equals bytes) is rejected.
  */
  function Check(secret: Secret, reply: Option<Payload>): (v: Verdict)
    ensures v == Admitted <==> reply == Some(Binary(secret))
    ensures v == PeerGone <==> reply == None
  {
    match reply
    case None => PeerGone
    case Some(data) => if data == Binary(secret) then Admitted else Rejected
  }

  /** A peer holding the matching private key decrypts the challenge, echoes it, and is admitted. */
  lemma HonestPeerAdmitted(pub: PublicKey, priv: PrivateKey, secret: Secret)
    requires Matches(pub, priv)
    requires pub.modulusLength >= MinModulusLength
    ensures Encrypt(pub, secret).Some?
    ensures Decrypt(priv, Encrypt(pub, secret).value).Some?
    ensures Check(secret, Some(Binary(Decrypt(priv, Encrypt(pub, secret).value).value))) == Admitted
  {
    SecretAlwaysSealable(pub, secret);
    DecryptInvertsEncrypt(pub, priv, secret);
  }

  /** A reply that differs from the secret in a single byte is rejected. */
  lemma AlteredReplyRejected(secret: Secret, reply: Bytes, i: nat)
    requires |reply| == SecretLength
    requires i < SecretLength
    requires reply[i] != secret[i]
    ensures Check(secret, Some(Binary(reply))) == Rejected
  {
  }
}
