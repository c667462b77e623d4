/**
 * The signing keys and the cryptographic calls the transaction builder makes
 * into the external key crate. Key material, signatures and PEM text are
 * opaque; each external call may fail.
 */
module Keys {
  import opened Errors

  /** The contents of an external `RSA` or `EllipticCurve` key: its name and its material. */
  datatype KeyPair = KeyPair(name: string, material: nat)

  /** `enum Key { Rsa(RSA), Ec(EllipticCurve) }`. */
  datatype Key = Rsa(rsa: KeyPair) | Ec(ec: KeyPair)
  {
    function Name(): string
    {
      match this
      case Rsa(k) => k.name
      case Ec(k) => k.name
    }
  }

  /** `enum KeyType { RSA, EC }`. */
  datatype KeyType = RSA | EC

  /**
   * The external calls: `RSA::new`, `EllipticCurve::new`, `key.sign(data)` and
   * `key.get_pem()` (only the public PEM is used), each of which may fail (`None`).
   */
  datatype Crypto = Crypto(
    rsaNew: string -> Option<KeyPair>,
    ecNew: string -> Option<KeyPair>,
    rsaSign: (KeyPair, string) -> Option<string>,
    ecSign: (KeyPair, string) -> Option<string>,
    rsaPublicPem: KeyPair -> Option<string>,
    ecPublicPem: KeyPair -> Option<string>)
}
