/** Result and option types shared by the whole model. */
module Wrappers {

  datatype Option<+T> = None | Some(value: T)

  /** Why an operation of the system returned an error. */
  datatype Error =
    | ShortCiphertext        // not longer than the 36-byte header
    | TooManySkipped         // more than 32 message numbers would be skipped
    | ChainNotCached         // no cached chain for this public key
    | NumberNotCached        // the chain is cached, this number is not
    | NoChainKey             // a chain KDF without a 32-byte chain key
    | NoPublicKey            // a Diffie-Hellman without a 32-byte public key
    | LowOrderPoint          // X25519 refuses the public key
    | HeaderNumber           // a header number does not fit into 16 bits
    | OpenFailed             // padding or HMAC check failed
    | PeerRefused            // the verification callback refuses an identity key
    | BadSignature           // the signed prekey is not signed by its identity key
    | WrongState             // the message does not fit the state of the session
    | NoIdentityKey          // the identity key was cleared after the handshake, a run-time panic
    | NoPrivateKey           // X25519 without a 32-byte private key
    | IndexPanic             // a slice expression out of range, a run-time panic
    | BadBlockSize | NotAligned | BadPadLength | BadPadSuffix
    | BadEnvelope | BadType | BadBase64 | BadPayload
    | NoSuchSession

  datatype Result<+T> = Ok(value: T) | Err(error: Error)

  /** A byte. */
  type byte = b: int | 0 <= b < 256

  type Bytes = seq<byte>
}
