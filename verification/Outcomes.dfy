/** Error kinds and the result type shared by the ratchet, X3DH and wrapper modules. */
module Outcomes {

  datatype Option<+T> = None | Some(value: T)

  /** One constructor per error message the modelled code can return. */
  datatype Error =
    | ChainClosed              // "receiving chain is closed"
    | TooFarAhead              // "Over 2000 messages into the future!"
    | NoMessageKey             // "message key not found"
    | NoReceivingChain         // "no receiving chain"
    | BadMac                   // "MAC verification failed"
    | BadPadding               // "invalid padding"
    | BadPublicKey             // curve::scalar_multiply refuses the point
    | BadBase64                // util::unb64 refuses the text
    | NoSendingChain           // "no sending chain"
    | AmbiguousSendingChain    // "ambiguous sending chain: ..."
    | CounterOverflow          // "message counter overflow"
    | CounterTooWide           // "message counter does not fit the u32 wire field"
    | BadSignature             // "signed prekey signature verification failed"
    | IdentityMismatch         // "identity_pub does not match identity_priv"
    | PrekeyMismatch           // "recipient_prekey does not match the signed prekey", and the recipient's twin
    | NoSession                // "no session", "no session entry", "no open session"
    | MissingPrekey            // "Missing prekey n"
    | MissingSignedPrekey      // "Missing SignedPreKey"
    | StorageFailed            // a storage callback rejected

  datatype Result<+T> = Ok(value: T) | Err(error: Error)
}
