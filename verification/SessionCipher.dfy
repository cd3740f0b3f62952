/** The AEAD envelope of stored profiles (src/oauth2/session/crypto.rs). */
module SessionCipher {
  import opened Prelude
  import opened HexCodec
  import opened Strings

  type Bytes = seq<Byte>

  const NONCE_LEN: nat := 12
  const KEY_LEN: nat := 32

  /** The cipher under one key, as two functions of nonce and text. */
  datatype Aead = Aead(encrypt: (Bytes, Bytes) -> Bytes, decrypt: (Bytes, Bytes) -> Option<Bytes>)

  /** All that is assumed of it: decryption undoes encryption under the same nonce. */
  ghost predicate Inverts(a: Aead) {
    forall n: Bytes, p: Bytes :: a.decrypt(n, a.encrypt(n, p)) == Some(p)
  }

  datatype CipherError = BlobTooShort | DecryptFailed | KeyNotHex(why: HexError) | KeyWrongLength(bytes: nat)

  method KeyFromHex(hexKey: string) returns (r: Result<Bytes, CipherError>)
    ensures r.Ok? <==> |Trim(hexKey)| == 64 && AllHex(Trim(hexKey))
    ensures r.Ok? ==> |r.value| == 32 && Encode(r.value) == Lowercase(Trim(hexKey))
    ensures forall n: nat :: r == Err(KeyWrongLength(n)) <==> AllHex(Trim(hexKey)) && |Trim(hexKey)| == 2 * n && n != 32
  {
    TrimResult(hexKey);
    TrimResult(Trim(hexKey));
    EncodeOfDecode(Trim(hexKey));
    var bytes := HexDecode(Trim(hexKey));
    if bytes.Err? {
      return Err(KeyNotHex(bytes.error));
    }
    if |bytes.value| != KEY_LEN {
      return Err(KeyWrongLength(|bytes.value|));
    }
    return Ok(bytes.value);
  }

  /** `[nonce][ciphertext + tag]` */
  function Seal(a: Aead, nonce: Bytes, plaintext: Bytes): Bytes {
    nonce + a.encrypt(nonce, plaintext)
  }

  function Open(a: Aead, blob: Bytes): Result<Bytes, CipherError> {
    if |blob| < NONCE_LEN then Err(BlobTooShort)
    else match a.decrypt(blob[..NONCE_LEN], blob[NONCE_LEN..])
      case None => Err(DecryptFailed)
      case Some(p) => Ok(p)
  }

  /** The envelope round-trips for every twelve-byte nonce. */
  lemma OpenSeal(a: Aead, nonce: Bytes, plaintext: Bytes)
    requires Inverts(a) && |nonce| == 12
    ensures Open(a, Seal(a, nonce, plaintext)) == Ok(plaintext)
  {
    var blob := Seal(a, nonce, plaintext);
    assert blob[..NONCE_LEN] == nonce && blob[NONCE_LEN..] == a.encrypt(nonce, plaintext);
  }

  /** A blob without room for a nonce is refused unread; any other is handed over whole,
      its first twelve bytes as the nonce. */
  lemma OpenAnswers(a: Aead, blob: Bytes)
    ensures Open(a, blob) == Err(BlobTooShort) <==> |blob| < 12
    ensures |blob| >= 12 ==>
              && (Open(a, blob) == Err(DecryptFailed) <==> a.decrypt(blob[..12], blob[12..]) == None)
              && (forall p :: Open(a, blob) == Ok(p) <==> a.decrypt(blob[..12], blob[12..]) == Some(p))
  {
  }
}
