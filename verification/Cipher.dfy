/**
  Encryption keys and encrypted credentials: the two places that validate the key, and the framing of a
  sealed text as Base 64 of nonce and ciphertext.
 */
module Cipher {
  import opened GoBytes
  import opened Hex
  import opened Wrappers
  import Base64

  // ---- The two validators --------------------------------------------------------------------------

  /** The environment as the configuration reads it; an unset variable is empty. */
  datatype Config = Config(port: Bytes, appUrl: Bytes, clerkSecretKey: Bytes, databaseUrl: Bytes, encryptionKey: Bytes)

  datatype ConfigError = Missing | InvalidHexKey | InvalidKeyLength

  /** `config.Load`. */
  function Load(env: Config): (r: Result<Config, ConfigError>)
  {
    if env.port == [] || env.appUrl == [] || env.clerkSecretKey == [] || env.databaseUrl == [] || env.encryptionKey == []
    then Err(Missing)
    else
      var trimmed := TrimSpace(env.encryptionKey);
      if |trimmed| == 64 then (if HexDecode(trimmed).Some? then Ok(env) else Err(InvalidHexKey))
      else if |trimmed| != 32 then Err(InvalidKeyLength)
      else Ok(env)
  }

  /** `parseKey`: 64 hex digits, or 32 raw bytes. */
  function ParseKey(keyStr: Bytes): (key: Option<Bytes>)
    ensures key.Some? ==> |key.value| == 32
  {
    var s := TrimSpace(keyStr);
    var decoded := HexDecode(s);
    if |s| == 64 && decoded.Some? && |decoded.value| == 32 then decoded
    else if |s| == 32 then Some(s)
    else None
  }

  lemma TrimNothing()
    ensures TrimSpace([]) == []
  {
  }

  /** Start-up accepts a key exactly when the cipher can be built from it, with 32 bytes. */
  lemma ValidatorsAgree(env: Config)
    requires env.port != [] && env.appUrl != [] && env.clerkSecretKey != [] && env.databaseUrl != []
    ensures Load(env).Ok? <==> ParseKey(env.encryptionKey).Some?
    ensures Load(env).Ok? ==> Load(env).value == env && |ParseKey(env.encryptionKey).value| == 32
  {
    hide TrimSpace, HexDecode;
    HexAccepts(TrimSpace(env.encryptionKey));
    TrimNothing();
  }

  /** Every 32-byte key can be configured: its hex form is accepted and parsed back to it. */
  lemma EveryKeyConfigurable(key: Bytes)
    requires |key| == 32
    ensures ParseKey(HexEncode(key)) == Some(key)
  {
    HexRoundTrip(key);
    HexAccepts(HexEncode(key));
    var s := HexEncode(key);
    DigitsAreNoSpace(s);
  }

  /** What a key string stands for: its 32 raw bytes, or the 32 bytes its 64 hex digits write. */
  lemma ParsedKeyIs(keyStr: Bytes)
    ensures var s, key := TrimSpace(keyStr), ParseKey(keyStr);
            && (key.Some? <==> |s| == 32 || (|s| == 64 && AllHex(s)))
            && (|s| == 32 ==> key == Some(s))
            && (|s| == 64 && AllHex(s) ==> HexEncode(key.value) == Lower(s))
  {
    hide TrimSpace, HexDecode, HexEncode;
    var s := TrimSpace(keyStr);
    HexAccepts(s);
    if |s| == 64 && AllHex(s) {
      HexWritesBack(s);
    }
  }

  /** Why start-up fails. */
  lemma LoadFails(env: Config)
    ensures var s := TrimSpace(env.encryptionKey);
            var missing := [] in [env.port, env.appUrl, env.clerkSecretKey, env.databaseUrl, env.encryptionKey];
            && (Load(env) == Err(Missing) <==> missing)
            && (Load(env) == Err(InvalidHexKey) <==> !missing && |s| == 64 && !AllHex(s))
            && (Load(env) == Err(InvalidKeyLength) <==> !missing && |s| != 64 && |s| != 32)
  {
    hide TrimSpace, HexDecode;
    HexAccepts(TrimSpace(env.encryptionKey));
  }

  lemma DigitIsNoSpace(e: Bytes)
    requires e != [] && Nibble(e[0]).Some?
    ensures !IsSpace(e)
  {
  }

  lemma NoSpaceAround(s: Bytes)
    requires AllHex(s)
    ensures LeadingSpace(s) == 0 && TrailingSpace(s) == 0
  {
    hide IsSpace, Nibble;
    var n, m := LeadingSpace(s), TrailingSpace(s);
    if n > 0 {
      assert s[..n][0] == s[0] && s[0] in s;
      DigitIsNoSpace(s[..n]);
    }
    if m > 0 {
      assert s[|s| - m..][0] == s[|s| - m] && s[|s| - m] in s;
      DigitIsNoSpace(s[|s| - m..]);
    }
  }

  lemma DigitsAreNoSpace(s: Bytes)
    requires AllHex(s)
    ensures TrimSpace(s) == s
  {
    hide Nibble, LeadingSpace, TrailingSpace;
    NoSpaceAround(s);
  }

  // ---- Sealing -------------------------------------------------------------------------------------

  const NONCE_SIZE: nat := 12

  /** An authenticated cipher: `seal(key, nonce, plain)` and `open(key, nonce, sealed)`. */
  datatype Aead = Aead(seal: (Bytes, Bytes, Bytes) -> Bytes, open: (Bytes, Bytes, Bytes) -> Option<Bytes>)

  ghost predicate Lawful(a: Aead)
  {
    forall key, nonce, plain :: a.open(key, nonce, a.seal(key, nonce, plain)) == Some(plain)
  }

  /** All that is used of AES-GCM: opening undoes sealing under the same key and nonce. */
  type Gcm = a: Aead | Lawful(a) ghost witness Aead((k, n, p) => p, (k, n, c) => Some(c))

  datatype CipherError = InvalidBase64 | InvalidKeySize | NoEntropy | TooShort | OpenFailed

  predicate AesKey(key: Bytes)
  {
    |key| == 16 || |key| == 24 || |key| == 32
  }

  /** Base 64 of the nonce followed by the sealed text. */
  function Encrypt(gcm: Gcm, plain: Bytes, key: Bytes, random: Bytes): (r: Result<Bytes, CipherError>)
  {
    if !AesKey(key) then Err(InvalidKeySize)
    else if |random| < NONCE_SIZE then Err(NoEntropy)
    else Ok(Base64.Encode(random[..NONCE_SIZE] + gcm.seal(key, random[..NONCE_SIZE], plain)))
  }

  function Decrypt(gcm: Gcm, text: Bytes, key: Bytes): (r: Result<Bytes, CipherError>)
  {
    match Base64.Decode(text)
    case None => Err(InvalidBase64)
    case Some(data) =>
      if !AesKey(key) then Err(InvalidKeySize)
      else if |data| < NONCE_SIZE then Err(TooShort)
      else match gcm.open(key, data[..NONCE_SIZE], data[NONCE_SIZE..])
           case Some(plain) => Ok(plain)
           case None => Err(OpenFailed)
  }

  /** Whatever the nonce, a text that was encrypted is decrypted under the same key. */
  lemma DecryptEncrypted(gcm: Gcm, plain: Bytes, key: Bytes, random: Bytes)
    requires Encrypt(gcm, plain, key, random).Ok?
    ensures Decrypt(gcm, Encrypt(gcm, plain, key, random).value, key) == Ok(plain)
  {
    var nonce := random[..NONCE_SIZE];
    var sealed := gcm.seal(key, nonce, plain);
    Base64.RoundTrip(nonce + sealed);
    assert (nonce + sealed)[..NONCE_SIZE] == nonce && (nonce + sealed)[NONCE_SIZE..] == sealed;
  }

  /** The stored text is the nonce and the sealed text: decoding it shows both. */
  lemma EncryptedIs(gcm: Gcm, plain: Bytes, key: Bytes, random: Bytes)
    requires Encrypt(gcm, plain, key, random).Ok?
    ensures var d := Base64.Decode(Encrypt(gcm, plain, key, random).value);
            && |random| >= 12 && d.Some? && |d.value| >= 12
            && d.value[..12] == random[..12]
            && d.value[12..] == gcm.seal(key, random[..12], plain)
  {
    var nonce := random[..12];
    var sealed := gcm.seal(key, nonce, plain);
    Base64.RoundTrip(nonce + sealed);
    assert (nonce + sealed)[..12] == nonce && (nonce + sealed)[12..] == sealed;
  }

  /** Texts encrypted with different random bytes differ, whatever is encrypted. */
  lemma NoncesTellTextsApart(gcm: Gcm, plain1: Bytes, plain2: Bytes, key: Bytes, random1: Bytes, random2: Bytes)
    requires Encrypt(gcm, plain1, key, random1).Ok? && Encrypt(gcm, plain2, key, random2).Ok?
    requires |random1| >= 12 && |random2| >= 12 && random1[..12] != random2[..12]
    ensures Encrypt(gcm, plain1, key, random1).value != Encrypt(gcm, plain2, key, random2).value
  {
    hide Encrypt;
    EncryptedIs(gcm, plain1, key, random1);
    EncryptedIs(gcm, plain2, key, random2);
  }

  /** `encryptWithBytes`: fills the nonce buffer from the random source and appends the sealed text to it. */
  method EncryptWithBytes(gcm: Gcm, plain: Bytes, key: Bytes, random: Bytes) returns (r: Result<Bytes, CipherError>)
    ensures r == Encrypt(gcm, plain, key, random)
    ensures r.Ok? ==> Decrypt(gcm, r.value, key) == Ok(plain)
    ensures r.Ok? ==>
              var d := Base64.Decode(r.value);
              && |random| >= 12 && d.Some? && |d.value| >= 12 && d.value[..12] == random[..12]
              && gcm.open(key, d.value[..12], d.value[12..]) == Some(plain)
    ensures r == Err(InvalidKeySize) <==> |key| != 16 && |key| != 24 && |key| != 32
    ensures r == Err(NoEntropy) <==> (|key| == 16 || |key| == 24 || |key| == 32) && |random| < 12
    ensures r.Err? ==> r.error == InvalidKeySize || r.error == NoEntropy
  {
    if !AesKey(key) {
      return Err(InvalidKeySize);
    }
    var nonce := new Byte[NONCE_SIZE](_ => 0);
    var n := 0;
    while n < nonce.Length && n < |random|
      invariant n <= nonce.Length && n <= |random|
      invariant nonce[..n] == random[..n]
    {
      nonce[n] := random[n];
      n := n + 1;
    }
    if n < nonce.Length {
      return Err(NoEntropy);
    }
    assert nonce[..] == random[..NONCE_SIZE];
    var cipherText := nonce[..] + gcm.seal(key, nonce[..], plain);
    r := Ok(Base64.Encode(cipherText));
    DecryptEncrypted(gcm, plain, key, random);
    EncryptedIs(gcm, plain, key, random);
  }
}
