/**
 * The helpers at the top of the server: the encryption key with its
 * development default, field encryption, SHA-256 and the six-digit PIN.
 * CryptoJS is not modelled: AES and SHA-256 are injected as opaque functions.
 * With a passphrase key, CryptoJS AES draws a fresh random salt on every
 * call, so the cipher also takes that salt, given like the PIN's draw;
 * SHA-256 (`sha256(text)`) is unsalted, a function of its input alone, and
 * is used as `c.sha256` directly.
 */
module Helpers {
  import opened Js

  /** Key used when the ENC_KEY environment variable is unset or empty. */
  const DefaultEncKey: string := "dev-secret-key-change-this"

  /**
   * The two CryptoJS primitives and the key; `aes(text, key, salt)` is the
   * ciphertext's string form under the salt that call drew.
   */
  datatype Crypto = Crypto(aes: (string, string, Salt) -> string, sha256: string -> string, key: string)

  /** Number of possible AES salts: CryptoJS draws 8 random bytes per passphrase encryption. */
  const SaltSpace: nat := 0x1_0000_0000_0000_0000

  /** The random salt of one encryption, as an integer. */
  type Salt = s: nat | s < SaltSpace

  /** `process.env.ENC_KEY || "dev-secret-key-change-this"` */
  function EncKey(env: Option<string>): (key: string)
    ensures key != ""
    ensures Missing(env) ==> key == DefaultEncKey
    ensures !Missing(env) ==> key == env.value
  {
    OrElse(env, DefaultEncKey)
  }

  /**
   * `encrypt(text)`: a missing or empty text becomes the empty string without
   * the cipher being consulted; any other text is handed to AES under the
   * key, with `salt` as that call's random salt.
   */
  function Encrypt(c: Crypto, text: Option<string>, salt: Salt): (r: string)
    ensures Missing(text) ==> r == ""
    ensures !Missing(text) ==> r == c.aes(text.value, c.key, salt)
  {
    if Missing(text) then "" else c.aes(text.value, c.key, salt)
  }

  /**
   * The cipher is never consulted for a missing or empty text: any two
   * ciphers, keys and salts agree on it.
   */
  lemma EncryptMissingIgnoresCipher(c1: Crypto, c2: Crypto, text: Option<string>, salt1: Salt, salt2: Salt)
    requires Missing(text)
    ensures Encrypt(c1, text, salt1) == Encrypt(c2, text, salt2) == ""
  {
  }

  /** Number of equally likely PINs: the integer draw replacing `Math.random()` lies in [0, PinSpace). */
  const PinSpace: nat := 900000

  /**
   * `randomPin()`: `Math.floor(100000 + Math.random() * 900000).toString()`,
   * with `Math.floor(Math.random() * 900000)` given as `draw`.  The PIN is
   * always six decimal digits with a non-zero leading digit, and it spells
   * out 100000 + draw.
   */
  function RandomPin(draw: int): (pin: string)
    requires 0 <= draw < PinSpace
    ensures |pin| == 6
    ensures forall i :: 0 <= i < |pin| ==> IsDigit(pin[i])
    ensures pin[0] != '0'
    ensures DecimalValue(pin) == 100000 + draw
  {
    var n := 100000 + draw;
    assert Pow10(5) == 100000 && Pow10(6) == 1000000;
    NumberToStringLength(n, 5);
    DecimalValueOfNumberToString(n);
    NumberToString(n)
  }

  /** Different draws give different PINs, so the PIN space has PinSpace members. */
  lemma RandomPinInjective(d1: int, d2: int)
    requires 0 <= d1 < PinSpace && 0 <= d2 < PinSpace
    requires d1 != d2
    ensures RandomPin(d1) != RandomPin(d2)
  {
  }
}
