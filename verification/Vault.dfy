/** Binding credentials at rest: JSON, nonce-prefixed AES-256-GCM, base64. */
module Vault {
  import opened Wrappers

  type Bytes = seq<bv8>
  type Credentials = map<string, string>

  const NONCE_SIZE := 12

  /** The primitives: authenticated encryption (key, nonce, text), JSON and base64. */
  datatype Library = Library(
    seal: (Bytes, Bytes, Bytes) -> Bytes, open: (Bytes, Bytes, Bytes) -> Option<Bytes>,
    marshal: Credentials -> Bytes, unmarshal: Bytes -> Option<Credentials>,
    encode: Bytes -> string, decode: string -> Option<Bytes>)

  /** Opening inverts sealing under the same key and fails under another; the encodings are invertible. */
  ghost predicate Lawful(lib: Library)
  {
    && (forall k, n, p :: lib.open(k, n, lib.seal(k, n, p)) == Some(p))
    && (forall k, k', n, p | k != k' :: lib.open(k', n, lib.seal(k, n, p)) == None)
    && (forall c :: lib.unmarshal(lib.marshal(c)) == Some(c))
    && (forall b :: lib.decode(lib.encode(b)) == Some(b))
  }

  datatype Encryptor = Noop | Gcm(key: Bytes)

  function Encrypt(lib: Library, e: Encryptor, plain: Bytes, nonce: Bytes): Bytes
  {
    match e
    case Noop => plain
    case Gcm(key) => nonce + lib.seal(key, nonce, plain)
  }

  function Decrypt(lib: Library, e: Encryptor, text: Bytes): Option<Bytes>
  {
    match e
    case Noop => Some(text)
    case Gcm(key) =>
      if |text| < NONCE_SIZE then None else lib.open(key, text[..NONCE_SIZE], text[NONCE_SIZE..])
  }

  /** The stored column of a binding's credentials. */
  function Store(lib: Library, e: Encryptor, plain: Bytes, nonce: Bytes): string
  {
    lib.encode(Encrypt(lib, e, plain, nonce))
  }

  /** The plaintext behind a stored column, if this encryptor can read it. */
  function Plain(lib: Library, e: Encryptor, stored: string): Option<Bytes>
  {
    match lib.decode(stored)
    case None => None
    case Some(text) => Decrypt(lib, e, text)
  }

  function Read(lib: Library, e: Encryptor, stored: string): Option<Credentials>
  {
    match Plain(lib, e, stored)
    case None => None
    case Some(plain) => lib.unmarshal(plain)
  }

  /** What is stored, as any reader of the format finds it: a nonce and the text sealed with it, in base64. */
  predicate Holds(lib: Library, e: Encryptor, plain: Bytes, nonce: Bytes, stored: string)
    requires |nonce| == NONCE_SIZE
  {
    match lib.decode(stored)
    case None => false
    case Some(text) =>
      if e.Noop? then text == plain
      else
        && |text| >= NONCE_SIZE && (forall i | 0 <= i < NONCE_SIZE :: text[i] == nonce[i])
        && lib.open(e.key, nonce, text[NONCE_SIZE..]) == Some(plain)
  }

  lemma StoreThenPlain(lib: Library, e: Encryptor, plain: Bytes, nonce: Bytes)
    requires Lawful(lib) && |nonce| == NONCE_SIZE
    ensures Plain(lib, e, Store(lib, e, plain, nonce)) == Some(plain)
    ensures Holds(lib, e, plain, nonce, Store(lib, e, plain, nonce))
    ensures forall other: Encryptor | e.Gcm? && other.Gcm? && other != e ::
      Plain(lib, other, Store(lib, e, plain, nonce)) == None
  {
    if e.Gcm? {
      var text := nonce + lib.seal(e.key, nonce, plain);
      assert text[..NONCE_SIZE] == nonce && text[NONCE_SIZE..] == lib.seal(e.key, nonce, plain);
    }
  }

  /** Credentials stored and read back are the same; another key reads nothing. */
  lemma CredentialsRoundTrip(lib: Library, e: Encryptor, credentials: Credentials, nonce: Bytes)
    requires Lawful(lib) && |nonce| == NONCE_SIZE
    ensures Read(lib, e, Store(lib, e, lib.marshal(credentials), nonce)) == Some(credentials)
    ensures forall other: Encryptor | e.Gcm? && other.Gcm? && other != e ::
      Read(lib, other, Store(lib, e, lib.marshal(credentials), nonce)) == None
  {
    StoreThenPlain(lib, e, lib.marshal(credentials), nonce);
  }
}
