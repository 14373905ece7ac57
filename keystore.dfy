/** The local private-key file of package kms: the key is stored encrypted
    under a master key, its plaintext framed as the key's double hash followed
    by the serialized key; loading checks the length and the hash before
    trusting the bytes, and start-up either loads the key, generates and saves
    a fresh one, or gives up, depending on why loading failed. */
module KeyStore {
  import opened Wrappers

  /** hash.HashBSize: the length of a double-SHA256 digest. */
  const HashBSize: nat := 32

  /** ec.PrivKeyBytesLen: the length of a serialized secp256k1 private key. */
  const PrivKeyBytesLen: nat := 32

  /** A digest as hash.DoubleHashB returns it. */
  type Digest = s: seq<byte> | |s| == HashBSize witness seq(HashBSize, _ => 0 as byte)

  /** The errors the load path distinguishes. */
  datatype KeyError =
    | ErrNotKeyFile            // decrypted payload of the wrong length
    | ErrHashNotMatch          // hash prefix does not match the key bytes
    | PathError(path: string)  // *os.PathError from reading the file
    | ErrNotExist              // os.ErrNotExist
    | CryptoError(reason: string)  // a failure of encryption, decryption or key generation

  /** An ec.PrivateKey, seen through its 32-byte serialization. */
  datatype PrivateKey = PrivateKey(bytes: seq<byte>)

  /** An ec.PublicKey. */
  datatype PublicKey = PublicKey(bytes: seq<byte>)

  /** The cryptographic collaborators, left uninterpreted: the double hash,
      password-based encryption and decryption, and public-key derivation. */
  datatype Crypto = Crypto(
    doubleHash: seq<byte> -> Digest,
    encrypt: (seq<byte>, seq<byte>) -> Result<seq<byte>, KeyError>,
    decrypt: (seq<byte>, seq<byte>) -> Result<seq<byte>, KeyError>,
    pubKey: PrivateKey -> PublicKey)

  /** The plaintext SavePrivateKey encrypts: the digest of the serialized key,
      then the key itself. */
  function Frame(c: Crypto, key: seq<byte>): (raw: seq<byte>)
    ensures |raw| == HashBSize + |key|
    ensures raw[..HashBSize] == c.doubleHash(key)
    ensures raw[HashBSize..] == key
  {
    c.doubleHash(key) + key
  }

  /** The checks LoadPrivateKey makes on a decrypted payload: the wrong length
      is ErrNotKeyFile, a hash prefix that is not the digest of the remainder is
      ErrHashNotMatch, and otherwise the key is built from the bytes after the
      prefix. Every payload accepted is the frame of the key returned. */
  function Unframe(c: Crypto, decData: seq<byte>): (r: Result<PrivateKey, KeyError>)
    ensures |decData| != HashBSize + PrivKeyBytesLen ==> r == Failure(ErrNotKeyFile)
    ensures (|decData| == HashBSize + PrivKeyBytesLen && c.doubleHash(decData[HashBSize..]) != decData[..HashBSize])
              ==> r == Failure(ErrHashNotMatch)
    ensures r.Success? <==>
              |decData| == HashBSize + PrivKeyBytesLen && c.doubleHash(decData[HashBSize..]) == decData[..HashBSize]
    ensures r.Success? ==> |r.value.bytes| == PrivKeyBytesLen && decData == Frame(c, r.value.bytes)
  {
    if |decData| != HashBSize + PrivKeyBytesLen then
      Failure(ErrNotKeyFile)
    else if c.doubleHash(decData[HashBSize..]) != decData[..HashBSize] then
      Failure(ErrHashNotMatch)
    else
      assert decData == decData[..HashBSize] + decData[HashBSize..];
      Success(PrivateKey(decData[HashBSize..]))
  }

  /** Unframing the frame of a key of the right length gives back that key. */
  lemma UnframeFrame(c: Crypto, key: seq<byte>)
    requires |key| == PrivKeyBytesLen
    ensures Unframe(c, Frame(c, key)) == Success(PrivateKey(key))
  {
  }

  /** LoadPrivateKey over a file system given as a map from path to contents:
      a missing file is a path error, a decryption error is passed on, and the
      decrypted payload is then unframed. */
  function LoadPrivateKey(files: map<string, seq<byte>>, path: string, masterKey: seq<byte>, c: Crypto)
    : (r: Result<PrivateKey, KeyError>)
    ensures path !in files ==> r == Failure(PathError(path))
    ensures path in files && c.decrypt(files[path], masterKey).Failure? ==>
      r == Failure(c.decrypt(files[path], masterKey).error)
    ensures path in files && c.decrypt(files[path], masterKey).Success? ==>
      r == Unframe(c, c.decrypt(files[path], masterKey).value)
    ensures r.Success? ==>
      && path in files
      && |r.value.bytes| == PrivKeyBytesLen
      && c.decrypt(files[path], masterKey) == Success(Frame(c, r.value.bytes))
  {
    if path !in files then
      Failure(PathError(path))
    else
      match c.decrypt(files[path], masterKey)
      case Failure(e) => Failure(e)
      case Success(decData) => Unframe(c, decData)
  }

  /** The file contents SavePrivateKey writes: the encrypted frame of the key. */
  function KeyFileContents(key: PrivateKey, masterKey: seq<byte>, c: Crypto): Result<seq<byte>, KeyError>
  {
    c.encrypt(Frame(c, key.bytes), masterKey)
  }

  /** Round trip: what SavePrivateKey writes, LoadPrivateKey reads back as the
      same key, provided decryption inverts encryption on that frame. */
  lemma SaveThenLoad(files: map<string, seq<byte>>, path: string, key: PrivateKey, masterKey: seq<byte>, c: Crypto)
    requires |key.bytes| == PrivKeyBytesLen
    requires KeyFileContents(key, masterKey, c).Success?
    requires c.decrypt(KeyFileContents(key, masterKey, c).value, masterKey) == Success(Frame(c, key.bytes))
    ensures LoadPrivateKey(files[path := KeyFileContents(key, masterKey, c).value], path, masterKey, c) == Success(key)
  {
    UnframeFrame(c, key.bytes);
  }

  /** What InitLocalKeyPair does after a failed load. */
  datatype Recovery = RejectKeyFile | GenerateKey | AbortUnexpected

  /** ErrNotKeyFile is given up on at once; a path error or a missing file leads
      to generating a new key; every other error, ErrHashNotMatch included,
      aborts. */
  function Classify(e: KeyError): (d: Recovery)
    ensures d == RejectKeyFile <==> e == ErrNotKeyFile
    ensures d == GenerateKey <==> e.PathError? || e == ErrNotExist
    ensures e == ErrHashNotMatch ==> d == AbortUnexpected
  {
    if e == ErrNotKeyFile then RejectKeyFile
    else if e.PathError? || e == ErrNotExist then GenerateKey
    else AbortUnexpected
  }

  /** The state InitLocalKeyPair works on: the file system and the process-wide
      local key pair. */
  class KeyEnvironment {
    var files: map<string, seq<byte>>
    var localKeyPair: Option<(PrivateKey, PublicKey)>

    constructor (files: map<string, seq<byte>>)
      ensures this.files == files && localKeyPair == None
    {
      this.files := files;
      localKeyPair := None;
    }

    /** SavePrivateKey: write the encrypted frame of the key at path; an
        encryption error is returned and nothing is written. */
    method SavePrivateKey(path: string, key: PrivateKey, masterKey: seq<byte>, c: Crypto) returns (err: Option<KeyError>)
      modifies this`files
      ensures KeyFileContents(key, masterKey, c).Failure? ==>
        err == Some(KeyFileContents(key, masterKey, c).error) && files == old(files)
      ensures KeyFileContents(key, masterKey, c).Success? ==>
        err == None && files == old(files)[path := KeyFileContents(key, masterKey, c).value]
    {
      var encKey := c.encrypt(Frame(c, key.bytes), masterKey);
      if encKey.Failure? {
        return Some(encKey.error);
      }
      files := files[path := encKey.value];
      err := None;
    }

    /** InitLocalKeyPair: load the key; on failure, classify the error and
        either give up or generate a key pair and save it; finally install the
        pair, deriving the public key from the private one when it was loaded.
        `generated` is what key generation returns if it is asked. */
    method InitLocalKeyPair(path: string, masterKey: seq<byte>, c: Crypto,
                            generated: Result<(PrivateKey, PublicKey), KeyError>) returns (err: Option<KeyError>)
      modifies this
      ensures LoadPrivateKey(old(files), path, masterKey, c).Success? ==>
        var key := LoadPrivateKey(old(files), path, masterKey, c).value;
        err == None && files == old(files) && localKeyPair == Some((key, c.pubKey(key)))
      ensures LoadPrivateKey(old(files), path, masterKey, c).Failure? ==>
        var e := LoadPrivateKey(old(files), path, masterKey, c).error;
        && (Classify(e) != GenerateKey ==> err == Some(e) && unchanged(this))
        && (Classify(e) == GenerateKey && generated.Failure? ==> err == Some(generated.error) && unchanged(this))
        && (Classify(e) == GenerateKey && generated.Success? ==>
              var (privateKey, publicKey) := generated.value;
              match KeyFileContents(privateKey, masterKey, c)
              case Failure(se) => err == Some(se) && unchanged(this)
              case Success(contents) =>
                err == None && files == old(files)[path := contents] && localKeyPair == Some((privateKey, publicKey)))
    {
      var privateKey: PrivateKey;
      var publicKey: Option<PublicKey> := None;
      var loaded := LoadPrivateKey(files, path, masterKey, c);
      if loaded.Failure? {
        var e := loaded.error;
        if e == ErrNotKeyFile {
          return Some(e);
        }
        if e.PathError? || e == ErrNotExist {
          if generated.Failure? {
            return Some(generated.error);
          }
          privateKey := generated.value.0;
          publicKey := Some(generated.value.1);
          err := SavePrivateKey(path, privateKey, masterKey, c);
          if err.Some? {
            return;
          }
        } else {
          return Some(e);
        }
      } else {
        privateKey := loaded.value;
      }
      if publicKey.None? {
        publicKey := Some(c.pubKey(privateKey));
      }
      localKeyPair := Some((privateKey, publicKey.value));
      err := None;
    }
  }
}
