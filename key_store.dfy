/**
 * The five artifact files, as a map from file name to contents: a name
 * that is not a key of the map is a file that does not exist.
 */
module KeyStore {
  import opened Wrappers
  import opened Kem
  import opened Errors

  type Store = map<string, Bytes>

  const PublicKey: string := "public_key.bin"
  const PrivateKey: string := "private_key.bin"
  const Ciphertext: string := "ciphertext.bin"
  const SharedSecret: string := "shared_secret.bin"
  const DecryptedSecret: string := "decrypted_secret.bin"

  /**
   * `load_key`: the whole contents of the file, or FileNotFoundError naming
   * it when it does not exist.
   */
  function Get(s: Store, name: string): (r: Result<Bytes, Error>)
    ensures r.Success? <==> name in s
    ensures r.Success? ==> r.value == s[name]
    ensures r.Failure? ==> r.error == FileNotFound(name)
  {
    if name in s then Success(s[name]) else Failure(FileNotFound(name))
  }

  /**
   * `save_key`: writing creates the file or overwrites it. Reading it back
   * gives exactly what was written, and every other file reads as before.
   */
  function Put(s: Store, name: string, data: Bytes): (r: Store)
    ensures Get(r, name) == Success(data)
    ensures forall n :: n != name ==> Get(r, n) == Get(s, n)
    ensures r.Keys == s.Keys + {name}
  {
    s[name := data]
  }

  /** A later write to a file hides an earlier one. */
  lemma PutPut(s: Store, name: string, d1: Bytes, d2: Bytes)
    ensures Put(Put(s, name, d1), name, d2) == Put(s, name, d2)
  {
  }

  /**
   * The file system itself: one object whose `files` map
   * `save_key` updates in place.
   */
  class FileStore {
    var files: Store

    constructor (initial: Store)
      ensures files == initial
    {
      files := initial;
    }

    /** `save_key(name, data)`. */
    method SaveKey(name: string, data: Bytes)
      modifies this
      ensures files == Put(old(files), name, data)
    {
      files := files[name := data];
    }

    /** `load_key(name)`: reads and changes nothing. */
    method LoadKey(name: string) returns (r: Result<Bytes, Error>)
      ensures r == Get(files, name)
    {
      if name in files {
        r := Success(files[name]);
      } else {
        r := Failure(FileNotFound(name));
      }
    }
  }
}
