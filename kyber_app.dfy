/**
 * The application object and the command-line entry point. Each method
 * changes the file store step by step, as the program does, and is proved
 * to leave exactly the store the corresponding Workflow function describes.
 */
module KyberApplication {
  import opened Wrappers
  import opened Kem
  import opened Errors
  import opened SchemeRegistry
  import opened KeyStore
  import opened Workflow

  class KyberApp {
    const mode: string
    const level: int
    const scheme: SchemeId
    /** The key-encapsulation library: the operations of each scheme. */
    const lib: SchemeId -> Kem
    /** The working directory the artifact files live in. */
    const fs: FileStore

    /** The constructor once the selection has been found valid; see Create. */
    constructor (mode: string, level: int, lib: SchemeId -> Kem, fs: FileStore)
      requires Select(mode, level).Success?
      ensures this.mode == Lower(mode) && this.level == level
      ensures this.scheme == Select(mode, level).value
      ensures this.lib == lib && this.fs == fs
    {
      this.mode := Lower(mode);
      this.level := level;
      this.scheme := GetScheme(Lower(mode), level).value;
      this.lib := lib;
      this.fs := fs;
    }

    /**
     * `KyberApp(mode, level)`: an invalid selection raises before any file
     * is read or written (Create has no modifies clause).
     */
    static method Create(lib: SchemeId -> Kem, fs: FileStore, mode: string := "ml-kem", level: int := 512)
      returns (r: Result<KyberApp, Error>)
      ensures r.Failure? <==> Select(mode, level).Failure?
      ensures r.Failure? ==> r.error == InvalidSelection
      ensures r.Success? ==>
        && fresh(r.value)
        && r.value.mode == Lower(mode) && r.value.level == level
        && r.value.scheme == Select(mode, level).value
        && r.value.lib == lib && r.value.fs == fs
    {
      var lowered := Lower(mode);
      var id := GetScheme(lowered, level);
      if id.Failure? {
        r := Failure(id.error);
      } else {
        var app := new KyberApp(mode, level, lib, fs);
        r := Success(app);
      }
    }

    /** `generate_keys`. */
    method GenerateKeys(coins: Bytes)
      modifies fs
      ensures fs.files == Workflow.GenerateKeys(old(fs.files), lib(scheme), coins)
    {
      var pair := lib(scheme).keygen(coins);
      fs.SaveKey(PublicKey, pair.ek);
      fs.SaveKey(PrivateKey, pair.dk);
    }

    /** `encapsulate`: a missing public key raises before anything is written. */
    method Encapsulate(coins: Bytes) returns (r: Outcome<Error>)
      modifies fs
      ensures match Workflow.Encapsulate(old(fs.files), lib(scheme), coins)
        case Failure(err) => r == Fail(err) && fs.files == old(fs.files)
        case Success(s') => r == Pass && fs.files == s'
    {
      var ek := fs.LoadKey(PublicKey);
      if ek.Failure? {
        return Fail(ek.error);
      }
      var e := lib(scheme).encaps(ek.value, coins);
      fs.SaveKey(Ciphertext, e.ct);
      fs.SaveKey(SharedSecret, e.key);
      r := Pass;
    }

    /** `decapsulate`: the private key is loaded first, then the ciphertext. */
    method Decapsulate() returns (r: Outcome<Error>)
      modifies fs
      ensures match Workflow.Decapsulate(old(fs.files), lib(scheme))
        case Failure(err) => r == Fail(err) && fs.files == old(fs.files)
        case Success(s') => r == Pass && fs.files == s'
    {
      var dk := fs.LoadKey(PrivateKey);
      if dk.Failure? {
        return Fail(dk.error);
      }
      var ct := fs.LoadKey(Ciphertext);
      if ct.Failure? {
        return Fail(ct.error);
      }
      var key := lib(scheme).decaps(dk.value, ct.value);
      fs.SaveKey(DecryptedSecret, key);
      r := Pass;
    }

    /** `verify_decapsulation`: reads the two secrets and changes nothing. */
    method VerifyDecapsulation() returns (v: Verdict)
      ensures v == Workflow.VerifyDecapsulation(fs.files)
    {
      var shared := fs.LoadKey(SharedSecret);
      if shared.Failure? {
        return FileMissing(shared.error.path);
      }
      var decrypted := fs.LoadKey(DecryptedSecret);
      if decrypted.Failure? {
        return FileMissing(decrypted.error.path);
      }
      v := if shared.value == decrypted.value then Match else Mismatch;
    }
  }

  /**
   * `main`, after the command line has been parsed: the invocation ends with
   * the status and the files that Workflow.Run describes.
   */
  method RunCommand(fs: FileStore, cmd: Command, lib: SchemeId -> Kem, coins: Bytes)
    returns (status: Result<Option<Verdict>, Error>)
    modifies fs
    ensures Completion(status, fs.files) == Run(old(fs.files), cmd, lib, coins)
  {
    var created := KyberApp.Create(lib, fs, cmd.mode, cmd.level);
    if created.Failure? {
      return Failure(created.error);
    }
    var app := created.value;
    match cmd.action
    case Keygen =>
      app.GenerateKeys(coins);
      status := Success(None);
    case Encaps =>
      var r := app.Encapsulate(coins);
      status := if r.Fail? then Failure(r.error) else Success(None);
    case Decaps =>
      var r := app.Decapsulate();
      if r.Fail? {
        return Failure(r.error);
      }
      if cmd.verify {
        var v := app.VerifyDecapsulation();
        status := Success(Some(v));
      } else {
        status := Success(None);
      }
  }
}
