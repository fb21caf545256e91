/**
 * The three actions, the verification step and the command dispatch, as
 * functions from the store before an invocation to what it leaves behind.
 */
module Workflow {
  import opened Wrappers
  import opened Kem
  import opened Errors
  import opened SchemeRegistry
  import opened KeyStore

  /** The three things `verify_decapsulation` can report. */
  datatype Verdict = Match | Mismatch | FileMissing(path: string)

  /** The actions the command line accepts. */
  datatype Action = Keygen | Encaps | Decaps

  /** A parsed command line, with the defaults of its options. */
  datatype Command = Command(action: Action, mode: string := "ml-kem", level: int := 512, verify: bool := false)

  /**
   * What an invocation ends with: the verdict of the verification step if
   * it ran, or the error the invocation stopped on; and the store it leaves.
   */
  datatype Completion = Completion(status: Result<Option<Verdict>, Error>, store: Store)

  /** The two files `generate_keys` writes. */
  predicate IsKeySlot(name: string)
  {
    name == PublicKey || name == PrivateKey
  }

  /**
   * `generate_keys`: one `keygen` call; the public key file then holds its
   * encapsulation key and the private key file its decapsulation key, and
   * every other file is as it was. Nothing is read.
   */
  function GenerateKeys(s: Store, kem: Kem, coins: Bytes): (r: Store)
    ensures Get(r, PublicKey) == Success(kem.keygen(coins).ek)
    ensures Get(r, PrivateKey) == Success(kem.keygen(coins).dk)
    ensures forall n :: !IsKeySlot(n) ==> Get(r, n) == Get(s, n)
  {
    var pair := kem.keygen(coins);
    Put(Put(s, PublicKey, pair.ek), PrivateKey, pair.dk)
  }

  /**
   * `encapsulate`: fails with FileNotFoundError for the public key file when
   * it is missing. Otherwise the ciphertext and shared secret files hold what
   * `encaps` makes of the current public key, and every other file is as it was.
   */
  function Encapsulate(s: Store, kem: Kem, coins: Bytes): (r: Result<Store, Error>)
    ensures r.Failure? <==> PublicKey !in s
    ensures r.Failure? ==> r.error == FileNotFound(PublicKey)
    ensures r.Success? ==>
      var e := kem.encaps(s[PublicKey], coins);
      && Get(r.value, Ciphertext) == Success(e.ct)
      && Get(r.value, SharedSecret) == Success(e.key)
      && forall n :: n != Ciphertext && n != SharedSecret ==> Get(r.value, n) == Get(s, n)
  {
    match Get(s, PublicKey)
    case Failure(err) => Failure(err)
    case Success(ek) =>
      var e := kem.encaps(ek, coins);
      Success(Put(Put(s, Ciphertext, e.ct), SharedSecret, e.key))
  }

  /**
   * `decapsulate`: the private key file is looked for first, then the
   * ciphertext file, and the first one missing is the FileNotFoundError.
   * With both present, the decrypted secret file holds `decaps` of the two,
   * and every other file is as it was.
   */
  function Decapsulate(s: Store, kem: Kem): (r: Result<Store, Error>)
    ensures PrivateKey !in s ==> r == Failure(FileNotFound(PrivateKey))
    ensures PrivateKey in s && Ciphertext !in s ==> r == Failure(FileNotFound(Ciphertext))
    ensures r.Success? <==> PrivateKey in s && Ciphertext in s
    ensures r.Success? ==>
      && Get(r.value, DecryptedSecret) == Success(kem.decaps(s[PrivateKey], s[Ciphertext]))
      && forall n :: n != DecryptedSecret ==> Get(r.value, n) == Get(s, n)
  {
    match Get(s, PrivateKey)
    case Failure(err) => Failure(err)
    case Success(dk) =>
      match Get(s, Ciphertext)
      case Failure(err) => Failure(err)
      case Success(ct) => Success(Put(s, DecryptedSecret, kem.decaps(dk, ct)))
  }

  /**
   * `verify_decapsulation`: compares the two secrets byte for byte. A missing
   * file is reported, never raised; the shared secret file is looked for first.
   */
  function VerifyDecapsulation(s: Store): (v: Verdict)
    ensures v == Match <==> SharedSecret in s && DecryptedSecret in s && s[SharedSecret] == s[DecryptedSecret]
    ensures v == Mismatch <==> SharedSecret in s && DecryptedSecret in s && s[SharedSecret] != s[DecryptedSecret]
    ensures v.FileMissing? <==> SharedSecret !in s || DecryptedSecret !in s
    ensures v.FileMissing? ==> v.path == if SharedSecret !in s then SharedSecret else DecryptedSecret
  {
    match Get(s, SharedSecret)
    case Failure(err) => FileMissing(err.path)
    case Success(shared) =>
      match Get(s, DecryptedSecret)
      case Failure(err) => FileMissing(err.path)
      case Success(decrypted) => if shared == decrypted then Match else Mismatch
  }

  /**
   * `main`: construct the application (an invalid selection stops here,
   * before any file is touched), run the one action asked for, and run the
   * verification only after a decapsulation that succeeded, and only when
   * `--verify` was given. An invocation that fails leaves every file as it was.
   */
  function Run(s: Store, cmd: Command, lib: SchemeId -> Kem, coins: Bytes): (c: Completion)
    ensures Select(cmd.mode, cmd.level).Failure? ==> c == Completion(Failure(InvalidSelection), s)
    ensures c.status.Failure? ==> c.store == s
    ensures (c.status.Success? && c.status.value.Some?) <==>
      && cmd.action == Decaps && cmd.verify
      && Select(cmd.mode, cmd.level).Success?
      && PrivateKey in s && Ciphertext in s
    ensures c.status.Success? && c.status.value.Some? ==> c.status.value.value == VerifyDecapsulation(c.store)
    ensures Select(cmd.mode, cmd.level).Success? ==>
      var kem := lib(Select(cmd.mode, cmd.level).value);
      match cmd.action
      case Keygen => c == Completion(Success(None), GenerateKeys(s, kem, coins))
      case Encaps =>
        (match Encapsulate(s, kem, coins)
         case Failure(err) => c == Completion(Failure(err), s)
         case Success(s') => c == Completion(Success(None), s'))
      case Decaps =>
        (match Decapsulate(s, kem)
         case Failure(err) => c == Completion(Failure(err), s)
         case Success(s') =>
           c == Completion(Success(if cmd.verify then Some(VerifyDecapsulation(s')) else None), s'))
  {
    match Select(cmd.mode, cmd.level)
    case Failure(err) => Completion(Failure(err), s)
    case Success(id) =>
      var kem := lib(id);
      match cmd.action
      case Keygen => Completion(Success(None), GenerateKeys(s, kem, coins))
      case Encaps =>
        (match Encapsulate(s, kem, coins)
         case Failure(err) => Completion(Failure(err), s)
         case Success(s') => Completion(Success(None), s'))
      case Decaps =>
        match Decapsulate(s, kem)
        case Failure(err) => Completion(Failure(err), s)
        case Success(s') =>
          Completion(Success(if cmd.verify then Some(VerifyDecapsulation(s')) else None), s')
  }

  // Properties that relate several calls.

  /**
   * Generating keys reads nothing: two stores that differ only in the key
   * files are left identical.
   */
  lemma GenerateKeysReadsNothing(s1: Store, s2: Store, kem: Kem, coins: Bytes)
    requires forall n :: !IsKeySlot(n) ==> Get(s1, n) == Get(s2, n)
    ensures GenerateKeys(s1, kem, coins) == GenerateKeys(s2, kem, coins)
  {
    var r1, r2 := GenerateKeys(s1, kem, coins), GenerateKeys(s2, kem, coins);
    forall n ensures Get(r1, n) == Get(r2, n) {
      if !IsKeySlot(n) {
        assert Get(r1, n) == Get(s1, n) == Get(s2, n) == Get(r2, n);
      }
    }
    GetDeterminesStore(r1, r2);
  }

  /** Two stores in which every file reads the same are the same store. */
  lemma GetDeterminesStore(r1: Store, r2: Store)
    requires forall n :: Get(r1, n) == Get(r2, n)
    ensures r1 == r2
  {
    forall n | n in r1 ensures n in r2 && r1[n] == r2[n] {
      assert Get(r1, n) == Get(r2, n);
    }
    forall n | n in r2 ensures n in r1 {
      assert Get(r1, n) == Get(r2, n);
    }
  }

  /** Generating keys twice leaves only the second pair. */
  lemma GenerateKeysTwice(s: Store, kem: Kem, c1: Bytes, c2: Bytes)
    ensures GenerateKeys(GenerateKeys(s, kem, c1), kem, c2) == GenerateKeys(s, kem, c2)
  {
  }

  /**
   * After two key generations, encapsulation uses only the most recent public key.
   */
  lemma EncapsulateUsesLatestKey(s: Store, kem: Kem, c1: Bytes, c2: Bytes, c3: Bytes)
    ensures
      var r := Encapsulate(GenerateKeys(GenerateKeys(s, kem, c1), kem, c2), kem, c3);
      var e := kem.encaps(kem.keygen(c2).ek, c3);
      && r.Success?
      && Get(r.value, Ciphertext) == Success(e.ct)
      && Get(r.value, SharedSecret) == Success(e.key)
  {
  }

  /**
   * An encapsulation with no public key file fails with FileNotFoundError
   * and writes nothing.
   */
  lemma EncapsWithoutKeysFails(s: Store, mode: string, level: int, lib: SchemeId -> Kem, coins: Bytes)
    requires Select(mode, level).Success?
    requires PublicKey !in s
    ensures Run(s, Command(Encaps, mode, level), lib, coins) == Completion(Failure(FileNotFound(PublicKey)), s)
  {
  }

  /**
   * An encapsulation with the public key file present succeeds, even when
   * what it writes equals what the files already held.
   */
  lemma EncapsWithKeySucceeds(s: Store, mode: string, level: int, lib: SchemeId -> Kem, coins: Bytes)
    requires Select(mode, level).Success?
    requires PublicKey in s
    ensures Run(s, Command(Encaps, mode, level), lib, coins).status == Success(None)
  {
  }

  /**
   * Verification degrades gracefully: with the shared secret file missing, a
   * decapsulation with `--verify` still succeeds and reports the missing file.
   */
  lemma VerifyReportsMissingSharedSecret(s: Store, mode: string, level: int, lib: SchemeId -> Kem, coins: Bytes)
    requires Select(mode, level).Success?
    requires PrivateKey in s && Ciphertext in s && SharedSecret !in s
    ensures Run(s, Command(Decaps, mode, level, true), lib, coins).status == Success(Some(FileMissing(SharedSecret)))
  {
  }

  /**
   * The whole protocol, keygen, then encaps, then decaps with `--verify`,
   * reports a match, provided the selected scheme decapsulates correctly for
   * the randomness drawn. The KEM itself is not modelled, so that is a
   * hypothesis here.
   */
  lemma RoundTripMatches(s: Store, mode: string, level: int, lib: SchemeId -> Kem, c1: Bytes, c2: Bytes, c3: Bytes)
    requires Select(mode, level).Success?
    requires CorrectFor(lib(Select(mode, level).value), c1, c2)
    ensures
      var s1 := Run(s, Command(Keygen, mode, level), lib, c1).store;
      var s2 := Run(s1, Command(Encaps, mode, level), lib, c2).store;
      Run(s2, Command(Decaps, mode, level, true), lib, c3).status == Success(Some(Match))
  {
  }

  /**
   * Tamper detection as far as this file is concerned: if the ciphertext file
   * is replaced after encapsulation by one that decapsulates to a different
   * secret, the verification reports a mismatch.
   */
  lemma TamperedCiphertextMismatches(s: Store, mode: string, level: int, lib: SchemeId -> Kem,
                                     c1: Bytes, c2: Bytes, c3: Bytes, forged: Bytes)
    requires Select(mode, level).Success?
    requires
      var kem := lib(Select(mode, level).value);
      kem.decaps(kem.keygen(c1).dk, forged) != kem.encaps(kem.keygen(c1).ek, c2).key
    ensures
      var s1 := Run(s, Command(Keygen, mode, level), lib, c1).store;
      var s2 := Run(s1, Command(Encaps, mode, level), lib, c2).store;
      Run(Put(s2, Ciphertext, forged), Command(Decaps, mode, level, true), lib, c3).status == Success(Some(Mismatch))
  {
  }
}
