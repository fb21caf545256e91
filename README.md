# KyberApp workflow model

This project models the workflow layer of a command-line key-encapsulation
application. The application:

- selects one of six post-quantum KEM schemes: ML-KEM or CRYSTALS-Kyber, at level 512, 768 or 1024;
- runs one of three actions, `keygen`, `encaps` or `decaps`;
- keeps the key material in five files of the working directory: `public_key.bin`,
  `private_key.bin`, `ciphertext.bin`, `shared_secret.bin` and `decrypted_secret.bin`;
- after `decaps`, with `--verify`, checks whether the decrypted secret matches the shared secret.

Layout:

- `wrappers.dfy`: `Option`, `Result` and `Outcome`.
- `errors.dfy`: the two errors the program raises, an invalid selection and a missing file.
- `kem.dfy`: the interface of the cryptographic library. A scheme is a record of three
  total functions: `keygen`, `encaps` and `decaps`. Their algorithms are not modelled.
- `scheme_registry.dfy`: the six scheme identifiers, `get_scheme`, and the lower-casing
  of the mode done by the constructor.
- `key_store.dfy`: the files, as a map from file name to bytes. It holds the pure
  `Get`/`Put` (`load_key`/`save_key`) and the `FileStore` class whose `files` map the
  writes update in place.
- `workflow.dfy`: each action, the verification and the `main` dispatch, as pure functions
  from the store before a call to its result and the store after it. It also holds the
  lemmas that relate several calls: overwrite, reads nothing, uses the latest key, graceful
  degradation, and a conditional round trip.
- `kyber_app.dfy`: the `KyberApp` class and the entry point `RunCommand`. Their methods
  load and save file by file. Each is proved to leave exactly the store, and return
  exactly the status, that the matching `Workflow` function gives.

Inputs that the program takes from its environment are parameters here:
- the library's implementations of the six schemes: `lib: SchemeId -> Kem`;
- the random bytes that key generation and encapsulation draw: `coins`;
- the contents of the working directory: the `FileStore`.

The model follows the code as written:
- Files are written directly (`open(filename, "wb")`), not through a temporary file and
  a rename. A write is an infallible map update.
- `encapsulate` writes `ciphertext.bin` before `shared_secret.bin`. In the model the order
  cannot be observed, because the two names differ and writes do not fail.
- A verification mismatch or a missing file is reported as a `Verdict`. It is never an
  error status.

## Model

| member | source | states |
|---|---|---|
| SchemeRegistry.GetScheme | kyber/kyber-implementation-1/kyber-py-application/main.py:16-34 | succeeds exactly when the mode is "ml-kem" or "kyber" and the level is 512, 768 or 1024; the scheme returned has that mode and level, so the six pairs name six distinct schemes; every other pair is InvalidSelection |
| SchemeRegistry.GetSchemeOfOwnSelection | kyber/kyber-implementation-1/kyber-py-application/main.py:16-34 | every one of the six schemes is what the lookup returns for its own mode and level |
| SchemeRegistry.Lower | kyber/kyber-implementation-1/kyber-py-application/main.py:12 | the lower-cased mode has the same length and is lower-cased character by character |
| SchemeRegistry.LowerIdempotent | kyber/kyber-implementation-1/kyber-py-application/main.py:12 | lower-casing an already lower-cased mode changes nothing |
| SchemeRegistry.Select | kyber/kyber-implementation-1/kyber-py-application/main.py:12-14 | the constructor's selection succeeds exactly when the lower-cased mode is a supported mode and the level a supported level, and returns the scheme of that mode and level |
| SchemeRegistry.SelectIgnoresCase | kyber/kyber-implementation-1/kyber-py-application/main.py:12-14 | two modes that differ only in letter case select the same scheme or fail alike |
| SchemeRegistry.SelectUpperCaseMode | kyber/kyber-implementation-1/kyber-py-application/main.py:12-34 | "ML-KEM"/768 selects ML-KEM-768, "Kyber"/1024 selects Kyber1024, and level 2048 is rejected |
| KeyStore.Get | kyber/kyber-implementation-1/kyber-py-application/main.py:88-96 | loading succeeds exactly when the file exists and then returns its whole contents; otherwise FileNotFoundError names the file |
| KeyStore.Put | kyber/kyber-implementation-1/kyber-py-application/main.py:80-86 | after a save, loading that name returns exactly the data saved, and every other name loads as before |
| KeyStore.PutPut | kyber/kyber-implementation-1/kyber-py-application/main.py:80-86 | a second save to a file replaces the first entirely |
| KeyStore.FileStore.SaveKey | kyber/kyber-implementation-1/kyber-py-application/main.py:80-86 | the files afterwards are the files before with that one name overwritten |
| KeyStore.FileStore.LoadKey | kyber/kyber-implementation-1/kyber-py-application/main.py:88-96 | returns what Get gives for the current files, and changes nothing |
| Workflow.GenerateKeys | kyber/kyber-implementation-1/kyber-py-application/main.py:36-42 | afterwards the public and private key files hold ek and dk of one keygen call, and every other file is unchanged |
| Workflow.Encapsulate | kyber/kyber-implementation-1/kyber-py-application/main.py:45-52 | fails, with FileNotFoundError for public_key.bin, exactly when that file is missing; otherwise ciphertext.bin and shared_secret.bin hold the ct and key that encaps makes of the current public key, and no other file changes |
| Workflow.Decapsulate | kyber/kyber-implementation-1/kyber-py-application/main.py:55-62 | a missing private key is reported first, then a missing ciphertext; it succeeds exactly when both exist, and then only decrypted_secret.bin changes, to decaps of the two |
| Workflow.VerifyDecapsulation | kyber/kyber-implementation-1/kyber-py-application/main.py:65-78 | Match exactly when both secrets exist and are byte-equal, Mismatch exactly when both exist and differ, FileMissing exactly when either is missing, naming shared_secret.bin first |
| Workflow.Run | kyber/kyber-implementation-1/kyber-py-application/main.py:99-117 | an invalid selection fails before any file changes; a failing invocation leaves every file as it was; a verdict is produced exactly for a successful decaps with --verify and is the verification of the final files; for a valid selection, each action's success or error is the status, and the files are those that action leaves |
| Workflow.GenerateKeysReadsNothing | kyber/kyber-implementation-1/kyber-py-application/main.py:36-42 | key generation reads no file: stores that differ only in the two key files end up identical |
| Workflow.GenerateKeysTwice | kyber/kyber-implementation-1/kyber-py-application/main.py:36-42 | generating keys twice leaves exactly what the second generation alone leaves |
| Workflow.EncapsulateUsesLatestKey | kyber/kyber-implementation-1/kyber-py-application/main.py:36-52 | after two key generations, encapsulation produces its ct and key from the second public key |
| Workflow.EncapsWithoutKeysFails | kyber/kyber-implementation-1/kyber-py-application/main.py:45-52 | encaps with no public key file fails with FileNotFoundError for it and writes nothing |
| Workflow.EncapsWithKeySucceeds | kyber/kyber-implementation-1/kyber-py-application/main.py:45-52 | encaps with the public key file present succeeds, with no verdict |
| Workflow.VerifyReportsMissingSharedSecret | kyber/kyber-implementation-1/kyber-py-application/main.py:65-78 | decaps with --verify and no shared secret file still succeeds and reports shared_secret.bin missing |
| Workflow.RoundTripMatches | kyber/kyber-implementation-1/kyber-py-application/main.py:110-117 | keygen, then encaps, then decaps with --verify reports Match, provided the selected scheme decapsulates correctly for the randomness drawn |
| Workflow.TamperedCiphertextMismatches | kyber/kyber-implementation-1/kyber-py-application/main.py:55-78 | if the ciphertext file is replaced after encaps by one that decapsulates to another secret, the verification reports Mismatch |
| KyberApplication.KyberApp.constructor | kyber/kyber-implementation-1/kyber-py-application/main.py:8-14 | for a valid selection, stores the lower-cased mode, the level and the selected scheme |
| KyberApplication.KyberApp.Create | kyber/kyber-implementation-1/kyber-py-application/main.py:8-14 | construction fails with InvalidSelection exactly when the selection is invalid, without touching any file; otherwise it yields a new application with the lower-cased mode, the level and the selected scheme |
| KyberApplication.KyberApp.GenerateKeys | kyber/kyber-implementation-1/kyber-py-application/main.py:36-42 | leaves the files that Workflow.GenerateKeys gives |
| KyberApplication.KyberApp.Encapsulate | kyber/kyber-implementation-1/kyber-py-application/main.py:45-52 | on a missing public key fails and leaves the files unchanged; otherwise leaves the files that Workflow.Encapsulate gives |
| KyberApplication.KyberApp.Decapsulate | kyber/kyber-implementation-1/kyber-py-application/main.py:55-62 | on a missing private key or ciphertext fails and leaves the files unchanged; otherwise leaves the files that Workflow.Decapsulate gives |
| KyberApplication.KyberApp.VerifyDecapsulation | kyber/kyber-implementation-1/kyber-py-application/main.py:65-78 | returns the verdict Workflow.VerifyDecapsulation gives, catching a missing file instead of raising, and changes nothing |
| KyberApplication.RunCommand | kyber/kyber-implementation-1/kyber-py-application/main.py:99-117 | ends with exactly the status and the files that Workflow.Run gives for the files before the invocation |

## Left out

- The KEM algorithms (ML-KEM of FIPS 203, CRYSTALS-Kyber round 3) are not modelled. They
  belong to the `kyber_py` library, which is not part of this model. A scheme is three
  uninterpreted total functions.
- The sizes of keys and ciphertexts are not modelled. They are fixed by the library.
- Workflow.Encapsulate / Workflow.Decapsulate: the library's own rejection of malformed input is not modelled. In `kyber_py`, `encaps` raises for a malformed encapsulation key and `decaps` for a malformed ciphertext or decapsulation key; for example, encaps at level 768 with a key made at level 512. Here `encaps` and `decaps` are total, so "fails exactly when a file is missing" holds only for files the library accepts.
- Randomness is an explicit `coins` input to `keygen` and `encaps`, not drawn from the system.
- Workflow.RoundTripMatches: the end-to-end match is proved only under the hypothesis `CorrectFor`,
  because correctness of decapsulation is a property of the library, not of this program.
- Workflow.TamperedCiphertextMismatches: only the consequence is proved. That a flipped byte
  changes the decapsulated secret with overwhelming probability is a property of the library,
  so it is a hypothesis here.
- File-system behaviour is not modelled: `os.path.exists`, `open`, I/O errors, permissions and
  partial writes.
- Atomic writes and locking are not modelled. The program has neither.
- Concurrent invocations against the same directory are not modelled.
- Console output is not modelled: every `print`, including the texts of the verification
  verdicts, which are returned as a `Verdict` value instead.
- Argument parsing is not modelled: the `choices=` checks and the type conversion of argparse.
  RunCommand takes an already parsed `Command` whose mode and level may be any string and
  integer; a bad pair reaches the constructor and fails there.
- Process exit codes are not modelled. An exception that ends the program is the `Failure`
  status of `Run`.
- SchemeRegistry.Lower: lower-cases A-Z and U+212A KELVIN SIGN only. Python's `str.lower`
  also changes other non-ASCII characters. None of those becomes a character of "ml-kem"
  or "kyber", so the selection is the same either way; only the stored `mode` string can differ.
- SchemeRegistry.GetScheme: the level is an integer. Python would also accept a float such as
  512.0, which argparse's `type=int` rules out in `main`.
- KyberApplication.KyberApp.constructor: requires a valid selection, because a Dafny
  constructor cannot fail. The raising constructor is KyberApp.Create.
