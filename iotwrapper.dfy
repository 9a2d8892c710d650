/** The device-authentication core of the basic-auth extension: a thing's
    certificate is read from a local file named after the thing or, when that
    file cannot be read, resolved through the AWS IoT registry (the thing's
    principals, then the certificate's PEM text) and written to that file; its
    RSA public key then checks an RSA-PSS signature over the SHA-256 digest of
    a message.

    The registry, the file writes and the cryptographic primitives are
    parameters (`Env` and `Crypto`). Go's panics are an outcome of their own,
    `Panic`, so the model says exactly which inputs make the Go code panic.
    The pure functions named `...Run` specify each operation; the class
    `IotWrapper` performs the same operations step by step on a store it
    updates in place. */
module BasicAuth {
  import opened Strings

  /** A Go byte slice. Go strings are byte sequences as well; each `char`
      here stands for one byte, so the conversion `[]byte(s)` is the
      identity. */
  type Bytes = string

  datatype Option<T> = None | Some(value: T)

  /** An answer of the AWS IoT registry, or the error the SDK returned. */
  datatype Response<T> = Answer(value: T) | Fault(message: string)

  /** The outcome of `os.WriteFile`. */
  datatype WriteResult = Written | WriteFailed(message: string)

  /** A Go error: a cause, possibly wrapped by `errors.Wrap` with a message. */
  datatype Error = Cause(message: string) | Wrapped(message: string, cause: Error)

  /** Why the Go code panics. */
  datatype PanicReason =
    | IndexOutOfRange        // `Principals[0]` or `strings.Split(...)[1]`
    | NilDereference         // `block.Bytes` on a nil block, `cert.PublicKey` on a nil certificate
    | FailedTypeAssertion    // `.(*rsa.PublicKey)` on a key of another algorithm
    | ErrorValue(err: Error) // `panic(err)`

  /** What a Go call ends with: a value (with a nil error), a non-nil error
      (the value beside it is then `[]byte("")` or `""`), or a panic. */
  datatype Outcome<T> = Ok(value: T) | Err(error: Error) | Panic(reason: PanicReason)

  /** A call to the registry, as it is logged. */
  datatype Call =
    | ListThingPrincipalsCall(thingName: string)
    | DescribeCertificateCall(certificateId: string)

  /** The environment: the two registry calls and whether writing a file
      succeeds. */
  datatype Env = Env(
    listThingPrincipals: string -> Response<seq<string>>,
    describeCertificate: string -> Response<Bytes>,
    writeFile: (string, Bytes) -> WriteResult)

  datatype RsaPublicKey = RsaPublicKey(modulus: nat, exponent: nat)
  datatype PublicKey = Rsa(key: RsaPublicKey) | OtherAlgorithm(name: string)
  datatype Certificate = Certificate(publicKey: PublicKey)

  /** What `hex.DecodeString` returns: the bytes and whether it reported an
      error. */
  datatype HexDecoded = HexDecoded(bytes: Bytes, failed: bool)

  /** The cryptographic primitives, left uninterpreted: `sha256.Sum`,
      `hex.DecodeString`, `pem.Decode` (the bytes of the first block, if any),
      `x509.ParseCertificate` and `rsa.VerifyPSS` with SHA-256 (true when it
      returns a nil error). */
  datatype Crypto = Crypto(
    sha256: Bytes -> Bytes,
    hexDecode: string -> HexDecoded,
    pemDecode: Bytes -> Option<Bytes>,
    parseCertificate: Bytes -> Option<Certificate>,
    verifyPss: (RsaPublicKey, Bytes, Bytes) -> bool)

  /** What one operation does: its outcome, the store afterwards, and the
      registry calls it made, in order. */
  datatype Run<T> = Run(out: Outcome<T>, files: map<string, Bytes>, calls: seq<Call>)

  const ListThingPrincipalsFailed := "Unable to ListThingPrincipals"
  const DescribeCertificateFailed := "Unable to DescribeCertificate"
  const WriteFileFailed := "Unable to WriteFile"
  const GetCertificateFailed := "Unable to GetCertificateByThingName"

  /** `strings.Split(principal, "/")[1]`: the text between the first and the
      second `/`, or the whole tail when there is only one. */
  function CertificateId(principal: string): (id: string)
    requires '/' in principal
    ensures id == Before(After(principal, '/'), '/')
    ensures '/' !in id
    ensures '/' !in After(principal, '/') ==> id == After(principal, '/')
  {
    SplitHead(After(principal, '/'), '/');
    SplitTail(principal, '/');
    Split(principal, '/')[1]
  }

  /** An example principal and the certificate id taken from it. */
  lemma CertificateIdExample()
    ensures CertificateId("abc/certificateId123") == "certificateId123"
  {
    var p := "abc/certificateId123";
    var head, tail := "abc", "certificateId123";
    assert '/' !in head && '/' !in tail;
    assert p == head + ['/'] + tail;
    FirstOccurrence(head, '/', tail);
  }

  /** What `ListThingPrincipals` makes of the registry's answer: the wrapped
      error, a panic when there is no principal or the first one has no `/`,
      or the certificate id of the first principal. */
  function CertificateIdFrom(response: Response<seq<string>>): (r: Outcome<string>)
    ensures r.Err? <==> response.Fault?
    ensures r.Err? ==> r.error == Wrapped(ListThingPrincipalsFailed, Cause(response.message))
    ensures r.Panic? <==> response.Answer? && (|response.value| == 0 || '/' !in response.value[0])
    ensures r.Panic? ==> r.reason == IndexOutOfRange
    ensures r.Ok? ==> r.value == Before(After(response.value[0], '/'), '/')
  {
    match response
    case Fault(message) => Err(Wrapped(ListThingPrincipalsFailed, Cause(message)))
    case Answer(principals) =>
      if |principals| == 0 then Panic(IndexOutOfRange)
      else if |Split(principals[0], '/')| < 2 then Panic(IndexOutOfRange)
      else Ok(CertificateId(principals[0]))
  }

  /** `DescribeCertificate(certificateId, thingName)`: fetch the PEM text and
      write it to the file `thingName`. */
  function DescribeCertificateRun(env: Env, files: map<string, Bytes>, certificateId: string, thingName: string)
    : (run: Run<Bytes>)
    ensures run.calls == [DescribeCertificateCall(certificateId)]
    ensures !run.out.Panic?
    ensures var response := env.describeCertificate(certificateId);
      && (response.Fault? ==> run.out == Err(Wrapped(DescribeCertificateFailed, Cause(response.message))))
      && (response.Answer? && env.writeFile(thingName, response.value).WriteFailed? ==>
            run.out == Err(Wrapped(WriteFileFailed, Cause(env.writeFile(thingName, response.value).message))))
      && (run.out.Ok? <==> response.Answer? && env.writeFile(thingName, response.value).Written?)
      && (run.out.Ok? ==> response == Answer(run.out.value))
    ensures run.out.Ok? ==> run.files == files[thingName := run.out.value]
    ensures !run.out.Ok? ==> run.files == files
  {
    var calls := [DescribeCertificateCall(certificateId)];
    match env.describeCertificate(certificateId)
    case Fault(message) => Run(Err(Wrapped(DescribeCertificateFailed, Cause(message))), files, calls)
    case Answer(pem) =>
      match env.writeFile(thingName, pem)
      case WriteFailed(message) => Run(Err(Wrapped(WriteFileFailed, Cause(message))), files, calls)
      case Written => Run(Ok(pem), files[thingName := pem], calls)
  }

  /** The registry path of `GetCertificateByThingName`, taken when the file
      `thingName` cannot be read: list the principals, extract the id, fetch
      and store the certificate, wrapping every error. */
  function RegistryLookupRun(env: Env, files: map<string, Bytes>, thingName: string): (run: Run<Bytes>)
    // the principals are asked for first, and at most one more call follows
    ensures 1 <= |run.calls| <= 2 && run.calls[0] == ListThingPrincipalsCall(thingName)
    // the certificate is fetched exactly when an id could be extracted, and
    // under that id
    ensures |run.calls| == 2 <==> CertificateIdFrom(env.listThingPrincipals(thingName)).Ok?
    ensures |run.calls| == 2 ==>
      run.calls[1] == DescribeCertificateCall(CertificateIdFrom(env.listThingPrincipals(thingName)).value)
    // a failed principal lookup is an error, and nothing is fetched or written
    ensures env.listThingPrincipals(thingName).Fault? ==>
      run.out.Err? && |run.calls| == 1 && run.files == files
    // every error is wrapped once more
    ensures run.out.Err? ==> run.out.error.message == GetCertificateFailed
    // a panic happens only in the id extraction
    ensures run.out.Panic? <==> CertificateIdFrom(env.listThingPrincipals(thingName)).Panic?
    // only a success writes, only under thingName, and it returns the PEM
    // text the registry gave, which is what is stored
    ensures !run.out.Ok? ==> run.files == files
    ensures run.out.Ok? ==>
      && run.files == files[thingName := run.out.value]
      && env.describeCertificate(run.calls[1].certificateId) == Answer(run.out.value)
    // the three errors, each wrapped once more
    ensures var listed := env.listThingPrincipals(thingName);
      listed.Fault? ==>
        run.out == Err(Wrapped(GetCertificateFailed, Wrapped(ListThingPrincipalsFailed, Cause(listed.message))))
    ensures var id := CertificateIdFrom(env.listThingPrincipals(thingName));
      id.Ok? ==>
        var response := env.describeCertificate(id.value);
        && (run.out.Ok? <==> response.Answer? && env.writeFile(thingName, response.value).Written?)
        && (response.Fault? ==>
              run.out == Err(Wrapped(GetCertificateFailed, Wrapped(DescribeCertificateFailed, Cause(response.message)))))
        && (response.Answer? && env.writeFile(thingName, response.value).WriteFailed? ==>
              run.out == Err(Wrapped(GetCertificateFailed,
                                     Wrapped(WriteFileFailed, Cause(env.writeFile(thingName, response.value).message)))))
  {
    var listed := [ListThingPrincipalsCall(thingName)];
    match CertificateIdFrom(env.listThingPrincipals(thingName))
    case Err(e) => Run(Err(Wrapped(GetCertificateFailed, e)), files, listed)
    case Panic(p) => Run(Panic(p), files, listed)
    case Ok(key) =>
      var fetched := DescribeCertificateRun(env, files, key, thingName);
      var calls := listed + fetched.calls;
      if fetched.out.Ok? then Run(fetched.out, fetched.files, calls)
      else Run(Err(Wrapped(GetCertificateFailed, fetched.out.error)), files, calls)
  }

  /** `GetCertificateByThingName`: the file `thingName` if it can be read,
      otherwise the certificate resolved through the registry. */
  function GetCertificateRun(env: Env, files: map<string, Bytes>, thingName: string): (run: Run<Bytes>)
    // a cache hit returns the stored bytes, makes no registry call and
    // changes nothing
    ensures thingName in files ==> run == Run(Ok(files[thingName]), files, [])
    // the registry is consulted exactly on a miss
    ensures run.calls == [] <==> thingName in files
    ensures thingName !in files ==> run == RegistryLookupRun(env, files, thingName)
    // only a success writes, only under thingName, and what is returned is
    // what is stored
    ensures !run.out.Ok? ==> run.files == files
    ensures run.out.Ok? ==> run.files == files[thingName := run.out.value]
  {
    if thingName in files then
      assert files[thingName := files[thingName]] == files;
      Run(Ok(files[thingName]), files, [])
    else
      RegistryLookupRun(env, files, thingName)
  }

  /** Once a lookup has succeeded, the same lookup is served from the store:
      the same bytes, no registry call, nothing changed. */
  lemma SecondLookupHitsCache(env: Env, files: map<string, Bytes>, thingName: string)
    requires GetCertificateRun(env, files, thingName).out.Ok?
    ensures var first := GetCertificateRun(env, files, thingName);
      GetCertificateRun(env, first.files, thingName) == Run(first.out, first.files, [])
  {
  }

  /** A cold lookup of a thing whose first principal is `prefix/tail`: the
      principals are listed, the certificate whose id is `tail` up to its own
      first `/` is fetched, stored under the thing name and returned.
      Principals after the first play no part. */
  lemma {:induction false} ColdLookup(env: Env, files: map<string, Bytes>, thingName: string,
                                      principals: seq<string>, prefix: string, tail: string, pem: Bytes)
    requires thingName !in files
    requires '/' !in prefix
    requires |principals| > 0 && principals[0] == prefix + ['/'] + tail
    requires env.listThingPrincipals(thingName) == Answer(principals)
    requires env.describeCertificate(Before(tail, '/')) == Answer(pem)
    requires env.writeFile(thingName, pem) == Written
    ensures GetCertificateRun(env, files, thingName) ==
      Run(Ok(pem), files[thingName := pem],
          [ListThingPrincipalsCall(thingName), DescribeCertificateCall(Before(tail, '/'))])
  {
    FirstOccurrence(prefix, '/', tail);
    assert CertificateIdFrom(env.listThingPrincipals(thingName)) == Ok(Before(tail, '/'));
  }

  /** The key that `getPublicKeyByThingName` takes from certificate bytes:
      `pem.Decode`, `x509.ParseCertificate`, and the type assertion to an RSA
      key, each of which panics on failure. */
  function KeyFromCertificate(crypto: Crypto, certificate: Bytes): (r: Outcome<RsaPublicKey>)
    ensures !r.Err?
    ensures crypto.pemDecode(certificate).None? ==> r == Panic(NilDereference)
    ensures r.Ok? ==>
      crypto.pemDecode(certificate).Some? &&
      crypto.parseCertificate(crypto.pemDecode(certificate).value) == Some(Certificate(Rsa(r.value)))
    ensures var block := crypto.pemDecode(certificate);
      block.Some? ==>
        var parsed := crypto.parseCertificate(block.value);
        && (parsed.None? ==> r == Panic(NilDereference))
        && (parsed.Some? && parsed.value.publicKey.OtherAlgorithm? ==> r == Panic(FailedTypeAssertion))
        && (parsed.Some? && parsed.value.publicKey.Rsa? ==> r == Ok(parsed.value.publicKey.key))
  {
    match crypto.pemDecode(certificate)
    case None => Panic(NilDereference)
    case Some(block) =>
      match crypto.parseCertificate(block)
      case None => Panic(NilDereference)
      case Some(cert) =>
        match cert.publicKey
        case Rsa(key) => Ok(key)
        case OtherAlgorithm(_) => Panic(FailedTypeAssertion)
  }

  /** `getPublicKeyByThingName`: the error of the certificate lookup is
      wrapped and dropped, so decoding goes on with the empty certificate. */
  function PublicKeyRun(env: Env, crypto: Crypto, files: map<string, Bytes>, thingName: string)
    : (run: Run<RsaPublicKey>)
    // it never returns a non-nil error
    ensures !run.out.Err?
    ensures var lookup := GetCertificateRun(env, files, thingName);
      && run.files == lookup.files
      && run.calls == lookup.calls
      && (lookup.out.Ok? ==> run.out == KeyFromCertificate(crypto, lookup.out.value))
      && (lookup.out.Err? ==> run.out == KeyFromCertificate(crypto, ""))
      && (lookup.out.Panic? ==> run.out == Panic(lookup.out.reason))
  {
    var lookup := GetCertificateRun(env, files, thingName);
    match lookup.out
    case Panic(p) => Run(Panic(p), lookup.files, lookup.calls)
    case Err(_) => Run(KeyFromCertificate(crypto, ""), lookup.files, lookup.calls)
    case Ok(certificate) => Run(KeyFromCertificate(crypto, certificate), lookup.files, lookup.calls)
  }

  /** Because the error is dropped, a failed certificate lookup ends in a nil
      dereference rather than an error: `pem.Decode` finds no block in empty
      input. */
  lemma FailedLookupPanics(env: Env, crypto: Crypto, files: map<string, Bytes>, thingName: string)
    requires crypto.pemDecode("") == None
    requires GetCertificateRun(env, files, thingName).out.Err?
    ensures PublicKeyRun(env, crypto, files, thingName).out == Panic(NilDereference)
  {
  }

  /** `VerifyClient(thingName, message, signature)`. */
  function VerifyClientRun(env: Env, crypto: Crypto, files: map<string, Bytes>, thingName: string,
                           message: Bytes, signature: string): (run: Run<bool>)
    // it returns a boolean or panics; the `panic(err)` after the key lookup
    // is never reached, so every panic is one of the key lookup's
    ensures !run.out.Err?
    ensures var key := PublicKeyRun(env, crypto, files, thingName);
      && run.files == key.files
      && run.calls == key.calls
      && (run.out.Ok? <==> key.out.Ok?)
      && (key.out.Panic? ==> run.out == Panic(key.out.reason))
      // the verdict is the PSS check of the SHA-256 digest against the
      // hex-decoded signature, whether or not the hex decoding failed
      && (run.out.Ok? ==>
            run.out.value == crypto.verifyPss(key.out.value, crypto.sha256(message),
                                              crypto.hexDecode(signature).bytes))
  {
    var key := PublicKeyRun(env, crypto, files, thingName);
    match key.out
    case Panic(p) => Run(Panic(p), key.files, key.calls)
    case Err(e) => Run(Panic(ErrorValue(e)), key.files, key.calls)
    case Ok(publicKey) =>
      var digest := crypto.sha256(message);
      var sig := crypto.hexDecode(signature).bytes;
      Run(Ok(crypto.verifyPss(publicKey, digest, sig)), key.files, key.calls)
  }

  /** A hex-decoding error is ignored: two signatures that decode to the same
      bytes get the same verdict, whether or not either decoding failed. */
  lemma HexDecodeErrorIgnored(env: Env, crypto: Crypto, files: map<string, Bytes>, thingName: string,
                              message: Bytes, signature: string, other: string)
    requires crypto.hexDecode(signature).bytes == crypto.hexDecode(other).bytes
    ensures VerifyClientRun(env, crypto, files, thingName, message, signature) ==
            VerifyClientRun(env, crypto, files, thingName, message, other)
  {
  }

  /** `VerifyClient` reaches a verdict whenever the certificate is found and
      holds an RSA key: the verdict is the PSS check of the message's SHA-256
      digest against the hex-decoded signature. */
  lemma VerdictFromRsaCertificate(env: Env, crypto: Crypto, files: map<string, Bytes>, thingName: string,
                                  message: Bytes, signature: string, block: Bytes, key: RsaPublicKey)
    requires GetCertificateRun(env, files, thingName).out.Ok?
    requires crypto.pemDecode(GetCertificateRun(env, files, thingName).out.value) == Some(block)
    requires crypto.parseCertificate(block) == Some(Certificate(Rsa(key)))
    ensures VerifyClientRun(env, crypto, files, thingName, message, signature).out ==
            Ok(crypto.verifyPss(key, crypto.sha256(message), crypto.hexDecode(signature).bytes))
  {
  }

  /** The extension's package state: the local certificate files, the log of
      registry calls, and the environment it talks to. */
  class IotWrapper {
    /** File contents by path; the path is the thing name. */
    var files: map<string, Bytes>
    /** Every registry call made so far, in order. */
    var log: seq<Call>
    const env: Env
    const crypto: Crypto

    constructor (env: Env, crypto: Crypto, files: map<string, Bytes>)
      ensures this.env == env && this.crypto == crypto
      ensures this.files == files && log == []
    {
      this.env := env;
      this.crypto := crypto;
      this.files := files;
      log := [];
    }

    method ListThingPrincipals(thingName: string) returns (r: Outcome<string>)
      modifies this`log
      ensures log == old(log) + [ListThingPrincipalsCall(thingName)]
      ensures r == CertificateIdFrom(env.listThingPrincipals(thingName))
    {
      var response := env.listThingPrincipals(thingName);
      log := log + [ListThingPrincipalsCall(thingName)];
      r := CertificateIdFrom(response);
    }

    method DescribeCertificate(certificateId: string, thingName: string) returns (r: Outcome<Bytes>)
      modifies this
      ensures var run := DescribeCertificateRun(env, old(files), certificateId, thingName);
        r == run.out && files == run.files && log == old(log) + run.calls
    {
      var response := env.describeCertificate(certificateId);
      log := log + [DescribeCertificateCall(certificateId)];
      if response.Fault? {
        r := Err(Wrapped(DescribeCertificateFailed, Cause(response.message)));
        return;
      }
      var pem := response.value;
      var written := env.writeFile(thingName, pem);
      if written.WriteFailed? {
        r := Err(Wrapped(WriteFileFailed, Cause(written.message)));
        return;
      }
      files := files[thingName := pem];
      r := Ok(pem);
    }

    method GetCertificateByThingName(thingName: string) returns (r: Outcome<Bytes>)
      modifies this
      ensures var run := GetCertificateRun(env, old(files), thingName);
        r == run.out && files == run.files && log == old(log) + run.calls
    {
      if thingName in files {
        r := Ok(files[thingName]);
        return;
      }
      var key := ListThingPrincipals(thingName);
      match key {
        case Err(e) =>
          r := Err(Wrapped(GetCertificateFailed, e));
        case Panic(p) =>
          r := Panic(p);
        case Ok(certificateId) =>
          var certNew := DescribeCertificate(certificateId, thingName);
          if certNew.Ok? {
            r := certNew;
          } else {
            r := Err(Wrapped(GetCertificateFailed, certNew.error));
          }
      }
    }

    method GetPublicKeyByThingName(thingName: string) returns (r: Outcome<RsaPublicKey>)
      modifies this
      ensures var run := PublicKeyRun(env, crypto, old(files), thingName);
        r == run.out && files == run.files && log == old(log) + run.calls
    {
      var certificate := GetCertificateByThingName(thingName);
      var pem: Bytes;
      match certificate {
        case Panic(p) =>
          r := Panic(p);
          return;
        case Err(_) =>
          pem := "";
        case Ok(c) =>
          pem := c;
      }
      r := KeyFromCertificate(crypto, pem);
    }

    method VerifyClient(thingName: string, message: Bytes, signature: string) returns (r: Outcome<bool>)
      modifies this
      ensures var run := VerifyClientRun(env, crypto, old(files), thingName, message, signature);
        r == run.out && files == run.files && log == old(log) + run.calls
    {
      var publicKey := GetPublicKeyByThingName(thingName);
      match publicKey {
        case Panic(p) =>
          r := Panic(p);
        case Err(e) =>
          r := Panic(ErrorValue(e));
        case Ok(key) =>
          var digest := crypto.sha256(message);
          var sig := crypto.hexDecode(signature).bytes;
          r := Ok(crypto.verifyPss(key, digest, sig));
      }
    }
  }
}
