# Device certificate lookup and log sanitiser, modelled in Dafny

This project models two pieces of an OpenTelemetry Collector extension set.

**Device authentication** (`extension/basicauthextension/iotwrapper.go`).
`VerifyClient` authenticates a device ("thing") by checking an RSA-PSS
signature over the SHA-256 digest of a message. The device's public key comes
from its X.509 certificate. `GetCertificateByThingName` finds that certificate
with a read-through cache:

1. It reads the local file named after the thing.
2. If that read fails, it asks the AWS IoT registry for the thing's principals
   (`ListThingPrincipals`). It takes the first principal and uses the text
   between its first and second `/` (or the whole tail if there is only one
   `/`) as the certificate id.
3. It fetches the certificate's PEM text (`DescribeCertificate`), writes it to
   the file and returns it.

**Log sanitiser** (`extension/opensearchexporter/internal/objmodel/url.go`).
`String` and `URL` remove every line feed and then every carriage return, so
that a logged value cannot forge extra log lines.

Files:

- `strings.dfy`, module `Strings`: Go's `strings.Split` and `strings.Join`
  around one separator character, proved inverse in both directions, plus
  `Before` and `After`, the text before and after the first separator.
- `objmodel.dfy`, module `ObjModel`: the sanitiser. It is pure recursive
  functions with lemmas. A one-pass filter, `Clean`, is the reference
  definition that the two-pass `String` is proved equal to.
- `iotwrapper.dfy`, module `BasicAuth`: the lookup and verification.
  - Each Go function has a pure specification function over the store (`...Run`).
    It returns the outcome, the store afterwards and the registry calls made, in
    order. Its contract states what the code promises.
  - The class `IotWrapper` holds the store (`files: map<string, Bytes>`) and the
    call log (`log: seq<Call>`). Its methods follow the Go control flow step by
    step, update both fields in place, and are proved equal to the
    specification functions.

How the environment is modelled:

- The two registry calls are the oracles in `Env`. Each one can fail.
  `Env.writeFile` says whether `os.WriteFile` succeeds for a given path and
  content. A read with `os.ReadFile` succeeds exactly when the thing's name is a
  key of the store.
- SHA-256, hex decoding, `pem.Decode`, `x509.ParseCertificate` and
  `rsa.VerifyPSS` are the uninterpreted functions in `Crypto`.
- A Go panic is an outcome of its own, `Panic(reason)`, next to `Ok` and `Err`.
  This makes it explicit which inputs crash the process:
  - a thing with no principals, or whose first principal has no `/`
    (index out of range at line 44);
  - certificate bytes in which `pem.Decode` finds no block;
  - certificate bytes that do not parse as a certificate;
  - a certificate whose key is not RSA (a failed type assertion).
- `getPublicKeyByThingName` builds the wrapped error at line 117 and then
  drops it. So it always returns a nil error, and the `panic(err)` in
  `VerifyClient` cannot be reached through it. When the certificate lookup
  fails, decoding goes on with the empty certificate. If, as in Go,
  `pem.Decode` finds no block in empty input, this is a nil dereference
  (`FailedLookupPanics`).
- `VerifyClient` ignores the error from `hex.DecodeString`. It uses whatever
  bytes came back (`HexDecodeErrorIgnored`).

Where the code's behaviour is easy to misread, the model states it as it is:

- A principal without `/` does not give a lookup error. The code panics with
  an index out of range.
- A failed lookup, an undecodable certificate and a non-RSA key do not make
  verification return false. The code panics in each case.
- A signature that is not valid hex is not rejected. The code ignores the
  decode error and checks whatever bytes came back.
- The certificate id is element 1 of `strings.Split`, so it ends at a second
  `/` if there is one, rather than being everything after the first `/`
  (`CertificateId`).

## Model

| member | source | states |
|---|---|---|
| `Strings.Split` | extension/basicauthextension/iotwrapper.go:44 | `strings.Split` on `/` gives one more piece than there are separators, and no piece contains the separator |
| `Strings.JoinSplit` | extension/basicauthextension/iotwrapper.go:44 | joining the pieces of a split with the separator gives back the original string |
| `Strings.SplitJoin` | extension/basicauthextension/iotwrapper.go:44 | splitting the join of separator-free pieces gives back those pieces, so the split loses nothing |
| `BasicAuth.CertificateId` | extension/basicauthextension/iotwrapper.go:44 | element `[1]` of splitting a principal on `/` is the text between the first and second `/`, or the whole tail if there is only one `/`; it contains no `/`; it is defined only when the principal contains a `/` |
| `BasicAuth.CertificateIdExample` | extension/basicauthextension/iotwrapper.go:44 | the principal `abc/certificateId123` yields the id `certificateId123` |
| `BasicAuth.CertificateIdFrom` | extension/basicauthextension/iotwrapper.go:39-44 | the result is an error exactly when the registry call fails, and that error wraps the SDK error with "Unable to ListThingPrincipals"; it is an index-out-of-range panic exactly when there is no principal or the first principal has no `/`; otherwise it is the certificate id of the first principal |
| `BasicAuth.DescribeCertificateRun` | extension/basicauthextension/iotwrapper.go:47-62 | makes exactly one certificate call, for the given id; a failed fetch is the wrapped "Unable to DescribeCertificate" error; a failed write is the wrapped "Unable to WriteFile" error; otherwise the PEM text is returned; a success stores that text under the thing name and changes no other key; every failure leaves the store unchanged; it never panics |
| `BasicAuth.RegistryLookupRun` | extension/basicauthextension/iotwrapper.go:66-76 | the principals are listed first; the certificate is fetched exactly when an id could be extracted, and for that id; once an id is extracted, the result is a success exactly when the fetch and the write both succeed; a failed principal lookup, a failed fetch and a failed write each give their own error wrapped with "Unable to GetCertificateByThingName"; a panic happens only in the id extraction; every non-success leaves the store unchanged; a success returns the registry's PEM text and stores it under the thing name, changing no other key |
| `BasicAuth.GetCertificateRun` | extension/basicauthextension/iotwrapper.go:64-80 | a cache hit returns the stored bytes, calls the registry zero times and leaves the store unchanged; the registry is called exactly on a miss, and a miss is exactly `RegistryLookupRun`; every non-success leaves the store unchanged; a success leaves the store mapping the thing to exactly the returned bytes and changes no other key |
| `BasicAuth.SecondLookupHitsCache` | extension/basicauthextension/iotwrapper.go:64-80 | after a successful lookup, the same lookup returns the same bytes, makes no registry call and changes nothing |
| `BasicAuth.ColdLookup` | extension/basicauthextension/iotwrapper.go:64-76 | a miss for a thing whose first principal is `prefix/tail` (the tail may hold further `/`), followed by a successful fetch and write, makes exactly the calls list-principals(thing) and describe(the tail up to its first `/`), stores the PEM under the thing and returns it; later principals play no part |
| `BasicAuth.KeyFromCertificate` | extension/basicauthextension/iotwrapper.go:119-123 | decoding never yields an error value; no PEM block, or a block that does not parse as a certificate, is a nil-dereference panic; a certificate with a non-RSA key is a failed-type-assertion panic; a block that parses as a certificate with an RSA key gives exactly that key, and only then is a key returned |
| `BasicAuth.PublicKeyRun` | extension/basicauthextension/iotwrapper.go:114-124 | never returns a non-nil error; it has the certificate lookup's store effect and calls; a certificate is decoded; a lookup error is dropped and the empty certificate is decoded instead; a lookup panic propagates |
| `BasicAuth.FailedLookupPanics` | extension/basicauthextension/iotwrapper.go:115-121 | if `pem.Decode` finds no block in empty input, a failed certificate lookup ends in a nil-dereference panic rather than an error |
| `BasicAuth.VerifyClientRun` | extension/basicauthextension/iotwrapper.go:82-112 | never ends in an error; the `panic(err)` after the key lookup is unreachable, so every panic is the key lookup's own; a verdict is returned exactly when a key was obtained, and it is the PSS check of the message's SHA-256 digest against the hex-decoded signature; the store effect and calls are the key lookup's |
| `BasicAuth.VerdictFromRsaCertificate` | extension/basicauthextension/iotwrapper.go:82-124 | when the certificate lookup succeeds and its PEM block parses as a certificate with an RSA key, `VerifyClient` returns the verdict of the PSS check of the message's SHA-256 digest against the hex-decoded signature under that key |
| `BasicAuth.HexDecodeErrorIgnored` | extension/basicauthextension/iotwrapper.go:102-103 | any two signatures that hex-decode to the same bytes get the same verdict, whether or not either decode reported an error |
| `BasicAuth.IotWrapper.ListThingPrincipals` | extension/basicauthextension/iotwrapper.go:35-45 | logs one list-principals call for the thing and returns `CertificateIdFrom` of the registry's answer; the store is not touched |
| `BasicAuth.IotWrapper.DescribeCertificate` | extension/basicauthextension/iotwrapper.go:47-62 | the result, the new store and the appended log are those of `DescribeCertificateRun` on the old store |
| `BasicAuth.IotWrapper.GetCertificateByThingName` | extension/basicauthextension/iotwrapper.go:64-80 | the result, the new store and the appended log are those of `GetCertificateRun` on the old store |
| `BasicAuth.IotWrapper.GetPublicKeyByThingName` | extension/basicauthextension/iotwrapper.go:114-124 | the result, the new store and the appended log are those of `PublicKeyRun` on the old store |
| `BasicAuth.IotWrapper.VerifyClient` | extension/basicauthextension/iotwrapper.go:82-112 | the result, the new store and the appended log are those of `VerifyClientRun` on the old store |
| `ObjModel.RemoveAll` | extension/opensearchexporter/internal/objmodel/url.go:18-19 | `strings.ReplaceAll(s, c, "")` leaves no `c`; it is shorter by exactly the number of `c` in `s`; every other character keeps its count; input without `c` is returned unchanged |
| `ObjModel.String` | extension/opensearchexporter/internal/objmodel/url.go:17-20 | the result contains no `'\n'` and no `'\r'`; its length is the input's length minus the number of each; every other character keeps its count |
| `ObjModel.StringIsClean` | extension/opensearchexporter/internal/objmodel/url.go:17-20 | `String(s)` is `s` with exactly the `'\n'` and `'\r'` characters removed and all other characters kept in their original order (the one-pass filter `Clean`) |
| `ObjModel.StringIdentityOnClean` | extension/opensearchexporter/internal/objmodel/url.go:17-20 | a string with neither `'\n'` nor `'\r'` is returned unchanged |
| `ObjModel.StringIdempotent` | extension/opensearchexporter/internal/objmodel/url.go:17-20 | `String(String(s)) == String(s)` |
| `ObjModel.URL` | extension/opensearchexporter/internal/objmodel/url.go:10-13 | the sanitised URL contains neither `'\n'` nor `'\r'` and is the one-pass filter of the URL's serialised form; the serialisation is a parameter |

## Left out

- `initIOTClient` (iotwrapper.go:24-33): it reads two environment variables and lazily builds an SDK client in an unsynchronised global. This is configuration plus a concurrency race, and it has no effect on the results modelled here.
- `extension/basicauthextension/s3wrapper.go` and `extension/basicauthextension/session.go` are not part of this model. They are S3 retrieval and AWS session setup, which are pure I/O.
- The `println` and `fmt.Println` logging.
- SHA-256, hex decoding, PEM decoding, X.509 parsing and RSA-PSS verification are uninterpreted functions. The model says nothing about the cryptography itself.
- The hash write at iotwrapper.go:93-96: writing to a SHA-256 hash never returns an error, so the digest is a total function and the `panic(err)` at line 95 is not modelled.
- A registry answer whose certificate description or PEM pointer is nil (the dereference at iotwrapper.go:56-61): a successful fetch always carries a PEM string, so that nil-pointer panic is not modelled.
- File system details: a read fails exactly when the key is absent, and other read errors are not told apart. A failed write leaves the store unchanged, so partial writes are not modelled. Also left out: the 0644 permission bits, and paths resolved relative to the working directory.
- The registry and the file system are deterministic functions of their arguments. Answers that change between calls with the same argument are not modelled.
- Go strings and byte slices are both sequences of `char`, one `char` per byte. UTF-8 encoding is not modelled.
- An error is modelled as its chain of `errors.Wrap` messages. The error's text rendering and stack trace are not modelled.
- Concurrent calls, and concurrent writes to the same file.
- `ObjModel.URL` takes the URL by value with its serialisation as a parameter, so the nil-pointer panic of `unsanitized.String()` on a nil `*url.URL` (url.go:11) is not modelled.
