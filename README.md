# CovenantSQL core, modelled in Dafny

This project models four pieces of CovenantSQL and proves their contracts.

- **The SQL-chain multiplexer** (`sqlchain/mux.go`, module `Mux`). One
  `MuxService` owns a table from database id to the chain instance
  (`ChainRPCService`) serving that database. `register` and `unregister`
  change the table. The seven RPC methods (`AdviseNewBlock`, `AdviseBinLog`,
  `AdviseResponsedQuery`, `AdviseAckedQuery`, `FetchBlock`, `FetchAckedQuery`,
  `SignBilling`) all follow one routing rule. They are modelled as one generic
  `Dispatch` over an `Rpc` tag. The chain instance is an opaque handle, and its
  behaviour is a function parameter `serve`. Two ghost fields support the
  contracts: `History` logs every register and unregister, and `Forwarded` logs
  every call handed to an instance.
- **The local private-key file** (`crypto/kms/privatekeystore.go`, module
  `KeyStore`). The stored plaintext is the double hash of the serialized key
  followed by the key. Loading checks the payload's length, then its hash
  prefix. Start-up (`InitLocalKeyPair`) loads the key or, depending on why
  loading failed, gives up or generates and saves a new key. Hashing,
  encryption, decryption and public-key derivation are uninterpreted functions
  held in a `Crypto` value. The file system is a map from path to contents.
- **The hash-stable serialiser of `TokenReceive`**
  (`blockproducer/types/tokenreceive_gen.go`, module `TokenReceiveHash`). The
  generated `MarshalHash` writes a one-byte marker twice (`0x84` for
  `TokenReceive`, `0x85` for its header), then each field in a fixed order,
  with the marker again before every field after the first. The first nested
  error aborts the whole encoding. `Msgsize` is a closed-form size estimate.
  The helpers of the `marshalhash` package are uninterpreted. `AppendBytes`
  writes a bin header of at most 5 bytes and then the bytes. `AppendNil` writes
  a fixed nil encoding.
- **Project configuration values** (`cmd/cql-proxy/model/project_config.go`,
  module `ProjectConfig`). This covers the config-type names, the nil-safe
  switches of the misc and OAuth configs, the table-name filter of
  `GetProjectTablesName`, and the typed decoding loop of
  `GetAllProjectConfig`. Database rows come in already selected. JSON decoding
  is a parameter.

`Wrappers` holds `Option` (a Go pointer that may be nil), `Result` (a Go
`(value, err)` pair) and `byte`.

Each imperative operation is a method proved against a specification
function: `Dispatch` against `Route`, `Register` and `Unregister` against
`Apply`, the `MarshalHash` methods against `MapEncoding`, `Msgsize` against
`TokenReceiveMsgsize`, and `GetProjectTablesName` against `LiveTableNames`.
The lemmas then state what those functions promise: last write wins, error
short-circuiting, the size bound, and the subsequence property.

## Model

| member | source | states |
|---|---|---|
| Mux.Apply | sqlchain/mux.go:42-48 | Binding sets the id to the instance. Unbinding removes the id. Unbinding an absent id leaves the table unchanged. Every other id keeps its binding. |
| Mux.ReplayFollowsLastOp | sqlchain/mux.go:42-48 | After any history of register and unregister calls, an id is bound exactly when its last mutation was a register, and it is bound to that register's instance (last write wins). |
| Mux.ReplayUntouched | sqlchain/mux.go:42-48 | An id that no call in the history names is unbound. |
| Mux.Route | sqlchain/mux.go:149-157 | Miss: the sentinel `ErrUnknownMuxRequest`, the response untouched, no instance reached. Hit: the response carries the request's envelope and database id, and its inner response and the returned error are exactly the instance's. |
| Mux.RoutingErrorMeansUnbound | sqlchain/mux.go:150-156 | The sentinel is returned exactly when the id is unbound, provided the instance does not itself answer with the sentinel. |
| Mux.RouteAfterHistory | sqlchain/mux.go:42-48 | After any history, a call reaches the instance of the last register of its id; if the last mutation was an unregister, it fails with the sentinel. |
| Mux.RouteNeverRegistered | sqlchain/mux.go:150-156 | A call whose id was never registered fails with the sentinel, leaves the response unchanged and reaches no instance. |
| Mux.MuxService.Register | sqlchain/mux.go:42-44 | The table becomes the old table with the id bound to the new instance, replacing any earlier binding. The table stays the replay of the logged history. |
| Mux.MuxService.Unregister | sqlchain/mux.go:46-48 | The table becomes the old table without the id. The table stays the replay of the logged history. |
| Mux.MuxService.Dispatch | sqlchain/mux.go:149-229 | The response, the error and the log of forwarded calls are those `Route` gives on the old table. The table and history are unchanged. On a miss the response object is unchanged and nothing is forwarded. |
| KeyStore.Frame | crypto/kms/privatekeystore.go:73-75 | The plaintext has length `HashBSize + len(key)`. It is the key's double hash followed by the key. |
| KeyStore.Unframe | crypto/kms/privatekeystore.go:54-66 | A wrong length gives `ErrNotKeyFile`. A hash prefix that differs from the double hash of the remainder gives `ErrHashNotMatch`. It succeeds exactly when both checks pass. An accepted payload is the frame of the 32-byte key returned. |
| KeyStore.UnframeFrame | crypto/kms/privatekeystore.go:55-66 | Unframing the frame of a 32-byte key returns that same key. |
| KeyStore.LoadPrivateKey | crypto/kms/privatekeystore.go:41-68 | A missing file gives a path error. A decryption error is passed on unchanged. A successfully decrypted payload is handed to `Unframe`, so a wrong length gives `ErrNotKeyFile` and a bad hash prefix `ErrHashNotMatch`. A loaded key is one whose frame is the decrypted file. |
| KeyStore.SaveThenLoad | crypto/kms/privatekeystore.go:48-81 | Round trip: loading from the file that saving writes returns the saved key, provided decryption inverts encryption on that frame. |
| KeyStore.Classify | crypto/kms/privatekeystore.go:94-117 | `ErrNotKeyFile` means give up. A path error or not-exist means generate a key. Every other error, `ErrHashNotMatch` included, means abort. |
| KeyStore.KeyEnvironment.SavePrivateKey | crypto/kms/privatekeystore.go:72-81 | On an encryption error, that error is returned and no file is written. Otherwise the file at the path holds the encrypted frame. |
| KeyStore.KeyEnvironment.InitLocalKeyPair | crypto/kms/privatekeystore.go:89-124 | A loaded key is installed with its derived public key, and no file is written. `ErrNotKeyFile` and unexpected errors are returned with nothing generated or changed. A path or not-exist error leads to a generated pair, which is saved and then installed. A generation or save error is returned with nothing installed. |
| TokenReceiveHash.EncodeSucceeds | blockproducer/types/tokenreceive_gen.go:68-103 | The encoding succeeds exactly when every field does. Its length is the header, one marker per later field, and the fields' bytes. |
| TokenReceiveHash.EncodeFirstError | blockproducer/types/tokenreceive_gen.go:10-47 | When field k is the first to fail, the encoding fails with exactly field k's error. |
| TokenReceiveHash.HeaderMarshalHash | blockproducer/types/tokenreceive_gen.go:68-103 | On success the output is `0x85 0x85`, then Type, Amount, Nonce, Observer and Receiver as byte strings, each later one preceded by `0x85`. This happens exactly when all five fields marshal. Otherwise the output is nil and the error is the first field error. |
| TokenReceiveHash.MarshalHash | blockproducer/types/tokenreceive_gen.go:10-47 | On success the output is `0x84 0x84`, then Signee, Signature, the header encoding and HeaderHash, each later one preceded by `0x84`. A nil Signee or Signature is written as the nil encoding and never fails. Otherwise the output is nil and the error is the first field error. |
| TokenReceiveHash.Msgsize | blockproducer/types/tokenreceive_gen.go:50-65 | The accumulated estimate equals 48 plus the four field estimates, with `NilSize` for a nil pointer. |
| TokenReceiveHash.HeaderWithinMsgsize | blockproducer/types/tokenreceive_gen.go:105-109 | If each field's Msgsize bounds that field's encoding, then the header Msgsize (37 plus the five field estimates) bounds the header encoding. |
| TokenReceiveHash.TokenReceiveWithinMsgsize | blockproducer/types/tokenreceive_gen.go:49-65 | Under the same assumption, and with the nil encoding within `NilSize`, the TokenReceive Msgsize bounds its encoding. |
| ProjectConfig.String | cmd/cql-proxy/model/project_config.go:31-56 | Values 0, 1, 2 and 3 map to "Misc", "OAuth", "Table" and "Group", each name exactly for its own value. Every other value maps to "Unknown". |
| ProjectConfig.StringInjectiveOnKnown | cmd/cql-proxy/model/project_config.go:43-56 | Two config types with the same known name are equal. |
| ProjectConfig.MiscIsEnabled | cmd/cql-proxy/model/project_config.go:79-81 | False for a nil config or a nil `Enabled`. Otherwise it equals `*Enabled`. |
| ProjectConfig.SupportSignUp | cmd/cql-proxy/model/project_config.go:84-86 | The same three-way rule over `EnableSignUp`. |
| ProjectConfig.ShouldVerifyAfterSignUp | cmd/cql-proxy/model/project_config.go:89-91 | The same three-way rule over `EnableSignUpVerification`. |
| ProjectConfig.OAuthIsEnabled | cmd/cql-proxy/model/project_config.go:101-103 | The same three-way rule over the OAuth config's `Enabled`. |
| ProjectConfig.LiveTableNames | cmd/cql-proxy/model/project_config.go:195-203 | The name list is never longer than the list of rows. |
| ProjectConfig.LiveRowsIncrease | cmd/cql-proxy/model/project_config.go:195-203 | The positions of the picked rows are row indices in strictly increasing order, so input order is kept. |
| ProjectConfig.LiveRowsExactlyLive | cmd/cql-proxy/model/project_config.go:200 | A row is picked exactly when it decodes to a non-nil table config that is not marked deleted. |
| ProjectConfig.LiveTableNamesSelectsLiveRows | cmd/cql-proxy/model/project_config.go:195-203 | The j-th name is the key of the j-th picked row. The picked rows are exactly the live ones, in input order, so the list is a subsequence of the input keys. |
| ProjectConfig.GetProjectTablesName | cmd/cql-proxy/model/project_config.go:186-206 | A failed query returns no names and the wrapped error "get project table config failed". Otherwise there is no error and the names are `LiveTableNames` of the rows. |
| ProjectConfig.Prototype | cmd/cql-proxy/model/project_config.go:130-139 | Each known type gets an empty config of its own kind. Any other type keeps the current value. |
| ProjectConfig.GetAllProjectConfig | cmd/cql-proxy/model/project_config.go:129-142 | Every row's value becomes what decoding its raw value makes of the prototype for its type. Decoding errors are ignored. |

## Left out

- The `sync.Map` concurrency of the service table (sqlchain/mux.go:29) is not modelled. The table is a sequential map. The race between `unregister` and a dispatch that already holds the instance is a concurrency matter and is not modelled either.
- `NewMuxService` and RPC server registration (sqlchain/mux.go:33-40) are transport plumbing and are not modelled.
- `ChainRPCService` is not part of this model. Its query lifecycle, block rules and billing are reduced to the uninterpreted `serve` function of the instance, the RPC, the inner request and the inner response.
- `types/bprpc.go` is not part of this model. It only declares request and response shapes. The inner requests and responses are type parameters.
- `proto.Envelope` keeps only a few fields. The router copies it whole and never inspects it. It copies the envelope and the database id onto the response before it calls the instance (sqlchain/mux.go:151-152).
- Mux.RoutingErrorMeansUnbound: holds only when the instance never returns the router's sentinel error itself. The Go code does not prevent this, so a routing failure and an instance error can be confused in the source.
- KeyStore.LoadPrivateKey: every read failure is a missing file, reported as a path error. Permission errors and other I/O errors are not modelled. The key is its 32 bytes; `ec.PrivKeyFromBytes` is not modelled, and its second result, the public key, is discarded by the source.
- KeyStore.KeyEnvironment.SavePrivateKey: a failing `ioutil.WriteFile` is not modelled. The file permission 0600 is not modelled.
- Symmetric encryption, double SHA-256, secp256k1 key generation (`GeneratePrivateKey`, `GenSecp256k1KeyPair`) and public-key derivation are uninterpreted. The generated pair is an input of `InitLocalKeyPair`.
- The key store set-up (`InitLocalKeyStore`) is not modelled. `SetLocalKeyPair` is a plain field update. Logging is not modelled.
- `hsp.Require` is not modelled because it only reserves capacity. `AppendBytes` and `AppendNil` are uninterpreted apart from their append shape. The nested field types' own `MarshalHash` and `Msgsize` are inputs of the model.
- TokenReceiveHash.HeaderMsgsize: a plain transcription of the generated expression. Its meaning is stated by `HeaderWithinMsgsize`.
- Go `int` overflow in `Msgsize` is not modelled. The estimates are unbounded integers.
- In project_config.go, all `gorp` database access, `encoding/json` and `time.Now()` are outside this model. The table filter takes already-decoded rows. `GetAllProjectConfig` takes the selected rows and a decode function, and its query-error branch (lines 123-127) is not modelled.
- The single-row getters and the writers of project_config.go are not modelled. These are `GetProjectOAuthConfig`, `GetProjectTableConfig`, `GetProjectMiscConfig`, `GetProjectGroupConfig`, `AddProjectConfig`, `AddRawProjectConfig` and `UpdateProjectConfig`. Each is one database call around one JSON call, with no logic of its own. For the same reason, the row fields other than `value` are fixed in `ProjectConfigRow`.
- The inverted `err != nil` test in `GetProjectGroupConfig` (project_config.go:237) is reachable only through database and JSON calls. It is not modelled.
