# BitMaelum core, modelled in Dafny

BitMaelum is a mail system. Each user holds a key pair and an account on a
mail server. A client composes a message as a catalog with encrypted blocks
and attachments, and uploads it to the server under a ticket. When the server
cannot give a ticket straight away, it sends a proof-of-work challenge instead.
A processor on the server takes each message from the processing queue. It
delivers the message to a local account's inbox, or uploads it to the
recipient's own server. When that fails, it moves the message to the retry
queue.

This project models the server's message processor, the client's vault of
accounts, the message catalog, the client's API wrapper, the proof-of-work
record and its base64 challenge, API keys with their random identifiers,
file-backed account storage, and the logging set-up. It proves properties of
each of them.

Collaborators are parameters. These include the random source, the clock, the
HTTP transport, the file system, the cryptographic primitives, JSON encoding,
the resolver and the remote server's API. Each is a value or a function that
supplies the collaborator's answer, so every branch of the Go code is
reachable in the model. Where the Go code changes state, the model is a class:
- the processor's queue sections, scoreboard and trace of calls;
- the vault's account list;
- the catalog's blocks and attachments;
- the account directories;
- the logger's settings.

Pure computations are functions, and the properties are lemmas about them.

| file | module | models |
|---|---|---|
| `common.dfy` | `Common` | errors, `Option`, `Result`, bytes, time instants |
| `key_generator.dfy` | `KeyGenerator` | `internal/encrypt/key_generator.go` |
| `apikey.dfy` | `ApiKey` | `internal/apikey/apikey.go` |
| `base64.dfy` | `Base64` | the standard base64 encoding of RFC 4648, section 4, used for the challenge |
| `storage.dfy` | `Storage` | `cmd/bm-server/storage/storage.go` |
| `client.dfy` | `ApiClient` | `core/api/client.go` |
| `catalog.dfy` | `Catalog` | `core/message/catalog.go` |
| `vault.dfy` | `Vault` | `cmd/bm-client/vault/vault.go` |
| `logging.dfy` | `Logging` | `internal/logging.go` |
| `file_account.dfy` | `FileAccount` | `internal/account/file_account.go` |
| `process.dfy` | `Processor` | `cmd/bm-server/processor/process.go` |

## Model

| member | source | states |
|---|---|---|
| KeyGenerator.GenerateKey | internal/encrypt/key_generator.go:8-17 | The key is the prefix followed by one letter of the 62-letter alphabet per random draw: its length is prefix plus n, every character after the prefix is in the alphabet, and a zero length gives just the prefix. |
| KeyGenerator.Spelled | internal/encrypt/key_generator.go:9-14 | Each draw picks the alphabet letter at its index, one character per draw. |
| ApiKey.NewAdminKey | internal/apikey/apikey.go:18-30 | An admin key has no permissions. It never expires when the validity is not positive, and otherwise expires at now plus the validity. Its id is "BMK-" followed by 32 generated letters. |
| ApiKey.NewKey | internal/apikey/apikey.go:33-45 | A non-admin key holds exactly the given permissions. Its expiry and its "BMK-" id with 32 letters follow the same rules as the admin key. |
| ApiKey.Expiry | internal/apikey/apikey.go:19-22 | The expiry is the zero time exactly when the validity is not positive. |
| ApiKey.ToLower | internal/apikey/apikey.go:53 | Lower-casing keeps the length and maps each character on its own. Only A to Z change, each to its lower-case letter. |
| ApiKey.ToLowerIdempotent | internal/apikey/apikey.go:53 | Lower-casing twice is lower-casing once. |
| ApiKey.AnyLowerMatch | internal/apikey/apikey.go:55-59 | The permission loop succeeds exactly when some stored permission lower-cases to the requested one. |
| ApiKey.HasPermission | internal/apikey/apikey.go:48-62 | An admin key has every permission. A non-admin key has a permission exactly when a stored one matches it without regard to case, so a key with no permissions has none. |
| ApiKey.HasPermissionIgnoresCase | internal/apikey/apikey.go:53-58 | Asking for a permission in any case gives the same answer as asking in lower case. |
| ApiKey.StoredPermissionGranted | internal/apikey/apikey.go:55-59 | Every stored permission is granted, in whatever case it is asked for. |
| Base64.Encode | cmd/bm-server/storage/storage.go:41 | The encoding has four characters for every started group of three bytes. |
| Base64.DecodeEncode | cmd/bm-server/storage/storage.go:41 | Decoding the encoding of any byte sequence gives the bytes back. |
| Base64.EncodePadding | cmd/bm-server/storage/storage.go:41 | The encoding ends in as many '=' as the last group is short of three bytes, and has no '=' anywhere else. |
| Base64.Encode32 | cmd/bm-server/storage/storage.go:36-41 | A 32-byte challenge encodes to 44 characters, whose only '=' is the last one. |
| Base64.SplitJoin | cmd/bm-server/storage/storage.go:41 | Joining the sextets that three bytes split into gives the three bytes back. |
| Base64.ValueOfLetter | cmd/bm-server/storage/storage.go:41 | Every alphabet letter decodes to its own value, and none is the pad character. |
| Storage.NewProofOfWork | cmd/bm-server/storage/storage.go:34-60 | A failed random read is reported first, then a failed uuid. Otherwise the record is not yet valid and holds no proof. Its bits are the configured difficulty, it expires 30 minutes from now, and it carries the message id. Its challenge is 44 characters with only the last one a '=', and it decodes back to the 32 random bytes. |
| ApiClient.NormalizeServer | core/api/client.go:43-49 | The server always starts with "https://". A host without ':' gets port 2424 and the scheme. A host with a port gets the scheme only when it lacks it. |
| ApiClient.NormalizeIdempotent | core/api/client.go:43-49 | Normalising an already normalised server changes nothing. |
| ApiClient.HostWithPortHasNoScheme | core/api/client.go:44-48 | A host that had no ':' has no scheme after the port is appended, so the scheme is always added for it. |
| ApiClient.SchemeWithoutPort | core/api/client.go:43-49 | A server given as "https://m.x" counts as one with a port, because the scheme holds a ':'. It is kept exactly as given, with no port added. |
| ApiClient.BareHostGetsPortAndScheme | core/api/client.go:43-49 | A bare host gets both the default port and the scheme. |
| ApiClient.CreateNewClient | core/api/client.go:26-61 | A private key that does not parse, or a token that cannot be made, returns that error and leaves the account untouched. Otherwise the account's server is normalised and the client carries the account, the token and a 30-second timeout. |
| ApiClient.Api.constructor | core/api/client.go:51-58 | The client holds the account, the token and a 30-second timeout. |
| ApiClient.WithHeaders | core/api/client.go:85-86 | Every request carries a JSON content type and a bearer token, and nothing else in its headers. |
| ApiClient.Api.Sent | core/api/client.go:80-86 | A request goes to the account's server followed by the path, with the two standard headers. |
| ApiClient.Api.Get | core/api/client.go:79-101 | GET succeeds exactly when the request is built and sent, the status is 2xx and the body reads. It then returns the body. A request that cannot be built or sent returns that error, and any status outside 2xx gives the fixed error "incorrect status code returned". |
| ApiClient.Api.GetJson | core/api/client.go:64-76 | A failed GET passes its error through. Otherwise the result is the JSON decoding of the body. |
| ApiClient.Api.PostReader | core/api/client.go:119-141 | POST succeeds exactly when the request is built and sent with a 2xx status. A response with another status gives an error that names the status code. |
| ApiClient.Api.Delete | core/api/client.go:144-167 | DELETE succeeds exactly when the request is built and sent with a 2xx or 404 status. Another status gives an error that names the status code. |
| ApiClient.NotFoundOnlyAcceptedByDelete | core/api/client.go:96-98 | A 404 fails a GET but counts as success for a DELETE. |
| Catalog.GenerateIvAndKey | core/message/catalog.go:186-200 | Two full random reads give a 16-byte IV and a 32-byte key. A read that fails reports its error, the IV's first. A read that is only short gives no key material and no error. |
| Catalog.AesReader | core/message/catalog.go:202-210 | The decrypting reader is built exactly when the key has an AES size and the IV a block's length. A key of another size is refused with "crypto/aes: invalid key size N", where N is its length. |
| Catalog.CompressionFor | core/message/catalog.go:98-102 | Content of at least the threshold size is zlib-compressed, and smaller content is not. |
| Catalog.Payload | core/message/catalog.go:95-102 | The stream to encrypt is the zlib compression of the entry's reader exactly when the size reaches the 1024-byte threshold. Otherwise it is the reader itself. |
| Catalog.NewBlock | core/message/catalog.go:89-130 | Errors come in source order: the uuid, then the IV read, then the key read, then the cipher. A read that comes back short without an error leaves no key material. The cipher then refuses it with "crypto/aes: invalid key size 0". A block is made exactly when the uuid and both reads succeed in full. It carries the entry's type and size, the uuid as id, the compression its size calls for and the new key material. |
| Catalog.NewAttachment | core/message/catalog.go:133-184 | The stat, the mime detection, the uuid, the IV read, the key read and the cipher fail in that order. A short read without an error is refused by the cipher with "crypto/aes: invalid key size 0". A successful attachment carries the entry's path, the file size, the detected mime type, the uuid, the compression and the key material. |
| Catalog.Remaining | core/message/catalog.go:139-142 | What mime detection leaves unread is the data after the bytes it consumed. |
| Catalog.BlockRoundTrip | core/message/catalog.go:105-128 | Decrypting and decompressing a new block's reader with the block's own key, IV and compression gives back the entry's content. |
| Catalog.AttachmentRoundTrip | core/message/catalog.go:139-182 | An attachment gives back what remains after mime detection. That is the whole content exactly when detection consumed nothing, or the content is empty. |
| Catalog.CipherStepNeverPanics | core/message/catalog.go:105-114 | Once the random reads report no error, the cipher step can only fail with "crypto/aes: invalid key size 0", for a short read. It never reaches an IV that would panic. |
| Catalog.Catalog.constructor | core/message/catalog.go:73-86 | A new catalog has the sender taken from the account and is created now. Its recipient, thread, subject and flags are empty, and it has no labels, blocks or attachments. |
| Catalog.Catalog.AddBlock | core/message/catalog.go:89-130 | A block that can be made is appended. On an error nothing is added and the error is returned. Nothing else in the catalog changes. |
| Catalog.Catalog.AddAttachment | core/message/catalog.go:133-184 | An attachment that can be made is appended. On an error nothing is added. Nothing else in the catalog changes. |
| Vault.XorTwice | cmd/bm-client/vault/vault.go:101-103 | XOR with the same keystream byte twice restores the byte. |
| Vault.Ctr | cmd/bm-client/vault/vault.go:101-103 | CTR mode keeps the length of its input. |
| Vault.CtrTwice | cmd/bm-client/vault/vault.go:101-103 | Applying CTR twice with the same key and IV restores the input. |
| Vault.DerivedKey | cmd/bm-client/vault/vault.go:94 | When PBKDF2 returns the length it is asked for, the derived key is 32 bytes, a valid AES-256 key. |
| Vault.Unlock | cmd/bm-client/vault/vault.go:74-114 | An unreadable file or a bad envelope reports its error. A wrong HMAC reports an incorrect password. After a matching HMAC, a derived key of the wrong size gives "crypto/aes: invalid key size N". An IV that is not one block long gives the cipher.NewCTR panic as an error. The vault opens exactly when the HMAC matches, the derived key has an AES size, the IV is a block long, and the decrypted data decodes to the account list it returns. |
| Vault.SaveEnvelope | cmd/bm-client/vault/vault.go:134-179 | A save succeeds exactly when the salt read, the key, the IV read and the marshalling succeed. The envelope then holds the salt, the IV, the ciphertext of the marshalled accounts under the derived key, and the HMAC of that ciphertext. |
| Vault.SaveFile | cmd/bm-client/vault/vault.go:134-182 | The bytes written are the marshalled envelope, and any earlier error is passed through. |
| Vault.SaveThenUnlock | cmd/bm-client/vault/vault.go:74-182 | A vault saved with a password opens with the same password to the same account list. |
| Vault.WrongPasswordRefused | cmd/bm-client/vault/vault.go:86-91 | When another password gives another HMAC, the saved vault refuses it as an incorrect password. |
| Vault.Without | cmd/bm-client/vault/vault.go:122-131 | Removal never makes the list longer. The list keeps its length exactly when no account has the address. |
| Vault.WithoutMembers | cmd/bm-client/vault/vault.go:122-131 | Removal keeps exactly the accounts with another address. |
| Vault.WithoutAppend | cmd/bm-client/vault/vault.go:122-131 | Removing from two lists joined is joining the two lists with the account removed. |
| Vault.WithoutAbsent | cmd/bm-client/vault/vault.go:122-131 | Removing an address that is not present leaves the list as it was. |
| Vault.WithoutIdempotent | cmd/bm-client/vault/vault.go:122-131 | Removing the same address twice is removing it once. |
| Vault.AddThenRemove | cmd/bm-client/vault/vault.go:117-131 | Adding an account and then removing its address leaves no trace of the additions. |
| Vault.Vault.constructor | cmd/bm-client/vault/vault.go:41-45 | A new vault has no accounts and holds its password and path. |
| Vault.Vault.UnlockVault | cmd/bm-client/vault/vault.go:74-114 | When unlocking succeeds, the accounts become the decrypted list. On an error they are unchanged and the error is returned. |
| Vault.Vault.AddAccount | cmd/bm-client/vault/vault.go:117-119 | The account is appended. |
| Vault.Vault.RemoveAccount | cmd/bm-client/vault/vault.go:122-131 | Every account with the address is dropped, and the others keep their order. |
| Vault.Vault.GetAccountInfo | cmd/bm-client/vault/vault.go:186-194 | The first account with the address is returned. When there is none, the result is "cannot find account". |
| Vault.Vault.HasAccount | cmd/bm-client/vault/vault.go:197-201 | True exactly when some account has the address. |
| Vault.Vault.Save | cmd/bm-client/vault/vault.go:134-183 | The written file is the saved envelope of the current accounts. An error before the write is returned, and the write's own result is returned otherwise. |
| Logging.AfterFirstColon | internal/logging.go:32-35 | There is a rest exactly when the path holds a ':'. The rest is what follows the first one. |
| Logging.SyslogHost | internal/logging.go:29-35 | The syslog host is localhost:514 without a ':' in the path, and otherwise everything after the first ':'. |
| Logging.DestinationFor | internal/logging.go:22-52 | "stdout" and "stderr" select those streams. Any path that starts with "syslog" selects syslog with its host. Every other path is a file, and exactly one of these holds. |
| Logging.LevelFor | internal/logging.go:54-71 | Trace, debug, info and warning select their levels. "error" selects none, because its case is empty. Any other string selects the error level. |
| Logging.SyslogHostAt | internal/logging.go:32-35 | The host is the text after the first ':', wherever that ':' is. |
| Logging.SyslogDefault | internal/logging.go:28-35 | A bare "syslog" goes to localhost:514. |
| Logging.SyslogPrefixOnly | internal/logging.go:28-35 | A path that merely starts with "syslog" also goes to syslog on localhost:514. |
| Logging.SyslogExplicitHost | internal/logging.go:32-35 | Later colons stay in the host. |
| Logging.SyslogEmptyHost | internal/logging.go:32-35 | A path that ends at its first ':' names the empty host. |
| Logging.ErrorCaseSetsNothing | internal/logging.go:54-71 | "error" leaves the level as it was, while an unknown or differently cased name selects the error level. |
| Logging.Logger.Log | internal/logging.go:39 | An entry is written to the current output only when the level lets it through. The settings do not change. |
| Logging.Logger.SetLogging | internal/logging.go:13-74 | The formatter always has full timestamps in the Stamp layout. The output and hooks follow the destination: stdout, stderr, a syslog hook when the daemon answers (stderr and an error entry when it does not), or the opened file (stderr when it cannot be opened). The level follows the level name, and a trace line is written when the level is trace. |
| FileAccount.FileRepo.Exists | internal/account/file_account.go:44-46 | An account exists exactly when its directory does. |
| FileAccount.FileRepo.Delete | internal/account/file_account.go:49-54 | A successful removal drops the account. The result is the removal's own outcome. |
| FileAccount.FileRepo.Create | internal/account/file_account.go:12-41 | A failed mkdir is returned with nothing changed. When the key and every mandatory box succeed, the account exists with its key and all its boxes. Otherwise the error of a failing part is returned and the directory is removed again. The result is nil exactly on success, and no other account changes. |
| Processor.MoveToRetry | cmd/bm-server/processor/process.go:35 | Only a message in the processing queue moves, to the retry queue. Every other message stays where it is. |
| Processor.MoveToRetryTwice | cmd/bm-server/processor/process.go:57-67 | Moving a message to the retry queue a second time changes nothing. |
| Processor.FirstError | cmd/bm-server/processor/process.go:166 | The join reports no error exactly when every part succeeded. |
| Processor.FirstErrorSnoc | cmd/bm-server/processor/process.go:166 | Starting one more part keeps an earlier error, and otherwise reports the new part's result. |
| Processor.FirstErrorIsFirst | cmd/bm-server/processor/process.go:166 | When the join reports an error, it is the error of a part that failed, and every part started before that one succeeded. |
| Processor.RemoveFromProcessing | cmd/bm-server/processor/process.go:179-180 | Only this message can change. It leaves the processing queue when the removal succeeds and it was there. A failed removal changes nothing. |
| Processor.CatalogError | cmd/bm-server/processor/process.go:125-138 | The catalog part succeeds exactly when the path, the read and the upload all succeed. A failed path lookup is reported first, and then a failed read. |
| Processor.CatalogCalls | cmd/bm-server/processor/process.go:125-138 | The catalog part makes at most one call, UploadCatalog under the ticket. It makes it exactly when the path and the read succeeded. |
| Processor.BlockError | cmd/bm-server/processor/process.go:150-162 | A file's part succeeds exactly when the file opens and its upload succeeds. A file that does not open reports the open's error. |
| Processor.BlockErrors | cmd/bm-server/processor/process.go:146-163 | The file parts give one result per listed file. |
| Processor.BlockErrorsPointwise | cmd/bm-server/processor/process.go:146-163 | The result at each position is that file's own part result. |
| Processor.BlockCalls | cmd/bm-server/processor/process.go:146-163 | The file parts make at most one upload per listed file. |
| Processor.PartErrors | cmd/bm-server/processor/process.go:120-163 | The upload group holds one part per listed file plus two. The header part comes first, the catalog part second, and then the file parts in list order. |
| Processor.BlockCallsMembers | cmd/bm-server/processor/process.go:146-163 | A block is uploaded exactly for each listed file that opens, under the ticket. |
| Processor.BlockCallsAreUploads | cmd/bm-server/processor/process.go:146-163 | The block loop makes nothing but block uploads. |
| Processor.DeliverLocalSpec | cmd/bm-server/processor/process.go:73-84 | The message is sent to the inbox, and nil is returned either way. When the inbox takes it, the message leaves the processing queue. When the inbox refuses it, the message is moved to the retry queue. No other message changes. |
| Processor.StartCalls | cmd/bm-server/processor/process.go:121-144 | The calls open with UploadHeader and end with GetFiles. UploadCatalog comes between them exactly when the catalog path and read succeeded. |
| Processor.JoinSpec | cmd/bm-server/processor/process.go:165-180 | The join's result is nil exactly when every part, CompleteUpload and RemoveMessage succeeded. A failed part is returned as it is, with the message left where it was. RemoveMessage is called exactly when every part and CompleteUpload succeeded. |
| Processor.UploadSpec | cmd/bm-server/processor/process.go:119-180 | The upload returns nil exactly when the files are listed, every part succeeds, and CompleteUpload and RemoveMessage succeed. The sections either stay as they were or lose this message from processing; the upload never moves it to retry. |
| Processor.ResubmitSpec | cmd/bm-server/processor/process.go:105-117 | The proof-of-work branch first does the work and then asks for a ticket with that proof, before anything else is called. Only this message can change. |
| Processor.DeliverRemoteSpec | cmd/bm-server/processor/process.go:90-181 | deliverRemote first asks for an anonymous client for the recipient's server. A client error or a ticket error is returned as it is, with nothing moved. Only this message can change. |
| Processor.DeliverSpec | cmd/bm-server/processor/process.go:47-68 | A local delivery never returns an error. Only this message can change. |
| Processor.ProcessBodySpec | cmd/bm-server/processor/process.go:30-68 | The body starts by reading the header and never returns an error. Only this message can change, from processing to retry or out of the queue. |
| Processor.ProcessSpec | cmd/bm-server/processor/process.go:21-69 | A run never returns an error. It changes no message other than its own, and that one only from processing to retry or out of the queue. |
| Processor.ProcessDelivers | cmd/bm-server/processor/process.go:21-69 | With a readable header and a resolved recipient, a run is the checks followed by the delivery. When the delivery returns an error, a move to the retry queue follows. |
| Processor.ScoreboardBrackets | cmd/bm-server/processor/process.go:25-28 | However a run ends, it adds the message to the scoreboard first and removes it last. |
| Processor.UnreadableHeaderRetries | cmd/bm-server/processor/process.go:31-37 | An unreadable header moves the message to the retry queue, and nothing is resolved or delivered. |
| Processor.ResolveFailureRetries | cmd/bm-server/processor/process.go:39-45 | A failed resolve moves the message to the retry queue before the accounts are consulted. |
| Processor.LocalTrace | cmd/bm-server/processor/process.go:47-60 | A local recipient's run is the inbox delivery, plus deliverLocal's own move when that delivery fails. A delivered message leaves the processing queue, and a refused one goes to retry. |
| Processor.LocalTraceStaysLocal | cmd/bm-server/processor/process.go:47-84 | A local recipient's trace holds no remote call and no proof-of-work. |
| Processor.LocalDeliveryOnly | cmd/bm-server/processor/process.go:47-84 | A local recipient gets no remote call and no proof-of-work. The message is sent to the inbox. It is moved to retry once when the inbox refuses it, and never otherwise. A delivered message leaves the processing queue. |
| Processor.WorkOnlyForInvalidTicket | cmd/bm-server/processor/process.go:101-117 | Proof-of-work is done exactly when the client is made and the first ticket comes back invalid. |
| Processor.UploadCalls | cmd/bm-server/processor/process.go:119-180 | The upload half makes only upload calls. |
| Processor.RefusedResubmit | cmd/bm-server/processor/process.go:105-117 | When the proof-of-work ticket is refused or still invalid, the message moves to the retry queue and nothing is uploaded. The refusal's error, or nil, is returned. |
| Processor.ResubmitErrorTrace | cmd/bm-server/processor/process.go:64-68 | A resubmission that fails with an error gives a trace holding two moves to the retry queue: deliverRemote's and ProcessMessage's. |
| Processor.ResubmitErrorMovesTwice | cmd/bm-server/processor/process.go:111-116 | A resubmission that fails with an error moves the message twice. The second move changes nothing. |
| Processor.ResubmitInvalidTrace | cmd/bm-server/processor/process.go:105-117 | A resubmission that yields a still-invalid ticket without an error gives a fixed trace, holding one move to the retry queue, and returns nil. |
| Processor.ResubmitInvalidMovesOnce | cmd/bm-server/processor/process.go:111-116 | A resubmission that yields a still-invalid ticket without an error returns nil, so the message moves once. |
| Processor.UploadParts | cmd/bm-server/processor/process.go:119-163 | The header part starts first, and the catalog part starts when its file reads. Each message file that opens is uploaded, with no block uploaded that is not in the file list. A failed file listing deletes the upload and returns that error. |
| Processor.FailedPartDeletes | cmd/bm-server/processor/process.go:165-170 | When any part fails, the upload is deleted and one part's error is returned. There is no CompleteUpload and no RemoveMessage, and the message stays put. |
| Processor.RemoveOnlyAfterComplete | cmd/bm-server/processor/process.go:172-180 | The local copy is removed only after every part succeeded and CompleteUpload succeeded. |
| Processor.CompletedUpload | cmd/bm-server/processor/process.go:90-180 | With a valid ticket and every part succeeding, the remote trace is fixed: ticket, parts, CompleteUpload, RemoveMessage. The result is RemoveMessage's. |
| Processor.RemoteSuccessTrace | cmd/bm-server/processor/process.go:21-180 | A fully successful remote delivery gives a fixed trace: the checks, the ticket, the parts, CompleteUpload and RemoveMessage. The message then leaves the processing queue. |
| Processor.RemoteSuccessRemoves | cmd/bm-server/processor/process.go:21-180 | A fully successful remote delivery takes the message out of the queues and never moves it to retry. |
| Processor.CompletedButRetried | cmd/bm-server/processor/process.go:174-180 | A completed upload whose local removal fails still sends the message to the retry queue. |
| Processor.Processor.constructor | cmd/bm-server/processor/process.go:21-28 | A new processor holds the given sections, an empty scoreboard and no calls. |
| Processor.Processor.MoveToRetryQueue | cmd/bm-server/processor/process.go:35 | The sections become `Processor.MoveToRetry` of the old ones, and the call is recorded. |
| Processor.Processor.DeliverLocal | cmd/bm-server/processor/process.go:73-84 | The new sections, the appended calls and the result are those `Processor.DeliverLocalSpec` gives for the old sections (process.go:73-84): nil, with the message gone on success and in retry on failure. |
| Processor.Processor.StartBlocks | cmd/bm-server/processor/process.go:146-163 | The loop appends `Processor.BlockCalls`, one upload per file that opens. It returns `Processor.FirstError` of `Processor.PartErrors`, the first error in launch order of the header, catalog and file parts (process.go:120-166). |
| Processor.Processor.Join | cmd/bm-server/processor/process.go:165-180 | The new sections, the appended calls and the result are those of `Processor.JoinSpec` (process.go:165-180). A failed part deletes the upload, and otherwise the upload is completed and the local copy removed. |
| Processor.Processor.Upload | cmd/bm-server/processor/process.go:119-180 | The new sections, the appended calls and the result are those of `Processor.UploadSpec` (process.go:119-180). |
| Processor.Processor.Resubmit | cmd/bm-server/processor/process.go:105-117 | The new sections, the appended calls and the result are those of `Processor.ResubmitSpec` (process.go:105-117). |
| Processor.Processor.DeliverRemote | cmd/bm-server/processor/process.go:90-181 | The new sections, the appended calls and the result are those of `Processor.DeliverRemoteSpec` (process.go:90-181). |
| Processor.Processor.ProcessBody | cmd/bm-server/processor/process.go:30-68 | The new sections and the appended calls are those of `Processor.ProcessBodySpec` (process.go:30-68), and the scoreboard is unchanged. |
| Processor.Processor.ProcessMessage | cmd/bm-server/processor/process.go:21-69 | The new sections and the appended calls are those of `Processor.ProcessSpec` (process.go:21-69). The message is off the scoreboard afterwards. |

## Left out

- Randomness, the clock, the file system, HTTP, the syslog daemon, and the cryptographic and compression primitives are parameters. Their answers are passed in, and their inner workings are not modelled. The AES-CTR keystream, the HMAC and PBKDF2 are functions supplied by the caller.
- JSON marshalling is a pair of caller-supplied functions. The vault round trip assumes these invert each other.
- Uuid generation and formatting are an input string or error.
- The errgroup's concurrency is not modelled. Every part runs, and `g.Wait()` is taken to report the first failing part in launch order. Go reports whichever fails first in time. When GetFiles fails (process.go:140-144), the header and catalog parts are never joined, so their uploads may still run after DeleteMessage; the model records them before the delete.
- MoveToRetryQueue, RemoveMessage, SendToBox, GetFiles, GetMessageHeader and account.Info are outside this model. They are modelled by the effect the processor relies on: a move from processing to retry, a removal from processing, or the collaborator's answer. A successful SendToBox, like a successful RemoveMessage, takes the message out of the processing queue.
- The vault's `New` function is not modelled. Its home-directory expansion, its directory creation and its choice between creating and unlocking the file are file-system work. The constructor models only the initial vault value, and `UnlockVault` and `Save` model the two branches.
- Reading and writing the vault file are parameters, and so are the stat and open calls of an attachment.
- Go panics are modelled as error results. The IV checks of `cipher.NewCFBDecrypter` (core/message/catalog.go:208) and `cipher.NewCTR` (cmd/bm-client/vault/vault.go:102) are the panics in the core. `Catalog.CipherStepNeverPanics` shows that the catalog never reaches the first one.
- `Vault.Unlock` and `Vault.Vault.UnlockVault`: the `cipher.NewCTR` panic is reachable, because the HMAC covers only the ciphertext (cmd/bm-client/vault/vault.go:87-91), so a file with an altered IV passes the password check. The model returns it as the `IvLengthPanic` error, and `UnlockVault` leaves the accounts unchanged. The Go program would crash instead.
- `Logging.Logger.SetLogging`: the entries a hook would forward to syslog, and the formatter's rendering of entries, are not modelled.
- Only the level and the destination of each entry are recorded.
- `ApiKey.ToLower`: lower-cases ASCII letters only. Go's `strings.ToLower` also maps other Unicode letters.
- The content checksums of blocks and attachments are left empty, as `AddBlock` and `AddAttachment` leave them. Filling them in happens elsewhere and is not part of this model.
- `FileAccount.FileRepo.Delete`: a failed removal is taken to leave the directory as it was, with no partial removal.
- `Processor.ResubmitErrorMovesTwice` does not repeat that nothing is uploaded. `Processor.RefusedResubmit` gives that run's exact trace, and so already states it.
- The server's main loop (cmd/bm-server/main.go:196-203), which runs the processor on a ticker in a goroutine, is not part of this model.
- The ticket and proof-of-work exchange with the remote server is an input. So is the proof that `Work` finds, because the hashing of the work itself is not modelled.
