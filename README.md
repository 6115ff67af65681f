# SendGrid adapter for App Engine mail, in Dafny

This project models the App Engine build of the `sendgrid` Go package (`sendgrid_appengine.go`).
The package does three things:

- **Translator** (`migrateMail`). It turns an App Engine `mail.Message` into a SendGrid `SGMail`.
  - It copies subject, HTML body, text body and reply-to verbatim.
  - It parses the sender, then the comma-joined To list, then Cc, then Bcc, and stops at the first failure.
  - It fills the parallel `To`/`ToName` arrays in lockstep.
  - Cc and Bcc keep addresses only, and an empty Cc or Bcc list is never parsed.
- **Configuration cache** (`loadConfig`). It holds the SendGrid credentials for the whole process.
  - The cache is unloaded (`globalConfig == nil`) until a populated record is read from the datastore key `SendGridConfig`.
  - After that it stays loaded for the life of the process.
  - If the fetch fails, the loader writes a stub record `{"default", "default"}` and returns `ErrConfig`.
  - A record that is empty or still `"default"` is refused and is not cached.
- **Dispatcher** (`sendMail`, `SendMailDelay`).
  - On the development server, a mail is logged instead of sent.
  - In production, `SendMailDelay` enqueues a deferred `sendgrid` task.
  - That task runs `sendMail`, which loads the configuration and then delivers.

Files:

- `wrappers.dfy`: the `Option` and `Result` types.
- `mail.dfy` (module `Mail`): the translator.
- `config.dfy` (module `Configuration`): the loader.
- `dispatch.dfy` (module `Dispatch`): the dispatcher.

The address parser (Go's `net/mail`, RFC 5322 section 3.4) is a parameter `AddressParser` made of two total functions. Every translator property therefore holds for any parser. `Translate` is the reference definition of `migrateMail`. It also returns the parser calls it made, in order. `MigrateMail` is the imperative version, with the source's append loops, and it is proved equal to `Translate`.

The loader has two forms. `Load` is a pure function of the state (cache and datastore map). `ConfigLoader` is the class that holds that state, and its `LoadConfig` method is proved equal to `Load`. Whether a datastore Get or Put fails on a given call is a parameter (`StoreIo`). The dispatcher records its effects in order: the would-have-sent log line, the enqueued task, and the delivery with its credentials. The delivery client's answer is a parameter.

Two behaviours of the code worth knowing:

- **Stub on any Get error.** `loadConfig` takes the stub branch on any `datastore.Get` error, not only when the record is missing. A fetch that fails for another reason therefore overwrites a filled-in record with the stub if the Put succeeds (`GetErrorWritesStub`).
- **Enqueue errors.** `delay.Func.Call` in this SDK returns no error. So `SendMailDelay` returns nil after enqueueing, and an enqueue failure is not passed to the caller.

## Model

| member | source | states |
|---|---|---|
| `Mail.Join` | sendgrid_appengine.go:88 | `strings.Join`: one part gives that part unchanged, the first part is a prefix of the result, and the length is the parts' total length plus one separator between each neighbouring pair |
| `Mail.Addresses` | sendgrid_appengine.go:89-100 | the appended addresses: one per parsed entry, the i-th being the address of entry i |
| `Mail.Names` | sendgrid_appengine.go:89-92 | the appended display names: one per parsed entry, the i-th being the name of entry i, possibly empty |
| `Mail.ErrorText` | sendgrid_appengine.go:86-111 | the returned error text ends with the parser's own error message, after a non-empty field prefix |
| `Mail.ErrorTextInjective` | sendgrid_appengine.go:86-111 | two translation errors with the same text are the same error, so the text identifies the failing field and keeps the parser's message |
| `Mail.MigrateMail` | sendgrid_appengine.go:75-115 | the step-by-step translator, with its append loops, returns exactly the reference translation and makes exactly its parser calls |
| `Mail.TranslateFollowsPlan` | sendgrid_appengine.go:82-113 | fail-fast order: the parser calls are a prefix of sender, To, then Cc and Bcc when non-empty; every call but the last succeeded; success exactly when the whole plan ran and its last call succeeded; otherwise the error names the failing call's field and carries its message |
| `Mail.SenderFailureStopsEarly` | sendgrid_appengine.go:82-87 | a sender that does not parse gives a sender error, and the only parser call made is the one for the sender |
| `Mail.ToLockstep` | sendgrid_appengine.go:88-95 | on success the To list was parsed, and `To` and `ToName` both have one entry per parsed entry, index i of each from entry i |
| `Mail.CopyListsAddressesOnly` | sendgrid_appengine.go:96-113 | an empty Cc (Bcc) list gets no parser call and stays empty; a non-empty one gets exactly its parsed addresses, in order, with names dropped |
| `Mail.VerbatimFields` | sendgrid_appengine.go:76-84 | on success the subject, HTML body, text body and reply-to are the input's, and From/FromName are the parsed sender's address and name |
| `Mail.MigrateExample` | sendgrid_appengine_test.go:12-52 | the regression case: "Doe Email <doe@email.com>" sending to "John Doe <john@email.com>" with one Cc and one Bcc gives the mail the test builds by hand |
| `Configuration.Load` | sendgrid_appengine.go:45-73 | a loaded cache answers `nil` with no datastore call; success exactly when something is cached; only a populated record read from the fixed key is cached; a failure leaves the cache unloaded; the only write is the stub under the fixed key, and only after a failed fetch; a failed fetch always attempts that Put, even when the Put fails; a record that was read but refused leaves the cache and the datastore unchanged after exactly one Get |
| `Configuration.LoadedIsTerminal` | sendgrid_appengine.go:48-72 | from a loaded cache, any number of later calls all succeed, change nothing and make no datastore call |
| `Configuration.FetchOnce` | sendgrid_appengine.go:48-72 | from an unloaded cache with a populated record, any run of calls whose first fetch succeeds makes exactly one Get, all calls succeed, and the record is cached |
| `Configuration.StubThenPopulated` | sendgrid_appengine.go:51-70 | with the record missing, a call writes the stub and fails; once the operator fills the record in, the next call succeeds and caches those values |
| `Configuration.RefusedRecordLeavesStore` | sendgrid_appengine.go:65-68 | a record read without error but with either field `""` or `"default"` (the stub among them) is refused: `ErrConfig` after exactly one Get, nothing cached, no Put, the datastore unchanged |
| `Configuration.GetErrorWritesStub` | sendgrid_appengine.go:51-63 | any Get error returns `ErrConfig`; the store then holds the stub if the Put succeeded and is unchanged if it failed |
| `Configuration.ConfigLoader.constructor` | sendgrid_appengine.go:19 | at process start nothing is cached and no datastore call has been made |
| `Configuration.ConfigLoader.LoadConfig` | sendgrid_appengine.go:45-73 | `loadConfig` on the class: its status, new cache, new datastore and datastore calls are those of `Load`, and a cached record stays a populated one |
| `Dispatch.Dispatcher.SendMail` | sendgrid_appengine.go:26-38 | development server: logs, returns nil, leaves the configuration untouched; otherwise a configuration error is returned with no delivery, and after a successful load the mail is delivered with the cached credentials and the client's error is returned unchanged |
| `Dispatch.Dispatcher.SendMailDelay` | sendgrid_appengine.go:119-131 | a translation error is returned with no effect; otherwise the development server sends at once and returns nil, and production enqueues the translated mail and returns nil, without touching the configuration |

## Left out

- The internals of `net/mail` (`ParseAddress`, `ParseAddressList`) are not modelled. The parser is a parameter and every result holds for any parser.
- The SendGrid client is not part of this model: `NewSendGridClient`, `Send`, `buildURL` and `urlfetch.Client`. Delivery is the `Delivered` effect, and the client's error is a parameter.
- The `SGMail` type and its setters (`SetFrom`, `AddTo`, `AddToName`, `AddCc`, `AddBcc`) come from a source file that is not part of this model. The setters are modelled as assignments and appends to the ten fields the translator writes. The other `SGMail` fields keep their zero values.
- The real App Engine datastore, the `delay` task queue and `IsDevAppServer` are I/O. They become a map with per-call failure flags, the `Enqueued` effect and a fixed flag.
- The execution of a queued task by App Engine's workers, including its retries, is not modelled. The task body is `SendMail`.
- Logging (`Infof`, `Errorf`) is left out as I/O. The one log that stands in for a send on the development server is the `WouldHaveSent` effect.
- The `configSync` mutex is left out because it serves only concurrency. `loadConfig` is one atomic method.
- The `reflect.DeepEqual` and URL-value comparisons of the test are not modelled. Only the expected values are kept (`MigrateExample`).
- Dispatch.Dispatcher.SendMailDelay: its datastore and delivery parameters reach `SendMail` only on the development server, where `SendMail` uses neither. The production task's later run is a separate call to `SendMail`.
