# i18n facade: configuration and initialisation, modelled in Dafny

This project models the facade of the Go package `i18n` (the file `i18n.go`).
The facade is a process-wide translation-lookup object. It keeps one
configuration record, `Options`. Option setters update that record. On every
call, `NewI18n` applies its options and fills in defaults for the parser name
(`"json"`) and the language (`"zh_cn"`). It then looks up the parser backend by
name in a registry, gives the backend the configuration and asks it to parse.
Afterwards `Load`, `LoadByLang` and `LoadWithDefault` look the backend up again
on each call and pass the call on to it.

Files:

- `config.dfy` (module `Config`): the `Options` record and the five option
  setters. The closure `func(*Options)` returned by each of the five setters
  becomes a constructor of the datatype `Option`, and `Apply` is what calling
  that closure does. The file
  also holds the left-to-right fold `ApplyAll` that `initOption` performs, the
  defaulting step `WithDefaults`, and the lemmas about them. `LastWrite` is a
  separate reference definition that searches the list from the end.
  `ApplyAllLastWrite` proves that the fold and `LastWrite` agree on every field.
- `parsers.dfy` (module `Parsers`): the shape of a backend, following the
  interface `IParser`. A backend is a record of uninterpreted functions, one
  per call the facade makes. The registry handle that `NewParser()` returns is a
  class whose state is a map from names to backends.
- `facade.dfy` (module `Facade`): the struct `I18n` as a class whose methods
  update its fields in place (`InitOption`, `InitParser`, `Lang`) or only read
  them (the three lookups). The package-level variable `i18nInit` is the field
  `instance` of the class `Runtime`, and `Runtime.NewI18n` is `NewI18n`.

Modelling choices:

- **The `CacheDirectory` setter is reproduced as written.** It writes the
  parser name, not the cache directory. `Option.Target` states this, and
  `CacheDirectoryNeverWritten` proves that no list of the five setters ever
  changes the cache directory. The model keeps this behaviour because the rest of the
  package runs with it.
- **Backends keep a pointer to the configuration.** In Go, a backend receives
  the one `*Options` pointer the instance ever allocates. It therefore sees
  later changes, for example a language switched by `Lang`. In the model,
  every backend function is given the facade's current `Options` at the time
  of the call, by value: backends are taken to read the record, never to
  write it (see "## Left out").
- **A panic is a failure result.** `NewI18n` and the lookups return
  `Failure(e)` where the Go code panics. `initParser` returns an `Outcome`.
  Error message texts are not modelled. A `Parse` error is wrapped one-to-one
  as `ParseError(cause)`.
- **The result of `NewParser()` is a parameter.** `InitParser` and `NewI18n`
  take that registry handle as an argument, so the model does not say whether
  it is shared global state. `initParser` stores the handle in the field
  `parser`, and the lookups read the handle's map at the moment of the call.
- **Backend calls are recorded.** The ghost field `calls` logs, in order,
  every `SetOptions` and `Parse` the facade makes on a backend, with the name
  under which it found that backend.
- **Lookups have no `modifies` clause.** Calling a lookup twice with the same
  arguments therefore gives the same answer, and no lookup re-parses.
- **Two behaviours of the code are kept as written.**
  - A `NewI18n` that fails keeps its updates to the record: the options it
    applied and the defaults it filled in stay. `NewI18n`'s contract states
    this, and the clause is not limited to successful calls.
  - `LoadByLang` also fails when no backend is registered under the current
    parser name, the same as the other two lookups.
- `GreetingScenario` is a client of the contracts. It builds one backend with a
  greeting in two languages. It then checks what `Load` returns before and
  after `Lang`, what `LoadByLang` returns for a language the backend does not
  have, what `LoadWithDefault` returns for a missing key, and what happens on a
  second `NewI18n` with an unregistered parser name.

## Model

| member | source | states |
|---|---|---|
| `Config.Option.Apply` | i18n.go:126-158 | Each setter writes its value into one field and leaves the other four alone. `CacheDirectory` writes the parser name. The cache directory is never changed. |
| `Config.Option.Target` | i18n.go:147-151 | The field a setter writes is never the cache directory. It is the field the setter's name announces for every setter except `CacheDirectory`. |
| `Config.ApplyWritesTargetOnly` | i18n.go:126-158 | After applying a setter, its target field holds the setter's value and every other field holds its old value. |
| `Config.ApplyAllSnoc` | i18n.go:48-52 | Applying one more option after a list is the same as applying that option to the list's result. |
| `Config.ApplyAllAppend` | i18n.go:48-52 | Applying two option lists in a row is the same as applying their concatenation. |
| `Config.ApplyAllLastWrite` | i18n.go:48-52 | After the fold, every field holds the value of the last option in the list that writes it, or its old value if no option does. |
| `Config.LastWriteUntouched` | i18n.go:48-52 | A field that no option in the list writes keeps its initial value. |
| `Config.CacheDirectoryNeverWritten` | i18n.go:147-151 | No list of the five setters, however long, changes the cache directory. |
| `Config.WithDefaults` | i18n.go:55-62 | An empty parser name becomes "json" and an empty language becomes "zh_cn". Non-empty values are kept, so both fields are non-empty afterwards. The other three fields do not change. |
| `Config.ConfigureFields` | i18n.go:36-62 | After a `NewI18n` call, each field holds the last value its options wrote, or its previous value if none wrote it. An empty parser name or language is then replaced by its default. |
| `Config.ConfigurePersists` | i18n.go:30-62 | Once a record has been configured, a later call keeps every field that the new options do not write. Defaults filled in earlier are kept too. |
| `Config.ConfigureTwice` | i18n.go:30-62 | Two `NewI18n` calls in a row leave the same record as one call with both option lists concatenated. |
| `Config.ReconfigureWithoutOptions` | i18n.go:55-62 | A repeated call with no options leaves the configured record unchanged. |
| `Facade.ParseOutcome` | i18n.go:63-75 | Initialisation fails with the unregistered-parser error exactly when no backend is registered under the parser name. Otherwise it passes exactly when `Parse` returns nil, and it returns `Parse`'s error unchanged. |
| `Facade.InitCalls` | i18n.go:71-74 | When a backend is found, the facade first passes it the current configuration and then calls `Parse`, both under the resolved name. When none is found, it calls nothing. |
| `Facade.I18n.constructor` | i18n.go:31-35 | The instance starts with an empty configuration, no registry handle and no backend calls. |
| `Facade.I18n.InitOption` | i18n.go:48-52 | The loop leaves the record equal to the left-to-right fold of the options over the old record. |
| `Facade.I18n.InitParser` | i18n.go:54-76 | The defaults are filled in, and the registry handle is stored. The result is `ParseOutcome` of the defaulted record. The backend calls are exactly `InitCalls`, with the options handed over before `Parse`. |
| `Facade.I18n.Load` | i18n.go:78-90 | Fails with the unregistered-parser error exactly when no backend is registered under the current parser name. Otherwise returns that backend's answer for the same keys and the current configuration. |
| `Facade.I18n.LoadByLang` | i18n.go:92-104 | Fails exactly when no backend is registered under the current parser name. Otherwise returns that backend's answer for the same key and language. |
| `Facade.I18n.LoadWithDefault` | i18n.go:106-118 | Fails exactly when no backend is registered under the current parser name. Otherwise returns that backend's answer for the same key and default values. |
| `Facade.I18n.Lang` | i18n.go:121-123 | Sets the language and changes nothing else. It is the same update as the `DefaultLang` setter. The registry handle stays and no backend call is made. |
| `Facade.Runtime.constructor` | i18n.go:26-27 | At start no instance is allocated. |
| `Facade.Runtime.NewI18n` | i18n.go:30-46 | The instance is allocated on the first call only, and later calls reuse it. On every call the record becomes `Configure` of the previous record and the options. The backend calls of `initParser` are appended. The call fails with `initParser`'s error exactly when that is not nil. Updates made before a failure stay. |

## Left out

- The single-execution guard `sync.Once` and every concurrent use of the facade. The model is sequential, and the guard is a test for an unallocated instance.
- The registry's implementation (`NewParser`, `Register`, `Getter`) is not part of this model. The registry is a map held as state. Registering is not modelled, so the model says nothing about which of two registrations under one name wins.
- The import-time self-registration of the JSON backend (parser_json/init.go) has no logic of its own.
- What a backend does: reading resource files, parsing, splitting key paths, prefixing keys with file names, and its treatment of missing keys and languages. A backend's answers are uninterpreted functions of the configuration and the arguments.
- A backend's `Parse` cannot change its later answers in the model, because its answers depend only on the configuration and the arguments. The model records that `Parse` was called, not what it stored.
- Go's `interface{}` results are the datatype `Value`, which the facade never inspects.
- Panic and error message texts are not modelled.
- Calling a lookup on an instance whose `initParser` never ran is not modelled. `I18n` is an exported type, so Go code reaches that state only through a zero-value `I18n` built without `NewI18n`, whose nil `opts` makes each lookup panic on a nil dereference (i18n.go:79, 93 and 107). The lookups leave that case out through `requires parser != null`.
- Option closures written by callers are not modelled, and neither are nil options. `Option` is the exported type `func(*Options)` and every field of `Options` is exported, so a caller may pass any closure, including one that writes the cache directory, or nil, which panics at i18n.go:50. The model's `Option` has only the five setters of i18n.go:126-158, so `ApplyAllLastWrite`, `CacheDirectoryNeverWritten`, `ConfigureFields`, `ConfigurePersists` and `ConfigureTwice` hold for lists built from those five setters.
- Backends writing to the configuration are not modelled. `SetOptions` hands a backend the writable `*Options` pointer (i18n.go:72), and a backend could write through it in `SetOptions`, in `Parse` or later. The model assumes backends only read the shared record, which the facade owns: backend functions receive `Options` by value. The contracts of `InitParser` and `NewI18n` state the new record on that assumption, and so the `Configure` lemmas carry over to the facade only on that assumption.
