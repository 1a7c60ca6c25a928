/** The i18n facade (i18n.go): the process-wide instance, its initialisation
    protocol and the lookups it forwards to the selected backend.

    Go's `panic` is modelled as a `Failure` result and the `error` returned
    by `initParser` as an `Outcome`; the message texts are not modelled. */
module Facade {
  import opened Config
  import opened Parsers

  /** Why an operation of the facade fails. */
  datatype Error =
    | Unregistered             // no backend under the configured parser name
    | ParseError(cause: string) // the backend's `Parse` returned this error

  /** The `error` result of `initParser`. */
  datatype Outcome = Pass | Fail(error: Error)

  /** A result, or the error the Go code panics with. */
  datatype Result<T> = Success(value: T) | Failure(error: Error)

  /** A call the facade makes on a backend, with the name the backend was
      found under. */
  datatype BackendCall =
    | SetOptions(parser: string, opts: Options)
    | Parse(parser: string)

  /** The outcome of resolving and parsing, given the (defaulted)
      configuration and the registry's contents. */
  function ParseOutcome(o: Options, backends: map<string, Backend>): (r: Outcome)
    ensures r == Fail(Unregistered) <==> o.defaultParser !in backends
    ensures o.defaultParser in backends ==>
      (r == Pass <==> backends[o.defaultParser].parse(o) == Parsed)
    ensures o.defaultParser in backends && backends[o.defaultParser].parse(o).ParseFailed? ==>
      r == Fail(ParseError(backends[o.defaultParser].parse(o).cause))
  {
    if o.defaultParser !in backends then Fail(Unregistered)
    else
      match backends[o.defaultParser].parse(o)
      case Parsed => Pass
      case ParseFailed(cause) => Fail(ParseError(cause))
  }

  /** The calls `initParser` makes on the backend: the configuration first,
      then `Parse`, and nothing at all when no backend is registered. */
  function InitCalls(o: Options, backends: map<string, Backend>): (r: seq<BackendCall>)
    ensures o.defaultParser !in backends ==> r == []
    ensures o.defaultParser in backends ==>
      |r| == 2 && r[0].SetOptions? && r[0].opts == o && r[1].Parse? &&
      r[0].parser == r[1].parser == o.defaultParser
  {
    if o.defaultParser in backends then [SetOptions(o.defaultParser, o), Parse(o.defaultParser)] else []
  }

  /** The facade object (the Go struct `I18n`). `opts` stands for the one
      `Options` record allocated with the instance, `parser` for the registry
      handle (nil until `initParser` first runs), and `calls` records what the
      facade asked of backends. */
  class I18n {
    var opts: Options
    var parser: Registry?
    ghost var calls: seq<BackendCall>

    /** The allocation `&I18n{opts: &Options{}}`. */
    constructor ()
      ensures opts == Zero && parser == null && calls == []
    {
      opts := Zero;
      parser := null;
      calls := [];
    }

    /** `initOption`: applies each option, in order, to the record. */
    method InitOption(os: seq<Option>)
      modifies this`opts
      ensures opts == ApplyAll(os, old(opts))
    {
      var k := 0;
      while k < |os|
        invariant 0 <= k <= |os|
        invariant opts == ApplyAll(os[..k], old(opts))
      {
        ApplyAllSnoc(os[..k], os[k], old(opts));
        assert os[..k + 1] == os[..k] + [os[k]];
        opts := os[k].Apply(opts);
        k := k + 1;
      }
      assert os[..|os|] == os;
    }

    /** `initParser`: fills in the default parser name and language, takes
        the registry handle (`NewParser()`, passed in here), and fails when
        no backend is registered under the parser name; otherwise hands the
        configuration to the backend, then parses and returns what `Parse`
        returned. The defaults stay in place whatever the outcome. */
    method InitParser(registry: Registry) returns (err: Outcome)
      modifies this`opts, this`parser, this`calls
      ensures opts == WithDefaults(old(opts))
      ensures parser == registry
      ensures err == ParseOutcome(opts, registry.backends)
      ensures calls == old(calls) + InitCalls(opts, registry.backends)
    {
      if opts.defaultParser == "" {
        InitOption([DefaultParser(FallbackParser)]);
      }
      if opts.defaultLang == "" {
        InitOption([DefaultLang(FallbackLang)]);
      }
      parser := registry;
      var name := opts.defaultParser;
      if name !in parser.backends {
        return Fail(Unregistered);
      }
      var backend := parser.backends[name];
      // The order of the two log entries below is a record of the Go order,
      // not a checked ordering: what that order guarantees, that `Parse`
      // works on the defaulted configuration, is captured by passing `opts`
      // to `parse`.
      calls := calls + [SetOptions(name, opts)];
      var parsed := backend.parse(opts);
      calls := calls + [Parse(name)];
      match parsed
      case Parsed => err := Pass;
      case ParseFailed(cause) => err := Fail(ParseError(cause));
    }

    /** `Load`: resolves the backend by the current parser name on every
        call and forwards the keys to it unchanged. */
    method Load(keys: seq<string>) returns (r: Result<Value>)
      requires parser != null
      ensures r.Failure? <==> opts.defaultParser !in parser.backends
      ensures r.Failure? ==> r.error == Unregistered
      ensures r.Success? ==> r.value == parser.backends[opts.defaultParser].load(opts, keys)
    {
      var name := opts.defaultParser;
      if name !in parser.backends {
        return Failure(Unregistered);
      }
      r := Success(parser.backends[name].load(opts, keys));
    }

    /** `LoadByLang`: as `Load`, for one key in the given language. */
    method LoadByLang(key: string, lang: string) returns (r: Result<string>)
      requires parser != null
      ensures r.Failure? <==> opts.defaultParser !in parser.backends
      ensures r.Failure? ==> r.error == Unregistered
      ensures r.Success? ==> r.value == parser.backends[opts.defaultParser].loadByLang(opts, key, lang)
    {
      var name := opts.defaultParser;
      if name !in parser.backends {
        return Failure(Unregistered);
      }
      r := Success(parser.backends[name].loadByLang(opts, key, lang));
    }

    /** `LoadWithDefault`: as `Load`, for one key and the fallback values. */
    method LoadWithDefault(key: string, defaultVal: seq<string>) returns (r: Result<Value>)
      requires parser != null
      ensures r.Failure? <==> opts.defaultParser !in parser.backends
      ensures r.Failure? ==> r.error == Unregistered
      ensures r.Success? ==>
        r.value == parser.backends[opts.defaultParser].loadWithDefault(opts, key, defaultVal)
    {
      var name := opts.defaultParser;
      if name !in parser.backends {
        return Failure(Unregistered);
      }
      r := Success(parser.backends[name].loadWithDefault(opts, key, defaultVal));
    }

    /** `Lang`: switches the default language and nothing else; no backend
        is called and nothing is parsed again. */
    method Lang(l: string)
      modifies this`opts
      ensures opts == DefaultLang(l).Apply(old(opts))
      ensures opts.defaultLang == l
      ensures forall f :: f != LangField ==> Get(opts, f) == Get(old(opts), f)
      ensures parser == old(parser) && calls == old(calls)
    {
      opts := opts.(defaultLang := l);
    }
  }

  /** The package-level state: `i18nInit`, null until the single-execution
      guard has run. The guard itself is modelled by testing for null, since
      the model is sequential. */
  class Runtime {
    var instance: I18n?

    constructor ()
      ensures instance == null
    {
      instance := null;
    }

    /** `NewI18n`: allocates the shared instance on the first call only;
        every call applies its options to the same record, re-runs
        `initParser` with the registry handle it is given, and fails (the
        Go code panics) with `initParser`'s error. What was applied before
        the failure stays applied. */
    method NewI18n(os: seq<Option>, registry: Registry) returns (r: Result<I18n>)
      modifies this, instance
      ensures instance != null
      ensures old(instance) != null ==> instance == old(instance)
      ensures old(instance) == null ==> fresh(instance)
      ensures instance.opts == Configure(if old(instance) == null then Zero else old(instance.opts), os)
      ensures instance.parser == registry
      ensures instance.calls ==
        (if old(instance) == null then [] else old(instance.calls)) + InitCalls(instance.opts, registry.backends)
      ensures r.Success? <==> ParseOutcome(instance.opts, registry.backends) == Pass
      ensures r.Success? ==> r.value == instance
      ensures r.Failure? ==> Fail(r.error) == ParseOutcome(instance.opts, registry.backends)
    {
      if instance == null {
        instance := new I18n();
      }
      var i := instance;
      i.InitOption(os);
      var err := i.InitParser(registry);
      if err.Fail? {
        return Failure(err.error);
      }
      r := Success(i);
    }
  }

  /** A client of the contracts above: one backend holding a single
      greeting in two languages, the language switched after start-up, and
      a lookup in a language the backend does not have. */
  method GreetingScenario()
  {
    var greeting := map["zh_cn" := "\U{4F60}\U{597D}", "en" := "hello"];
    var json := Backend(
      o => Parsed,
      (o: Options, keys: seq<string>) => if keys == ["greeting"] && o.defaultLang in greeting then Str(greeting[o.defaultLang]) else Nil,
      (o: Options, key: string, defaults: seq<string>) => if key == "greeting" && o.defaultLang in greeting then Str(greeting[o.defaultLang])
                            else if defaults != [] then Str(defaults[0]) else Nil,
      (o, key, lang) => if key == "greeting" && lang in greeting then greeting[lang] else "");
    var registry := new Registry(map[FallbackParser := json]);
    var runtime := new Runtime();

    var r := runtime.NewI18n([DefaultLang("zh_cn")], registry);
    assert r.Success?;
    var i18n := r.value;
    var v := i18n.Load(["greeting"]);
    assert v == Success(Str("\U{4F60}\U{597D}"));

    i18n.Lang("en");
    v := i18n.Load(["greeting"]);
    assert v == Success(Str("hello"));

    var s := i18n.LoadByLang("greeting", "fr");
    assert s == Success("");
    v := i18n.LoadWithDefault("missing.key", ["fallback"]);
    assert v == Success(Str("fallback"));

    // A second call with a parser nobody registered fails, but the name it
    // wrote stays configured, and lookups then fail too.
    r := runtime.NewI18n([DefaultParser("yaml")], registry);
    assert r == Failure(Unregistered);
    assert runtime.instance == i18n && i18n.opts.defaultLang == "en";
    v := i18n.Load(["greeting"]);
    assert v.Failure?;
  }
}
