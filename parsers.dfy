/** The parser backends the facade drives and the registry it finds them in.

    Neither the registry's implementation nor any backend is part of this
    model; what the facade needs of them is their shape (the interface
    `IParser`, parser_interface.go, lines 3-9): a backend is given the
    configuration, parses once, and answers three kinds of lookup. A backend
    is therefore a record of uninterpreted functions. A backend keeps the
    pointer to the facade's one `Options` record that it is given, so every
    answer it gives may depend on the configuration as it is at the time of
    the call; each function receives that configuration, by value, since a
    backend is taken to read the facade's record and never to write it. */
module Parsers {
  import opened Config

  /** A lookup result, the Go `interface{}`: the facade never inspects it. */
  datatype Value = Nil | Str(s: string) | Strs(items: seq<string>) | Nested(entries: map<string, Value>)

  /** What `Parse` returns: nil, or an error. */
  datatype ParseResult = Parsed | ParseFailed(cause: string)

  /** One backend (an `IParser`), reduced to its answers. */
  datatype Backend = Backend(
    parse: Options -> ParseResult,
    load: (Options, seq<string>) -> Value,
    loadWithDefault: (Options, string, seq<string>) -> Value,
    loadByLang: (Options, string, string) -> string)

  /** The registry handle that `NewParser()` returns: backends by name.
      Its contents are whatever was registered before; the facade only reads
      them, at the moment of each call. */
  class Registry {
    var backends: map<string, Backend>

    constructor (backends: map<string, Backend>)
      ensures this.backends == backends
    {
      this.backends := backends;
    }
  }
}
