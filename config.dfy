/** The configuration record of the i18n facade and the option setters that
    update it (i18n.go, lines 9-19 and 125-158).

    In Go an `Option` is a closure `func(*Options)` returned by one of five
    constructors. Here each closure is a value of the datatype `Option`, one
    constructor per Go constructor, and `Apply` is what calling the closure
    does to the record. */
module Config {

  /** The facade's configuration (the Go struct `Options`). */
  datatype Options = Options(
    defaultParser: string,
    defaultLang: string,
    langDirectory: string,
    cacheDirectory: string,
    enableFileAsKey: bool)

  /** The zero value that `&Options{}` allocates. */
  const Zero := Options("", "", "", "", false)

  /** The parser name and language filled in when none is configured. */
  const FallbackParser := "json"
  const FallbackLang := "zh_cn"

  /** Names for the five fields of `Options`, so that "which field an option
      writes" can be stated once for all options. */
  datatype Field = ParserField | LangField | DirectoryField | CacheField | FileAsKeyField

  /** The value held in one field. */
  datatype Setting = Text(text: string) | Flag(flag: bool)

  /** The value of field `f` in `o`. */
  function Get(o: Options, f: Field): Setting
  {
    match f
    case ParserField => Text(o.defaultParser)
    case LangField => Text(o.defaultLang)
    case DirectoryField => Text(o.langDirectory)
    case CacheField => Text(o.cacheDirectory)
    case FileAsKeyField => Flag(o.enableFileAsKey)
  }

  /** An option setter, as returned by the Go constructors of the same name. */
  datatype Option =
    | LangDirectory(dir: string)
    | DefaultLang(lang: string)
    | DefaultParser(parser: string)
    | CacheDirectory(path: string)
    | EnableFileAsKey(enabled: bool)
  {
    /** The field the option's name announces. */
    function Named(): Field
    {
      match this
      case LangDirectory(_) => DirectoryField
      case DefaultLang(_) => LangField
      case DefaultParser(_) => ParserField
      case CacheDirectory(_) => CacheField
      case EnableFileAsKey(_) => FileAsKeyField
    }

    /** The value the option carries. */
    function Written(): Setting
    {
      match this
      case LangDirectory(d) => Text(d)
      case DefaultLang(l) => Text(l)
      case DefaultParser(p) => Text(p)
      case CacheDirectory(p) => Text(p)
      case EnableFileAsKey(b) => Flag(b)
    }

    /** What calling the closure does to the record it is given. Every
        option writes its value into exactly one field and leaves the other
        four alone; `CacheDirectory` writes the parser name, as the Go code
        does, so no option ever writes the cache directory. */
    function Apply(o: Options): (r: Options)
      ensures Get(r, ParserField) == (if DefaultParser? || CacheDirectory? then Written() else Get(o, ParserField))
      ensures Get(r, LangField) == (if DefaultLang? then Written() else Get(o, LangField))
      ensures Get(r, DirectoryField) == (if LangDirectory? then Written() else Get(o, DirectoryField))
      ensures Get(r, FileAsKeyField) == (if EnableFileAsKey? then Written() else Get(o, FileAsKeyField))
      ensures r.cacheDirectory == o.cacheDirectory
    {
      match this
      case LangDirectory(d) => o.(langDirectory := d)
      case DefaultLang(l) => o.(defaultLang := l)
      case DefaultParser(p) => o.(defaultParser := p)
      case CacheDirectory(p) => o.(defaultParser := p)
      case EnableFileAsKey(b) => o.(enableFileAsKey := b)
    }

    /** The field `Apply` actually writes: the named one for every option
        except `CacheDirectory`, which writes the parser name. */
    function Target(): (f: Field)
      ensures f != CacheField
      ensures f == Named() <==> !CacheDirectory?
      ensures Get(Apply(Zero), f) == Written()
    {
      if CacheDirectory? then ParserField else Named()
    }
  }

  /** Applying `Target` and `Written` together is exactly `Apply`: the
      written field takes the option's value, every other field keeps its
      own. */
  lemma ApplyWritesTargetOnly(x: Option, o: Options, f: Field)
    ensures Get(x.Apply(o), f) == if f == x.Target() then x.Written() else Get(o, f)
  {
  }

  /** The options applied one after another, first to last, to one record
      (the loop of `initOption`). */
  function ApplyAll(os: seq<Option>, o: Options): Options
    decreases |os|
  {
    if os == [] then o else ApplyAll(os[1..], os[0].Apply(o))
  }

  /** An independent reading of the same list: the value of `f` is the value
      of the LAST option in the list that writes `f`, or `initial` when none
      does. Searches from the end, unlike `ApplyAll`. */
  function LastWrite(os: seq<Option>, f: Field, initial: Setting): Setting
    decreases |os|
  {
    if os == [] then initial
    else if os[|os| - 1].Target() == f then os[|os| - 1].Written()
    else LastWrite(os[..|os| - 1], f, initial)
  }

  /** Applying one more option after a list is applying it to the list's
      result. */
  lemma {:induction false} ApplyAllSnoc(os: seq<Option>, x: Option, o: Options)
    ensures ApplyAll(os + [x], o) == x.Apply(ApplyAll(os, o))
    decreases |os|
  {
    if os == [] {
      assert [x][1..] == [];
    } else {
      assert (os + [x])[1..] == os[1..] + [x];
      ApplyAllSnoc(os[1..], x, os[0].Apply(o));
    }
  }

  /** Applying two lists in a row is applying their concatenation. */
  lemma {:induction false} ApplyAllAppend(a: seq<Option>, b: seq<Option>, o: Options)
    ensures ApplyAll(a + b, o) == ApplyAll(b, ApplyAll(a, o))
    decreases |a|
  {
    if a == [] {
      assert a + b == b;
    } else {
      assert (a + b)[1..] == a[1..] + b;
      ApplyAllAppend(a[1..], b, a[0].Apply(o));
    }
  }

  /** Folding an option list left to right leaves every field equal to the
      value of the last option that writes it, and unchanged when no option
      does. */
  lemma {:induction false} ApplyAllLastWrite(os: seq<Option>, o: Options, f: Field)
    ensures Get(ApplyAll(os, o), f) == LastWrite(os, f, Get(o, f))
    decreases |os|
  {
    if os != [] {
      var init, x := os[..|os| - 1], os[|os| - 1];
      assert os == init + [x];
      ApplyAllSnoc(init, x, o);
      ApplyAllLastWrite(init, o, f);
      ApplyWritesTargetOnly(x, ApplyAll(init, o), f);
    }
  }

  /** A field that no option in the list writes is left as it was. */
  lemma {:induction false} LastWriteUntouched(os: seq<Option>, f: Field, initial: Setting)
    requires forall k :: 0 <= k < |os| ==> os[k].Target() != f
    ensures LastWrite(os, f, initial) == initial
    decreases |os|
  {
    if os != [] {
      LastWriteUntouched(os[..|os| - 1], f, initial);
    }
  }

  /** No option list ever changes the cache directory: `CacheDirectory(p)`
      writes the parser name instead. */
  lemma {:induction false} CacheDirectoryNeverWritten(os: seq<Option>, o: Options)
    ensures ApplyAll(os, o).cacheDirectory == o.cacheDirectory
  {
    ApplyAllLastWrite(os, o, CacheField);
    LastWriteUntouched(os, CacheField, Get(o, CacheField));
  }

  /** The defaulting step of `initParser`: an empty parser name becomes
      "json", then an empty language becomes "zh_cn", each by applying the
      corresponding option. */
  function WithDefaults(o: Options): (r: Options)
    ensures r.defaultParser != "" && r.defaultLang != ""
    ensures r.defaultParser == (if o.defaultParser == "" then FallbackParser else o.defaultParser)
    ensures r.defaultLang == (if o.defaultLang == "" then FallbackLang else o.defaultLang)
    ensures r.langDirectory == o.langDirectory && r.cacheDirectory == o.cacheDirectory
    ensures r.enableFileAsKey == o.enableFileAsKey
  {
    var withParser := if o.defaultParser == "" then DefaultParser(FallbackParser).Apply(o) else o;
    if withParser.defaultLang == "" then DefaultLang(FallbackLang).Apply(withParser) else withParser
  }

  /** The configuration a call of `NewI18n` leaves behind: its options applied
      to the record in order, then the defaults filled in. */
  function Configure(o: Options, os: seq<Option>): Options
  {
    WithDefaults(ApplyAll(os, o))
  }

  /** A field value after the defaulting step: an empty parser name or
      language is replaced, everything else stays. */
  function Defaulted(f: Field, v: Setting): Setting
  {
    if f == ParserField && v == Text("") then Text(FallbackParser)
    else if f == LangField && v == Text("") then Text(FallbackLang)
    else v
  }

  /** Field by field, `Configure` yields the last value written by the
      options (or the previous value when none writes the field), with the
      documented defaults standing in for an empty parser name or language. */
  lemma ConfigureFields(o: Options, os: seq<Option>, f: Field)
    ensures Get(Configure(o, os), f) == Defaulted(f, LastWrite(os, f, Get(o, f)))
  {
    ApplyAllLastWrite(os, o, f);
  }

  /** Settings persist across calls: once a record has been configured, a
      later call keeps every field that its options do not write. */
  lemma ConfigurePersists(o: Options, os: seq<Option>, f: Field)
    requires o.defaultParser != "" && o.defaultLang != ""
    requires forall k :: 0 <= k < |os| ==> os[k].Target() != f
    ensures Get(Configure(o, os), f) == Get(o, f)
  {
    ConfigureFields(o, os, f);
    LastWriteUntouched(os, f, Get(o, f));
  }

  /** Two records that agree on every field are the same record. */
  lemma FieldsDetermine(p: Options, q: Options)
    requires forall f :: Get(p, f) == Get(q, f)
    ensures p == q
  {
    assert Get(p, ParserField) == Get(q, ParserField);
    assert Get(p, LangField) == Get(q, LangField);
    assert Get(p, DirectoryField) == Get(q, DirectoryField);
    assert Get(p, CacheField) == Get(q, CacheField);
    assert Get(p, FileAsKeyField) == Get(q, FileAsKeyField);
  }

  /** Which value a list writes last does not depend on the starting value,
      except when the list does not write the field at all. */
  lemma {:induction false} LastWriteStart(os: seq<Option>, f: Field, i: Setting, j: Setting)
    ensures (LastWrite(os, f, i) == i && LastWrite(os, f, j) == j)
         || LastWrite(os, f, i) == LastWrite(os, f, j)
    decreases |os|
  {
    if os != [] && os[|os| - 1].Target() != f {
      LastWriteStart(os[..|os| - 1], f, i, j);
    }
  }

  /** Two calls of `NewI18n` in a row configure the record exactly as one
      call with both option lists, in order, would: the defaults filled in
      by the first call are what the second call would have filled in. */
  lemma ConfigureTwice(o: Options, a: seq<Option>, b: seq<Option>)
    ensures Configure(Configure(o, a), b) == Configure(o, a + b)
  {
    var x := ApplyAll(a, o);
    ApplyAllAppend(a, b, o);
    forall f ensures Get(Configure(Configure(o, a), b), f) == Get(Configure(o, a + b), f) {
      ConfigureFields(Configure(o, a), b, f);
      ConfigureFields(x, b, f);
      ConfigureFields(o, a, f);
      LastWriteStart(b, f, Get(Configure(o, a), f), Get(x, f));
      ApplyAllLastWrite(a, o, f);
    }
    FieldsDetermine(Configure(Configure(o, a), b), Configure(o, a + b));
  }

  /** Calling again with no options changes nothing: the defaults already
      filled in stay, and nothing else is written. */
  lemma ReconfigureWithoutOptions(o: Options, os: seq<Option>)
    ensures Configure(Configure(o, os), []) == Configure(o, os)
  {
  }
}
