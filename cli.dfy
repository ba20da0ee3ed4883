/**
 * The deterministic logic of the command-line driver (src/main.rs): choosing
 * compilers from the fetched list, turning `--filters` names and the CLI
 * switches into a flag record, and adjusting that record per compiler before
 * a compile request is built. The network calls are replaced by their
 * results, passed in as parameters (`None` when the fetch failed).
 */
module Cli {
  import opened Types
  import Seqs
  import Implems

  // ---------------------------------------------------------------------
  // Case-insensitive matching
  // ---------------------------------------------------------------------

  function LowerChar(c: char): char
  {
    if 'A' <= c <= 'Z' then (c as int + 32) as char else c
  }

  function Lower(s: string): (r: string)
    ensures |r| == |s| && forall i :: 0 <= i < |s| ==> r[i] == LowerChar(s[i])
  {
    seq(|s|, i requires 0 <= i < |s| => LowerChar(s[i]))
  }

  /** What the pattern `(?i)<needle>` finds: `needle` anywhere in `hay`, ignoring case. */
  predicate ContainsIgnoringCase(hay: string, needle: string)
  {
    exists i: nat | i <= |hay| :: Seqs.OccursAt(Lower(hay), Lower(needle), i)
  }

  /** What the pattern `(?i)^<b>$` finds: `a` and `b` are equal, ignoring case. */
  predicate EqualsIgnoringCase(a: string, b: string)
  {
    Lower(a) == Lower(b)
  }

  // ---------------------------------------------------------------------
  // find_compilers and get_compiler_info
  // ---------------------------------------------------------------------

  /** The three optional criteria of `find_compilers`. */
  predicate NameOk(c: CompilerInfo, name: Option<string>)
  {
    name.Some? ==> ContainsIgnoringCase(c.name, name.value)
  }

  predicate LangOk(c: CompilerInfo, language: Option<string>)
  {
    language.Some? ==> EqualsIgnoringCase(c.lang, language.value)
  }

  predicate IsaOk(c: CompilerInfo, isa: Option<string>)
  {
    isa.Some? ==> EqualsIgnoringCase(c.instructionSet, isa.value)
  }

  predicate Satisfies(c: CompilerInfo, name: Option<string>, language: Option<string>, isa: Option<string>)
  {
    NameOk(c, name) && LangOk(c, language) && IsaOk(c, isa)
  }

  /** The name pass: kept as is when no name is given. */
  function NarrowByName(cs: seq<CompilerInfo>, name: Option<string>): seq<CompilerInfo>
  {
    match name
    case Some(n) => Seqs.Filter(cs, (c: CompilerInfo) => ContainsIgnoringCase(c.name, n))
    case None => cs
  }

  /** The language pass: a whole-string match. */
  function NarrowByLang(cs: seq<CompilerInfo>, language: Option<string>): seq<CompilerInfo>
  {
    match language
    case Some(l) => Seqs.Filter(cs, (c: CompilerInfo) => EqualsIgnoringCase(c.lang, l))
    case None => cs
  }

  /** The instruction-set pass: a whole-string match. */
  function NarrowByIsa(cs: seq<CompilerInfo>, isa: Option<string>): seq<CompilerInfo>
  {
    match isa
    case Some(i) => Seqs.Filter(cs, (c: CompilerInfo) => EqualsIgnoringCase(c.instructionSet, i))
    case None => cs
  }

  /**
   * `find_compilers`: the fetched list narrowed by name, then language, then
   * instruction set. A failed fetch gives `None`.
   */
  function FindCompilers(fetched: Option<seq<CompilerInfo>>, name: Option<string>,
                         language: Option<string>, isa: Option<string>): (r: Option<seq<CompilerInfo>>)
    ensures r.None? <==> fetched.None?
    ensures r.Some? ==> |r.value| <= |fetched.value|
    ensures r.Some? ==> forall c :: c in r.value <==> c in fetched.value && Satisfies(c, name, language, isa)
  {
    match fetched
    case None => None
    case Some(all) =>
      var afterName := NarrowByName(all, name);
      var afterLang := NarrowByLang(afterName, language);
      var afterIsa := NarrowByIsa(afterLang, isa);
      Some(afterIsa)
  }

  /** Each pass is a filter on its criterion, an absent criterion holding of every compiler. */
  lemma NarrowByNameIsFilter(cs: seq<CompilerInfo>, name: Option<string>)
    ensures NarrowByName(cs, name) == Seqs.Filter(cs, (c: CompilerInfo) => NameOk(c, name))
  {
    if name.None? {
      Seqs.FilterAll(cs, (c: CompilerInfo) => NameOk(c, name));
    } else {
      Seqs.FilterCongruent(cs, (c: CompilerInfo) => ContainsIgnoringCase(c.name, name.value),
                           (c: CompilerInfo) => NameOk(c, name));
    }
  }

  lemma NarrowByLangIsFilter(cs: seq<CompilerInfo>, language: Option<string>)
    ensures NarrowByLang(cs, language) == Seqs.Filter(cs, (c: CompilerInfo) => LangOk(c, language))
  {
    if language.None? {
      Seqs.FilterAll(cs, (c: CompilerInfo) => LangOk(c, language));
    } else {
      Seqs.FilterCongruent(cs, (c: CompilerInfo) => EqualsIgnoringCase(c.lang, language.value),
                           (c: CompilerInfo) => LangOk(c, language));
    }
  }

  lemma NarrowByIsaIsFilter(cs: seq<CompilerInfo>, isa: Option<string>)
    ensures NarrowByIsa(cs, isa) == Seqs.Filter(cs, (c: CompilerInfo) => IsaOk(c, isa))
  {
    if isa.None? {
      Seqs.FilterAll(cs, (c: CompilerInfo) => IsaOk(c, isa));
    } else {
      Seqs.FilterCongruent(cs, (c: CompilerInfo) => EqualsIgnoringCase(c.instructionSet, isa.value),
                           (c: CompilerInfo) => IsaOk(c, isa));
    }
  }

  /** The three passes together are one filter on the conjunction of the criteria. */
  lemma FindCompilersIsOneFilter(all: seq<CompilerInfo>, name: Option<string>,
                                 language: Option<string>, isa: Option<string>)
    ensures FindCompilers(Some(all), name, language, isa) ==
            Some(Seqs.Filter(all, (c: CompilerInfo) => Satisfies(c, name, language, isa)))
  {
    var pName := (c: CompilerInfo) => NameOk(c, name);
    var pLang := (c: CompilerInfo) => LangOk(c, language);
    var pIsa := (c: CompilerInfo) => IsaOk(c, isa);
    var pNameLang := (c: CompilerInfo) => NameOk(c, name) && LangOk(c, language);
    var pAll := (c: CompilerInfo) => Satisfies(c, name, language, isa);
    var afterName := NarrowByName(all, name);
    var afterLang := NarrowByLang(afterName, language);
    NarrowByNameIsFilter(all, name);
    NarrowByLangIsFilter(afterName, language);
    NarrowByIsaIsFilter(afterLang, isa);
    Seqs.FilterFilter(all, pName, pLang, pNameLang);
    Seqs.FilterFilter(all, pNameLang, pIsa, pAll);
  }

  /** With no criterion at all, the fetched list comes back unchanged. */
  lemma FindCompilersNoCriteria(all: seq<CompilerInfo>)
    ensures FindCompilers(Some(all), None, None, None) == Some(all)
  {
  }

  /** The result keeps the fetched order: it is a subsequence of the fetched list. */
  lemma FindCompilersSubsequence(all: seq<CompilerInfo>, name: Option<string>,
                                 language: Option<string>, isa: Option<string>)
    ensures Seqs.IsSubsequence(FindCompilers(Some(all), name, language, isa).value, all)
  {
    FindCompilersIsOneFilter(all, name, language, isa);
    Seqs.FilterIsSubsequence(all, (c: CompilerInfo) => Satisfies(c, name, language, isa));
  }

  /** Every compiler that meets all criteria is kept, as often as it was fetched; no other is. */
  lemma FindCompilersMultiplicity(all: seq<CompilerInfo>, name: Option<string>,
                                  language: Option<string>, isa: Option<string>, c: CompilerInfo)
    ensures multiset(FindCompilers(Some(all), name, language, isa).value)[c] ==
            if Satisfies(c, name, language, isa) then multiset(all)[c] else 0
  {
    FindCompilersIsOneFilter(all, name, language, isa);
    Seqs.FilterMultiplicity(all, (c: CompilerInfo) => Satisfies(c, name, language, isa), c);
  }

  /** The order of the three passes does not matter; here, language first, then instruction set, then name. */
  lemma FindCompilersPassOrder(all: seq<CompilerInfo>, name: Option<string>,
                               language: Option<string>, isa: Option<string>)
    ensures NarrowByName(NarrowByIsa(NarrowByLang(all, language), isa), name) ==
            FindCompilers(Some(all), name, language, isa).value
  {
    var pName := (c: CompilerInfo) => NameOk(c, name);
    var pLang := (c: CompilerInfo) => LangOk(c, language);
    var pIsa := (c: CompilerInfo) => IsaOk(c, isa);
    var afterLang := NarrowByLang(all, language);
    var afterIsa := NarrowByIsa(afterLang, isa);
    NarrowByLangIsFilter(all, language);
    NarrowByIsaIsFilter(afterLang, isa);
    NarrowByNameIsFilter(afterIsa, name);
    var afterName := NarrowByName(all, name);
    NarrowByNameIsFilter(all, name);
    NarrowByLangIsFilter(afterName, language);
    NarrowByIsaIsFilter(NarrowByLang(afterName, language), isa);
    // name last -> name first, one swap at a time
    Seqs.FilterCommute(Seqs.Filter(all, pLang), pIsa, pName);
    Seqs.FilterCommute(all, pLang, pName);
    Seqs.FilterCommute(Seqs.Filter(all, pName), pLang, pIsa);
    Seqs.FilterCommute(Seqs.Filter(all, pLang), pName, pIsa);
  }

  /** `c` is the first compiler of `all` whose id is `id`. */
  ghost predicate IsFirstWithId(all: seq<CompilerInfo>, id: string, c: CompilerInfo)
  {
    exists i :: 0 <= i < |all| && all[i] == c && c.id == id &&
                forall j :: 0 <= j < i ==> all[j].id != id
  }

  /**
   * `get_compiler_info`: the first fetched compiler with the requested id.
   * A failed fetch gives `None`; taking the first element of an empty match
   * list panics.
   */
  function GetCompilerInfo(fetched: Option<seq<CompilerInfo>>, id: string): (r: Outcome<Option<CompilerInfo>>)
    ensures fetched.None? ==> r == Returned(None)
    ensures fetched.Some? ==> (r.Panicked? <==> forall c :: c in fetched.value ==> c.id != id)
    ensures fetched.Some? && r.Returned? ==> r.value.Some? && IsFirstWithId(fetched.value, id, r.value.value)
  {
    match fetched
    case None => Returned(None)
    case Some(all) =>
      var hasId := (c: CompilerInfo) => c.id == id;
      var matching := Seqs.Filter(all, hasId);
      if |matching| == 0 then Panicked
      else
        Seqs.FilterHeadIsFirst(all, hasId);
        Returned(Some(matching[0]))
  }

  /**
   * What `get_compiler_info` evidently means, given that it returns an
   * `Option`: the first compiler with the id, and `None` both when the fetch
   * fails and when no compiler has the id.
   */
  function FindCompilerById(fetched: Option<seq<CompilerInfo>>, id: string): (r: Option<CompilerInfo>)
    ensures r.None? <==> fetched.None? || forall c :: c in fetched.value ==> c.id != id
    ensures r.Some? ==> IsFirstWithId(fetched.value, id, r.value)
  {
    match fetched
    case None => None
    case Some(all) =>
      var hasId := (c: CompilerInfo) => c.id == id;
      var matching := Seqs.Filter(all, hasId);
      if |matching| == 0 then None
      else
        Seqs.FilterHeadIsFirst(all, hasId);
        Some(matching[0])
  }

  /** The two agree wherever the source does not panic. */
  lemma GetCompilerInfoAgrees(fetched: Option<seq<CompilerInfo>>, id: string)
    ensures GetCompilerInfo(fetched, id).Returned? ==> GetCompilerInfo(fetched, id).value == FindCompilerById(fetched, id)
    ensures GetCompilerInfo(fetched, id).Panicked? <==> fetched.Some? && FindCompilerById(fetched, id).None?
  {
  }

  /** A fetched list without the requested id: the source indexes an empty vector. */
  lemma GetCompilerInfoPanicsOnUnknownId()
    ensures GetCompilerInfo(Some([]), "gcc") == Panicked
    ensures FindCompilerById(Some([]), "gcc") == None
  {
  }

  /**
   * The compilers `do_compile` works on: the one with `--id`, or else those
   * `find_compilers` selects. Both results are unwrapped, so a failed fetch
   * panics, and so does an unknown id, whichever of `GetCompilerInfo` and
   * `FindCompilerById` answers it.
   */
  function SelectCompilers(fetched: Option<seq<CompilerInfo>>, id: Option<string>, name: Option<string>,
                           language: Option<string>, isa: Option<string>): (r: Outcome<seq<CompilerInfo>>)
    ensures id.Some? ==>
              (r.Returned? <==> fetched.Some? && exists c :: c in fetched.value && c.id == id.value)
    ensures id.Some? && r.Returned? ==> |r.value| == 1 && IsFirstWithId(fetched.value, id.value, r.value[0])
    ensures id.None? ==> (r.Returned? <==> fetched.Some?)
    ensures id.None? && r.Returned? ==>
              forall c :: c in r.value <==> c in fetched.value && Satisfies(c, name, language, isa)
    ensures id.None? && r.Returned? ==> r.value == FindCompilers(fetched, name, language, isa).value
    ensures id.None? && r.Returned? ==> Seqs.IsSubsequence(r.value, fetched.value)
  {
    match id
    case Some(i) =>
      (match FindCompilerById(fetched, i)
       case Some(c) => Returned([c])
       case None => Panicked)
    case None =>
      (match FindCompilers(fetched, name, language, isa)
       case Some(cs) => FindCompilersSubsequence(fetched.value, name, language, isa); Returned(cs)
       case None => Panicked)
  }

  // ---------------------------------------------------------------------
  // Filter configuration in do_compile
  // ---------------------------------------------------------------------

  /** The name `--filters` uses for each flag (the field's own name). */
  function FlagName(k: Flag): string
  {
    match k
    case Binary => "binary"
    case BinaryObject => "binaryObject"
    case CommentOnly => "commentOnly"
    case Demangle => "demangle"
    case Directives => "directives"
    case Execute => "execute"
    case Intel => "intel"
    case Labels => "labels"
    case LibraryCode => "libraryCode"
    case Trim => "trim"
    case DebugCalls => "debugCalls"
  }

  /** The flag a `--filters` name switches on, if it is one of the eleven names. */
  function FlagOfName(s: string): (r: Option<Flag>)
    ensures r.Some? ==> FlagName(r.value) == s
  {
    match s
    case "binary" => Some(Binary)
    case "binaryObject" => Some(BinaryObject)
    case "commentOnly" => Some(CommentOnly)
    case "demangle" => Some(Demangle)
    case "directives" => Some(Directives)
    case "execute" => Some(Execute)
    case "intel" => Some(Intel)
    case "labels" => Some(Labels)
    case "libraryCode" => Some(LibraryCode)
    case "trim" => Some(Trim)
    case "debugCalls" => Some(DebugCalls)
    case _ => None
  }

  /** Every flag's name is recognised as that flag. */
  lemma FlagNameRoundTrip(k: Flag)
    ensures FlagOfName(FlagName(k)) == Some(k)
  {
  }

  predicate IsUnknownName(s: string)
  {
    FlagOfName(s).None?
  }

  /**
   * The flag record a `--filters` list asks for, name by name: starting
   * from all filters off, each known name switches its flag on and an
   * unknown name changes nothing.
   */
  function EnabledFilters(names: seq<string>): Filters
  {
    if names == [] then Implems.AllDisabled()
    else
      var prefix := names[..|names| - 1];
      match FlagOfName(names[|names| - 1])
      case Some(k) => Implems.Update(EnabledFilters(prefix), k, true)
      case None => EnabledFilters(prefix)
  }

  /** An empty list leaves every filter off. */
  lemma EnabledFiltersEmpty()
    ensures forall k :: !EnabledFilters([]).Get(k)
  {
  }

  /** Distinct flags have distinct names. */
  lemma FlagNameInjective(k: Flag, j: Flag)
    requires FlagName(k) == FlagName(j)
    ensures k == j
  {
    FlagNameRoundTrip(k);
    FlagNameRoundTrip(j);
  }

  /** A name switches on flag `k` exactly when it is `k`'s name. */
  lemma FlagOfNameIs(n: string, k: Flag)
    ensures FlagOfName(n) == Some(k) <==> n == FlagName(k)
  {
    FlagNameRoundTrip(k);
  }

  /** A filter ends up on exactly when its name occurs somewhere in the list. */
  lemma {:induction false} EnabledFiltersNamed(names: seq<string>, k: Flag)
    ensures EnabledFilters(names).Get(k) <==> FlagName(k) in names
  {
    if names != [] {
      var prefix, n := names[..|names| - 1], names[|names| - 1];
      assert names == prefix + [n];
      EnabledFiltersNamed(prefix, k);
      FlagOfNameIs(n, k);
      match FlagOfName(n)
      case Some(j) => Implems.UpdateGet(EnabledFilters(prefix), j, true, k);
      case None =>
    }
  }

  /** Appending one name to a `--filters` list: the last step of `EnabledFilters`. */
  lemma EnabledFiltersStep(names: seq<string>, n: string)
    ensures EnabledFilters(names + [n]) ==
            match FlagOfName(n)
            case Some(k) => Implems.Update(EnabledFilters(names), k, true)
            case None => EnabledFilters(names)
  {
    assert (names + [n])[..|names|] == names;
  }

  /** Appending a flag's own name switches that flag on. */
  lemma EnabledFiltersStepKnown(names: seq<string>, k: Flag)
    ensures EnabledFilters(names + [FlagName(k)]) == Implems.Update(EnabledFilters(names), k, true)
  {
    EnabledFiltersStep(names, FlagName(k));
    FlagNameRoundTrip(k);
  }

  /** An unknown name changes no flag. */
  lemma EnabledFiltersUnknownName(names: seq<string>, n: string)
    requires IsUnknownName(n)
    ensures EnabledFilters(names + [n]) == EnabledFilters(names)
  {
    EnabledFiltersStep(names, n);
  }

  /** Two records that agree on every flag are equal. */
  lemma FlagwiseEqual(f: Filters, g: Filters)
    requires f.Get(Binary) == g.Get(Binary) && f.Get(BinaryObject) == g.Get(BinaryObject)
    requires f.Get(CommentOnly) == g.Get(CommentOnly) && f.Get(Demangle) == g.Get(Demangle)
    requires f.Get(Directives) == g.Get(Directives) && f.Get(Execute) == g.Get(Execute)
    requires f.Get(Intel) == g.Get(Intel) && f.Get(Labels) == g.Get(Labels)
    requires f.Get(LibraryCode) == g.Get(LibraryCode) && f.Get(Trim) == g.Get(Trim)
    requires f.Get(DebugCalls) == g.Get(DebugCalls)
    ensures f == g
  {
  }

  /** Only which names occur matters: not their order, not repetitions. */
  lemma SameNamesSameFlag(a: seq<string>, b: seq<string>, k: Flag)
    requires forall n :: n in a <==> n in b
    ensures EnabledFilters(a).Get(k) == EnabledFilters(b).Get(k)
  {
    EnabledFiltersNamed(a, k);
    EnabledFiltersNamed(b, k);
  }

  lemma EnabledFiltersSameNames(a: seq<string>, b: seq<string>)
    requires forall n :: n in a <==> n in b
    ensures EnabledFilters(a) == EnabledFilters(b)
  {
    SameNamesSameFlag(a, b, Binary);
    SameNamesSameFlag(a, b, BinaryObject);
    SameNamesSameFlag(a, b, CommentOnly);
    SameNamesSameFlag(a, b, Demangle);
    SameNamesSameFlag(a, b, Directives);
    SameNamesSameFlag(a, b, Execute);
    SameNamesSameFlag(a, b, Intel);
    SameNamesSameFlag(a, b, Labels);
    SameNamesSameFlag(a, b, LibraryCode);
    SameNamesSameFlag(a, b, Trim);
    SameNamesSameFlag(a, b, DebugCalls);
    FlagwiseEqual(EnabledFilters(a), EnabledFilters(b));
  }

  /** The record `do_compile` starts from without `--filters`: `new()` with the three CLI switches. */
  function SwitchFilters(binary: bool, binaryObject: bool, execute: bool): (r: Filters)
    ensures r == Implems.Update(Implems.Update(Implems.Update(Implems.New(), Binary, binary),
                                               BinaryObject, binaryObject), Execute, execute)
    ensures r.binary == binary && r.binaryObject == binaryObject && r.execute == execute
    ensures forall k :: k != Binary && k != BinaryObject && k != Execute ==> (r.Get(k) <==> k in Implems.DefaultOn)
  {
    Implems.WithExecute(Implems.WithBinaryObject(Implems.WithBinary(Implems.New(), binary), binaryObject), execute)
  }

  /**
   * One arm of the `--filters` loop of `do_compile`: a known name switches
   * its filter on; an unknown one changes nothing and is reported.
   */
  method SwitchOnNamed(config: Filters, f: string) returns (config': Filters, known: bool)
    ensures known <==> !IsUnknownName(f)
    ensures known ==> config' == Implems.Update(config, FlagOfName(f).value, true)
    ensures !known ==> config' == config
  {
    match f
    case "binary" =>
      config', known := config.(binary := true), true;
      assert config' == Implems.WithBinary(config, true);
    case "binaryObject" =>
      config', known := config.(binaryObject := true), true;
      assert config' == Implems.WithBinaryObject(config, true);
    case "commentOnly" =>
      config', known := config.(commentOnly := true), true;
      assert config' == Implems.WithCommentOnly(config, true);
    case "demangle" =>
      config', known := config.(demangle := true), true;
      assert config' == Implems.WithDemangle(config, true);
    case "directives" =>
      config', known := config.(directives := true), true;
      assert config' == Implems.WithDirectives(config, true);
    case "execute" =>
      config', known := config.(execute := true), true;
      assert config' == Implems.WithExecute(config, true);
    case "intel" =>
      config', known := config.(intel := true), true;
      assert config' == Implems.WithIntel(config, true);
    case "labels" =>
      config', known := config.(labels := true), true;
      assert config' == Implems.WithLabels(config, true);
    case "libraryCode" =>
      config', known := config.(libraryCode := true), true;
      assert config' == Implems.WithLibraryCode(config, true);
    case "trim" =>
      config', known := config.(trim := true), true;
      assert config' == Implems.WithTrim(config, true);
    case "debugCalls" =>
      config', known := config.(debugCalls := true), true;
      assert config' == Implems.WithDebugCalls(config, true);
    case _ => config', known := config, false;
  }

  /**
   * The `--filters` branch of `do_compile`: start from all-disabled and
   * switch on each named filter in turn. Names it does not know are
   * reported, in order, in `unknown`.
   */
  method EnableNamedFilters(enabled: seq<string>) returns (config: Filters, unknown: seq<string>)
    ensures config == EnabledFilters(enabled)
    ensures forall k :: config.Get(k) <==> FlagName(k) in enabled
    ensures unknown == Seqs.Filter(enabled, IsUnknownName)
  {
    config := Implems.AllDisabled();
    unknown := [];
    for i := 0 to |enabled|
      invariant config == EnabledFilters(enabled[..i])
      invariant unknown == Seqs.Filter(enabled[..i], IsUnknownName)
    {
      var f := enabled[i];
      assert enabled[..i + 1] == enabled[..i] + [f];
      Seqs.FilterAppendOne(enabled[..i], f, IsUnknownName);
      EnabledFiltersStep(enabled[..i], f);
      var known;
      config, known := SwitchOnNamed(config, f);
      if !known {
        unknown := unknown + [f];
      }
    }
    assert enabled[..|enabled|] == enabled;
    forall k ensures config.Get(k) <==> FlagName(k) in enabled {
      EnabledFiltersNamed(enabled, k);
    }
  }

  /**
   * The global filter configuration of `do_compile`: `SwitchFilters` without
   * a `--filters` list, `EnableNamedFilters` with one.
   */
  method ConfigureFilters(binary: bool, binaryObject: bool, execute: bool, names: Option<seq<string>>)
    returns (config: Filters, unknown: seq<string>)
    ensures names.None? ==> config == SwitchFilters(binary, binaryObject, execute) && unknown == []
    ensures names.Some? ==> config == EnabledFilters(names.value)
    ensures names.Some? ==> unknown == Seqs.Filter(names.value, IsUnknownName)
  {
    config := SwitchFilters(binary, binaryObject, execute);
    unknown := [];
    if names.Some? {
      config, unknown := EnableNamedFilters(names.value);
    }
  }

  // ---------------------------------------------------------------------
  // Per-compiler adjustment and request construction in do_compile
  // ---------------------------------------------------------------------

  /**
   * The filters used for one compiler: the global ones with `execute`
   * switched off when the compiler cannot execute. The source unwraps
   * `supportsExecute`, so a compiler that does not say panics.
   */
  function LocalFilters(global: Filters, c: CompilerInfo): (r: Outcome<Filters>)
    ensures r.Panicked? <==> c.supportsExecute.None?
    ensures r.Returned? ==> r.value == Implems.Update(global, Execute, global.execute && c.supportsExecute.value)
  {
    match c.supportsExecute
    case None => Panicked
    case Some(supported) =>
      if !supported then Returned(Implems.WithExecute(global, false)) else Returned(global)
  }

  /** When `do_compile` reports "Execution not supported". */
  predicate ExecutionNotSupported(global: Filters, local: Filters)
  {
    global.execute != local.execute
  }

  /** The report appears exactly when execution was asked for and the compiler cannot execute. */
  lemma ExecutionNotSupportedWhen(global: Filters, c: CompilerInfo)
    requires c.supportsExecute.Some?
    ensures ExecutionNotSupported(global, LocalFilters(global, c).value) <==>
            global.execute && !c.supportsExecute.value
  {
  }

  /** What one iteration of the per-compiler loop sends and reports. */
  datatype Step = Step(compiler: CompilerInfo, job: CompileJob, executionNotSupported: bool)

  /**
   * `s` is what the loop does for compiler `c`: the request carries the
   * compiler's local filters, whose `execute` is on exactly when it is on
   * globally and the compiler can execute, and the report is due exactly
   * when execution was asked for and the compiler cannot execute.
   */
  predicate PlannedStep(source: string, flags: string, global: Filters, c: CompilerInfo, s: Step)
  {
    && c.supportsExecute.Some?
    && s.compiler == c
    && s.job == Implems.Build(source, flags, LocalFilters(global, c).value)
    && s.job.options.filters.execute == (global.execute && c.supportsExecute.value)
    && (s.executionNotSupported <==> global.execute && !c.supportsExecute.value)
  }

  /**
   * The per-compiler loop of `do_compile` up to the network call: for each
   * selected compiler, the local filters, the compile request and whether
   * "Execution not supported" is reported. A compiler without
   * `supportsExecute` panics, and no later compiler is reached.
   */
  method PlanCompileJobs(source: string, flags: string, global: Filters, compilers: seq<CompilerInfo>)
    returns (steps: seq<Step>, panicked: bool)
    ensures |steps| <= |compilers|
    ensures panicked <==> |steps| < |compilers|
    ensures panicked ==> compilers[|steps|].supportsExecute.None?
    ensures forall i :: 0 <= i < |steps| ==> PlannedStep(source, flags, global, compilers[i], steps[i])
  {
    steps := [];
    panicked := false;
    var i := 0;
    while i < |compilers|
      invariant 0 <= i <= |compilers|
      invariant |steps| == i
      invariant forall j :: 0 <= j < i ==> PlannedStep(source, flags, global, compilers[j], steps[j])
    {
      var compilerInfo := compilers[i];
      var localFilters := global;
      match compilerInfo.supportsExecute {
        case None =>
          panicked := true;
          return;
        case Some(supported) =>
          if !supported {
            localFilters := Implems.WithExecute(localFilters, false);
          }
      }
      assert localFilters == LocalFilters(global, compilerInfo).value;
      var job := Implems.Build(source, flags, localFilters);
      var step := Step(compilerInfo, job, global.execute != localFilters.execute);
      assert PlannedStep(source, flags, global, compilerInfo, step);
      steps := steps + [step];
      i := i + 1;
    }
  }
}
