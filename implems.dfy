/**
 * The behaviour attached to the records (src/types/implems.rs): the two
 * filter presets and the eleven by-value setters, the construction of a
 * compile request, and the rendering of outputs and compiler descriptors.
 */
module Implems {
  import opened Types
  import Seqs

  // ---------------------------------------------------------------------
  // Filter presets and setters
  // ---------------------------------------------------------------------

  /** `Filters::all_disabled`: every filter off. */
  function AllDisabled(): (r: Filters)
    ensures forall k :: !r.Get(k)
  {
    Filters(
      binary := false, binaryObject := false, commentOnly := false,
      demangle := false, directives := false, execute := false,
      intel := false, labels := false, libraryCode := false,
      trim := false, debugCalls := false)
  }

  /** The filters that `Filters::new` turns on. */
  const DefaultOn: set<Flag> := {CommentOnly, Demangle, Directives, Intel, Labels, LibraryCode, DebugCalls}

  /** `Filters::new`: the service's usual view of the assembly, with nothing built or run. */
  function New(): (r: Filters)
    ensures forall k :: r.Get(k) <==> k in DefaultOn
    ensures !r.binary && !r.binaryObject && !r.execute && !r.trim
  {
    Filters(
      binary := false, binaryObject := false, execute := false,
      commentOnly := true, demangle := true, directives := true,
      intel := true, labels := true, libraryCode := true,
      trim := false, debugCalls := true)
  }

  /**
   * The reference for every setter: `f` with the field that `k` names set
   * to `v`, each of the other ten fields taken from `f`.
   */
  function Update(f: Filters, k: Flag, v: bool): Filters
  {
    Filters(
      binary := if k == Binary then v else f.binary,
      binaryObject := if k == BinaryObject then v else f.binaryObject,
      commentOnly := if k == CommentOnly then v else f.commentOnly,
      demangle := if k == Demangle then v else f.demangle,
      directives := if k == Directives then v else f.directives,
      execute := if k == Execute then v else f.execute,
      intel := if k == Intel then v else f.intel,
      labels := if k == Labels then v else f.labels,
      libraryCode := if k == LibraryCode then v else f.libraryCode,
      trim := if k == Trim then v else f.trim,
      debugCalls := if k == DebugCalls then v else f.debugCalls)
  }

  /** Seen flag by flag, an update changes exactly the flag it names. */
  lemma UpdateGet(f: Filters, k: Flag, v: bool, j: Flag)
    ensures Update(f, k, v).Get(j) == if j == k then v else f.Get(j)
  {
  }

  /** Updating a flag twice keeps only the second value. */
  lemma UpdateLastWriteWins(f: Filters, k: Flag, a: bool, b: bool)
    ensures Update(Update(f, k, a), k, b) == Update(f, k, b)
  {
  }

  /** Updates of different flags commute. */
  lemma UpdateCommute(f: Filters, k: Flag, j: Flag, a: bool, b: bool)
    requires k != j
    ensures Update(Update(f, k, a), j, b) == Update(Update(f, j, b), k, a)
  {
  }

  /** Updating a flag to the value it already has changes nothing. */
  lemma UpdateUnchanged(f: Filters, k: Flag)
    ensures Update(f, k, f.Get(k)) == f
  {
  }

  function WithBinary(f: Filters, v: bool): (r: Filters)
    ensures r == Update(f, Binary, v)
  {
    f.(binary := v)
  }

  function WithBinaryObject(f: Filters, v: bool): (r: Filters)
    ensures r == Update(f, BinaryObject, v)
  {
    f.(binaryObject := v)
  }

  function WithCommentOnly(f: Filters, v: bool): (r: Filters)
    ensures r == Update(f, CommentOnly, v)
  {
    f.(commentOnly := v)
  }

  function WithDemangle(f: Filters, v: bool): (r: Filters)
    ensures r == Update(f, Demangle, v)
  {
    f.(demangle := v)
  }

  function WithDirectives(f: Filters, v: bool): (r: Filters)
    ensures r == Update(f, Directives, v)
  {
    f.(directives := v)
  }

  function WithExecute(f: Filters, v: bool): (r: Filters)
    ensures r == Update(f, Execute, v)
  {
    f.(execute := v)
  }

  function WithIntel(f: Filters, v: bool): (r: Filters)
    ensures r == Update(f, Intel, v)
  {
    f.(intel := v)
  }

  function WithLabels(f: Filters, v: bool): (r: Filters)
    ensures r == Update(f, Labels, v)
  {
    f.(labels := v)
  }

  function WithLibraryCode(f: Filters, v: bool): (r: Filters)
    ensures r == Update(f, LibraryCode, v)
  {
    f.(libraryCode := v)
  }

  function WithTrim(f: Filters, v: bool): (r: Filters)
    ensures r == Update(f, Trim, v)
  {
    f.(trim := v)
  }

  function WithDebugCalls(f: Filters, v: bool): (r: Filters)
    ensures r == Update(f, DebugCalls, v)
  {
    f.(debugCalls := v)
  }

  // ---------------------------------------------------------------------
  // Compile requests
  // ---------------------------------------------------------------------

  /** The parts of a compile request that the client never varies. */
  predicate FixedJobSettings(job: CompileJob)
  {
    && !job.options.compilerOptions.skipAsm
    && !job.options.compilerOptions.executorRequest
    && job.options.tools == []
    && job.options.libraries == []
    && job.lang == None
    && job.allowStoreCodeDebug
  }

  /** `CompileJob::build`: a request carrying the source, the user's flags and the filters. */
  function Build(source: string, compilerOption: string, filters: Filters): (r: CompileJob)
    ensures r.source == source
    ensures r.options.userArguments == compilerOption
    ensures r.options.filters == filters
    ensures FixedJobSettings(r)
  {
    CompileJob(
      source := source,
      options := CompileOptions(
        userArguments := compilerOption,
        compilerOptions := OtherCompilerOptions(skipAsm := false, executorRequest := false),
        filters := filters,
        tools := [],
        libraries := []),
      lang := None,
      allowStoreCodeDebug := true)
  }

  /** `CompileJob::build_simple`: written out separately in the source, it is `build` with every filter off. */
  function BuildSimple(source: string, compilerOption: string): (r: CompileJob)
    ensures r == Build(source, compilerOption, AllDisabled())
  {
    CompileJob(
      source := source,
      options := CompileOptions(
        userArguments := compilerOption,
        compilerOptions := OtherCompilerOptions(skipAsm := false, executorRequest := false),
        filters := Filters(
          binary := false, binaryObject := false, commentOnly := false,
          demangle := false, directives := false, execute := false,
          intel := false, labels := false, libraryCode := false,
          trim := false, debugCalls := false),
        tools := [],
        libraries := []),
      lang := None,
      allowStoreCodeDebug := true)
  }

  /** The request determines the source, flags and filters it was built from. */
  lemma BuildInjective(s1: string, o1: string, f1: Filters, s2: string, o2: string, f2: Filters)
    requires Build(s1, o1, f1) == Build(s2, o2, f2)
    ensures s1 == s2 && o1 == o2 && f1 == f2
  {
    var j1, j2 := Build(s1, o1, f1), Build(s2, o2, f2);
    assert j1.source == j2.source && j1.options == j2.options;
  }

  // ---------------------------------------------------------------------
  // Rendering
  // ---------------------------------------------------------------------

  const Newline: string := "\n"

  function SomeTexts(items: seq<OutputItem>): (r: seq<string>)
    ensures |r| == |items| && forall i :: 0 <= i < |items| ==> r[i] == items[i].text
  {
    seq(|items|, i requires 0 <= i < |items| => items[i].text)
  }

  function AsmTexts(items: seq<AsmOutputItem>): (r: seq<string>)
    ensures |r| == |items| && forall i :: 0 <= i < |items| ==> r[i] == items[i].text
  {
    seq(|items|, i requires 0 <= i < |items| => items[i].text)
  }

  /** `SomeOutput::to_text`: the item texts, one per line. */
  function SomeOutputText(o: SomeOutput): (r: string)
    ensures o.items == [] ==> r == ""
    ensures |o.items| == 1 ==> r == o.items[0].text
    ensures o.items != [] ==>
              |r| == Seqs.TotalLength(SomeTexts(o.items)) + |o.items| - 1 &&
              Seqs.Count('\n', r) == Seqs.CountAll('\n', SomeTexts(o.items)) + |o.items| - 1
  {
    var texts := SomeTexts(o.items);
    Seqs.JoinFacts(texts, '\n');
    Seqs.Join(texts, Newline)
  }

  /** `AsmOutput::to_text`: the assembly lines, one per line. */
  function AsmOutputText(o: AsmOutput): (r: string)
    ensures o.items == [] ==> r == ""
    ensures |o.items| == 1 ==> r == o.items[0].text
    ensures o.items != [] ==>
              |r| == Seqs.TotalLength(AsmTexts(o.items)) + |o.items| - 1 &&
              Seqs.Count('\n', r) == Seqs.CountAll('\n', AsmTexts(o.items)) + |o.items| - 1
  {
    var texts := AsmTexts(o.items);
    Seqs.JoinFacts(texts, '\n');
    Seqs.Join(texts, Newline)
  }

  /** Rendering two non-empty outputs one after the other puts one newline between them. */
  lemma SomeOutputTextAppend(a: SomeOutput, b: SomeOutput)
    requires a.items != [] && b.items != []
    ensures SomeOutputText(SomeOutput(a.items + b.items)) == SomeOutputText(a) + "\n" + SomeOutputText(b)
  {
    assert SomeTexts(a.items + b.items) == SomeTexts(a.items) + SomeTexts(b.items);
    Seqs.JoinAppend(SomeTexts(a.items), SomeTexts(b.items), Newline);
  }

  lemma AsmOutputTextAppend(a: AsmOutput, b: AsmOutput)
    requires a.items != [] && b.items != []
    ensures AsmOutputText(AsmOutput(a.items + b.items)) == AsmOutputText(a) + "\n" + AsmOutputText(b)
  {
    assert AsmTexts(a.items + b.items) == AsmTexts(a.items) + AsmTexts(b.items);
    Seqs.JoinAppend(AsmTexts(a.items), AsmTexts(b.items), Newline);
  }

  /** When no item text holds a newline, splitting the rendering at newlines gives the items back. */
  lemma SomeOutputTextLines(o: SomeOutput)
    requires o.items != []
    requires forall i :: 0 <= i < |o.items| ==> '\n' !in o.items[i].text
    ensures Seqs.Split(SomeOutputText(o), '\n') == SomeTexts(o.items)
  {
    Seqs.SplitJoin(SomeTexts(o.items), '\n');
  }

  lemma AsmOutputTextLines(o: AsmOutput)
    requires o.items != []
    requires forall i :: 0 <= i < |o.items| ==> '\n' !in o.items[i].text
    ensures Seqs.Split(AsmOutputText(o), '\n') == AsmTexts(o.items)
  {
    Seqs.SplitJoin(AsmTexts(o.items), '\n');
  }

  /** The fixed text around the six fields of a compiler's one-line description. */
  const DescriptionOverhead: nat := |"\"" + "\", id: " + ", language: " + ", type: " + ", version: " + ", ISA: "|

  /**
   * `CompilerInfo::to_text`: the quoted name, then id, language, type,
   * version and instruction set, each after its label.
   */
  function CompilerInfoText(c: CompilerInfo): (r: string)
    ensures |r| == DescriptionOverhead + |c.name| + |c.id| + |c.lang| + |c.compilerType| + |c.semver| + |c.instructionSet|
  {
    "\"" + (c.name + ("\", id: " + (c.id + (", language: " + (c.lang + (", type: " + (c.compilerType
      + (", version: " + (c.semver + (", ISA: " + c.instructionSet))))))))))
  }

  /**
   * The description read piece by piece: each label and each field of the
   * template sits at the offset where the pieces before it end, and nothing
   * follows the instruction set.
   */
  lemma CompilerInfoTextLayout(c: CompilerInfo)
    ensures Seqs.OccursAt(CompilerInfoText(c), "\"", 0)
    ensures Seqs.OccursAt(CompilerInfoText(c), c.name, 1)
    ensures Seqs.OccursAt(CompilerInfoText(c), "\", id: ", 1 + |c.name|)
    ensures Seqs.OccursAt(CompilerInfoText(c), c.id, 8 + |c.name|)
    ensures Seqs.OccursAt(CompilerInfoText(c), ", language: ", 8 + |c.name| + |c.id|)
    ensures Seqs.OccursAt(CompilerInfoText(c), c.lang, 20 + |c.name| + |c.id|)
    ensures Seqs.OccursAt(CompilerInfoText(c), ", type: ", 20 + |c.name| + |c.id| + |c.lang|)
    ensures Seqs.OccursAt(CompilerInfoText(c), c.compilerType, 28 + |c.name| + |c.id| + |c.lang|)
    ensures Seqs.OccursAt(CompilerInfoText(c), ", version: ", 28 + |c.name| + |c.id| + |c.lang| + |c.compilerType|)
    ensures Seqs.OccursAt(CompilerInfoText(c), c.semver, 39 + |c.name| + |c.id| + |c.lang| + |c.compilerType|)
    ensures Seqs.OccursAt(CompilerInfoText(c), ", ISA: ", 39 + |c.name| + |c.id| + |c.lang| + |c.compilerType| + |c.semver|)
    ensures Seqs.OccursAt(CompilerInfoText(c), c.instructionSet, 46 + |c.name| + |c.id| + |c.lang| + |c.compilerType| + |c.semver|)
  {
    assert |"\", id: "| == 7 && |", language: "| == 12 && |", type: "| == 8;
    assert |", version: "| == 11 && |", ISA: "| == 7;
    Seqs.ReadSixPairs(CompilerInfoText(c), "\"", c.name, "\", id: ", c.id, ", language: ", c.lang,
                      ", type: ", c.compilerType, ", version: ", c.semver, ", ISA: ", c.instructionSet);
  }
}
