# ce-rs client core, modelled in Dafny

ce-rs is a command-line client for the Compiler Explorer service. It lists compilers, picks some by id or by name, language and instruction set, and sends them a source file to compile (and possibly run). It then prints the assembly and the output. Most of the program is network and terminal glue. This project models the deterministic part around that glue:

- the output-filter flag record `Filters`: its two presets and its eleven by-value setters;
- the construction of a compile request (`CompileJob::build`, `build_simple`);
- the text rendering of outputs and of a compiler descriptor (`to_text`);
- in the driver (`src/main.rs`):
  - the compiler selection (`find_compilers`, `get_compiler_info`);
  - the turning of a `--filters` name list or the CLI switches into a flag record;
  - the per-compiler downgrade of `execute`, which ends in the compile request sent for each compiler.

Files:

- `types.dfy` (module `Types`): the records, reduced to the fields the logic reads or writes.
  - `Flag` names the eleven filters, and `Filters.Get(k)` reads the field that `k` names.
  - `Option` stands for a Rust `Option` and for a fetch that may fail.
  - `Outcome` is a value or a panic.
- `seqs.dfy` (module `Seqs`): `filter(..).collect()` and `join` from Rust's standard library as sequence functions, with their lemmas.
- `implems.dfy` (module `Implems`): `src/types/implems.rs`.
- `cli.dfy` (module `Cli`): the modelled parts of `src/main.rs`. The two loops of `do_compile` are imperative methods with loop invariants, each proved against a specification function:
  - the `--filters` loop;
  - the per-compiler loop.

Modelling choices:

- A network fetch is replaced by its result, passed in as `Option<seq<CompilerInfo>>`: `None` when the request or its decoding failed.
- An `unwrap` on `None` and an index into an empty vector are modelled as `Panicked`.
- The regular expressions `(?i)<name>` and `(?i)^<lang>$` are modelled as literal matches that ignore ASCII case:
  - a substring for the name;
  - the whole string for the language and the instruction set.
- The `println!` for an unknown filter name is modelled as an `unknown` output sequence, holding those names in order.

## Model

| member | source | states |
|---|---|---|
| Implems.AllDisabled | src/types/implems.rs:13-27 | every one of the eleven flags is off |
| Implems.New | src/types/implems.rs:29-44 | a flag is on exactly when it is commentOnly, demangle, directives, intel, labels, libraryCode or debugCalls; binary, binaryObject, execute and trim are off |
| Implems.UpdateGet | src/types/implems.rs:46-99 | a setter changes exactly the flag it names to the given value; the other ten flags are unchanged |
| Implems.UpdateLastWriteWins | src/types/implems.rs:71-74 | setting the same flag twice keeps only the second value |
| Implems.UpdateCommute | src/types/implems.rs:46-99 | setters on different flags commute |
| Implems.UpdateUnchanged | src/types/implems.rs:46-99 | setting a flag to the value it already has gives the same record |
| Implems.WithBinary | src/types/implems.rs:46-49 | `binary(v)` is the update of the binary flag to v |
| Implems.WithBinaryObject | src/types/implems.rs:51-54 | `binary_object(v)` is the update of the binaryObject flag to v |
| Implems.WithCommentOnly | src/types/implems.rs:56-59 | `comment_only(v)` is the update of the commentOnly flag to v |
| Implems.WithDemangle | src/types/implems.rs:61-64 | `demangle(v)` is the update of the demangle flag to v |
| Implems.WithDirectives | src/types/implems.rs:66-69 | `directives(v)` is the update of the directives flag to v |
| Implems.WithExecute | src/types/implems.rs:71-74 | `execute(v)` is the update of the execute flag to v |
| Implems.WithIntel | src/types/implems.rs:76-79 | `intel(v)` is the update of the intel flag to v |
| Implems.WithLabels | src/types/implems.rs:81-84 | `labels(v)` is the update of the labels flag to v |
| Implems.WithLibraryCode | src/types/implems.rs:86-89 | `libraryCode(v)` is the update of the libraryCode flag to v |
| Implems.WithTrim | src/types/implems.rs:91-94 | `trim(v)` is the update of the trim flag to v |
| Implems.WithDebugCalls | src/types/implems.rs:96-99 | `debugCalls(v)` is the update of the debugCalls flag to v |
| Implems.Build | src/types/implems.rs:102-119 | the request carries the given source, user arguments and filters; skipAsm and executorRequest are off, tools and libraries are empty, lang is absent and allowStoreCodeDebug is on |
| Implems.BuildSimple | src/types/implems.rs:121-149 | `build_simple(s, o)` equals `build(s, o, all_disabled())` |
| Implems.BuildInjective | src/types/implems.rs:102-119 | equal requests were built from equal source, arguments and filters |
| Implems.SomeOutputText | src/types/implems.rs:152-160 | no items give the empty text; one item gives its text; n items give the total text length plus n−1, and n−1 more newlines than the items hold |
| Implems.AsmOutputText | src/types/implems.rs:162-170 | the same for assembly lines |
| Implems.SomeOutputTextAppend | src/types/implems.rs:152-160 | rendering two non-empty outputs one after the other puts exactly one newline between their renderings |
| Implems.AsmOutputTextAppend | src/types/implems.rs:162-170 | the same for assembly |
| Implems.SomeOutputTextLines | src/types/implems.rs:152-160 | when no item holds a newline, splitting the rendering at newlines gives the item texts back |
| Implems.AsmOutputTextLines | src/types/implems.rs:162-170 | the same for assembly |
| Implems.CompilerInfoText | src/types/implems.rs:3-10 | the description is exactly as long as the fixed 46 characters of labels and quotes plus the six fields |
| Implems.CompilerInfoTextLayout | src/types/implems.rs:3-10 | the description is `"`, the name, `", id: `, the id, `, language: `, the language, `, type: `, the type, `, version: `, the version, `, ISA: ` and the instruction set, each at the offset where the pieces before it end (the id at 8 plus the name's length, and so on), with nothing after the instruction set |
| Seqs.Filter | src/main.rs:144-147 | the result is no longer than the input; an element is in it exactly when it is in the input and satisfies the condition |
| Seqs.FilterIsSubsequence | src/main.rs:144-147 | filtering keeps the input order |
| Seqs.FilterMultiplicity | src/main.rs:144-147 | a satisfying element is kept as often as it occurs; any other element is dropped |
| Seqs.FilterFilter | src/main.rs:141-174 | two filters in a row are one filter on both conditions |
| Seqs.FilterCommute | src/main.rs:141-174 | the order of two filters does not matter |
| Seqs.FilterHeadIsFirst | src/main.rs:124-128 | the head of a non-empty filter result is the first satisfying element of the input |
| Seqs.JoinAppend | src/types/implems.rs:152-160 | joining a concatenation is the two joins with one separator between |
| Seqs.SplitJoin | src/types/implems.rs:152-160 | splitting at the separator undoes a join of parts that do not contain it |
| Cli.FindCompilers | src/main.rs:133-179 | a failed fetch gives None; otherwise a compiler is kept exactly when it was fetched and meets every given criterion (a name match anywhere in the name, ignoring case; a whole-string match on the language and on the instruction set, ignoring case) |
| Cli.NarrowByNameIsFilter | src/main.rs:141-150 | the name pass filters on the name criterion and keeps the list when no name is given |
| Cli.NarrowByLangIsFilter | src/main.rs:152-162 | the language pass filters on the language criterion and keeps the list when no language is given |
| Cli.NarrowByIsaIsFilter | src/main.rs:164-174 | the instruction-set pass filters on its criterion and keeps the list when no instruction set is given |
| Cli.FindCompilersIsOneFilter | src/main.rs:141-176 | the three passes are one filter on the conjunction of the criteria |
| Cli.FindCompilersNoCriteria | src/main.rs:141-176 | with no criterion the fetched list comes back unchanged |
| Cli.FindCompilersSubsequence | src/main.rs:141-176 | the result is an order-preserving subsequence of the fetched list |
| Cli.FindCompilersMultiplicity | src/main.rs:141-176 | every compiler meeting the criteria is kept as often as it was fetched, and no other compiler is |
| Cli.FindCompilersPassOrder | src/main.rs:141-176 | running the passes as language, instruction set, name gives the same result |
| Cli.GetCompilerInfo | src/main.rs:121-131 | a failed fetch gives None; it panics exactly when no fetched compiler has the id; otherwise it returns the first compiler with that id |
| Cli.FindCompilerById | src/main.rs:121-131 | corrected lookup: None exactly when the fetch failed or no compiler has the id; otherwise the first compiler with that id |
| Cli.GetCompilerInfoAgrees | src/main.rs:121-131 | the lookup as written and the corrected one agree wherever the one as written does not panic, and it panics exactly when the corrected one finds nothing in a fetched list |
| Cli.GetCompilerInfoPanicsOnUnknownId | src/main.rs:124-128 | on an empty fetched list, the lookup as written panics and the corrected one gives None |
| Cli.SelectCompilers | src/main.rs:257-269 | with an id: exactly one compiler (the first with that id), or a panic when the fetch failed or no compiler has it; without an id: exactly the list `find_compilers` returns, so a subsequence of the fetched list in its order and with its multiplicities (`Cli.FindCompilersMultiplicity`), or a panic when the fetch failed |
| Cli.FlagNameRoundTrip | src/main.rs:227-237 | each flag's name is recognised as that flag |
| Cli.FlagNameInjective | src/main.rs:227-237 | different flags have different names |
| Cli.EnabledFiltersEmpty | src/main.rs:223 | an empty name list leaves every filter off |
| Cli.EnabledFiltersNamed | src/main.rs:221-240 | after a name list, a flag is on exactly when its name occurs in the list |
| Cli.EnabledFiltersStep | src/main.rs:225-239 | one more name switches on the flag it names, if any, and changes nothing else |
| Cli.EnabledFiltersUnknownName | src/main.rs:238 | an unknown name changes no flag |
| Cli.EnabledFiltersSameNames | src/main.rs:221-240 | two lists with the same names, in any order and with any repetitions, give the same record |
| Cli.SwitchOnNamed | src/main.rs:226-238 | one arm of the name loop: a known name switches on its flag and nothing else; an unknown name changes nothing and is reported |
| Cli.EnableNamedFilters | src/main.rs:221-240 | the loop gives the record of the name list: a flag is on exactly when its name occurs in the list; the unknown names are reported in order |
| Cli.SwitchFilters | src/main.rs:200-203 | without `--filters`: `new()` with binary, binaryObject and execute taken from the switches, the other flags as in `new()` |
| Cli.ConfigureFilters | src/main.rs:200-241 | the global record is the switch record without a name list and the name-list record with one |
| Cli.LocalFilters | src/main.rs:272-277 | it panics exactly when the compiler does not say whether it can execute; otherwise it is the global record with execute on exactly when it is on globally and the compiler can execute |
| Cli.ExecutionNotSupportedWhen | src/main.rs:306-314 | "Execution not supported" is reported exactly when execute is on globally and the compiler cannot execute |
| Cli.PlanCompileJobs | src/main.rs:271-278 | for each compiler in order, the request built from the source, the flags and that compiler's local filters, and whether the report is due; a compiler that does not say whether it can execute panics, and no later compiler is reached |

## Left out

- The HTTP functions `languages`, `compilers`, `compilers_id`, `shortlinkinfo` and `compile` (src/main.rs:41-119) are not modelled. They do network I/O and JSON decoding. Their results appear only as inputs (`Option` for a fetch that may fail).
- The `all_fields` parameter of `find_compilers` only shapes the HTTP query, so it is not modelled.
- `do_compile` sends each request and then unwraps the reply. It writes stdout and stderr to files or streams and prints the assembly, the summary line and the execution result (src/main.rs:205-219, 280-330). All of this is I/O and is left out. `Cli.PlanCompileJobs` stops at the request that would be sent.
- The clap command-line definition in `main` (src/main.rs:342-452) and `do_list_compilers` (src/main.rs:181-195) are left out. They are library configuration and printing.
- The source text and `--flags` defaults (src/main.rs:243-255) are left out. They read a file or take a command-line value, which are inputs here.
- Cli.FindCompilers: the name, language and instruction set are compiled as regular expressions in the source. The model treats them as literal text and ignores case for ASCII letters only. So a pattern with metacharacters matches differently, Unicode case folding is not covered, and the panic of `Regex::new(..).unwrap()` on an invalid pattern is not modelled.
- Cli.SwitchOnNamed: the report of an unknown name is returned as a flag, and `Cli.EnableNamedFilters` collects those names rather than printing them.
- Records are reduced to the fields the logic uses:
  - the other `CompilerInfo` fields;
  - the diagnostic tag of `OutputItem`;
  - the source location and labels of `AsmOutputItem`;
  - the `f32` timing fields;
  - the `Language`, shortlink and result records.
- The unused `OutputConfig` and `Error` enums are not modelled.
- `types/lib.rs` at the repository root is not part of this model. Its `AsmOutput::to_text` is the same as the one modelled.

## Findings

| source | as written | input that shows it | evidently intended | confidence | as-written member | corrected member |
|---|---|---|---|---|---|---|
| src/main.rs:124-128 | `get_compiler_info` returns `Option<CompilerInfo>` but takes `all[0]` of the id matches without checking, so an unknown id panics instead of returning `None` | a fetched list with no compiler whose id is the requested one, e.g. an empty list | `None` when no compiler has the id, as for a failed fetch | medium; not executed | Cli.GetCompilerInfoPanicsOnUnknownId | Cli.FindCompilerById |

`Cli.SelectCompilers` uses `Cli.FindCompilerById`. `do_compile` unwraps the lookup's result, so an unknown id still panics there, whichever lookup answers.
