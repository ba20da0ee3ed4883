/**
 * The records the client exchanges with the Compiler Explorer service
 * (src/types.rs), reduced to the fields the client logic reads or writes.
 */
module Types {

  datatype Option<T> = None | Some(value: T)

  /** What a Rust `panic!` (an `unwrap` on `None`, an index out of range) turns a call into. */
  datatype Outcome<T> = Returned(value: T) | Panicked

  /** The eleven output filters, one per field of `Filters`. */
  datatype Flag =
    | Binary | BinaryObject | CommentOnly | Demangle | Directives | Execute
    | Intel | Labels | LibraryCode | Trim | DebugCalls

  /** The output-filter flag record sent with every compile request. */
  datatype Filters = Filters(
    binary: bool,
    binaryObject: bool,
    commentOnly: bool,
    demangle: bool,
    directives: bool,
    execute: bool,
    intel: bool,
    labels: bool,
    libraryCode: bool,
    trim: bool,
    debugCalls: bool)
  {
    /** The field that flag `k` names. */
    function Get(k: Flag): bool {
      match k
      case Binary => binary
      case BinaryObject => binaryObject
      case CommentOnly => commentOnly
      case Demangle => demangle
      case Directives => directives
      case Execute => execute
      case Intel => intel
      case Labels => labels
      case LibraryCode => libraryCode
      case Trim => trim
      case DebugCalls => debugCalls
    }
  }

  /** A compiler descriptor as listed by the service; `supportsExecute` may be absent. */
  datatype CompilerInfo = CompilerInfo(
    id: string,
    name: string,
    lang: string,
    compilerType: string,
    semver: string,
    instructionSet: string,
    supportsExecute: Option<bool>)

  /** Tools and libraries are empty records in the client. */
  datatype Tool = Tool
  datatype Library = Library

  datatype OtherCompilerOptions = OtherCompilerOptions(skipAsm: bool, executorRequest: bool)

  datatype CompileOptions = CompileOptions(
    userArguments: string,
    compilerOptions: OtherCompilerOptions,
    filters: Filters,
    tools: seq<Tool>,
    libraries: seq<Library>)

  /** The payload of a compile request. */
  datatype CompileJob = CompileJob(
    source: string,
    options: CompileOptions,
    lang: Option<string>,
    allowStoreCodeDebug: bool)

  /** One line of compiler or program output (its diagnostic tag is not modelled). */
  datatype OutputItem = OutputItem(text: string)
  datatype SomeOutput = SomeOutput(items: seq<OutputItem>)

  /** One line of assembly (its source location and labels are not modelled). */
  datatype AsmOutputItem = AsmOutputItem(text: string)
  datatype AsmOutput = AsmOutput(items: seq<AsmOutputItem>)
}
