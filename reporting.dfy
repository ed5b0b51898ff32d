/** Tokens, positions and the renderer-agnostic diagnostic records shared by
    the preprocessor and the config analyser. */
module Reporting {
  import Text

  datatype Option<+T> = None | Some(value: T)

  /** A byte offset with its line and column (`LineCol(offset, (line, col))`). */
  datatype LineCol = LineCol(offset: nat, line: nat, column: nat)

  /** The default `LineCol`: offset, line and column all zero. */
  const DefaultLineCol := LineCol(0, 0, 0)

  /** A path inside the workspace. `filename` and `prefix` are the values that
      `filename()` and `workspace().project().prefix()` return for it;
      `prefix` is `None` when the file belongs to no project. */
  datatype WorkspacePath = WorkspacePath(path: string, filename: string, prefix: Option<string>)

  datatype Position = Position(start: LineCol, end: LineCol, path: WorkspacePath)

  /** The lexical kinds the model needs; `Other` stands for every remaining
      kind and carries the text it prints as. */
  datatype Symbol = Word(word: string) | Digit(digit: nat) | DoubleQuote | Newline | Other(text: string)

  datatype Token = Token(symbol: Symbol, position: Position)

  /** How a symbol prints, which is the name a macro lookup uses. */
  function SymbolText(s: Symbol): string {
    match s
    case Word(w) => w
    case Digit(d) => Text.NatToString(d)
    case DoubleQuote => "\""
    case Newline => "\n"
    case Other(t) => t
  }

  function TokenText(t: Token): string {
    SymbolText(t.symbol)
  }

  /** Severity of a diagnostic: `ReportKind` of a rendered report and
      `AnnotationLevel` of a CI annotation. */
  datatype Level = Error | Warning

  /** One CI annotation: its level, the file it is reported against and the
      original-source position it covers. */
  datatype Annotation = Annotation(level: Level, file: string, position: Position)

  /** A labelled byte range of a source file in a rendered report. */
  datatype Label = Label(file: string, start: nat, end: nat, message: string)

  /** What a rendered report is built from, before it is written out: its
      kind, the file and offset it is anchored at, the code, the message, its
      labels and the optional help line. */
  datatype Report = Report(kind: Level, file: string, offset: nat, code: string,
                           message: string, labels: seq<Label>, help: Option<string>)

  /** What `Processed::mapping` yields for an offset of the expanded output:
      the original token, the id of its source, its original position and
      its original column. */
  datatype Mapping = Mapping(token: Token, source: nat, original: Position, originalColumn: nat)

  /** The preprocessed output, reduced to what the diagnostics consult: the
      offsets that have a mapping and the registered sources. */
  datatype Processed = Processed(mappings: map<nat, Mapping>, sources: map<nat, (WorkspacePath, string)>)
}
