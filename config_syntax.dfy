/** The parts of the config syntax tree that the config diagnostics read. */
module ConfigSyntax {
  import opened Reporting

  /** A byte range `start..end` of the preprocessed output. */
  datatype Span = Span(start: nat, end: nat)

  /** A name in the config, with the span it occupies in the preprocessed output. */
  datatype Ident = Ident(value: string, span: Span)

  /** A class as the analyser sees it: its name (absent for the root) and
      the parent it derives from, if any. */
  datatype Class = Class(name: Option<Ident>, parent: Option<Ident>)
}
