/** The five diagnostic kinds side by side, as the shared code interface
    sees them: a stable identifier, a severity fixed by that identifier, and
    the CI annotations each one produces. */
module Codes {
  import opened Reporting
  import PE9
  import PE14
  import PW2
  import CE7
  import CW2

  datatype Code =
    | ArgumentCount(pe9: PE9.FunctionCallArgumentCount)
    | UnexpectedSuffix(pe14: PE14.IncludeUnexpectedSuffix)
    | InvalidCase(pw2: PW2.InvalidConfigCase)
    | MissingParent(ce7: CE7.MissingParent)
    | MissingMagazine(cw2: CW2.MagwellMissingMagazine)
  {
    function Ident(): string {
      match this
      case ArgumentCount(c) => c.Ident()
      case UnexpectedSuffix(c) => c.Ident()
      case InvalidCase(c) => c.Ident()
      case MissingParent(c) => c.Ident()
      case MissingMagazine(c) => c.Ident()
    }

    /** The severity of the kind; it is the one its identifier announces. */
    function Severity(): (level: Level)
      ensures LevelOfIdent(Ident()) == Some(level)
    {
      match this
      case ArgumentCount(_) => Error
      case UnexpectedSuffix(_) => Error
      case InvalidCase(_) => Warning
      case MissingParent(_) => Error
      case MissingMagazine(_) => Warning
    }

    /** What each kind needs from the preprocessed output to annotate. */
    predicate CanAnnotate(processed: Processed) {
      match this
      case MissingParent(c) => c.CanAnnotate(processed)
      case MissingMagazine(c) => c.CanAnnotate(processed)
      case _ => true
    }

    /** The CI annotations: the preprocessor kinds need no preprocessed
        output, the config kinds look their positions up in it. */
    function CiGenerate(processed: Processed): seq<Annotation>
      requires CanAnnotate(processed)
    {
      match this
      case ArgumentCount(c) => c.CiGenerate()
      case UnexpectedSuffix(c) => c.CiGenerate()
      case InvalidCase(c) => c.CiGenerate()
      case MissingParent(c) => c.CiGenerateProcessed(processed)
      case MissingMagazine(c) => c.CiGenerateProcessed(processed)
    }
  }

  /** The layer-and-severity naming of identifiers: a layer letter (`P`
      preprocessor, `C` config), then `E` for errors or `W` for warnings,
      then a number. */
  function LevelOfIdent(ident: string): (level: Option<Level>)
    ensures level.Some? ==> |ident| >= 3 && ident[0] in {'P', 'C'}
  {
    if |ident| < 3 || ident[0] !in {'P', 'C'} then None
    else if ident[1] == 'E' then Some(Error)
    else if ident[1] == 'W' then Some(Warning)
    else None
  }

  /** Every kind yields exactly one annotation, and its level is the kind's
      severity. */
  lemma AnnotationsCarrySeverity(c: Code, processed: Processed)
    requires c.CanAnnotate(processed)
    ensures |c.CiGenerate(processed)| == 1
    ensures c.CiGenerate(processed)[0].level == c.Severity()
  {
  }

  /** Severity is a function of the identifier alone. */
  lemma SeverityFixedPerIdent(a: Code, b: Code)
    requires a.Ident() == b.Ident()
    ensures a.Severity() == b.Severity()
  {
  }

  /** No two kinds share an identifier. */
  lemma IdentsDistinct(a: Code, b: Code)
    requires a.Ident() == b.Ident()
    ensures a.ArgumentCount? == b.ArgumentCount?
    ensures a.UnexpectedSuffix? == b.UnexpectedSuffix?
    ensures a.InvalidCase? == b.InvalidCase?
    ensures a.MissingParent? == b.MissingParent?
    ensures a.MissingMagazine? == b.MissingMagazine?
  {
  }

  /** The reports that are built from records carry the kind's severity too;
      PE9's is built by a method whose own contract says Error, and PW2's
      text opens with "[PW2] Warning:". */
  lemma ReportsCarrySeverity(c: Code, processed: Processed)
    ensures c.UnexpectedSuffix? ==> c.pe14.ReportGenerate().kind == c.Severity()
    ensures c.MissingParent? && c.ce7.CanReport(processed) && c.ce7.cls.parent.Some? ==>
              c.ce7.ReportGenerateProcessed(processed).value.kind == c.Severity()
    ensures c.MissingMagazine? && c.cw2.CanReport(processed) ==>
              c.cw2.ReportGenerateProcessed(processed).kind == c.Severity()
  {
  }
}
