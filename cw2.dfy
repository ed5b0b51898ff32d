/** CW2: a magazine well lists a magazine that CfgMagazines does not define. */
module CW2 {
  import opened Reporting
  import ConfigSyntax

  const LabelPrefix := "no matching magazine was found: `"

  /** The magazine array's name, the missing magazine's name and its span. */
  datatype MagwellMissingMagazine = MagwellMissingMagazine(
    arrayName: ConfigSyntax.Ident, ident: string, span: ConfigSyntax.Span)
  {
    /** A config warning. */
    function Ident(): (id: string)
      ensures |id| >= 3 && id[..2] == "CW"
    {
      "CW2"
    }

    /** A fixed message, whatever the magazine. */
    function Message(): (m: string)
      ensures m == "magazine defined in CfgMagazineWells was not found in CfgMagazines"
    {
      "magazine defined in CfgMagazineWells was not found in CfgMagazines"
    }

    /** Names the missing magazine, which can be read back from the label. */
    function LabelMessage(): (m: string)
      ensures |m| == |LabelPrefix| + |ident| + 1
      ensures m[|LabelPrefix|..|m| - 1] == ident
    {
      var m := LabelPrefix + ident + "`";
      assert m[|LabelPrefix|..|m| - 1] == ident;
      m
    }

    function Help(): (h: Option<string>)
      ensures h.None?
    {
      None
    }

    /** What the report needs: mappings for the array and for both ends of
        the missing entry. */
    predicate CanReport(processed: Processed) {
      && arrayName.span.start in processed.mappings
      && span.start in processed.mappings
      && span.end in processed.mappings
    }

    /** A warning in the array's file, whose one label runs from the start
        of the token mapped at the entry's start to the end of the token
        mapped at the entry's end. */
    function ReportGenerateProcessed(processed: Processed): (r: Report)
      requires CanReport(processed)
      ensures r.kind == Warning && r.code == Ident() && r.message == Message() && r.help.None?
      ensures r.file == processed.mappings[arrayName.span.start].token.position.path.path
      ensures r.offset == processed.mappings[span.end].originalColumn
      ensures var first := processed.mappings[span.start].token;
              var last := processed.mappings[span.end].token;
              r.labels == [Label(first.position.path.path, first.position.start.offset,
                                 last.position.end.offset, LabelMessage())]
    {
      var arrayToken := processed.mappings[arrayName.span.start].token;
      var first := processed.mappings[span.start].token;
      var endMap := processed.mappings[span.end];
      Report(Warning, arrayToken.position.path.path, endMap.originalColumn, Ident(), Message(),
             [Label(first.position.path.path, first.position.start.offset,
                    endMap.token.position.end.offset, LabelMessage())],
             None)
    }

    /** What the annotation needs: a mapping for the entry's start whose
        source is registered. */
    predicate CanAnnotate(processed: Processed) {
      span.start in processed.mappings && processed.mappings[span.start].source in processed.sources
    }

    /** One warning annotation at the entry's original position, in the file
        it came from. */
    function CiGenerateProcessed(processed: Processed): (annotations: seq<Annotation>)
      requires CanAnnotate(processed)
      ensures |annotations| == 1 && annotations[0].level == Warning
      ensures var m := processed.mappings[span.start];
              annotations[0].file == processed.sources[m.source].0.path && annotations[0].position == m.original
    {
      var m := processed.mappings[span.start];
      [Annotation(Warning, processed.sources[m.source].0.path, m.original)]
    }
  }
}
