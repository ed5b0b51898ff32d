/** CE7: a class derives from a parent that the config does not declare. */
module CE7 {
  import opened Reporting
  import opened ConfigSyntax
  import Text

  /** The class whose parent is missing. */
  datatype MissingParent = MissingParent(cls: Class)
  {
    /** A config error. */
    function Ident(): (id: string)
      ensures |id| >= 3 && id[..2] == "CE"
    {
      "CE7"
    }

    /** A fixed one-line message, whatever the class. */
    function Message(): (m: string)
      ensures m == "class's parent is not present"
      ensures forall i :: 0 <= i < |m| ==> m[i] != '\n'
    {
      "class's parent is not present"
    }

    /** A fixed one-line label, whatever the class. */
    function LabelMessage(): (m: string)
      ensures m == "not present in config"
      ensures forall i :: 0 <= i < |m| ==> m[i] != '\n'
    {
      "not present in config"
    }

    /** Present exactly when the class has a parent, and then it suggests
        declaring that parent as an external class. */
    function Help(): (h: Option<string>)
      ensures h.Some? <==> cls.parent.Some?
      ensures h.Some? ==> Text.IsInfix("class " + cls.parent.value.value + ";", h.value)
    {
      match cls.parent
      case None => None
      case Some(parent) =>
        var text := "add `" + ("class " + parent.value + ";") + "` to the config to declare it as external";
        Text.InfixOfConcat("add `", "class " + parent.value + ";", "` to the config to declare it as external");
        Some(text)
    }

    /** What the report needs from the preprocessed output: when there is a
        parent, the class name and the parent have mappings. */
    predicate CanReport(processed: Processed) {
      cls.parent.Some? ==>
        && cls.name.Some?
        && cls.name.value.span.start in processed.mappings
        && cls.parent.value.span.start in processed.mappings
    }

    /** No report without a parent; otherwise an error anchored where the
        class name came from, with one label on the parent's original token
        and the help line. */
    function ReportGenerateProcessed(processed: Processed): (r: Option<Report>)
      requires CanReport(processed)
      ensures r.None? <==> cls.parent.None?
      ensures r.Some? ==>
                && r.value.kind == Error && r.value.code == Ident() && r.value.message == Message()
                && r.value.help == Help()
      ensures r.Some? ==>
                var name := processed.mappings[cls.name.value.span.start];
                r.value.file == name.token.position.path.path && r.value.offset == name.originalColumn
      ensures r.Some? ==>
                var parent := processed.mappings[cls.parent.value.span.start].token;
                r.value.labels == [Label(parent.position.path.path, parent.position.start.offset,
                                         parent.position.end.offset, LabelMessage())]
    {
      match cls.parent
      case None => None
      case Some(parent) =>
        var map_ := processed.mappings[cls.name.value.span.start];
        var parentToken := processed.mappings[parent.span.start].token;
        Some(Report(Error, map_.token.position.path.path, map_.originalColumn, Ident(), Message(),
                    [Label(parentToken.position.path.path, parentToken.position.start.offset,
                           parentToken.position.end.offset, LabelMessage())],
                    Help()))
    }

    /** What the annotation needs: a parent with a mapping whose source is
        registered. */
    predicate CanAnnotate(processed: Processed) {
      && cls.parent.Some?
      && cls.parent.value.span.start in processed.mappings
      && processed.mappings[cls.parent.value.span.start].source in processed.sources
    }

    /** One error annotation at the parent's original position, in the file
        it came from. */
    function CiGenerateProcessed(processed: Processed): (annotations: seq<Annotation>)
      requires CanAnnotate(processed)
      ensures |annotations| == 1 && annotations[0].level == Error
      ensures var m := processed.mappings[cls.parent.value.span.start];
              annotations[0].file == processed.sources[m.source].0.path && annotations[0].position == m.original
    {
      var m := processed.mappings[cls.parent.value.span.start];
      [Annotation(Error, processed.sources[m.source].0.path, m.original)]
    }
  }
}
