/** PE14: tokens after the path of an include directive. */
module PE14 {
  import opened Reporting
  import Text

  const LabelPrefix := "unexpected tokens after include `"

  /** The first unexpected token. */
  datatype IncludeUnexpectedSuffix = IncludeUnexpectedSuffix(token: Token)
  {
    /** A preprocessor error. */
    function Ident(): (id: string)
      ensures |id| >= 3 && id[..2] == "PE"
    {
      "PE14"
    }

    /** A fixed one-line message, whatever the token. */
    function Message(): (m: string)
      ensures m == "unexpected tokens after include"
      ensures forall i :: 0 <= i < |m| ==> m[i] != '\n'
    {
      "unexpected tokens after include"
    }

    /** The token's text in backticks, with line feeds shown as `\n` so the
        label stays on one line. */
    function LabelMessage(): (m: string)
      ensures m == LabelPrefix + Text.EscapeNewlines(TokenText(token)) + "`"
      ensures forall i :: 0 <= i < |m| ==> m[i] != '\n'
      ensures (forall i :: 0 <= i < |TokenText(token)| ==> TokenText(token)[i] != '\n') ==>
                m == LabelPrefix + TokenText(token) + "`"
    {
      var escaped := Text.EscapeNewlines(TokenText(token));
      assert forall i :: 0 <= i < |LabelPrefix| ==> LabelPrefix[i] != '\n';
      LabelPrefix + escaped + "`"
    }

    function Help(): (h: Option<string>)
      ensures h.None?
    {
      None
    }

    /** The report: an error whose single label covers exactly the token. */
    function ReportGenerate(): (r: Report)
      ensures r.kind == Error && r.code == Ident() && r.message == Message() && r.help.None?
      ensures r.file == token.position.path.path && r.offset == token.position.start.offset
      ensures |r.labels| == 1
      ensures r.labels[0] == Label(token.position.path.path, token.position.start.offset,
                                   token.position.end.offset, "expected end of line")
    {
      Report(Error, token.position.path.path, token.position.start.offset, Ident(), Message(),
             [Label(token.position.path.path, token.position.start.offset, token.position.end.offset,
                    "expected end of line")],
             None)
    }

    /** One error annotation on the token. */
    function CiGenerate(): (annotations: seq<Annotation>)
      ensures |annotations| == 1
      ensures annotations[0] == Annotation(Error, token.position.path.path, token.position)
    {
      [Annotation(Error, token.position.path.path, token.position)]
    }
  }

  /** A line feed found after an include is labelled with a visible `\n`. */
  lemma NewlineLabel(c: IncludeUnexpectedSuffix)
    requires c.token.symbol == Newline
    ensures c.LabelMessage() == "unexpected tokens after include `\\n`"
  {
    Text.EscapeNewlinesNewline();
  }

  /** Only the line feeds change: text ending in a line feed is labelled with
      the rest of the text, escaped, followed by a backslash and an `n`. */
  lemma TrailingNewlineLabel(c: IncludeUnexpectedSuffix, text: string)
    requires TokenText(c.token) == text + "\n"
    ensures c.LabelMessage() == LabelPrefix + Text.EscapeNewlines(text) + "\\n`"
  {
    Text.EscapeNewlinesConcat(text, "\n");
    Text.EscapeNewlinesNewline();
  }
}
