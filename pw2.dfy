/** PW2: a config file named with upper-case letters. */
module PW2 {
  import opened Reporting
  import Text

  /** The offending config file. */
  datatype InvalidConfigCase = InvalidConfigCase(path: WorkspacePath)
  {
    /** A preprocessor warning. */
    function Ident(): (id: string)
      ensures |id| >= 3 && id[..2] == "PW"
    {
      "PW2"
    }

    /** Names the file, in backticks, at the start of the message. */
    function Message(): (m: string)
      ensures |m| > |path.filename| + 1 && m[..|path.filename| + 2] == "`" + path.filename + "`"
      ensures Text.IsInfix(path.filename, m)
    {
      var quoted := "`" + path.filename + "`";
      Text.InfixOfConcat("`", path.filename, "`");
      Text.InfixExtend(path.filename, quoted, " is not a valid case for a config", 1);
      assert (quoted + " is not a valid case for a config")[..|quoted|] == quoted;
      quoted + " is not a valid case for a config"
    }

    /** The label says the same as the message. */
    function LabelMessage(): (m: string)
      ensures m == Message()
    {
      var quoted := "`" + path.filename + "`";
      quoted + " is not a valid case for a config"
    }

    /** Always present: rename the file to its lower-case path. */
    function Help(): (h: Option<string>)
      ensures h.Some?
      ensures h.value == "Rename to `" + Text.ToLowercase(path.path) + "`"
      ensures |h.value| == |path.path| + 12
      ensures h.value[11..|h.value| - 1] == Text.ToLowercase(path.path)
      ensures forall i :: 11 <= i < |h.value| - 1 ==> !('A' <= h.value[i] <= 'Z')
    {
      var lower := Text.ToLowercase(path.path);
      assert ("Rename to `" + lower + "`")[11..|lower| + 11] == lower;
      Some("Rename to `" + lower + "`")
    }

    /** The warning text: a header with the code, the message, and the help
        line. It is always produced, since the help is always present. */
    function ReportGenerate(): (r: Option<string>)
      ensures r.Some?
      ensures |r.value| >= 15 && r.value[..15] == "[PW2] Warning: "
      ensures Text.IsInfix(Message(), r.value)
      ensures Text.IsInfix(Help().value, r.value)
    {
      var help := Help().value;
      var text := "[PW2] Warning: " + Message() + ("\n      Help: " + help);
      Text.InfixOfConcat("[PW2] Warning: ", Message(), "\n      Help: " + help);
      Text.InfixSuffix("\n      Help: ", help);
      Text.InfixShift(help, "[PW2] Warning: " + Message(), "\n      Help: " + help, 13);
      Some(text)
    }

    /** One warning annotation on the file, at the default (zero) position. */
    function CiGenerate(): (annotations: seq<Annotation>)
      ensures |annotations| == 1
      ensures annotations[0] == Annotation(Warning, path.path, Position(DefaultLineCol, DefaultLineCol, path))
      ensures annotations[0].position.start == annotations[0].position.end == LineCol(0, 0, 0)
    {
      [Annotation(Warning, path.path, Position(DefaultLineCol, DefaultLineCol, path))]
    }
  }
}
