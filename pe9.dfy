/** PE9: a function-like macro called with the wrong number of arguments. */
module PE9 {
  import opened Reporting
  import opened MacroTable
  import Text

  /** The tail both texts share: the expected count, "` got `", the actual
      count and a closing backtick. */
  function CountsText(expected: nat, got: nat): string {
    Text.NatToString(expected) + ("` got `" + (Text.NatToString(got) + "`"))
  }

  /** `n` followed by "argument", pluralised unless `n` is 1. */
  function Arguments(n: nat): (s: string)
    ensures |s| >= |Text.NatToString(n)| + 9 && s[..|Text.NatToString(n)|] == Text.NatToString(n)
    ensures s[|s| - 1] == 's' <==> n != 1
  {
    Text.NatToString(n) + " argument" + (if n == 1 then "" else "s")
  }

  /** The call token, the declared and actual argument counts, up to three
      similarly named value macros, and the defining token with the
      declared parameters. */
  datatype FunctionCallArgumentCount = FunctionCallArgumentCount(
    token: Token, expected: nat, got: nat, similar: seq<string>, defined: (Token, seq<Token>))
  {
    /** A preprocessor error. */
    function Ident(): (id: string)
      ensures |id| >= 3 && id[..2] == "PE"
    {
      "PE9"
    }

    /** Names both counts, each in backticks. */
    function Message(): (m: string)
      ensures Text.IsInfix("`" + Text.NatToString(expected) + "`", m)
      ensures Text.IsInfix("`" + Text.NatToString(got) + "`", m)
    {
      CountsInBackticks("function call with incorrect number of arguments, expected `", expected, got);
      "function call with incorrect number of arguments, expected `" + CountsText(expected, got)
    }

    /** Names both counts, each in backticks. */
    function LabelMessage(): (m: string)
      ensures Text.IsInfix("`" + Text.NatToString(expected) + "`", m)
      ensures Text.IsInfix("`" + Text.NatToString(got) + "`", m)
    {
      CountsInBackticks("incorrect argument count, expected `", expected, got);
      "incorrect argument count, expected `" + CountsText(expected, got)
    }

    function Help(): (h: Option<string>)
      ensures h.None?
    {
      None
    }

    /** The label on the call site. */
    function CallLabel(): (l: Label)
      ensures l.file == token.position.path.path
      ensures l.start == token.position.start.offset && l.end == token.position.end.offset
      ensures got == 1 ==> l.message == "called with 1 argument here"
      ensures got != 1 ==> l.message == "called with " + Text.NatToString(got) + " arguments here"
    {
      Label(token.position.path.path, token.position.start.offset, token.position.end.offset,
            "called with " + Arguments(got) + " here")
    }

    /** The label on the definition, counting its declared parameters. */
    function DefinedLabel(): (l: Label)
      ensures l.file == defined.0.position.path.path
      ensures l.start == defined.0.position.start.offset && l.end == defined.0.position.end.offset
      ensures |defined.1| == 1 ==> l.message == "defined here with 1 argument"
      ensures |defined.1| != 1 ==> l.message == "defined here with " + Text.NatToString(|defined.1|) + " arguments"
    {
      Label(defined.0.position.path.path, defined.0.position.start.offset, defined.0.position.end.offset,
            "defined here with " + Arguments(|defined.1|))
    }

    /** The report: an error at the call token with both labels, and a "did
        you mean" help line exactly when there are suggestions. */
    method ReportGenerate() returns (report: Report)
      ensures report.kind == Error && report.code == Ident() && report.message == Message()
      ensures report.file == token.position.path.path && report.offset == token.position.start.offset
      ensures report.labels == [CallLabel(), DefinedLabel()]
      ensures report.help.Some? <==> |similar| > 0
      ensures report.help.Some? ==>
                report.help.value == "did you mean `" + Text.Join(similar, "`, `") + "`"
                && forall i :: 0 <= i < |similar| ==> Text.IsInfix(similar[i], report.help.value)
    {
      report := Report(Error, token.position.path.path, token.position.start.offset, Ident(), Message(),
                       [CallLabel(), DefinedLabel()], None);
      if |similar| > 0 {
        var help := "did you mean `" + Text.Join(similar, "`, `") + "`";
        forall i | 0 <= i < |similar| ensures Text.IsInfix(similar[i], help) {
          Text.JoinContainsEachPart(similar, "`, `", i);
          var k :| Text.InfixAt(similar[i], Text.Join(similar, "`, `"), k);
          Text.InfixExtend(similar[i], Text.Join(similar, "`, `"), "`", k);
          Text.InfixShift(similar[i], "did you mean `", Text.Join(similar, "`, `") + "`", k);
          assert help == "did you mean `" + (Text.Join(similar, "`, `") + "`");
        }
        report := report.(help := Some(help));
      }
    }

    /** One error annotation on the call token. */
    function CiGenerate(): (annotations: seq<Annotation>)
      ensures |annotations| == 1
      ensures annotations[0] == Annotation(Error, token.position.path.path, token.position)
    {
      [Annotation(Error, token.position.path.path, token.position)]
    }
  }

  /** Builds the diagnostic for a call of the macro named by `token`, which
      must resolve to a function-like macro (the source unwraps both
      lookups). The suggestions are drawn from the value macros. */
  method New(token: Token, expected: nat, got: nat, defines: Defines) returns (c: FunctionCallArgumentCount)
    requires defines.GetReadonly(Text.Trim(TokenText(token))).Some?
    requires defines.GetReadonly(Text.Trim(TokenText(token))).value.1.Function?
    ensures c.token == token && c.expected == expected && c.got == got
    ensures c.defined.0 == defines.GetReadonly(Text.Trim(TokenText(token))).value.0
    ensures c.defined.1 == defines.GetReadonly(Text.Trim(TokenText(token))).value.1.func.args
    ensures |c.similar| <= 3
    ensures forall i :: 0 <= i < |c.similar| ==>
              c.similar[i] in defines.global && defines.global[c.similar[i]].1.Value?
    ensures IsRanking(c.similar, defines.ValueNames(), Text.Trim(TokenText(token)))
  {
    var name := Text.Trim(TokenText(token));
    var similar := defines.SimilarValues(name);
    var (t, d) := defines.GetReadonly(name).value;
    c := FunctionCallArgumentCount(token, expected, got, similar, (t, d.func.args));
  }

  /** The message and the label both name the two counts: diagnostics with
      equal messages, or equal labels, report the same counts. */
  lemma CountsRecoverable(a: FunctionCallArgumentCount, b: FunctionCallArgumentCount)
    ensures a.Message() == b.Message() ==> a.expected == b.expected && a.got == b.got
    ensures a.LabelMessage() == b.LabelMessage() ==> a.expected == b.expected && a.got == b.got
  {
    if a.Message() == b.Message() {
      Text.StripPrefix("function call with incorrect number of arguments, expected `",
                       CountsText(a.expected, a.got), CountsText(b.expected, b.got));
      CountsTextInjective(a.expected, a.got, b.expected, b.got);
    }
    if a.LabelMessage() == b.LabelMessage() {
      Text.StripPrefix("incorrect argument count, expected `",
                       CountsText(a.expected, a.got), CountsText(b.expected, b.got));
      CountsTextInjective(a.expected, a.got, b.expected, b.got);
    }
  }

  /** After a text ending in a backtick, the counts text puts each count
      in backticks. */
  lemma CountsInBackticks(pre: string, e: nat, g: nat)
    requires |pre| > 0 && pre[|pre| - 1] == '`'
    ensures Text.IsInfix("`" + Text.NatToString(e) + "`", pre + CountsText(e, g))
    ensures Text.IsInfix("`" + Text.NatToString(g) + "`", pre + CountsText(e, g))
  {
    var x, y := Text.NatToString(e), Text.NatToString(g);
    var p := pre[..|pre| - 1];
    assert pre == p + "`";
    var s := pre + CountsText(e, g);
    assert s == p + ("`" + x + "`") + (" got `" + y + "`");
    Text.InfixOfConcat(p, "`" + x + "`", " got `" + y + "`");
    assert s == (p + "`" + x + "` got ") + ("`" + y + "`") + "";
    Text.InfixOfConcat(p + "`" + x + "` got ", "`" + y + "`", "");
  }

  /** The counts text determines both counts. */
  lemma CountsTextInjective(e1: nat, g1: nat, e2: nat, g2: nat)
    requires CountsText(e1, g1) == CountsText(e2, g2)
    ensures e1 == e2 && g1 == g2
  {
    var x1, x2 := Text.NatToString(e1), Text.NatToString(e2);
    var y1, y2 := Text.NatToString(g1), Text.NatToString(g2);
    DigitsBeforeBacktick(x1, "` got `" + (y1 + "`"), x2, "` got `" + (y2 + "`"));
    Text.NatToStringInjective(e1, e2);
    Text.StripPrefix(x1, "` got `" + (y1 + "`"), "` got `" + (y2 + "`"));
    Text.StripPrefix("` got `", y1 + "`", y2 + "`");
    assert y1 == (y1 + "`")[..|y1|] && y2 == (y2 + "`")[..|y2|];
    Text.NatToStringInjective(g1, g2);
  }

  /** In digits followed by a backtick, the first backtick ends the digits. */
  lemma FirstBacktick(x: string, r: string)
    requires Text.AllDigits(x) && |r| > 0 && r[0] == '`'
    ensures (x + r)[|x|] == '`'
    ensures forall i :: 0 <= i < |x| ==> (x + r)[i] != '`'
  {
  }

  /** A run of digits ended by a backtick can be split off only one way. */
  lemma DigitsBeforeBacktick(x1: string, r1: string, x2: string, r2: string)
    requires Text.AllDigits(x1) && Text.AllDigits(x2)
    requires |r1| > 0 && r1[0] == '`' && |r2| > 0 && r2[0] == '`'
    requires x1 + r1 == x2 + r2
    ensures x1 == x2
  {
    FirstBacktick(x1, r1);
    FirstBacktick(x2, r2);
    assert |x1| == |x2|;
    assert x1 == (x1 + r1)[..|x1|] && x2 == (x2 + r2)[..|x2|];
  }
}
