/** The display string `renderLatexToCanvas` builds for each revealed result. */
module Latex {
  import opened Common

  /** Opens inline math in large type: backslash, `(`, backslash, `LARGE{`. */
  const Open: string := "\\(\\LARGE{"
  /** Separates the expression from its answer. */
  const Equals: string := " = "
  /** Closes the group and the inline math: `}`, backslash, `)`. */
  const Close: string := "}\\)"

  /** The entry for one result: the expression and its answer joined by ` = ` inside large inline math. */
  function LatexOf(expression: string, answer: string): (s: string)
    ensures |s| == |Open| + |expression| + |Equals| + |answer| + |Close|
    ensures s[..|Open|] == Open && s[|s| - |Close|..] == Close
    ensures s[|Open|..|Open| + |expression|] == expression
  {
    Open + expression + Equals + answer + Close
  }

  /** The text inside the large-math group of an entry, or `None` when `s` is not wrapped that way. */
  function Body(s: string): (r: Option<string>)
    ensures r.Some? ==> Open + r.value + Close == s
  {
    if |s| >= |Open| + |Close| && s[..|Open|] == Open && s[|s| - |Close|..] == Close
    then
      var body := s[|Open|..|s| - |Close|];
      assert s == s[..|Open|] + body + s[|s| - |Close|..];
      Some(body)
    else None
  }

  /** Every entry is wrapped in large inline math around `expression = answer`. */
  lemma BodyOfLatex(expression: string, answer: string)
    ensures Body(LatexOf(expression, answer)) == Some(expression + Equals + answer)
  {
    var s := LatexOf(expression, answer);
    var body := expression + Equals + answer;
    assert s == Open + body + Close;
    assert s[..|Open|] == Open;
    assert s[|s| - |Close|..] == Close;
    assert s[|Open|..|s| - |Close|] == body;
  }

  /** Distinct answers to one expression give distinct entries. */
  lemma AnswerIsRecoverable(expression: string, a1: string, a2: string)
    requires LatexOf(expression, a1) == LatexOf(expression, a2)
    ensures a1 == a2
  {
    BodyOfLatex(expression, a1);
    BodyOfLatex(expression, a2);
    var p := Open + expression + Equals;
    assert a1 == (p + a1)[|p|..];
    assert a2 == (p + a2)[|p|..];
  }
}
