/** src/tools/askForInput.go: a line of input with a default. The line read from
    standard input is a parameter. */
module Input {
  import opened Text

  /** AskForInput: the line without its surrounding white space, or the default
      when nothing else is left. */
  function AskForInput(line: string, defaultValue: string): (r: string)
    ensures AllSpace(line) ==> r == defaultValue
    ensures !AllSpace(line) ==> Framed(r) && |r| <= |line|
    ensures defaultValue != "" ==> r != ""
  {
    var input := TrimSpace(line);
    if input == "" then defaultValue else input
  }

  /** An answer taken from the user is the line with only white space removed
      from its two ends. */
  lemma AskForInputKeepsTheAnswer(line: string, defaultValue: string)
    requires !AllSpace(line)
    ensures exists i, j :: (0 <= i <= j <= |line| && AllSpace(line[..i]) && AllSpace(line[j..])
      && AskForInput(line, defaultValue) == line[i..j])
  {
    var l := TrimLeft(line);
    var r := TrimRight(l);
    var i := |line| - |l|;
    assert r == TrimSpace(line);
    assert l[|r|..] == line[i + |r|..];
    assert line[i..i + |r|] == r;
  }

  /** A line that is already framed comes back unchanged. */
  lemma AskForInputOfFramed(line: string, defaultValue: string)
    requires Framed(line)
    ensures AskForInput(line, defaultValue) == line
  {
  }

  /** With the defaults the install flow uses, the answer is never empty,
      whatever the user types. */
  lemma CredentialsNeverBlank(userLine: string, passLine: string)
    ensures AskForInput(userLine, "root") != ""
    ensures AskForInput(passLine, "password") != ""
  {
  }
}
