/** The standalone console (cmd/msw/main.go): a bounded buffer of the
    game server's output lines, the `/output` rendering that colours
    error lines, and the `/input` form that feeds commands to the game
    server's standard input. */
module Msw {
  import opened Text
  import opened History

  /** OutputBuffer: the last `maxLen` lines appended, oldest first. */
  class OutputBuffer {
    var lines: seq<string>
    const maxLen: int
    /** Every line ever appended, in order. */
    ghost var appended: seq<string>

    ghost predicate Valid()
      reads this
    {
      maxLen >= 0 && lines == Last(appended, maxLen)
    }

    /** NewOutputBuffer; a negative capacity makes `make` panic. */
    constructor (maxLen: int)
      requires maxLen >= 0
      ensures this.maxLen == maxLen && lines == [] && appended == []
      ensures Valid()
    {
      this.maxLen := maxLen;
      lines := [];
      appended := [];
    }

    /** Append: add the line at the end, then drop the oldest line when
        the buffer is over capacity. */
    method Append(line: string)
      requires Valid()
      modifies this
      ensures appended == old(appended) + [line]
      ensures lines == DropOldest(old(lines) + [line], maxLen)
      ensures Valid()
    {
      DropOldestOfAppend(appended, line, maxLen);
      appended := appended + [line];
      lines := lines + [line];
      if |lines| > maxLen {
        lines := lines[1..];
      }
    }

    /** GetLines: a copy of the current lines. Being a value, the copy
        is not affected by later appends. */
    method GetLines() returns (result: seq<string>)
      requires Valid()
      ensures result == lines == Last(appended, maxLen)
    {
      result := lines;
    }
  }

  // ---------------------------------------------------------------
  // /output (main.go:160-171)
  // ---------------------------------------------------------------

  datatype LineClass = Stdout | Stderr

  const ErrPrefix := "[ERR]"

  /** The CSS class a line is rendered with. */
  function Classify(line: string): (c: LineClass)
    ensures c == Stderr <==> StartsWith(line, ErrPrefix)
  {
    if StartsWith(line, ErrPrefix) then Stderr else Stdout
  }

  /** A line read from the game server's standard error, as the stderr
      scanner stores it. */
  function StderrLine(text: string): (line: string)
    ensures line == ErrPrefix + " " + text
  {
    "[ERR] " + text
  }

  /** Lines from the standard error scanner are always rendered as
      errors, whatever they say. */
  lemma StderrLinesAreStderr(text: string)
    ensures Classify(StderrLine(text)) == Stderr
  {
    assert StderrLine(text)[..|ErrPrefix|] == ErrPrefix;
  }

  /** The `/output` loop: one classified entry per buffered line, in
      order (the HTML escaping of the text is not modelled). */
  method RenderOutput(lines: seq<string>) returns (divs: seq<(LineClass, string)>)
    ensures |divs| == |lines|
    ensures forall i :: 0 <= i < |lines| ==> divs[i] == (Classify(lines[i]), lines[i])
  {
    divs := [];
    for i := 0 to |lines|
      invariant |divs| == i
      invariant forall j :: 0 <= j < i ==> divs[j] == (Classify(lines[j]), lines[j])
    {
      var kind := if StartsWith(lines[i], ErrPrefix) then Stderr else Stdout;
      divs := divs + [(kind, lines[i])];
    }
  }

  // ---------------------------------------------------------------
  // /input (main.go:173-187) and the stdin forwarder (main.go:263-272)
  // ---------------------------------------------------------------

  datatype InputReply = InputReply(code: int, body: string, forwarded: Option<string>)

  /** The `/input` handler: only POST, only a parsable form; a
      non-empty `command` is handed to the forwarder, an empty one is
      dropped, and either way the answer is 200. The hand-over is a send
      on an unbuffered channel: once the forwarder has returned
      (`forwarderRunning` false) nobody receives, and the request hangs
      without an answer (None). */
  function HandleInput(verb: string, formOk: bool, command: string, forwarderRunning: bool): (r: Option<InputReply>)
    ensures r.None? <==> verb == "POST" && formOk && command != "" && !forwarderRunning
    ensures verb != "POST" ==> r == Some(InputReply(405, "Method not allowed", None))
    ensures verb == "POST" && !formOk ==> r == Some(InputReply(400, "Failed to parse form", None))
    ensures r.Some? && verb == "POST" && formOk ==> r.value.code == 200 && r.value.body == ""
    ensures r.Some? && r.value.forwarded.Some? <==> verb == "POST" && formOk && command != "" && forwarderRunning
    ensures r.Some? && r.value.forwarded.Some? ==> r.value.forwarded.value == command
  {
    if verb != "POST" then Some(InputReply(405, "Method not allowed", None))
    else if !formOk then Some(InputReply(400, "Failed to parse form", None))
    else if command == "" then Some(InputReply(200, "", None))
    else if forwarderRunning then Some(InputReply(200, "", Some(command)))
    else None
  }

  /** What the forwarder writes to standard input for one command. */
  function StdinLine(input: string): (w: string)
    ensures |w| == |input| + 1 && w[..|input|] == input && w[|input|] == '\n'
  {
    input + "\n"
  }

  /** The forwarder: each queued input is written with a newline until
      the first write fails (`failAt`, when it is within the inputs),
      after which the forwarder returns. Results: the writes that
      succeeded, in order, and whether the forwarder is still receiving. */
  method ForwardInputs(inputs: seq<string>, failAt: Option<nat>) returns (written: seq<string>, running: bool)
    ensures var k := if failAt.Some? && failAt.value < |inputs| then failAt.value else |inputs|;
            written == seq(k, i requires 0 <= i < k => StdinLine(inputs[i]))
    ensures running <==> !(failAt.Some? && failAt.value < |inputs|)
  {
    var k := if failAt.Some? && failAt.value < |inputs| then failAt.value else |inputs|;
    written := [];
    var i := 0;
    while i < |inputs|
      invariant 0 <= i <= k
      invariant written == seq(i, j requires 0 <= j < i => StdinLine(inputs[j]))
    {
      if failAt == Some(i) {
        return written, false;
      }
      written := written + [inputs[i] + "\n"];
      i := i + 1;
    }
    running := true;
  }

  /** After a failed write to the game server's input, every later
      non-empty command from the form hangs, while an empty one is still
      answered. */
  lemma StoppedForwarderHangs(command: string)
    ensures command != "" ==> HandleInput("POST", true, command, false).None?
    ensures HandleInput("POST", true, "", false) == Some(InputReply(200, "", None))
  {
  }
}
