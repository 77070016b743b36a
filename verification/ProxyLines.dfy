/** Cutting a text that arrives in arbitrary chunks into its LF-terminated lines. */
module ProxyLines {
  import opened Characters

  /** The pieces of a text between line feeds, as `split("\n")` gives them. */
  function Split(text: string): (pieces: seq<string>)
    ensures pieces != []
  {
    if text == "" then [""]
    else
      var pieces, c := Split(text[..|text| - 1]), text[|text| - 1];
      if c == '\n' then pieces + [""]
      else pieces[..|pieces| - 1] + [pieces[|pieces| - 1] + [c]]
  }

  function Lines(text: string): seq<string> {
    Split(text)[..|Split(text)| - 1]
  }

  function Tail(text: string): string {
    Split(text)[|Split(text)| - 1]
  }

  function Terminated(lines: seq<string>): string {
    if lines == [] then "" else Terminated(lines[..|lines| - 1]) + lines[|lines| - 1] + "\n"
  }

  /** The lines and the tail are the text: they rebuild it, and none of them holds a line feed. */
  lemma {:induction false} SplitRebuilds(text: string)
    ensures text == Terminated(Lines(text)) + Tail(text)
    ensures '\n' !in Tail(text) && forall line :: line in Lines(text) ==> '\n' !in line
  {
    if text != "" {
      var init, c := text[..|text| - 1], text[|text| - 1];
      SplitRebuilds(init);
      assert text == init + [c];
      if c == '\n' {
        assert Lines(text) == Lines(init) + [Tail(init)];
        assert Lines(text)[..|Lines(init)|] == Lines(init);
        assert text == Terminated(Lines(text)) + "";
      } else {
        assert Lines(text) == Lines(init);
      }
    }
  }

  lemma SplitSnoc(text: string, c: char)
    ensures Lines(text + [c]) == if c == '\n' then Lines(text) + [Tail(text)] else Lines(text)
    ensures Tail(text + [c]) == if c == '\n' then "" else Tail(text) + [c]
  {
    assert (text + [c])[..|text|] == text;
  }

  lemma ResumeNext(lines: seq<string>, whole: string, rest: string, c: char)
    requires Lines(whole) == lines + Lines(rest) && Tail(whole) == Tail(rest)
    ensures Lines(whole + [c]) == lines + Lines(rest + [c]) && Tail(whole + [c]) == Tail(rest + [c])
  {
    SplitSnoc(whole, c);
    SplitSnoc(rest, c);
    if c == '\n' {
      assert (lines + Lines(rest)) + [Tail(rest)] == lines + (Lines(rest) + [Tail(rest)]);
    }
  }

  /** Resuming after a chunk with only the unterminated tail in hand loses and invents no line. */
  lemma {:induction false} ResumeFromTail(a: string, b: string)
    ensures Lines(a + b) == Lines(a) + Lines(Tail(a) + b)
    ensures Tail(a + b) == Tail(Tail(a) + b)
  {
    if b == "" {
      assert a + b == a && Tail(a) + b == Tail(a);
      TailHasNoLines(a);
    } else {
      var init, c := b[..|b| - 1], b[|b| - 1];
      ResumeFromTail(a, init);
      assert a + b == (a + init) + [c] && Tail(a) + b == (Tail(a) + init) + [c];
      ResumeNext(Lines(a), a + init, Tail(a) + init, c);
    }
  }

  lemma {:induction false} NoLineFeed(text: string)
    requires '\n' !in text
    ensures Lines(text) == [] && Tail(text) == text
  {
    if text != "" {
      var init, c := text[..|text| - 1], text[|text| - 1];
      NoLineFeed(init);
      assert text == init + [c];
      SplitSnoc(init, c);
    }
  }

  lemma TailHasNoLines(text: string)
    ensures Lines(Tail(text)) == [] && Tail(Tail(text)) == Tail(text)
  {
    SplitRebuilds(text);
    NoLineFeed(Tail(text));
  }

  function Join(chunks: seq<string>): string {
    if chunks == [] then "" else Join(chunks[..|chunks| - 1]) + chunks[|chunks| - 1]
  }

  function TrimStart(text: string): string {
    if text != "" && IsWhitespace(text[0]) then TrimStart(text[1..]) else text
  }

  function TrimEnd(text: string): string {
    if text != "" && IsWhitespace(text[|text| - 1]) then TrimEnd(text[..|text| - 1]) else text
  }

  function Trim(text: string): string {
    TrimEnd(TrimStart(text))
  }
}
