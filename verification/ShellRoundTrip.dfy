/** The parser of user/sh.c accepts exactly the lines of its language, and takes each to mean what was
    written, whatever the whitespace; every command can be written and is parsed back. */
module ShellRoundTrip {
  import opened ShellGrammar
  import opened ShellTokens
  import opened ShellLexer
  import opened ShellSource
  import opened ShellSound
  import opened ShellComplete

  // ---------------------------------------------------------------- the language

  lemma {:induction false} RenderOk(ls: seq<Lexeme>, sp: seq<string>)
    requires Gapped(ls, sp) && LexemesOk(ls)
    ensures LineOk(Render(ls, sp))
  {
    hide Gapped;
    GapOk(ls, sp);
    if ls != [] {
      GappedRest(ls, sp);
      RenderOk(ls[1..], sp[1..]);
      assert LexemeOk(ls[0]);
    }
  }

  lemma GapOk(ls: seq<Lexeme>, sp: seq<string>)
    requires Gapped(ls, sp)
    ensures '\0' !in sp[0]
  {
    assert Blank(sp[0]);
  }

  // However a command is written, with whatever whitespace before, between and after its tokens, the
  // line is accepted and means what was written.
  lemma Accepted(s: Src, sp: seq<string>) returns (c: Cmd<Tok>)
    requires SrcOk(s) && Gapped(Tokens(s), sp)
    ensures var line := Render(Tokens(s), sp);
            LineOk(line) && ParseCmd(line) == Ok(c, |line|) && CmdOk(line, c) && Named(line, c) == Meaning(s)
  {
    var line := Render(Tokens(s), sp);
    TokensOk(s);
    RenderOk(Tokens(s), sp);
    LexRender(Tokens(s), sp, line, 0);
    assert Tokens(s) + [] == Tokens(s);
    var c', q := Parses(line, 0, s, 3, []);
    c := c';
    hide Lex;
    EndLex(line, q);
  }

  // Every line that is accepted is written like that, and means what was written.
  lemma Written(line: string) returns (s: Src, sp: seq<string>)
    requires LineOk(line) && ParseCmd(line).Ok?
    ensures SrcOk(s) && Gapped(Tokens(s), sp) && line == Render(Tokens(s), sp)
    ensures CmdOk(line, ParseCmd(line).v) && Named(line, ParseCmd(line).v) == Meaning(s)
  {
    hide Lex, Gaps;
    s := LineSrc(line, 0);
    var r := ParseLine(line, 0);
    EndLex(line, r.p);
    assert Tokens(s) + [] == Tokens(s);
    RenderLex(line, 0);
    sp := Gaps(line, 0);
    assert line[0..] == line;
  }

  // Other whitespace makes no difference.
  lemma Respaced(line: string, line': string, ls: seq<Lexeme>, sp: seq<string>, sp': seq<string>) returns (c: Cmd<Tok>)
    requires LineOk(line) && ParseCmd(line).Ok? && LexemesOk(ls)
    requires Gapped(ls, sp) && line == Render(ls, sp) && Gapped(ls, sp') && line' == Render(ls, sp')
    ensures CmdOk(line, ParseCmd(line).v)
    ensures ParseCmd(line') == Ok(c, |line'|) && CmdOk(line', c) && Named(line', c) == Named(line, ParseCmd(line).v)
  {
    hide Gapped, Render, ParseCmd;
    var s, sp0 := Written(line);
    TokensOk(s);
    LexRender(ls, sp, line, 0);
    LexRender(Tokens(s), sp0, line, 0);
    c := Accepted(s, sp');
  }

  // The newline that ends a line, or any other whitespace there, makes no difference.
  lemma Newline(line: string, x: string) returns (c: Cmd<Tok>)
    requires LineOk(line) && ParseCmd(line).Ok? && Blank(x)
    ensures CmdOk(line, ParseCmd(line).v)
    ensures ParseCmd(line + x) == Ok(c, |line + x|) && CmdOk(line + x, c)
            && Named(line + x, c) == Named(line, ParseCmd(line).v)
  {
    hide ParseCmd;
    var s, sp := Written(line);
    var n := |Tokens(s)|;
    var sp' := sp[n := sp[n] + x];
    assert Blank(sp[n]);
    TrailingBlank(Tokens(s), sp, x);
    c := Accepted(s, sp');
  }

  lemma {:induction false} TrailingBlank(ls: seq<Lexeme>, sp: seq<string>, x: string)
    requires |sp| == |ls| + 1
    ensures Render(ls, sp[|ls| := sp[|ls|] + x]) == Render(ls, sp) + x
    decreases |ls|
  {
    var n := |ls|;
    if ls != [] {
      TrailingBlank(ls[1..], sp[1..], x);
      assert sp[n := sp[n] + x][1..] == sp[1..][n - 1 := sp[1..][n - 1] + x];
      assert sp[0] + Spell(ls[0]) + (Render(ls[1..],
                                            sp[1..]) + x) == sp[0] + Spell(ls[0]) + Render(ls[1..], sp[1..]) + x;
    }
  }

  // ---------------------------------------------------------------- every command

  // One blank in every place is whitespace enough.
  lemma Blanks(ls: seq<Lexeme>)
    ensures Gapped(ls, seq(|ls| + 1, _ => " "))
  {
    assert Blank(" ");
  }

  // Every command that can be said is parsed back from its text, whole, with any whitespace.
  lemma RoundTrip(t: Cmd<string>, sp: seq<string>) returns (c: Cmd<Tok>)
    requires Sayable(t) && Gapped(Tokens(Source(t)), sp)
    ensures var line := Render(Tokens(Source(t)), sp);
            ParseCmd(line) == Ok(c, |line|) && CmdOk(line, c) && Named(line, c) == t
  {
    hide ParseCmd;
    SourceMeans(t);
    c := Accepted(Source(t), sp);
  }

  // Whatever line is accepted, its canonical text is accepted and says the same.
  lemma Canonical(line: string, sp: seq<string>) returns (c: Cmd<Tok>)
    requires LineOk(line) && ParseCmd(line).Ok?
    requires CmdOk(line, ParseCmd(line).v) && Gapped(Tokens(Source(Named(line, ParseCmd(line).v))), sp)
    ensures var x := Render(Tokens(Source(Named(line, ParseCmd(line).v))), sp);
            ParseCmd(x) == Ok(c, |x|) && CmdOk(x, c) && Named(x, c) == Named(line, ParseCmd(line).v)
  {
    hide ParseCmd;
    NamedSayable(line, ParseCmd(line).v);
    c := RoundTrip(Named(line, ParseCmd(line).v), sp);
  }

  lemma {:induction false} NamedSayable(line: string, c: Cmd<Tok>)
    requires CmdOk(line, c)
    ensures Sayable(Named(line, c))
  {
    match c
    case Exec(argv) => forall i | 0 <= i < |argv| ensures WordOk(Names(line, argv)[i]) { WordNamed(line, argv[i]); }
    case Redir(d, file, _) => NamedSayable(line, d); WordNamed(line, file);
    case Pipe(l, r) => NamedSayable(line, l); NamedSayable(line, r);
    case List(l, r) => NamedSayable(line, l); NamedSayable(line, r);
    case Back(d) => NamedSayable(line, d);
  }

  lemma WordNamed(line: string, t: Tok)
    requires TokOk(line, t)
    ensures WordOk(line[t.q..t.eq])
  {
    var w := line[t.q..t.eq];
    forall i | 0 <= i < |w| ensures w[i] !in BLANKS && w[i] !in SYMBOLS && w[i] != '\0' {
      assert w[i] == line[t.q + i];
      SpaceIs(w[i]);
      SymbolIs(w[i]);
    }
  }
}
