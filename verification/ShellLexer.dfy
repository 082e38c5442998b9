/** The words and symbols of a line (gettoken and peek of user/sh.c), stated by their inverse: a line is
    its tokens with whitespace between them. */
module ShellLexer {
  import opened ShellGrammar

  const BLANKS: string := " \t\r\n\U{0B}"
  const SYMBOLS: string := "<|>&;()"

  // A word, one of the symbols, or >>.
  datatype Lexeme = Word(w: string) | Sym(c: char) | Appends

  predicate WordOk(w: string) {
    w != "" && forall i :: 0 <= i < |w| ==> w[i] !in BLANKS && w[i] !in SYMBOLS && w[i] != '\0'
  }

  predicate LexemeOk(l: Lexeme) {
    match l
    case Word(w) => WordOk(w)
    case Sym(c) => c in SYMBOLS
    case Appends => true
  }

  predicate LexemesOk(ls: seq<Lexeme>) { forall i :: 0 <= i < |ls| ==> LexemeOk(ls[i]) }

  function Spell(l: Lexeme): string {
    match l
    case Word(w) => w
    case Sym(c) => [c]
    case Appends => ">>"
  }

  predicate Blank(s: string) { forall i :: 0 <= i < |s| ==> s[i] in BLANKS }

  // Two tokens that run together unless there is whitespace between them.
  predicate Clash(a: Lexeme, b: Lexeme) { (a.Word? && b.Word?) || (a == Sym('>') && (b == Sym('>') || b == Appends)) }

  // Any whitespace before, between and after the tokens, and some between two that clash.
  predicate Gapped(ls: seq<Lexeme>, sp: seq<string>)
    ensures Gapped(ls, sp) ==> |sp| == |ls| + 1
  {
    && |sp| == |ls| + 1 && (forall i :: 0 <= i < |sp| ==> Blank(sp[i]))
    && forall i :: 0 <= i < |ls| - 1 && Clash(ls[i], ls[i + 1]) ==> sp[i + 1] != ""
  }

  function Render(ls: seq<Lexeme>, sp: seq<string>): string
    requires |sp| == |ls| + 1
  {
    if ls == [] then sp[0] else sp[0] + Spell(ls[0]) + Render(ls[1..], sp[1..])
  }

  // ---------------------------------------------------------------- the tokens of a line

  function LexemeAt(line: string, t: Token): Lexeme
    requires t.q <= t.eq <= |line|
  {
    if t.kind == 'a' then Word(line[t.q..t.eq]) else if t.kind == '+' then Appends else Sym(t.kind)
  }

  // What gettoken finds from p on.
  function Lex(line: string, p: nat): (ls: seq<Lexeme>)
    requires p <= |line|
    decreases |line| - p
  {
    var t := GetToken(line, p);
    if t.kind == '\0' then [] else [LexemeAt(line, t)] + Lex(line, t.eq)
  }

  // The character that peek sees.
  function Lead(l: Lexeme): char {
    match l
    case Word(_) => 'a'
    case Sym(c) => c
    case Appends => '>'
  }

  lemma SpaceIs(c: char)
    ensures IsSpace(c) <==> c in BLANKS
  {
  }

  lemma SymbolIs(c: char)
    ensures IsSymbol(c) <==> c in SYMBOLS
  {
  }

  lemma SkipEnd(line: string)
    ensures Skip(line, |line|) == |line|
  {
  }

  lemma SkipTwice(line: string, p: nat)
    requires p <= |line|
    ensures Skip(line, Skip(line, p)) == Skip(line, p) && GetToken(line, Skip(line, p)) == GetToken(line, p)
  {
  }

  lemma SkipLex(line: string, p: nat)
    requires p <= |line|
    ensures Lex(line, Skip(line, p)) == Lex(line, p)
  {
    hide Skip, GetToken;
    SkipTwice(line, p);
  }

  // The first token from p on, and those after it.
  lemma TokenLex(line: string, p: nat)
    requires p <= |line| && LineOk(line) && Lex(line, p) != []
    ensures var t := GetToken(line, p);
            && t.kind != '\0' && Lex(line, p) == [LexemeAt(line, t)] + Lex(line, t.p)
            && (t.kind == 'a' <==> Lex(line, p)[0].Word?) && (t.kind == '+' <==> Lex(line, p)[0] == Appends)
  {
    hide Lex, Skip;
    var t := GetToken(line, p);
    LexUnfold(line, p);
    SkipLex(line, t.eq);
    TokenSkips(line, p);
  }

  lemma LexUnfold(line: string, p: nat)
    requires p <= |line|
    ensures var t := GetToken(line, p);
            Lex(line, p) == if t.kind == '\0' then [] else [LexemeAt(line, t)] + Lex(line, t.eq)
  {
  }

  lemma TokenSkips(line: string, p: nat)
    requires p <= |line|
    ensures GetToken(line, p).p == Skip(line, GetToken(line, p).eq)
  {
  }

  lemma EndLex(line: string, p: nat)
    requires p <= |line| && LineOk(line)
    ensures Lex(line, p) == [] <==> Skip(line, p) == |line|
    ensures Lex(line, p) == [] <==> GetToken(line, p).kind == '\0'
    ensures Lex(line, p) == [] ==> GetToken(line, p).p == |line|
  {
  }

  lemma PeekLex(line: string, p: nat, toks: string)
    requires p <= |line| && LineOk(line) && forall i :: 0 <= i < |toks| ==> IsSymbol(toks[i])
    ensures Peek(line, p, toks) <==> Lex(line, p) != [] && Lead(Lex(line, p)[0]) in toks
  {
    hide Skip;
    LexUnfold(line, p);
    EndLex(line, p);
    hide Lex;
  }

  // ---------------------------------------------------------------- from tokens to a line and back

  predicate At(line: string, p: nat, x: string)
    ensures At(line, p, x) ==> p + |x| <= |line|
  {
    p + |x| <= |line| && line[p..p + |x|] == x
  }

  lemma AtSplit(line: string, p: nat, x: string, y: string)
    requires At(line, p, x + y)
    ensures At(line, p, x) && At(line, p + |x|, y)
  {
    assert line[p..p + |x|] == (x + y)[..|x|];
    assert line[p + |x|..p + |x + y|] == (x + y)[|x|..];
  }

  lemma AtChar(line: string, p: nat, x: string, i: nat)
    requires At(line, p, x) && i < |x|
    ensures line[p + i] == x[i]
  {
    assert line[p..p + |x|][i] == line[p + i];
  }

  lemma SkipBlank(line: string, p: nat, s: string)
    requires At(line, p, s) && Blank(s) && (p + |s| < |line| ==> line[p + |s|] !in BLANKS)
    ensures Skip(line, p) == p + |s|
  {
    var r := Skip(line, p);
    if r < p + |s| { AtChar(line, p, s, r - p); SpaceIs(line[r]); }
    if r > p + |s| { SpaceIs(line[p + |s|]); }
  }

  // No token begins with whitespace.
  lemma SpellHead(l: Lexeme)
    requires LexemeOk(l)
    ensures Spell(l) != "" && Spell(l)[0] !in BLANKS && Spell(l)[0] != '\0'
    ensures if l.Word? then Spell(l)[0] !in SYMBOLS else Spell(l)[0] == Lead(l) && Lead(l) in SYMBOLS
  {
  }

  // What can come right after a token: it is no part of it.
  predicate Apart(l: Lexeme, line: string, e: nat) {
    && (l.Word? && e < |line| ==> line[e] in BLANKS || line[e] in SYMBOLS)
    && (l == Sym('>') && e < |line| ==> line[e] != '>')
  }

  lemma WordAt(line: string, s: nat, w: string)
    requires At(line, s, w) && WordOk(w) && (s + |w| < |line| ==> line[s + |w|] in BLANKS || line[s + |w|] in SYMBOLS)
    ensures WordEnd(line, s) == s + |w|
  {
    var r := WordEnd(line, s);
    if r < s + |w| { AtChar(line, s, w, r - s); SpaceIs(line[r]); SymbolIs(line[r]); }
    if r > s + |w| { SpaceIs(line[s + |w|]); SymbolIs(line[s + |w|]); }
  }

  // gettoken finds the token that stands behind the whitespace.
  lemma TokenAt(line: string, p: nat, s: string, l: Lexeme)
    requires At(line, p, s + Spell(l)) && Blank(s) && LexemeOk(l) && Apart(l, line, p + |s| + |Spell(l)|)
    ensures var t := GetToken(line, p); t.kind != '\0' && LexemeAt(line, t) == l && t.eq == p + |s| + |Spell(l)|
  {
    hide Skip, WordEnd, At;
    var q := p + |s|;
    AtSplit(line, p, s, Spell(l));
    SpellHead(l);
    AtChar(line, q, Spell(l), 0);
    SkipBlank(line, p, s);
    SymbolIs(line[q]);
    if l.Word? {
      WordAt(line, q, l.w);
      SameText(line, q, l.w);
    } else {
      if l.Appends? { AtChar(line, q, ">>", 1); }
      SymbolAt(line, p, q, l);
    }
  }

  lemma SymbolAt(line: string, p: nat, q: nat, l: Lexeme)
    requires p <= |line| && q == Skip(line, p) < |line| && !l.Word? && LexemeOk(l) && line[q] == Lead(l)
             && IsSymbol(line[q])
    requires l == Appends ==> q + 1 < |line| && line[q + 1] == '>'
    requires Apart(l, line, q + |Spell(l)|)
    ensures var t := GetToken(line, p); t.kind != '\0' && LexemeAt(line, t) == l && t.eq == q + |Spell(l)|
  {
    hide Skip;
  }

  lemma SameText(line: string, q: nat, w: string)
    requires At(line, q, w)
    ensures line[q..q + |w|] == w
  {
  }

  // The rest of a rendering begins apart from the token before it.
  lemma RestApart(ls: seq<Lexeme>, sp: seq<string>, line: string, e: nat)
    requires ls != [] && Gapped(ls, sp) && LexemesOk(ls) && At(line, e, Render(ls[1..], sp[1..]))
             && e + |Render(ls[1..], sp[1..])| == |line|
    ensures Apart(ls[0], line, e)
  {
    var x := Render(ls[1..], sp[1..]);
    if x != "" {
      AtChar(line, e, x, 0);
      assert Blank(sp[1]);
      if sp[1] == "" && |ls| > 1 {
        assert !Clash(ls[0], ls[0 + 1]);
        SpellHead(ls[1]);
        assert x[0] == Spell(ls[1])[0];
      } else {
        assert x[0] == sp[1][0];
      }
    }
  }

  lemma GappedRest(ls: seq<Lexeme>, sp: seq<string>)
    requires ls != [] && Gapped(ls, sp)
    ensures Gapped(ls[1..], sp[1..]) && Blank(sp[0])
  {
    var l, s := ls[1..], sp[1..];
    forall i | 0 <= i < |l| - 1 && Clash(l[i], l[i + 1]) ensures s[i + 1] != "" {
      assert Clash(ls[i + 1], ls[i + 1 + 1]);
    }
  }

  // Every rendering of some tokens has just these tokens.
  lemma {:induction false} LexRender(ls: seq<Lexeme>, sp: seq<string>, line: string, p: nat)
    requires Gapped(ls, sp) && LexemesOk(ls) && At(line, p, Render(ls, sp)) && p + |Render(ls, sp)| == |line|
    ensures Lex(line, p) == ls
    decreases |ls|
  {
    hide Gapped, Lex, At, Blank, GetToken, LexemeOk, BLANKS;
    LexUnfold(line, p);
    if ls == [] {
      BlankLex(sp, line, p);
    } else {
      var x := Render(ls[1..], sp[1..]);
      GappedRest(ls, sp);
      AtSplit(line, p, sp[0] + Spell(ls[0]), x);
      var e := p + |sp[0]| + |Spell(ls[0])|;
      RestApart(ls, sp, line, e);
      assert LexemeOk(ls[0]);
      TokenAt(line, p, sp[0], ls[0]);
      LexRender(ls[1..], sp[1..], line, e);
    }
  }

  lemma BlankLex(sp: seq<string>, line: string, p: nat)
    requires Gapped([], sp) && At(line, p, sp[0]) && p + |sp[0]| == |line|
    ensures Lex(line, p) == []
  {
    assert Blank(sp[0]);
    SkipBlank(line, p, sp[0]);
  }

  // ---------------------------------------------------------------- every line is a rendering

  // The whitespace of a line from p on.
  function Gaps(line: string, p: nat): (sp: seq<string>)
    requires p <= |line|
    ensures |sp| == |Lex(line, p)| + 1
    decreases |line| - p
  {
    var t := GetToken(line, p);
    if t.kind == '\0' then [line[p..]] else [line[p..t.q]] + Gaps(line, t.eq)
  }

  // A token as it stands in the line, after whitespace and apart from what follows.
  lemma TokenIs(line: string, p: nat)
    requires p <= |line| && LineOk(line) && GetToken(line, p).kind != '\0'
    ensures var t := GetToken(line, p);
            Blank(line[p..t.q]) && LexemeOk(LexemeAt(line, t)) && Spell(LexemeAt(line, t)) == line[t.q..t.eq]
            && Apart(LexemeAt(line, t), line, t.eq)
  {
    var s := Skip(line, p);
    assert Blank(line[p..s]) by { forall i | p <= i < s ensures line[i] in BLANKS { SpaceIs(line[i]); } }
    SymbolIs(line[s]);
    SpaceIs(line[s]);
    if GetToken(line, p).kind == 'a' { WordIs(line, s); }
  }

  lemma WordIs(line: string, s: nat)
    requires s < |line| && LineOk(line) && !IsSpace(line[s]) && !IsSymbol(line[s])
    ensures WordOk(line[s..WordEnd(line, s)]) && Apart(Word(line[s..WordEnd(line, s)]), line, WordEnd(line, s))
  {
    var e := WordEnd(line, s);
    var w := line[s..e];
    forall i | 0 <= i < |w| ensures w[i] !in BLANKS && w[i] !in SYMBOLS && w[i] != '\0' {
      assert w[i] == line[s + i];
      SpaceIs(w[i]);
      SymbolIs(w[i]);
    }
    if e < |line| { SpaceIs(line[e]); SymbolIs(line[e]); }
  }

  lemma EndIs(line: string, p: nat)
    requires p <= |line| && LineOk(line) && GetToken(line, p).kind == '\0'
    ensures Blank(line[p..])
  {
    assert Skip(line, p) == |line|;
    forall i | p <= i < |line| ensures line[i] in BLANKS { SpaceIs(line[i]); }
  }

  // Tokens that clash and have no whitespace between them are not apart.
  lemma NotApart(line: string, e: nat, l: Lexeme, l': Lexeme)
    requires LexemeOk(l') && Apart(l, line, e) && At(line, e, Spell(l'))
    ensures !Clash(l, l')
  {
    SpellHead(l');
    AtChar(line, e, Spell(l'), 0);
  }

  lemma GappedCons(l: Lexeme, s: string, ls: seq<Lexeme>, sp: seq<string>)
    requires Gapped(ls, sp) && Blank(s) && (ls != [] && Clash(l, ls[0]) ==> sp[0] != "")
    ensures Gapped([l] + ls, [s] + sp) && Render([l] + ls, [s] + sp) == s + Spell(l) + Render(ls, sp)
  {
    var a, b := [l] + ls, [s] + sp;
    assert a[1..] == ls && b[1..] == sp;
    forall i | 0 <= i < |a| - 1 && Clash(a[i], a[i + 1]) ensures b[i + 1] != "" {
      if i > 0 { assert Clash(ls[i - 1], ls[i - 1 + 1]); }
    }
  }

  // Every line is its tokens with its whitespace between them.
  lemma {:induction false} RenderLex(line: string, p: nat)
    requires p <= |line| && LineOk(line)
    ensures Gapped(Lex(line, p), Gaps(line, p)) && LexemesOk(Lex(line, p))
    ensures Render(Lex(line, p), Gaps(line, p)) == line[p..]
    decreases |line| - p
  {
    hide GetToken, Gapped, Blank, LexemeOk, Apart, Clash, Spell, Render, Lex, Gaps, LineOk;
    LexUnfold(line, p);
    GapsUnfold(line, p);
    var t := GetToken(line, p);
    if t.kind == '\0' {
      EndIs(line, p);
      OnlyGap(line[p..]);
    } else {
      TokenIs(line, p);
      RenderLex(line, t.eq);
      NextGap(line, p);
      var l := LexemeAt(line, t);
      GappedCons(l, line[p..t.q], Lex(line, t.eq), Gaps(line, t.eq));
      ThreeParts(line, p, t.q, t.eq);
    }
  }

  lemma ThreeParts(line: string, p: nat, q: nat, e: nat)
    requires p <= q <= e <= |line|
    ensures line[p..q] + line[q..e] + line[e..] == line[p..]
  {
  }

  lemma GapsUnfold(line: string, p: nat)
    requires p <= |line|
    ensures var t := GetToken(line, p);
            Gaps(line, p) == if t.kind == '\0' then [line[p..]] else [line[p..t.q]] + Gaps(line, t.eq)
  {
  }

  lemma OnlyGap(s: string)
    requires Blank(s)
    ensures Gapped([], [s]) && Render([], [s]) == s
  {
  }

  // There is whitespace before the next token if it would clash with this one.
  lemma NextGap(line: string, p: nat)
    requires p <= |line| && LineOk(line) && GetToken(line, p).kind != '\0'
    ensures var e := GetToken(line, p).eq;
            Lex(line, e) != [] && Clash(LexemeAt(line, GetToken(line, p)), Lex(line, e)[0]) ==> Gaps(line, e)[0] != ""
  {
    hide GetToken, Blank, LexemeOk, Apart, Clash, Spell, Lex, Gaps, LineOk;
    var t := GetToken(line, p);
    LexUnfold(line, t.eq);
    GapsUnfold(line, t.eq);
    TokenIs(line, p);
    var t' := GetToken(line, t.eq);
    if t'.kind != '\0' && t'.q == t.eq {
      TokenIs(line, t.eq);
      NotApart(line, t.eq, LexemeAt(line, t), LexemeAt(line, t'));
    }
  }
}
