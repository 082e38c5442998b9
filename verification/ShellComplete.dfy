/** Whatever the parser of user/sh.c accepts was written in its language. */
module ShellComplete {
  import opened ShellGrammar
  import opened ShellTokens
  import opened ShellLexer
  import opened ShellSource

  // A word in the line.
  lemma WordLex(line: string, p: nat) returns (w: string)
    requires p <= |line| && LineOk(line) && GetToken(line, p).kind == 'a'
    ensures var t := GetToken(line, p);
            w == line[t.q..t.eq] && WordOk(w) && TokOk(line, Tok(t.q, t.eq))
            && Lex(line, p) == [Word(w)] + Lex(line, t.p)
  {
    hide Lex, GetToken;
    var t := GetToken(line, p);
    w := line[t.q..t.eq];
    WordToken(line, p);
    EndLex(line, p);
    TokenLex(line, p);
    TokenIs(line, p);
  }

  lemma OpLex(line: string, p: nat)
    requires p <= |line| && LineOk(line) && Peek(line, p, "<>")
    ensures var t := GetToken(line, p); Lex(line, p) == [Op(KindOf(t.kind))] + Lex(line, t.p)
  {
    hide Lex, GetToken, Peek;
    PeekLex(line, p, "<>");
    TokenLex(line, p);
  }

  // What parseredirs accepts.
  lemma {:induction false} RedirsSrc(line: string, rs: seq<Red<Tok>>, p: nat)
    returns (items: seq<Item>, ds: seq<Red<Tok>>)
    requires p <= |line| && LineOk(line) && Redirs(line, rs, p).Ok?
    ensures var r := Redirs(line, rs, p); r.v == rs + ds && Lex(line, p) == ItemTokens(items) + Lex(line, r.p)
    ensures RedsOk(line, ds) && NamedReds(line, ds) == RedsOf(items)
    ensures AllFiles(items) && ItemsOk(items) && ArgsOf(items) == []
    decreases |line| - p
  {
    hide Lex, GetToken, Peek, TokOk, Skip, WordOk, RedsOk, NamedReds, ItemsOk, ItemTokens, ArgsOf, RedsOf;
    if !Peek(line, p, "<>") {
      items, ds := [], [];
      NamedNone(line);
      ItemsUnfold([], Lex(line, Skip(line, p)));
      NoItems();
      SkipLex(line, p);
    } else {
      OpLex(line, p);
      var op := GetToken(line, p);
      var f := GetToken(line, op.p);
      var w := WordLex(line, op.p);
      var d := Red(Tok(f.q, f.eq), KindOf(op.kind));
      var items', ds' := RedirsSrc(line, rs + [d], f.p);
      items, ds := [File(Red(w, d.kind))] + items', [d] + ds';
      Assoc(rs, [d], ds');
      FirstFile(Red(w, d.kind), items', Lex(line, Redirs(line, rs + [d], f.p).p));
      RedsCons(line, d, ds');
    }
  }

  // What the loop of parseexec accepts.
  lemma {:induction false} ArgsSrc(line: string, argv: seq<Tok>, rs: seq<Red<Tok>>, p: nat)
    returns (items: seq<Item>, ts: seq<Tok>, ds: seq<Red<Tok>>)
    requires p <= |line| && LineOk(line) && Args(line, argv, rs, p).Ok? && |argv| < MAXARGS
    ensures var r := Args(line, argv, rs, p);
            r.v == (argv + ts, rs + ds) && Lex(line, p) == ItemTokens(items) + Lex(line, r.p)
    ensures ToksOk(line, ts) && Names(line, ts) == ArgsOf(items) && |argv| + |ts| < MAXARGS
    ensures RedsOk(line, ds) && NamedReds(line, ds) == RedsOf(items) && ItemsOk(items)
    decreases |line| - p
  {
    hide Lex, GetToken, Peek, TokOk, Skip, WordOk, Redirs;
    items, ts, ds := [], [], [];
    assert argv + ts == argv && rs + ds == rs && Names(line, ts) == [];
    if Peek(line, p, "|)&;") {
      SkipLex(line, p);
    } else {
      var t := GetToken(line, p);
      if t.kind == '\0' {
        EndLex(line, p);
        EndLex(line, |line|);
        SkipEnd(line);
      } else {
        items, ts, ds := ArgsMore(line, argv, rs, p);
      }
    }
  }

  lemma {:induction false} ArgsMore(line: string, argv: seq<Tok>, rs: seq<Red<Tok>>, p: nat)
    returns (items: seq<Item>, ts: seq<Tok>, ds: seq<Red<Tok>>)
    requires p <= |line| && LineOk(line) && Args(line, argv, rs, p).Ok? && |argv| < MAXARGS
    requires !Peek(line, p, "|)&;") && GetToken(line, p).kind != '\0'
    ensures var r := Args(line, argv, rs, p);
            r.v == (argv + ts, rs + ds) && Lex(line, p) == ItemTokens(items) + Lex(line, r.p)
    ensures ToksOk(line, ts) && Names(line, ts) == ArgsOf(items) && |argv| + |ts| < MAXARGS
    ensures RedsOk(line, ds) && NamedReds(line, ds) == RedsOf(items) && ItemsOk(items)
    decreases |line| - p, 0
  {
    hide Lex, GetToken, Peek, TokOk, Skip, WordOk, Redirs, ItemTokens, ArgsOf, RedsOf, ItemsOk, RedsOk, NamedReds;
    var t := GetToken(line, p);
    var w := WordLex(line, p);
    var x := Tok(t.q, t.eq);
    var files, ds1 := RedirsSrc(line, rs, t.p);
    var r := Redirs(line, rs, t.p);
    var items', ts', ds2 := ArgsSrc(line, argv + [x], r.v, r.p);
    ts, ds := [x] + ts', ds1 + ds2;
    items := [Arg(w)] + (files + items');
    ItemsJoin(files, items');
    FirstArg(w, files + items');
    assert argv + ts == argv + [x] + ts' && rs + ds == rs + ds1 + ds2;
    NamedJoin(line, ds1, ds2);
    NamesCons(line, x, ts');
    ThreeParts(w, ItemTokens(files), ItemTokens(items'), Lex(line, Args(line, argv + [x], r.v, r.p).p));
  }

  lemma ThreeParts(w: string, a: seq<Lexeme>, b: seq<Lexeme>, c: seq<Lexeme>)
    ensures [Word(w)] + (a + b) + c == [Word(w)] + (a + (b + c))
  {
  }

  // s is what is written from p up to q, and means c.
  ghost predicate Wrote(line: string, p: nat, s: Src, k: nat, q: nat, c: Cmd<Tok>)
    requires p <= |line|
  {
    && q <= |line| && SrcOk(s) && Level(s) <= k && CmdOk(line, c) && Meaning(s) == Named(line, c)
    && Lex(line, p) == Tokens(s) + Lex(line, q)
  }

  lemma PeekSymbol(line: string, p: nat, c: char)
    requires p <= |line| && LineOk(line) && IsSymbol(c) && Peek(line, p, [c]) && c != '>'
    ensures Lex(line, p) == [Sym(c)] + Lex(line, GetToken(line, p).p)
  {
    hide Lex, GetToken, Peek;
    PeekLex(line, p, [c]);
    TokenLex(line, p);
  }

  lemma Looser(line: string, p: nat, s: Src, q: nat, c: Cmd<Tok>)
    requires p <= |line| && Wrote(line, p, s, 1, q, c)
    ensures Wrote(line, p, s, 2, q, c)
  {
  }

  lemma {:induction false} BacksSrc(line: string, p0: nat, c: Cmd<Tok>, p: nat, s: Src) returns (s': Src)
    requires p0 <= |line| && p <= |line| && LineOk(line) && Wrote(line, p0, s, 2, p, c)
    ensures Wrote(line, p0, s', 2, Backs(line, c, p).p, Backs(line, c, p).v)
    decreases |line| - p
  {
    hide Lex, GetToken, Peek, Skip;
    s' := s;
    if Peek(line, p, "&") {
      PeekSymbol(line, p, '&');
      var q := GetToken(line, p).p;
      Sides(Tokens(s), Sym('&'), [], Lex(line, q));
      s' := BacksSrc(line, p0, Back(c), q, Amp(s));
    } else {
      SkipLex(line, p);
    }
  }

  lemma {:induction false} LineSrc(line: string, p: nat) returns (s: Src)
    requires p <= |line| && LineOk(line) && ParseLine(line, p).Ok?
    ensures Wrote(line, p, s, 3, ParseLine(line, p).p, ParseLine(line, p).v)
    decreases |line| - p, 4
  {
    hide Lex, GetToken, Peek, Skip, ParsePipe, Backs, Wrote;
    s := PipeSrc(line, p);
    var r := ParsePipe(line, p);
    Looser(line, p, s, r.p, r.v);
    s := BacksSrc(line, p, r.v, r.p, s);
    var b := Backs(line, r.v, r.p);
    if Peek(line, b.p, ";") {
      var q := GetToken(line, b.p).p;
      PeekSymbol(line, b.p, ';');
      var s2 := LineSrc(line, q);
      ThenSrc(line, p, s, b.p, b.v, s2, ParseLine(line, q).p, ParseLine(line, q).v);
      s := Then(s, s2);
    } else {
      SkipSrc(line, p, s, 2, b.p, b.v);
    }
  }

  lemma BothTokens(l: Src, r: Src)
    ensures Tokens(Then(l, r)) == Tokens(l) + [Sym(';')] + Tokens(r)
    ensures Tokens(Piped(l, r)) == Tokens(l) + [Sym('|')] + Tokens(r)
  {
  }

  lemma ThenSrc(line: string, p: nat, l: Src, m: nat, c: Cmd<Tok>, r: Src, q: nat, d: Cmd<Tok>)
    requires p <= |line| && m <= |line| && LineOk(line) && Peek(line, m, ";")
    requires Wrote(line, p, l, 2, m, c) && Wrote(line, GetToken(line, m).p, r, 3, q, d)
    ensures Wrote(line, p, Then(l, r), 3, q, List(c, d))
  {
    hide Lex, GetToken, Peek, Tokens, Names;
    PeekSymbol(line, m, ';');
    Sides(Tokens(l), Sym(';'), Tokens(r), Lex(line, q));
    BothTokens(l, r);
  }

  lemma SkipSrc(line: string, p: nat, s: Src, k: nat, q: nat, c: Cmd<Tok>)
    requires p <= |line| && Wrote(line, p, s, k, q, c) && q <= |line|
    ensures Wrote(line, p, s, k + 1, Skip(line, q), c)
  {
    hide Lex, Skip;
    SkipLex(line, q);
  }

  lemma {:induction false} PipeSrc(line: string, p: nat) returns (s: Src)
    requires p <= |line| && LineOk(line) && ParsePipe(line, p).Ok?
    ensures Wrote(line, p, s, 1, ParsePipe(line, p).p, ParsePipe(line, p).v)
    decreases |line| - p, 3
  {
    hide Lex, GetToken, Peek, Skip, ParseExec, Wrote;
    s := ExecSrc(line, p);
    var r := ParseExec(line, p);
    if Peek(line, r.p, "|") {
      var q := GetToken(line, r.p).p;
      PeekSymbol(line, r.p, '|');
      var s2 := PipeSrc(line, q);
      PipedSrc(line, p, s, r.p, r.v, s2, ParsePipe(line, q).p, ParsePipe(line, q).v);
      s := Piped(s, s2);
    } else {
      SkipSrc(line, p, s, 0, r.p, r.v);
    }
  }

  lemma PipedSrc(line: string, p: nat, l: Src, m: nat, c: Cmd<Tok>, r: Src, q: nat, d: Cmd<Tok>)
    requires p <= |line| && m <= |line| && LineOk(line) && Peek(line, m, "|")
    requires Wrote(line, p, l, 0, m, c) && Wrote(line, GetToken(line, m).p, r, 1, q, d)
    ensures Wrote(line, p, Piped(l, r), 1, q, Pipe(c, d))
  {
    hide Lex, GetToken, Peek, Tokens, Names;
    PeekSymbol(line, m, '|');
    Sides(Tokens(l), Sym('|'), Tokens(r), Lex(line, q));
    BothTokens(l, r);
  }

  lemma {:induction false} ExecSrc(line: string, p: nat) returns (s: Src)
    requires p <= |line| && LineOk(line) && ParseExec(line, p).Ok?
    ensures Wrote(line, p, s, 0, ParseExec(line, p).p, ParseExec(line, p).v)
    decreases |line| - p, 2
  {
    hide Lex, Peek, Redirs, Args, ParseBlock, Wrote;
    if Peek(line, p, "(") { s := BlockSrc(line, p); } else { s := SimpleSrc(line, p); }
  }

  lemma SimpleSrc(line: string, p: nat) returns (s: Src)
    requires p <= |line| && LineOk(line) && ParseExec(line, p).Ok? && !Peek(line, p, "(")
    ensures Wrote(line, p, s, 0, ParseExec(line, p).p, ParseExec(line, p).v)
  {
    hide Lex, Peek, Redirs, Args, TokOk, ItemsOk, RedsOk, NamedReds, ItemTokens, ArgsOf, RedsOf, ToksOk, Names;
    var files, ds := RedirsSrc(line, [], p);
    var r := Redirs(line, [], p);
    var items, ts, ds' := ArgsSrc(line, [], r.v, r.p);
    s := Simple(files + items);
    ItemsJoin(files, items);
    assert [] + ds == ds && [] + ts == ts && [] + ArgsOf(items) == ArgsOf(items);
    NamedJoin(line, ds, ds');
    NamedExec(line, ts, ds + ds');
    TwoParts(ItemTokens(files), ItemTokens(items), Lex(line, Args(line, [], r.v, r.p).p));
    SameSize(line, ts);
  }

  lemma TwoParts(a: seq<Lexeme>, b: seq<Lexeme>, c: seq<Lexeme>)
    ensures a + b + c == a + (b + c)
  {
  }

  lemma {:induction false} BlockSrc(line: string, p: nat) returns (s: Src)
    requires p <= |line| && LineOk(line) && ParseBlock(line, p).Ok?
    ensures Wrote(line, p, s, 0, ParseBlock(line, p).p, ParseBlock(line, p).v)
    decreases |line| - p, 1
  {
    hide Lex, GetToken, Peek, Redirs, ParseLine, TokOk, ItemsOk, CmdOk, Named;
    PeekSymbol(line, p, '(');
    var q := GetToken(line, p).p;
    var body := LineSrc(line, q);
    var c := ParseLine(line, q);
    PeekSymbol(line, c.p, ')');
    var q' := GetToken(line, c.p).p;
    var files, ds := RedirsSrc(line, [], q');
    assert [] + ds == ds;
    s := Group(body, files);
    NamedWrap(line, c.v, ds);
    Inside(Tokens(body), ItemTokens(files), Lex(line, Redirs(line, [], q').p));
  }
}
