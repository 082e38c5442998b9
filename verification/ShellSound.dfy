/** The parser of user/sh.c accepts whatever is written in its language, and takes it to mean what was
    meant. */
module ShellSound {
  import opened ShellGrammar
  import opened ShellTokens
  import opened ShellLexer
  import opened ShellSource

  // ---------------------------------------------------------------- words and redirections

  function Follows(k: nat): string { if k == 0 then "|)&;" else if k < 3 then ")&;" else ")" }

  // The tokens end here, or go on with what may follow a command of looseness k.
  predicate Stop(rest: seq<Lexeme>, k: nat) { rest == [] || Lead(rest[0]) in Follows(k) }

  lemma StopReds(rest: seq<Lexeme>)
    requires Stop(rest, 0)
    ensures rest == [] || Lead(rest[0]) !in "<>"
  {
  }

  // A redirection and its file, as parseredirs takes them.
  lemma RedStep(line: string, p: nat, rs: seq<Red<Tok>>, r: Red<string>, rest: seq<Lexeme>)
    returns (d: Red<Tok>, q: nat)
    requires p <= |line| && LineOk(line) && Lex(line, p) == [Op(r.kind), Word(r.file)] + rest
    ensures q <= |line| && Lex(line, q) == rest && Redirs(line, rs, p) == Redirs(line, rs + [d], q)
    ensures TokOk(line, d.file) && Red(line[d.file.q..d.file.eq], d.kind) == r
  {
    hide Lex, GetToken, Peek, TokOk;
    PeekLex(line, p, "<>");
    TokenLex(line, p);
    var op := GetToken(line, p);
    assert Lex(line, p)[1..] == Lex(line, op.p) == [Word(r.file)] + rest;
    TokenLex(line, op.p);
    var f := GetToken(line, op.p);
    assert Lex(line, op.p)[1..] == Lex(line, f.p) == rest;
    WordToken(line, op.p);
    d, q := Red(Tok(f.q, f.eq), KindOf(op.kind)), f.p;
  }

  lemma NoReds(line: string, p: nat, rs: seq<Red<Tok>>, rest: seq<Lexeme>)
    requires p <= |line| && LineOk(line) && Lex(line, p) == rest && (rest == [] || Lead(rest[0]) !in "<>")
    ensures Redirs(line, rs, p) == Ok(rs, Skip(line, p)) && Lex(line, Skip(line, p)) == rest
  {
    hide Lex, GetToken, Peek;
    PeekLex(line, p, "<>");
    SkipLex(line, p);
  }

  // The redirections of a block.
  lemma {:induction false} RedsParse(line: string, p: nat, rs: seq<Red<Tok>>, items: seq<Item>, rest: seq<Lexeme>)
    returns (ds: seq<Red<Tok>>, q: nat)
    requires p <= |line| && LineOk(line) && Lex(line, p) == ItemTokens(items) + rest && Stop(rest, 0) && AllFiles(items)
    ensures q <= |line| && Redirs(line, rs, p) == Ok(rs + ds, q) && Lex(line, q) == rest
    ensures RedsOk(line, ds) && NamedReds(line, ds) == RedsOf(items)
    decreases |items|
  {
    hide Lex, TokOk, Redirs, RedsOk, NamedReds, ItemTokens, RedsOf, Stop;
    ItemsUnfold(items, rest);
    if items == [] {
      NamedNone(line);
      StopReds(rest);
      NoReds(line, p, rs, rest);
      ds, q := [], Skip(line, p);
      assert rs + ds == rs;
    } else {
      var d, p1 := RedStep(line, p, rs, items[0].r, ItemTokens(items[1..]) + rest);
      var ds', q' := RedsParse(line, p1, rs + [d], items[1..], rest);
      ds, q := [d] + ds', q';
      Assoc(rs, [d], ds');
      RedsCons(line, d, ds');
    }
  }

  // parseexec after its first test: redirections, then words each with its redirections.
  function Rest(line: string, argv: seq<Tok>, rs: seq<Red<Tok>>, p: nat): Res<(seq<Tok>, seq<Red<Tok>>)>
    requires p <= |line|
  {
    match Redirs(line, rs, p)
    case Err => Err
    case Ok(rs', p') => Args(line, argv, rs', p')
  }

  // A word, as parseexec takes it.
  lemma ArgStep(line: string, p: nat, argv: seq<Tok>, rs: seq<Red<Tok>>, w: string, rest: seq<Lexeme>)
    returns (t: Tok, q: nat)
    requires p <= |line| && LineOk(line) && Lex(line, p) == [Word(w)] + rest && |argv| + 1 < MAXARGS
    ensures q <= |line| && Lex(line, q) == rest && Rest(line, argv, rs, p) == Rest(line, argv + [t], rs, q)
    ensures TokOk(line, t) && line[t.q..t.eq] == w
  {
    hide Lex, GetToken, Peek, TokOk, Skip, Redirs;
    NoReds(line, p, rs, [Word(w)] + rest);
    var s := Skip(line, p);
    PeekLex(line, s, "|)&;");
    TokenLex(line, s);
    var f := GetToken(line, s);
    assert Lex(line, s)[1..] == Lex(line, f.p) == rest;
    WordToken(line, s);
    t, q := Tok(f.q, f.eq), f.p;
  }

  lemma ItemsEnd(line: string, p: nat, argv: seq<Tok>, rs: seq<Red<Tok>>, rest: seq<Lexeme>) returns (q: nat)
    requires p <= |line| && LineOk(line) && Lex(line, p) == rest && Stop(rest, 0)
    ensures q <= |line| && Rest(line, argv, rs, p) == Ok((argv, rs), q) && Lex(line, q) == rest
  {
    hide Lex, GetToken, Peek, Skip, Redirs;
    NoReds(line, p, rs, rest);
    var s := Skip(line, p);
    PeekLex(line, s, "|)&;");
    EndLex(line, s);
    SkipLex(line, s);
    EndLex(line, |line|);
    q := if rest == [] then |line| else Skip(line, s);
    assert Skip(line, |line|) == |line| by { SkipEnd(line); }
  }

  lemma {:induction false} ItemsParse(line: string, p: nat, argv: seq<Tok>, rs: seq<Red<Tok>>, items: seq<Item>,
                                      rest: seq<Lexeme>)
    returns (ts: seq<Tok>, ds: seq<Red<Tok>>, q: nat)
    requires p <= |line| && LineOk(line) && Lex(line, p) == ItemTokens(items) + rest && Stop(rest, 0)
             && |argv| + |ArgsOf(items)| < MAXARGS
    ensures q <= |line| && Rest(line, argv, rs, p) == Ok((argv + ts, rs + ds), q) && Lex(line, q) == rest
    ensures ToksOk(line, ts) && Names(line, ts) == ArgsOf(items)
    ensures RedsOk(line, ds) && NamedReds(line, ds) == RedsOf(items)
    decreases |items|
  {
    hide Lex, TokOk, Redirs, Rest, ToksOk, RedsOk, Names, NamedReds, ItemTokens, ArgsOf, RedsOf, Stop;
    ItemsUnfold(items, rest);
    if items == [] {
      NamedNone(line);
      q := ItemsEnd(line, p, argv, rs, rest);
      ts, ds := [], [];
      assert argv + ts == argv && rs + ds == rs;
    } else {
      var more := ItemTokens(items[1..]) + rest;
      match items[0]
      case Arg(w) =>
        var t, p1 := ArgStep(line, p, argv, rs, w, more);
        var ts', ds', q' := ItemsParse(line, p1, argv + [t], rs, items[1..], rest);
        ts, ds, q := [t] + ts', ds', q';
        Assoc(argv, [t], ts');
        NamesCons(line, t, ts');
      case File(r) =>
        var d, p1 := RedStep(line, p, rs, r, more);
        assert Rest(line, argv, rs, p) == Rest(line, argv, rs + [d], p1) by { SameRest(line, argv, rs, p, d, p1); }
        var ts', ds', q' := ItemsParse(line, p1, argv, rs + [d], items[1..], rest);
        ts, ds, q := ts', [d] + ds', q';
        Assoc(rs, [d], ds');
        RedsCons(line, d, ds');
    }
  }

  lemma SameRest(line: string, argv: seq<Tok>, rs: seq<Red<Tok>>, p: nat, d: Red<Tok>, q: nat)
    requires p <= |line| && q <= |line| && Redirs(line, rs, p) == Redirs(line, rs + [d], q)
    ensures Rest(line, argv, rs, p) == Rest(line, argv, rs + [d], q)
  {
  }

  // ---------------------------------------------------------------- commands

  // The parse function for commands up to looseness k reads t from p on, which leaves rest.
  ghost predicate Reads(line: string, p: nat, t: Cmd<string>, k: nat, rest: seq<Lexeme>, c: Cmd<Tok>, q: nat)
    requires p <= |line|
    ensures Reads(line, p, t, k, rest, c, q) ==> q <= |line| && Lex(line, q) == rest
  {
    && q <= |line| && Lex(line, q) == rest && CmdOk(line, c) && Named(line, c) == t
    && if k == 0 then ParseExec(line, p) == Ok(c, q)
       else if k == 1 then ParsePipe(line, p) == Ok(c, q)
       else if k == 2 then ParsePipe(line, p).Ok?
            && Backs(line, ParsePipe(line, p).v, ParsePipe(line, p).p) == Backs(line, c, q)
       else ParseLine(line, p) == Ok(c, q)
  }

  // A symbol, and what comes after it.
  lemma SymbolLex(line: string, p: nat, c: char, rest: seq<Lexeme>)
    requires p <= |line| && LineOk(line) && Lex(line, p) == [Sym(c)] + rest
    ensures Lex(line, GetToken(line, p).p) == rest
    ensures IsSymbol(c) ==> Peek(line, p, [c])
  {
    hide Lex, GetToken, Peek;
    TokenLex(line, p);
    assert Lex(line, p)[1..] == rest;
    if IsSymbol(c) { PeekLex(line, p, [c]); }
  }

  // A command of looseness k read alone is read by the looser parse functions, if what follows lets it be.
  lemma Lift(line: string, p: nat, t: Cmd<string>, k: nat, j: nat, rest: seq<Lexeme>, c: Cmd<Tok>, q: nat)
    returns (q': nat)
    requires p <= |line| && LineOk(line) && k <= j <= 3 && Stop(rest, j) && Reads(line, p, t, k, rest, c, q)
    ensures Reads(line, p, t, j, rest, c, q')
  {
    hide Lex, CmdOk, Named, ParseExec, Peek, Skip, GetToken;
    PeekLex(line, q, "|");
    SkipLex(line, q);
    q' := if k == 0 && j > 0 then Skip(line, q) else q;
    assert k == 0 && j > 0 ==> Reads(line, p, t, 1, rest, c, q');
    if j == 3 && k < 3 {
      PeekLex(line, q', "&");
      assert Backs(line, c, q') == Ok(c, Skip(line, q'));
      SkipLex(line, q');
      PeekLex(line, Skip(line, q'), ";");
      SkipLex(line, Skip(line, q'));
      q' := Skip(line, Skip(line, q'));
    }
  }

  lemma PipeReads(line: string, p: nat, l: Cmd<string>, r: Cmd<string>, more: seq<Lexeme>, rest: seq<Lexeme>, m: nat,
                  q: nat, cl: Cmd<Tok>, cr: Cmd<Tok>)
    requires p <= |line| && LineOk(line) && Reads(line, p, l, 0, [Sym('|')] + more, cl, m)
    requires Reads(line, GetToken(line, m).p, r, 1, rest, cr, q)
    ensures Reads(line, p, Pipe(l, r), 1, rest, Pipe(cl, cr), q)
  {
    hide Lex, ParseExec, Peek, Skip, GetToken;
    SymbolLex(line, m, '|', more);
  }

  lemma ListReads(line: string, p: nat, l: Cmd<string>, r: Cmd<string>, more: seq<Lexeme>, rest: seq<Lexeme>, m: nat,
                  q: nat, cl: Cmd<Tok>, cr: Cmd<Tok>)
    requires p <= |line| && LineOk(line) && Reads(line, p, l, 2, [Sym(';')] + more, cl, m)
    requires Reads(line, GetToken(line, m).p, r, 3, rest, cr, q)
    ensures Reads(line, p, List(l, r), 3, rest, List(cl, cr), q)
  {
    hide Lex, ParsePipe, Peek, Skip, GetToken;
    PeekLex(line, m, "&");
    SymbolLex(line, m, ';', more);
    SkipLex(line, m);
    var s := Skip(line, m);
    assert Backs(line, cl, m) == Ok(cl, s);
    SymbolLex(line, s, ';', more);
    SameToken(line, m);
  }

  lemma SameToken(line: string, m: nat)
    requires m <= |line|
    ensures GetToken(line, Skip(line, m)) == GetToken(line, m)
  {
    SkipTwice(line, m);
  }

  lemma BackReads(line: string, p: nat, d: Cmd<string>, rest: seq<Lexeme>, m: nat, c: Cmd<Tok>)
    requires p <= |line| && LineOk(line) && Reads(line, p, d, 2, [Sym('&')] + rest, c, m)
    ensures Reads(line, p, Back(d), 2, rest, Back(c), GetToken(line, m).p)
  {
    hide Lex, ParsePipe, Peek, Skip, GetToken;
    SymbolLex(line, m, '&', rest);
  }

  lemma SimpleReads(line: string, p: nat, items: seq<Item>, rest: seq<Lexeme>) returns (c: Cmd<Tok>, q: nat)
    requires p <= |line| && LineOk(line) && Lex(line, p) == ItemTokens(items) + rest && Stop(rest, 0)
             && |ArgsOf(items)| < MAXARGS
    ensures Reads(line, p, Wrap(Exec(ArgsOf(items)), RedsOf(items)), 0, rest, c, q)
  {
    hide Lex, Peek, Redirs, Args, TokOk, ItemTokens, ArgsOf, RedsOf, ToksOk, RedsOk, Names, NamedReds, CmdOk, Named;
    NoParen(line, p, items, rest);
    var ts, ds, q' := ItemsParse(line, p, [], [], items, rest);
    assert [] + ts == ts && [] + ds == ds;
    c, q := Wrap(Exec(ts), ds), q';
    SameSize(line, ts);
    NamedExec(line, ts, ds);
  }

  lemma NoParen(line: string, p: nat, items: seq<Item>, rest: seq<Lexeme>)
    requires p <= |line| && LineOk(line) && Lex(line, p) == ItemTokens(items) + rest && Stop(rest, 0)
    ensures !Peek(line, p, "(")
  {
    hide Lex, Peek, ItemTokens, ArgsOf, RedsOf;
    ItemsUnfold(items, rest);
    if items != [] { assert Lex(line, p)[0] == OneItem(items[0])[0]; }
    PeekLex(line, p, "(");
  }

  // What stands around the body of a block, given that the body is read.
  lemma GroupReads(line: string, p: nat, t: Cmd<string>, reds: seq<Item>, more: seq<Lexeme>, rest: seq<Lexeme>, m: nat,
                   d: Cmd<Tok>)
    returns (c: Cmd<Tok>, q: nat)
    requires p <= |line| && LineOk(line) && Lex(line, p) == [Sym('(')] + more && Stop(rest, 0) && AllFiles(reds)
    requires Reads(line, GetToken(line, p).p, t, 3, [Sym(')')] + (ItemTokens(reds) + rest), d, m)
    ensures Reads(line, p, Wrap(t, RedsOf(reds)), 0, rest, c, q)
  {
    hide Lex, Peek, Skip, GetToken, ParseLine, Redirs, TokOk, CmdOk, Named, RedsOk, NamedReds;
    SymbolLex(line, p, '(', more);
    SymbolLex(line, m, ')', ItemTokens(reds) + rest);
    var ds, q' := RedsParse(line, GetToken(line, m).p, [], reds, rest);
    assert [] + ds == ds;
    c, q := Wrap(d, ds), q';
    NamedWrap(line, d, ds);
    assert ParseBlock(line, p) == Ok(c, q);
  }

  // The parse functions read what is written, as it is meant.
  lemma {:induction false} Parses(line: string, p: nat, s: Src, k: nat, rest: seq<Lexeme>) returns (c: Cmd<Tok>, q: nat)
    requires p <= |line| && LineOk(line) && SrcOk(s) && Level(s) <= k <= 3 && Lex(line, p) == Tokens(s) + rest
             && Stop(rest, k)
    ensures Reads(line, p, Meaning(s), k, rest, c, q)
    decreases s
  {
    hide Lex, Reads, Wrap, ItemTokens, GetToken;
    match s
    case Simple(items) =>
      c, q := SimpleReads(line, p, items, rest);
      q := Lift(line, p, Meaning(s), 0, k, rest, c, q);
    case Group(body, reds) =>
      Inside(Tokens(body), ItemTokens(reds), rest);
      var more := [Sym(')')] + (ItemTokens(reds) + rest);
      SymbolLex(line, p, '(', Tokens(body) + more);
      var d, m := Parses(line, GetToken(line, p).p, body, 3, more);
      c, q := GroupReads(line, p, Meaning(body), reds, Tokens(body) + more, rest, m, d);
      q := Lift(line, p, Meaning(s), 0, k, rest, c, q);
    case Piped(l, r) =>
      Sides(Tokens(l), Sym('|'), Tokens(r), rest);
      var cl, m := Parses(line, p, l, 0, [Sym('|')] + (Tokens(r) + rest));
      SymbolLex(line, m, '|', Tokens(r) + rest);
      var cr, q' := Parses(line, GetToken(line, m).p, r, 1, rest);
      c := Pipe(cl, cr);
      PipeReads(line, p, Meaning(l), Meaning(r), Tokens(r) + rest, rest, m, q', cl, cr);
      q := Lift(line, p, Meaning(s), 1, k, rest, c, q');
    case Amp(d) =>
      Sides(Tokens(d), Sym('&'), [], rest);
      var cd, m := Parses(line, p, d, 2, [Sym('&')] + rest);
      c := Back(cd);
      BackReads(line, p, Meaning(d), rest, m, cd);
      q := Lift(line, p, Meaning(s), 2, k, rest, c, GetToken(line, m).p);
    case Then(l, r) =>
      Sides(Tokens(l), Sym(';'), Tokens(r), rest);
      var cl, m := Parses(line, p, l, 2, [Sym(';')] + (Tokens(r) + rest));
      SymbolLex(line, m, ';', Tokens(r) + rest);
      var cr, q' := Parses(line, GetToken(line, m).p, r, 3, rest);
      c, q := List(cl, cr), q';
      ListReads(line, p, Meaning(l), Meaning(r), Tokens(r) + rest, rest, m, q, cl, cr);
  }
}
