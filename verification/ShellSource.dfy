/** The language of user/sh.c, stated without its parser: how a command may be written, and what it
    means. */
module ShellSource {
  import opened ShellGrammar
  import opened ShellTokens
  import opened ShellLexer

  // ---------------------------------------------------------------- what a parsed command says

  function Names(line: string, ts: seq<Tok>): (s: seq<string>)
    requires ToksOk(line, ts)
  {
    seq(|ts|, i requires 0 <= i < |ts| => line[ts[i].q..ts[i].eq])
  }

  // The command with its tokens replaced by the words they stand for.
  function Named(line: string, c: Cmd<Tok>): (d: Cmd<string>)
    requires CmdOk(line, c)
  {
    match c
    case Exec(argv) => Exec(Names(line, argv))
    case Redir(d, file, k) => Redir(Named(line, d), line[file.q..file.eq], k)
    case Pipe(l, r) => Pipe(Named(line, l), Named(line, r))
    case List(l, r) => List(Named(line, l), Named(line, r))
    case Back(d) => Back(Named(line, d))
  }

  function NamedReds(line: string, rs: seq<Red<Tok>>): (s: seq<Red<string>>)
    requires RedsOk(line, rs)
  {
    seq(|rs|, i requires 0 <= i < |rs| => Red(line[rs[i].file.q..rs[i].file.eq], rs[i].kind))
  }

  lemma {:induction false} NamedWrap(line: string, c: Cmd<Tok>, rs: seq<Red<Tok>>)
    requires CmdOk(line, c) && RedsOk(line, rs)
    ensures CmdOk(line, Wrap(c, rs)) && Named(line, Wrap(c, rs)) == Wrap(Named(line, c), NamedReds(line, rs))
  {
    WrapOk(line, c, rs);
    if rs != [] {
      var n := |rs| - 1;
      NamedWrap(line, c, rs[..n]);
      assert NamedReds(line, rs[..n]) == NamedReds(line, rs)[..n];
    }
  }

  lemma NamedNone(line: string)
    ensures ToksOk(line, []) && Names(line, []) == [] && RedsOk(line, []) && NamedReds(line, []) == []
  {
  }

  lemma NamesCons(line: string, t: Tok, ts: seq<Tok>)
    requires TokOk(line, t) && ToksOk(line, ts)
    ensures ToksOk(line, [t] + ts) && Names(line, [t] + ts) == [line[t.q..t.eq]] + Names(line, ts)
  {
  }

  lemma RedsCons(line: string, d: Red<Tok>, ds: seq<Red<Tok>>)
    requires TokOk(line, d.file) && RedsOk(line, ds)
    ensures RedsOk(line, [d] + ds)
            && NamedReds(line, [d] + ds) == [Red(line[d.file.q..d.file.eq], d.kind)] + NamedReds(line, ds)
  {
  }

  lemma NamedExec(line: string, ts: seq<Tok>, ds: seq<Red<Tok>>)
    requires ToksOk(line, ts) && |ts| < MAXARGS && RedsOk(line, ds)
    ensures CmdOk(line, Wrap(Exec(ts), ds))
            && Named(line, Wrap(Exec(ts), ds)) == Wrap(Exec(Names(line, ts)), NamedReds(line, ds))
  {
    NamedWrap(line, Exec(ts), ds);
  }

  lemma SameSize(line: string, ts: seq<Tok>)
    requires ToksOk(line, ts)
    ensures |Names(line, ts)| == |ts|
  {
  }

  // ---------------------------------------------------------------- what may be written

  // A part of a simple command: a word, or a redirection.
  datatype Item = Arg(w: string) | File(r: Red<string>)

  // A command as it is written: words and redirections in any order; a command in parentheses, with
  // redirections after it; and l|r, d& and l;r.
  datatype Src =
    | Simple(items: seq<Item>)
    | Group(body: Src, reds: seq<Item>)
    | Piped(left: Src, right: Src)
    | Amp(cmd: Src)
    | Then(left: Src, right: Src)

  function ArgOf(it: Item): seq<string> { if it.Arg? then [it.w] else [] }

  function RedOf(it: Item): seq<Red<string>> { if it.File? then [it.r] else [] }

  function ArgsOf(items: seq<Item>): (ws: seq<string>) {
    if items == [] then [] else ArgOf(items[0]) + ArgsOf(items[1..])
  }

  function RedsOf(items: seq<Item>): (rs: seq<Red<string>>) {
    if items == [] then [] else RedOf(items[0]) + RedsOf(items[1..])
  }

  predicate ItemOk(it: Item) { match it case Arg(w) => WordOk(w) case File(r) => WordOk(r.file) }

  predicate ItemsOk(items: seq<Item>) { forall i :: 0 <= i < |items| ==> ItemOk(items[i]) }

  predicate AllFiles(items: seq<Item>) { forall i :: 0 <= i < |items| ==> items[i].File? }

  // How loosely a command binds: ; most loosely, then &, then |.
  function Level(s: Src): nat {
    match s
    case Simple(_) => 0
    case Group(_, _) => 0
    case Piped(_, _) => 1
    case Amp(_) => 2
    case Then(_, _) => 3
  }

  // Words are words, at most nine to a command, and parentheses are where the precedence demands them.
  predicate SrcOk(s: Src) {
    match s
    case Simple(items) => ItemsOk(items) && |ArgsOf(items)| < MAXARGS
    case Group(body, reds) => SrcOk(body) && ItemsOk(reds) && AllFiles(reds)
    case Piped(l, r) => SrcOk(l) && SrcOk(r) && Level(l) == 0 && Level(r) <= 1
    case Amp(d) => SrcOk(d) && Level(d) <= 2
    case Then(l, r) => SrcOk(l) && SrcOk(r) && Level(l) <= 2
  }

  function Meaning(s: Src): (t: Cmd<string>) {
    match s
    case Simple(items) => Wrap(Exec(ArgsOf(items)), RedsOf(items))
    case Group(body, reds) => Wrap(Meaning(body), RedsOf(reds))
    case Piped(l, r) => Pipe(Meaning(l), Meaning(r))
    case Amp(d) => Back(Meaning(d))
    case Then(l, r) => List(Meaning(l), Meaning(r))
  }

  function Op(k: Kind): Lexeme { match k case In => Sym('<') case Out => Sym('>') case Append => Appends }

  function OneItem(it: Item): seq<Lexeme> {
    match it case Arg(w) => [Word(w)] case File(r) => [Op(r.kind), Word(r.file)]
  }

  function ItemTokens(items: seq<Item>): (ls: seq<Lexeme>) {
    if items == [] then [] else OneItem(items[0]) + ItemTokens(items[1..])
  }

  function Tokens(s: Src): (ls: seq<Lexeme>) {
    match s
    case Simple(items) => ItemTokens(items)
    case Group(body, reds) => [Sym('(')] + Tokens(body) + [Sym(')')] + ItemTokens(reds)
    case Piped(l, r) => Tokens(l) + [Sym('|')] + Tokens(r)
    case Amp(d) => Tokens(d) + [Sym('&')]
    case Then(l, r) => Tokens(l) + [Sym(';')] + Tokens(r)
  }

  lemma {:induction false} ItemTokensOk(items: seq<Item>)
    requires ItemsOk(items)
    ensures LexemesOk(ItemTokens(items))
  {
    if items != [] {
      assert ItemOk(items[0]);
      ItemTokensOk(items[1..]);
    }
  }

  lemma {:induction false} TokensOk(s: Src)
    requires SrcOk(s)
    ensures LexemesOk(Tokens(s))
  {
    hide WordOk;
    match s
    case Simple(items) => ItemTokensOk(items);
    case Group(body, reds) => TokensOk(body); ItemTokensOk(reds);
    case Piped(l, r) => TokensOk(l); TokensOk(r);
    case Amp(d) => TokensOk(d);
    case Then(l, r) => TokensOk(l); TokensOk(r);
  }

  lemma Assoc<T>(x: seq<T>, y: seq<T>, z: seq<T>)
    ensures x + (y + z) == x + y + z
  {
  }

  lemma {:induction false} TokensJoin(a: seq<Item>, b: seq<Item>)
    ensures ItemTokens(a + b) == ItemTokens(a) + ItemTokens(b)
  {
    hide OneItem;
    if a == [] {
      assert a + b == b;
    } else {
      TokensJoin(a[1..], b);
      assert (a + b)[0] == a[0] && (a + b)[1..] == a[1..] + b;
      Assoc(OneItem(a[0]), ItemTokens(a[1..]), ItemTokens(b));
    }
  }

  lemma {:induction false} ArgsJoin(a: seq<Item>, b: seq<Item>)
    ensures ArgsOf(a + b) == ArgsOf(a) + ArgsOf(b)
  {
    hide ArgOf;
    if a == [] {
      assert a + b == b;
    } else {
      ArgsJoin(a[1..], b);
      assert (a + b)[0] == a[0] && (a + b)[1..] == a[1..] + b;
      Assoc(ArgOf(a[0]), ArgsOf(a[1..]), ArgsOf(b));
    }
  }

  lemma {:induction false} RedsJoin(a: seq<Item>, b: seq<Item>)
    ensures RedsOf(a + b) == RedsOf(a) + RedsOf(b)
  {
    hide RedOf;
    if a == [] {
      assert a + b == b;
    } else {
      RedsJoin(a[1..], b);
      assert (a + b)[0] == a[0] && (a + b)[1..] == a[1..] + b;
      Assoc(RedOf(a[0]), RedsOf(a[1..]), RedsOf(b));
    }
  }

  lemma ItemsJoin(a: seq<Item>, b: seq<Item>)
    ensures ItemTokens(a + b) == ItemTokens(a) + ItemTokens(b)
    ensures ArgsOf(a + b) == ArgsOf(a) + ArgsOf(b) && RedsOf(a + b) == RedsOf(a) + RedsOf(b)
    ensures ItemsOk(a) && ItemsOk(b) ==> ItemsOk(a + b)
  {
    TokensJoin(a, b);
    ArgsJoin(a, b);
    RedsJoin(a, b);
  }

  lemma NamedJoin(line: string, ds: seq<Red<Tok>>, ds': seq<Red<Tok>>)
    requires RedsOk(line, ds) && RedsOk(line, ds')
    ensures RedsOk(line, ds + ds') && NamedReds(line, ds + ds') == NamedReds(line, ds) + NamedReds(line, ds')
  {
  }

  lemma ItemsUnfold(items: seq<Item>, rest: seq<Lexeme>)
    ensures items == [] ==> ItemTokens(items) + rest == rest && ArgsOf(items) == [] && RedsOf(items) == []
    ensures items != [] ==>
              && ItemTokens(items) + rest == OneItem(items[0]) + (ItemTokens(items[1..]) + rest)
              && ArgsOf(items) == ArgOf(items[0]) + ArgsOf(items[1..])
              && RedsOf(items) == RedOf(items[0]) + RedsOf(items[1..])
  {
    hide OneItem, ArgOf, RedOf;
    if items != [] { Assoc(OneItem(items[0]), ItemTokens(items[1..]), rest); }
  }

  lemma NoItems()
    ensures ItemsOk([])
  {
  }

  lemma FirstFile(r: Red<string>, items: seq<Item>, rest: seq<Lexeme>)
    requires ItemsOk(items) && WordOk(r.file)
    ensures var all := [File(r)] + items;
            ItemTokens(all) + rest == [Op(r.kind)] + ([Word(r.file)] + (ItemTokens(items) + rest))
            && ArgsOf(all) == ArgsOf(items) && RedsOf(all) == [r] + RedsOf(items) && ItemsOk(all)
  {
    assert ([File(r)] + items)[1..] == items;
  }

  lemma FirstArg(w: string, items: seq<Item>)
    requires ItemsOk(items) && WordOk(w)
    ensures var all := [Arg(w)] + items;
            ItemTokens(all) == [Word(w)] + ItemTokens(items) && ArgsOf(all) == [w] + ArgsOf(items)
            && RedsOf(all) == RedsOf(items) && ItemsOk(all)
  {
    assert ([Arg(w)] + items)[1..] == items;
  }

  lemma Sides(a: seq<Lexeme>, x: Lexeme, b: seq<Lexeme>, rest: seq<Lexeme>)
    ensures a + [x] + b + rest == a + ([x] + (b + rest)) && a + [x] + rest == a + ([x] + rest)
  {
  }

  lemma Inside(a: seq<Lexeme>, b: seq<Lexeme>, rest: seq<Lexeme>)
    ensures [Sym('(')] + a + [Sym(')')] + b + rest == [Sym('(')] + (a + ([Sym(')')] + (b + rest)))
  {
  }

  // ---------------------------------------------------------------- a way to write every command

  // What can be said at all: every word a word, at most nine arguments.
  predicate Sayable(t: Cmd<string>) {
    match t
    case Exec(argv) => |argv| < MAXARGS && forall i :: 0 <= i < |argv| ==> WordOk(argv[i])
    case Redir(d, file, _) => Sayable(d) && WordOk(file)
    case Pipe(l, r) => Sayable(l) && Sayable(r)
    case List(l, r) => Sayable(l) && Sayable(r)
    case Back(d) => Sayable(d)
  }

  // What a chain of redirections is around, and the chain.
  function Base(t: Cmd<string>): (b: Cmd<string>)
    ensures !b.Redir? && (t.Redir? ==> b < t) && (!t.Redir? ==> b == t)
    ensures Sayable(t) ==> Sayable(b)
  {
    if t.Redir? then Base(t.cmd) else t
  }

  function Chain(t: Cmd<string>): (rs: seq<Red<string>>)
    ensures Wrap(Base(t), rs) == t
    ensures Sayable(t) ==> forall i :: 0 <= i < |rs| ==> WordOk(rs[i].file)
  {
    if t.Redir? then Chain(t.cmd) + [Red(t.file, t.kind)] else []
  }

  function Files(rs: seq<Red<string>>): seq<Item> { seq(|rs|, i requires 0 <= i < |rs| => File(rs[i])) }

  function Words(ws: seq<string>): seq<Item> { seq(|ws|, i requires 0 <= i < |ws| => Arg(ws[i])) }

  // Parentheses around what binds too loosely.
  function Tight(s: Src, k: nat): (r: Src)
    ensures Level(r) <= k && (SrcOk(s) ==> SrcOk(r)) && Meaning(r) == Meaning(s)
  {
    if Level(s) > k then Group(s, []) else s
  }

  // A command with only the parentheses that the precedence of ; & | demands.
  function Source(t: Cmd<string>): (s: Src)
    decreases t
  {
    match t
    case List(l, r) => Then(Tight(Source(l), 2), Source(r))
    case Back(d) => Amp(Tight(Source(d), 2))
    case Pipe(l, r) => Piped(Tight(Source(l), 0), Tight(Source(r), 1))
    case Exec(argv) => Simple(Words(argv))
    case Redir(_, _, _) =>
      if Base(t).Exec? then Simple(Words(Base(t).argv) + Files(Chain(t))) else Group(Source(Base(t)), Files(Chain(t)))
  }

  lemma {:induction false} WordsMean(ws: seq<string>)
    ensures ArgsOf(Words(ws)) == ws && RedsOf(Words(ws)) == []
  {
    if ws != [] {
      WordsMean(ws[1..]);
      assert Words(ws)[1..] == Words(ws[1..]);
    }
  }

  lemma {:induction false} FilesMean(rs: seq<Red<string>>)
    ensures ArgsOf(Files(rs)) == [] && RedsOf(Files(rs)) == rs
  {
    if rs != [] {
      FilesMean(rs[1..]);
      assert Files(rs)[1..] == Files(rs[1..]);
    }
  }

  lemma WrapNone(t: Cmd<string>)
    ensures Wrap(t, []) == t
  {
  }

  // Everything that can be said can be written.
  lemma {:induction false} SourceMeans(t: Cmd<string>)
    requires Sayable(t)
    ensures SrcOk(Source(t)) && Meaning(Source(t)) == t
    decreases t
  {
    hide WordOk, Tight, Wrap, ArgsOf, RedsOf, Chain;
    match t
    case List(l, r) => SourceMeans(l); SourceMeans(r);
    case Back(d) => SourceMeans(d);
    case Pipe(l, r) => SourceMeans(l); SourceMeans(r);
    case Exec(argv) => WordsMean(argv); WrapNone(t);
    case Redir(_, _, _) =>
      FilesMean(Chain(t));
      if Base(t).Exec? {
        WordsMean(Base(t).argv);
        ItemsJoin(Words(Base(t).argv), Files(Chain(t)));
        assert Base(t).argv + [] == Base(t).argv && [] + Chain(t) == Chain(t);
      } else {
        SourceMeans(Base(t));
      }
  }
}
