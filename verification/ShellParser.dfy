/** The parser of user/sh.c as it runs: one cursor that every function moves over the line. Each method
    returns what the grammar says and leaves the cursor where the grammar says; None is a panic. */
module ShellParser {
  import opened Params
  import G = ShellGrammar
  import T = ShellTokens

  // The outcome and the cursor are those of the grammar.
  ghost predicate Gave<X>(f: G.Res<X>, r: Option<X>, p: nat) {
    if f.Ok? then r == Some(f.v) && p == f.p else r == None
  }

  // ---------------------------------------------------------------- whitespace before a position changes nothing

  lemma Skipped(line: string, p: nat, toks: string)
    requires p <= |line|
    ensures var s := G.Skip(line, p); G.Skip(line, s) == s && G.GetToken(line, s) == G.GetToken(line, p)
                                      && G.Peek(line, s, toks) == G.Peek(line, p, toks)
  {
  }

  lemma SkipRedirs(line: string, rs: seq<G.Red<G.Tok>>, p: nat)
    requires p <= |line|
    ensures G.Redirs(line, rs, G.Skip(line, p)) == G.Redirs(line, rs, p)
  {
    hide G.Skip, G.GetToken, G.Peek;
    Skipped(line, p, "<>");
  }

  lemma SkipArgs(line: string, argv: seq<G.Tok>, rs: seq<G.Red<G.Tok>>, p: nat)
    requires p <= |line|
    ensures G.Args(line, argv, rs, G.Skip(line, p)) == G.Args(line, argv, rs, p)
  {
    hide G.Skip, G.GetToken, G.Peek, G.Redirs;
    Skipped(line, p, "|)&;");
  }

  lemma SkipBacks(line: string, c: G.Cmd<G.Tok>, p: nat)
    requires p <= |line|
    ensures G.Backs(line, c, G.Skip(line, p)) == G.Backs(line, c, p)
  {
    hide G.Skip, G.GetToken, G.Peek;
    Skipped(line, p, "&");
  }

  lemma SkipBlock(line: string, p: nat)
    requires p <= |line|
    ensures G.ParseBlock(line, G.Skip(line, p)) == G.ParseBlock(line, p)
  {
    hide G.Skip, G.GetToken, G.Peek, G.Redirs, G.ParseLine;
    Skipped(line, p, "(");
  }

  class Parser {
    const line: string
    var ps: nat

    constructor (s: string)
      ensures line == s && ps == 0
    {
      line := s;
      ps := 0;
    }

    // The skipping loop that starts and ends gettoken and is peek's.
    method SkipSpace(s: nat) returns (e: nat)
      requires s <= |line|
      ensures e == G.Skip(line, s)
    {
      e := s;
      while e < |line| && G.IsSpace(line[e])
        invariant s <= e <= |line| && G.Skip(line, e) == G.Skip(line, s)
      {
        e := e + 1;
      }
    }

    method Peek(toks: string) returns (b: bool)
      requires ps <= |line|
      modifies this
      ensures ps == G.Skip(line, old(ps)) == G.Skip(line, ps)
              && b == G.Peek(line, old(ps), toks) == G.Peek(line, ps, toks)
      ensures b ==> ps < G.GetToken(line, ps).p
    {
      ps := SkipSpace(ps);
      b := G.Char(line, ps) != '\0' && G.Char(line, ps) in toks;
    }

    method GetToken() returns (kind: char, q: nat, eq: nat)
      requires ps <= |line|
      modifies this
      ensures G.Token(kind, q, eq, ps) == G.GetToken(line, old(ps))
    {
      var s := SkipSpace(ps);
      q := s;
      kind := G.Char(line, s);
      if kind == '\0' {
      } else if kind == '>' {
        s := s + 1;
        if G.Char(line, s) == '>' {
          kind := '+';
          s := s + 1;
        }
      } else if G.IsSymbol(kind) {
        s := s + 1;
      } else {
        kind := 'a';
        while s < |line| && !G.IsSpace(line[s]) && !G.IsSymbol(line[s])
          invariant q <= s <= |line| && G.WordEnd(line, s) == G.WordEnd(line, q)
        {
          s := s + 1;
        }
      }
      eq := s;
      ps := SkipSpace(s);
    }

    // parseredirs, with the redirections in the order in which they wrap the command.
    method Parseredirs(rs0: seq<G.Red<G.Tok>>) returns (r: Option<seq<G.Red<G.Tok>>>)
      requires ps <= |line|
      modifies this
      ensures old(ps) <= ps <= |line| && Gave(G.Redirs(line, rs0, old(ps)), r, ps)
    {
      hide G.Skip, G.GetToken, G.Peek, G.IsSpace, G.IsSymbol, G.Char;
      ghost var p := ps;
      var rs := rs0;
      var more := Peek("<>");
      SkipRedirs(line, rs, p);
      while more
        invariant p <= ps <= |line| && G.Skip(line, ps) == ps && more == G.Peek(line, ps, "<>")
                  && (more ==> ps < G.GetToken(line, ps).p)
        invariant G.Redirs(line, rs, ps) == G.Redirs(line, rs0, p)
        decreases |line| - ps, more
      {
        ghost var p1 := ps;
        var op, _, _ := GetToken();
        var kind, q, eq := GetToken();
        if kind != 'a' { return None; }
        rs := rs + [G.Red(G.Tok(q, eq), G.KindOf(op))];
        ghost var p2 := ps;
        more := Peek("<>");
        SkipRedirs(line, rs, p2);
      }
      r := Some(rs);
    }

    method Parseline() returns (r: Option<G.Cmd<G.Tok>>)
      requires ps <= |line|
      modifies this
      ensures old(ps) <= ps <= |line| && Gave(G.ParseLine(line, old(ps)), r, ps)
      decreases |line| - ps, 4
    {
      hide G.Skip, G.GetToken, G.Peek, G.IsSpace, G.IsSymbol, G.Char, G.ParsePipe;
      ghost var p := ps;
      r := Parsepipe();
      if r == None { return; }
      var c := r.value;
      ghost var c1, p1 := c, ps;
      SkipBacks(line, c, ps);
      var more := Peek("&");
      while more
        invariant p <= ps <= |line| && G.Skip(line, ps) == ps && more == G.Peek(line, ps, "&")
                  && (more ==> ps < G.GetToken(line, ps).p)
        invariant G.Backs(line, c, ps) == G.Backs(line, c1, p1)
        decreases |line| - ps, more
      {
        var _, _, _ := GetToken();
        c := G.Back(c);
        SkipBacks(line, c, ps);
        more := Peek("&");
      }
      var semi := Peek(";");
      if semi {
        var _, _, _ := GetToken();
        r := Parseline();
        if r != None { r := Some(G.List(c, r.value)); }
      } else {
        r := Some(c);
      }
    }

    method Parsepipe() returns (r: Option<G.Cmd<G.Tok>>)
      requires ps <= |line|
      modifies this
      ensures old(ps) <= ps <= |line| && Gave(G.ParsePipe(line, old(ps)), r, ps)
      decreases |line| - ps, 3
    {
      hide G.Skip, G.GetToken, G.Peek, G.IsSpace, G.IsSymbol, G.Char, G.ParseExec;
      r := Parseexec();
      if r == None { return; }
      var c := r.value;
      Skipped(line, ps, "|");
      var bar := Peek("|");
      if bar {
        var _, _, _ := GetToken();
        r := Parsepipe();
        if r != None { r := Some(G.Pipe(c, r.value)); }
      }
    }

    method Parseexec() returns (r: Option<G.Cmd<G.Tok>>)
      requires ps <= |line|
      modifies this
      ensures old(ps) <= ps <= |line| && Gave(G.ParseExec(line, old(ps)), r, ps)
      decreases |line| - ps, 2
    {
      hide G.Skip, G.GetToken, G.Peek, G.IsSpace, G.IsSymbol, G.Char, G.ParseBlock, G.Redirs;
      ghost var p := ps;
      var paren := Peek("(");
      if paren {
        SkipBlock(line, p);
        r := Parseblock();
        return;
      }
      SkipRedirs(line, [], p);
      var rr := Parseredirs([]);
      if rr == None { return None; }
      var rs := rr.value;
      var argv := [];
      ghost var rs1, p1 := rs, ps;
      SkipArgs(line, argv, rs, ps);
      var stop := Peek("|)&;");
      while !stop
        invariant p <= ps <= |line| && G.Skip(line, ps) == ps && stop == G.Peek(line, ps, "|)&;") && |argv| < G.MAXARGS
        invariant G.Args(line, argv, rs, ps) == G.Args(line, [], rs1, p1)
        decreases |line| - ps, !stop
      {
        var kind, q, eq := GetToken();
        if kind == '\0' { break; }
        if kind != 'a' { return None; }
        argv := argv + [G.Tok(q, eq)];
        if |argv| >= G.MAXARGS { return None; }
        rr := Parseredirs(rs);
        if rr == None { return None; }
        rs := rr.value;
        SkipArgs(line, argv, rs, ps);
        stop := Peek("|)&;");
      }
      r := Some(G.Wrap(G.Exec(argv), rs));
    }

    method Parseblock() returns (r: Option<G.Cmd<G.Tok>>)
      requires ps <= |line|
      modifies this
      ensures old(ps) <= ps <= |line| && Gave(G.ParseBlock(line, old(ps)), r, ps)
      decreases |line| - ps, 1
    {
      hide G.Skip, G.GetToken, G.Peek, G.IsSpace, G.IsSymbol, G.Char, G.ParseLine, G.Redirs;
      Skipped(line, ps, "(");
      var open := Peek("(");
      if !open { return None; }
      var _, _, _ := GetToken();
      r := Parseline();
      if r == None { return; }
      Skipped(line, ps, ")");
      var close := Peek(")");
      if !close { return None; }
      var _, _, _ := GetToken();
      var rr := Parseredirs([]);
      r := if rr == None then None else Some(G.Wrap(r.value, rr.value));
    }

    // parsecmd: panic unless the whole line was used up, else terminate the words in the buffer.
    method Parsecmd(buf: array<char>) returns (r: Option<G.Cmd<G.Tok>>)
      requires ps == 0 && G.LineOk(line) && buf[..] == line + ['\0']
      modifies this, buf
      ensures var f := G.ParseCmd(line); r == if f.Ok? then Some(f.v) else None
      ensures r != None ==> T.Terminated(buf[..], line, r.value)
    {
      r := Parseline();
      if r == None { return; }
      var _ := Peek("");
      if ps != |line| { return None; }
      T.LineOkCmd(line, 0);
      T.Nulterminate(buf, r.value, line);
      T.AllTerminated(buf[..], line, r.value);
    }
  }
}
