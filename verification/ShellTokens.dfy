/** nulterminate (user/sh.c): after it each argv and file pointer reads as exactly its token, though
    the terminators overwrite the line that the pointers point into. */
module ShellTokens {
  import opened ShellGrammar

  // A word that cannot be extended: what follows it is no part of any word.
  predicate TokOk(line: string, t: Tok) {
    t.q < t.eq <= |line| && (forall i :: t.q <= i < t.eq ==> IsWord(line[i])) && (t.eq < |line| ==> !IsWord(line[t.eq]))
  }

  predicate ToksOk(line: string, ts: seq<Tok>) { forall i :: 0 <= i < |ts| ==> TokOk(line, ts[i]) }

  predicate RedsOk(line: string, rs: seq<Red<Tok>>) { forall i :: 0 <= i < |rs| ==> TokOk(line, rs[i].file) }

  // Every token in a command, and at most nine arguments.
  predicate CmdOk(line: string, c: Cmd<Tok>) {
    match c
    case Exec(argv) => ToksOk(line, argv) && |argv| < MAXARGS
    case Redir(d, file, _) => CmdOk(line, d) && TokOk(line, file)
    case Pipe(l, r) => CmdOk(line, l) && CmdOk(line, r)
    case List(l, r) => CmdOk(line, l) && CmdOk(line, r)
    case Back(d) => CmdOk(line, d)
  }

  lemma WordToken(line: string, p: nat)
    requires p <= |line| && LineOk(line) && GetToken(line, p).kind == 'a'
    ensures TokOk(line, Tok(GetToken(line, p).q, GetToken(line, p).eq))
  {
  }

  lemma {:induction false} RedirsOk(line: string, rs: seq<Red<Tok>>, p: nat)
    requires p <= |line| && LineOk(line) && RedsOk(line, rs)
    ensures Redirs(line, rs, p).Ok? ==> RedsOk(line, Redirs(line, rs, p).v)
    decreases |line| - p
  {
    if Peek(line, p, "<>") {
      var op := GetToken(line, p);
      var f := GetToken(line, op.p);
      if f.kind == 'a' {
        WordToken(line, op.p);
        RedirsOk(line, rs + [Red(Tok(f.q, f.eq), KindOf(op.kind))], f.p);
      }
    }
  }

  lemma {:induction false} ArgsOk(line: string, argv: seq<Tok>, rs: seq<Red<Tok>>, p: nat)
    requires p <= |line| && LineOk(line) && RedsOk(line, rs) && ToksOk(line, argv) && |argv| < MAXARGS
    ensures var r := Args(line, argv, rs, p); r.Ok? ==> ToksOk(line, r.v.0) && |r.v.0| < MAXARGS && RedsOk(line, r.v.1)
    decreases |line| - p
  {
    if !Peek(line, p, "|)&;") {
      var t := GetToken(line, p);
      if t.kind == 'a' && |argv| + 1 < MAXARGS {
        WordToken(line, p);
        RedirsOk(line, rs, t.p);
        var r := Redirs(line, rs, t.p);
        if r.Ok? { ArgsOk(line, argv + [Tok(t.q, t.eq)], r.v, r.p); }
      }
    }
  }

  lemma {:induction false} WrapOk(line: string, c: Cmd<Tok>, rs: seq<Red<Tok>>)
    requires CmdOk(line, c) && RedsOk(line, rs)
    ensures CmdOk(line, Wrap(c, rs))
  {
    if rs != [] { WrapOk(line, c, rs[..|rs| - 1]); }
  }

  lemma {:induction false} BacksOk(line: string, c: Cmd<Tok>, p: nat)
    requires p <= |line| && CmdOk(line, c)
    ensures CmdOk(line, Backs(line, c, p).v)
    decreases |line| - p
  {
    if Peek(line, p, "&") { BacksOk(line, Back(c), GetToken(line, p).p); }
  }

  lemma {:induction false} LineOkCmd(line: string, p: nat)
    requires p <= |line| && LineOk(line)
    ensures ParseLine(line, p).Ok? ==> CmdOk(line, ParseLine(line, p).v)
    decreases |line| - p, 4
  {
    PipeOk(line, p);
    var r := ParsePipe(line, p);
    if r.Ok? {
      BacksOk(line, r.v, r.p);
      var b := Backs(line, r.v, r.p);
      if Peek(line, b.p, ";") { LineOkCmd(line, GetToken(line, b.p).p); }
    }
  }

  lemma {:induction false} PipeOk(line: string, p: nat)
    requires p <= |line| && LineOk(line)
    ensures ParsePipe(line, p).Ok? ==> CmdOk(line, ParsePipe(line, p).v)
    decreases |line| - p, 3
  {
    ExecOk(line, p);
    var r := ParseExec(line, p);
    if r.Ok? && Peek(line, r.p, "|") { PipeOk(line, GetToken(line, r.p).p); }
  }

  lemma {:induction false} ExecOk(line: string, p: nat)
    requires p <= |line| && LineOk(line)
    ensures ParseExec(line, p).Ok? ==> CmdOk(line, ParseExec(line, p).v)
    decreases |line| - p, 2
  {
    if Peek(line, p, "(") { BlockOk(line, p); }
    else {
      RedirsOk(line, [], p);
      var r := Redirs(line, [], p);
      if r.Ok? {
        ArgsOk(line, [], r.v, r.p);
        var a := Args(line, [], r.v, r.p);
        if a.Ok? { WrapOk(line, Exec(a.v.0), a.v.1); }
      }
    }
  }

  lemma {:induction false} BlockOk(line: string, p: nat)
    requires p <= |line| && LineOk(line)
    ensures ParseBlock(line, p).Ok? ==> CmdOk(line, ParseBlock(line, p).v)
    decreases |line| - p, 1
  {
    if Peek(line, p, "(") {
      var q := GetToken(line, p).p;
      LineOkCmd(line, q);
      var c := ParseLine(line, q);
      if c.Ok? && Peek(line, c.p, ")") {
        var q' := GetToken(line, c.p).p;
        RedirsOk(line, [], q');
        var r := Redirs(line, [], q');
        if r.Ok? { WrapOk(line, c.v, r.v); }
      }
    }
  }

  // ---------------------------------------------------------------- the terminators

  // The buffer holds the line and its NUL, except that some ends of words may be NUL by now.
  ghost predicate Overlaid(b: seq<char>, line: string) {
    |b| == |line| + 1 && b[|line|] == '\0' && forall i :: 0 <= i < |line| ==>
                                                            b[i] == line[i] || (b[i] == '\0' && !IsWord(line[i]))
  }

  // The token is terminated in the buffer.
  predicate Ended(b: seq<char>, t: Tok) { t.eq < |b| && b[t.eq] == '\0' }

  predicate AllEnded(b: seq<char>, c: Cmd<Tok>) {
    match c
    case Exec(argv) => forall i :: 0 <= i < |argv| ==> Ended(b, argv[i])
    case Redir(d, file, _) => AllEnded(b, d) && Ended(b, file)
    case Pipe(l, r) => AllEnded(b, l) && AllEnded(b, r)
    case List(l, r) => AllEnded(b, l) && AllEnded(b, r)
    case Back(d) => AllEnded(b, d)
  }

  // Terminators are only added.
  predicate MoreEnded(b: seq<char>, b': seq<char>) {
    |b'| == |b| && forall i :: 0 <= i < |b| ==> b'[i] == b[i] || b'[i] == '\0'
  }

  lemma {:induction false} StillEnded(b: seq<char>, b': seq<char>, c: Cmd<Tok>)
    requires MoreEnded(b, b') && AllEnded(b, c)
    ensures AllEnded(b', c)
    decreases c
  {
    match c
    case Exec(_) =>
    case Redir(d, _, _) => StillEnded(b, b', d);
    case Pipe(l, r) => StillEnded(b, b', l); StillEnded(b, b', r);
    case List(l, r) => StillEnded(b, b', l); StillEnded(b, b', r);
    case Back(d) => StillEnded(b, b', d);
  }

  // nulterminate writes through the pointers into the line buffer.
  method Nulterminate(buf: array<char>, c: Cmd<Tok>, ghost line: string)
    requires Overlaid(buf[..], line) && CmdOk(line, c)
    modifies buf
    ensures Overlaid(buf[..], line) && AllEnded(buf[..], c) && MoreEnded(old(buf[..]), buf[..])
    decreases c
  {
    match c
    case Exec(argv) =>
      for i := 0 to |argv|
        invariant Overlaid(buf[..], line) && MoreEnded(old(buf[..]), buf[..])
        invariant forall k :: 0 <= k < i ==> Ended(buf[..], argv[k])
      {
        assert TokOk(line, argv[i]);
        buf[argv[i].eq] := '\0';
      }
    case Redir(d, file, _) =>
      Nulterminate(buf, d, line);
      ghost var b := buf[..];
      buf[file.eq] := '\0';
      StillEnded(b, buf[..], d);
    case Pipe(l, r) =>
      Nulterminate(buf, l, line);
      ghost var b := buf[..];
      Nulterminate(buf, r, line);
      StillEnded(b, buf[..], l);
    case List(l, r) =>
      Nulterminate(buf, l, line);
      ghost var b := buf[..];
      Nulterminate(buf, r, line);
      StillEnded(b, buf[..], l);
    case Back(d) => Nulterminate(buf, d, line);
  }

  // The string that a pointer into the buffer reads as.
  function CString(b: seq<char>, p: nat): (s: string)
    requires p <= |b|
    decreases |b| - p
  {
    if p == |b| || b[p] == '\0' then [] else [b[p]] + CString(b, p + 1)
  }

  // Every terminated token reads as itself.
  lemma {:induction false} ReadsAsToken(b: seq<char>, line: string, t: Tok, p: nat)
    requires Overlaid(b, line) && TokOk(line, t) && Ended(b, t) && t.q <= p <= t.eq
    ensures CString(b, p) == line[p..t.eq]
    decreases t.eq - p
  {
    if p < t.eq {
      assert IsWord(line[p]);
      ReadsAsToken(b, line, t, p + 1);
    }
  }

  // A pointer to the start of the token reads as the token.
  ghost predicate ReadsAs(b: seq<char>, line: string, t: Tok) {
    TokOk(line, t) && t.q <= |b| && CString(b, t.q) == line[t.q..t.eq]
  }

  // Every pointer in the command does.
  ghost predicate Terminated(b: seq<char>, line: string, c: Cmd<Tok>) {
    match c
    case Exec(argv) => forall i :: 0 <= i < |argv| ==> ReadsAs(b, line, argv[i])
    case Redir(d, file, _) => Terminated(b, line, d) && ReadsAs(b, line, file)
    case Pipe(l, r) => Terminated(b, line, l) && Terminated(b, line, r)
    case List(l, r) => Terminated(b, line, l) && Terminated(b, line, r)
    case Back(d) => Terminated(b, line, d)
  }

  lemma {:induction false} AllTerminated(b: seq<char>, line: string, c: Cmd<Tok>)
    requires Overlaid(b, line) && CmdOk(line, c) && AllEnded(b, c)
    ensures Terminated(b, line, c)
    decreases c
  {
    match c
    case Exec(argv) =>
      forall i | 0 <= i < |argv| ensures ReadsAs(b, line, argv[i]) { ReadsAsToken(b, line, argv[i], argv[i].q); }
    case Redir(d, file, _) => AllTerminated(b, line, d); ReadsAsToken(b, line, file, file.q);
    case Pipe(l, r) => AllTerminated(b, line, l); AllTerminated(b, line, r);
    case List(l, r) => AllTerminated(b, line, l); AllTerminated(b, line, r);
    case Back(d) => AllTerminated(b, line, d);
  }
}
