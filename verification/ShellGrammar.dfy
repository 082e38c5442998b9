/** The shell's parser (user/sh.c) as functions of the line and a position in it: what each parse
    function returns and where it leaves the cursor. */
module ShellGrammar {
  const MAXARGS: nat := 10

  // A counted string in the line: where it starts, and one past its end.
  datatype Tok = Tok(q: nat, eq: nat)

  // <, > and >>, which determine mode and fd.
  datatype Kind = In | Out | Append

  // A command over its words: tokens as it is parsed, strings as it is meant.
  datatype Cmd<T> =
    | Exec(argv: seq<T>)
    | Redir(cmd: Cmd<T>, file: T, kind: Kind)
    | Pipe(left: Cmd<T>, right: Cmd<T>)
    | List(left: Cmd<T>, right: Cmd<T>)
    | Back(cmd: Cmd<T>)

  // What a parse function yields: a value and the new cursor, or a panic.
  datatype Res<+T> = Ok(v: T, p: nat) | Err

  predicate IsSpace(c: char) { c == ' ' || c == '\t' || c == '\r' || c == '\n' || c == 11 as char }

  predicate IsSymbol(c: char) { c == '<' || c == '|' || c == '>' || c == '&' || c == ';' || c == '(' || c == ')' }

  predicate IsWord(c: char) { !IsSpace(c) && !IsSymbol(c) && c != '\0' }

  // A line as gets leaves it: NUL only after its end.
  predicate LineOk(line: string) { '\0' !in line }

  // ---------------------------------------------------------------- tokens

  function Skip(line: string, p: nat): (r: nat)
    requires p <= |line|
    ensures p <= r <= |line| && (r < |line| ==> !IsSpace(line[r])) && (forall i :: p <= i < r ==> IsSpace(line[i]))
    decreases |line| - p
  {
    if p < |line| && IsSpace(line[p]) then Skip(line, p + 1) else p
  }

  function WordEnd(line: string, p: nat): (r: nat)
    requires p <= |line|
    ensures p <= r <= |line| && (r < |line| ==> IsSpace(line[r]) || IsSymbol(line[r]))
            && (forall i :: p <= i < r ==> !IsSpace(line[i]) && !IsSymbol(line[i]))
    decreases |line| - p
  {
    if p < |line| && !IsSpace(line[p]) && !IsSymbol(line[p]) then WordEnd(line, p + 1) else p
  }

  // The character at p; NUL at the end of the line.
  function Char(line: string, p: nat): char { if p < |line| then line[p] else '\0' }

  datatype Token = Token(kind: char, q: nat, eq: nat, p: nat)

  // gettoken: a symbol stands for itself, '+' for >>, 'a' for a word, NUL for the end.
  function GetToken(line: string, p: nat): (t: Token)
    requires p <= |line|
    ensures p <= t.q <= t.eq <= t.p <= |line| && (t.kind != '\0' ==> t.q < t.eq)
    ensures LineOk(line) && t.kind == '\0' ==> t.p == |line|
  {
    var s := Skip(line, p);
    var c := Char(line, s);
    if c == '\0' then Token(c, s, s, Skip(line, s))
    else if c == '>' && Char(line, s + 1) == '>' then Token('+', s, s + 2, Skip(line, s + 2))
    else if IsSymbol(c) then Token(c, s, s + 1, Skip(line, s + 1))
    else var e := WordEnd(line, s); Token('a', s, e, Skip(line, e))
  }

  // peek: the next character, whitespace apart, is one of these.
  predicate Peek(line: string, p: nat, toks: string)
    requires p <= |line|
  {
    Char(line, Skip(line, p)) != '\0' && Char(line, Skip(line, p)) in toks
  }

  // ---------------------------------------------------------------- redirections and arguments

  function KindOf(c: char): Kind { if c == '<' then In else if c == '>' then Out else Append }

  datatype Red<T> = Red(file: T, kind: Kind)

  // parseredirs, collecting the redirections in order.
  function Redirs(line: string, rs: seq<Red<Tok>>, p: nat): (r: Res<seq<Red<Tok>>>)
    requires p <= |line|
    ensures r.Ok? ==> p <= r.p <= |line|
    decreases |line| - p
  {
    if !Peek(line, p, "<>") then Ok(rs, Skip(line, p))
    else
      var op := GetToken(line, p);
      var f := GetToken(line, op.p);
      if f.kind != 'a' then Err else Redirs(line, rs + [Red(Tok(f.q, f.eq), KindOf(op.kind))], f.p)
  }

  // Redirections wrap a command, the last one outermost.
  function Wrap<T>(c: Cmd<T>, rs: seq<Red<T>>): Cmd<T> {
    if rs == [] then c else Redir(Wrap(c, rs[..|rs| - 1]), rs[|rs| - 1].file, rs[|rs| - 1].kind)
  }

  // The loop of parseexec: words and redirections, in any order.
  function Args(line: string, argv: seq<Tok>, rs: seq<Red<Tok>>, p: nat): (r: Res<(seq<Tok>, seq<Red<Tok>>)>)
    requires p <= |line|
    ensures r.Ok? ==> p <= r.p <= |line|
    decreases |line| - p
  {
    if Peek(line, p, "|)&;") then Ok((argv, rs), Skip(line, p))
    else
      var t := GetToken(line, p);
      if t.kind == '\0' then Ok((argv, rs), t.p)
      else if t.kind != 'a' || |argv| + 1 >= MAXARGS then Err
      else
        match Redirs(line, rs, t.p)
        case Err => Err
        case Ok(rs', p') => Args(line, argv + [Tok(t.q, t.eq)], rs', p')
  }

  // ---------------------------------------------------------------- the grammar

  function ParseLine(line: string, p: nat): (r: Res<Cmd<Tok>>)
    requires p <= |line|
    ensures r.Ok? ==> p <= r.p <= |line|
    decreases |line| - p, 4
  {
    match ParsePipe(line, p)
    case Err => Err
    case Ok(c, p1) =>
      var b := Backs(line, c, p1);
      if Peek(line, b.p, ";")
      then match ParseLine(line, GetToken(line, b.p).p)
           case Err => Err
           case Ok(d, p2) => Ok(List(b.v, d), p2)
      else Ok(b.v, Skip(line, b.p))
  }

  // One BACK node for every &.
  function Backs(line: string, c: Cmd<Tok>, p: nat): (r: Res<Cmd<Tok>>)
    requires p <= |line|
    ensures r.Ok? && p <= r.p <= |line|
    decreases |line| - p
  {
    if Peek(line, p, "&") then Backs(line, Back(c), GetToken(line, p).p) else Ok(c, Skip(line, p))
  }

  function ParsePipe(line: string, p: nat): (r: Res<Cmd<Tok>>)
    requires p <= |line|
    ensures r.Ok? ==> p <= r.p <= |line|
    decreases |line| - p, 3
  {
    match ParseExec(line, p)
    case Err => Err
    case Ok(c, p1) =>
      if Peek(line, p1, "|")
      then match ParsePipe(line, GetToken(line, p1).p)
           case Err => Err
           case Ok(d, p2) => Ok(Pipe(c, d), p2)
      else Ok(c, Skip(line, p1))
  }

  function ParseExec(line: string, p: nat): (r: Res<Cmd<Tok>>)
    requires p <= |line|
    ensures r.Ok? ==> p <= r.p <= |line|
    decreases |line| - p, 2
  {
    if Peek(line, p, "(") then ParseBlock(line, p)
    else
      match Redirs(line, [], p)
      case Err => Err
      case Ok(rs, p1) =>
        match Args(line, [], rs, p1)
        case Err => Err
        case Ok(a, p2) => Ok(Wrap(Exec(a.0), a.1), p2)
  }

  function ParseBlock(line: string, p: nat): (r: Res<Cmd<Tok>>)
    requires p <= |line|
    ensures r.Ok? ==> p <= r.p <= |line|
    decreases |line| - p, 1
  {
    if !Peek(line, p, "(") then Err
    else
      match ParseLine(line, GetToken(line, p).p)
      case Err => Err
      case Ok(c, p1) =>
        if !Peek(line, p1, ")") then Err
        else
          match Redirs(line, [], GetToken(line, p1).p)
          case Err => Err
          case Ok(rs, p2) => Ok(Wrap(c, rs), p2)
  }

  // parsecmd, up to nulterminate: the whole line must be used up.
  function ParseCmd(line: string): (r: Res<Cmd<Tok>>)
    ensures r.Ok? ==> r.p == |line|
  {
    match ParseLine(line, 0)
    case Err => Err
    case Ok(c, p) => if Skip(line, p) == |line| then Ok(c, |line|) else Err
  }
}
