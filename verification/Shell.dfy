/** The shell's parser, user/sh.c.  The command line is a C string; the parsed tree refers to it by
    positions, until nulterminate makes C strings of the words there. */
module Shell {
  const MAXARGS: nat := 10

  /** q..eq: a word of the line. */
  datatype Span = Span(q: nat, eq: nat)

  /** O_RDONLY on 0, O_WRONLY|O_CREATE|O_TRUNC on 1, O_WRONLY|O_CREATE on 1. */
  datatype Mode = Input | Output | Append

  datatype Redirection = Redirection(file: Span, mode: Mode)

  datatype Cmd =
    | Exec(args: seq<Span>)
    | Redir(cmd: Cmd, file: Span, mode: Mode)
    | Pipe(left: Cmd, right: Cmd)
    | List(left: Cmd, right: Cmd)
    | Back(cmd: Cmd)

  /** Fail stands for panic. */
  datatype Result = Ok(cmd: Cmd, pos: nat) | Fail

  // ---------- tokens ----------

  predicate IsSpace(c: char) {
    c == ' ' || c == '\t' || c == '\r' || c == '\n' || c == '\U{B}'
  }

  predicate IsSymbol(c: char) {
    c == '<' || c == '|' || c == '>' || c == '&' || c == ';' || c == '(' || c == ')'
  }

  predicate IsWordChar(c: char) {
    !IsSpace(c) && !IsSymbol(c)
  }

  function Skip(s: string, p: nat): (r: nat)
    requires p <= |s|
    ensures p <= r <= |s| && (r < |s| ==> !IsSpace(s[r]))
    decreases |s| - p
  {
    if p < |s| && IsSpace(s[p]) then Skip(s, p + 1) else p
  }

  function WordEnd(s: string, p: nat): (r: nat)
    requires p <= |s|
    ensures p <= r <= |s| && (r < |s| ==> !IsWordChar(s[r])) && (p < |s| && IsWordChar(s[p]) ==> p < r)
    decreases |s| - p
  {
    if p < |s| && IsWordChar(s[p]) then WordEnd(s, p + 1) else p
  }

  /** gettoken's result, the token's extent, and where the cursor is left. */
  datatype Token = End | Symbol(c: char) | Twice | Word
  datatype Lexed = Lexed(tok: Token, span: Span, next: nat)

  function GetToken(s: string, p: nat): (t: Lexed)
    requires p <= |s|
    ensures p <= t.span.q <= t.span.eq <= t.next <= |s| && (t.tok != End ==> p < t.next)
  {
    var q := Skip(s, p);
    if q == |s| then Lexed(End, Span(q, q), q)
    else if s[q] == '>' && q + 1 < |s| && s[q + 1] == '>' then Lexed(Twice, Span(q, q + 2), Skip(s, q + 2))
    else if IsSymbol(s[q]) then Lexed(Symbol(s[q]), Span(q, q + 1), Skip(s, q + 1))
    else var e := WordEnd(s, q); Lexed(Word, Span(q, e), Skip(s, e))
  }

  lemma {:induction false} RunOfWordChars(s: string, p: nat, k: nat)
    requires p <= |s| && p <= k < WordEnd(s, p)
    ensures IsWordChar(s[k])
    decreases |s| - p
  {
    if p < k { RunOfWordChars(s, p + 1, k); }
  }

  lemma TokenIsWord(s: string, p: nat)
    requires p <= |s| && GetToken(s, p).tok == Word
    ensures IsWord(s, GetToken(s, p).span)
  {
    var q := Skip(s, p);
    forall k: nat | q <= k < WordEnd(s, q) ensures IsWordChar(s[k]) {
      RunOfWordChars(s, q, k);
    }
  }

  /** A maximal run of word characters, not empty. */
  predicate IsWord(s: string, w: Span) {
    && w.q < w.eq <= |s| && (forall k: nat :: w.q <= k < w.eq ==> IsWordChar(s[k]))
    && (w.eq < |s| ==> !IsWordChar(s[w.eq]))
  }

  /** The character after white space, NUL at the end of the line: what peek looks at. */
  function Ahead(s: string, p: nat): char
    requires p <= |s|
  {
    if Skip(s, p) < |s| then s[Skip(s, p)] else '\0'
  }

  predicate RedirAhead(s: string, p: nat)
    requires p <= |s|
  {
    Ahead(s, p) == '<' || Ahead(s, p) == '>'
  }

  predicate StopAhead(s: string, p: nat)
    requires p <= |s|
  {
    var c := Ahead(s, p);
    c == '|' || c == ')' || c == '&' || c == ';'
  }

  // ---------- the grammar, as functions ----------

  function Wrap(c: Cmd, rs: seq<Redirection>): Cmd {
    if rs == [] then c else Redir(Wrap(c, rs[..|rs| - 1]), rs[|rs| - 1].file, rs[|rs| - 1].mode)
  }

  datatype Redirs = Redirs(rs: seq<Redirection>, pos: nat) | NoFile

  function ParseRedirs(s: string, p: nat): (r: Redirs)
    requires p <= |s|
    ensures r.Redirs? ==> p <= r.pos <= |s|
    decreases |s| - p
  {
    if !RedirAhead(s, p) then Redirs([], Skip(s, p))
    else
      var t := GetToken(s, Skip(s, p));
      var f := GetToken(s, t.next);
      if f.tok != Word then NoFile
      else
        var rest := ParseRedirs(s, f.next);
        if rest.NoFile? then NoFile
        else Redirs([Redirection(f.span, ModeOf(t.tok))] + rest.rs, rest.pos)
  }

  function ModeOf(t: Token): Mode {
    if t == Twice then Append else if t == Symbol('<') then Input else Output
  }

  /** parseexec's loop over arguments and redirections. */
  function ParseArgs(s: string, p: nat, args: seq<Span>, rs: seq<Redirection>): (r: Result)
    requires p <= |s|
    ensures r.Ok? ==> p <= r.pos <= |s|
    decreases |s| - p, 0
  {
    if StopAhead(s, p) then Ok(Wrap(Exec(args), rs), Skip(s, p))
    else
      var t := GetToken(s, Skip(s, p));
      if t.tok == End then Ok(Wrap(Exec(args), rs), t.next)
      else if t.tok != Word || |args| + 1 >= MAXARGS then Fail
      else
        var more := ParseRedirs(s, t.next);
        if more.NoFile? then Fail else ParseArgs(s, more.pos, args + [t.span], rs + more.rs)
  }

  function ParseExec(s: string, p: nat): (r: Result)
    requires p <= |s|
    ensures r.Ok? ==> p <= r.pos <= |s|
    decreases |s| - p, 1
  {
    if Ahead(s, p) == '(' then ParseBlock(s, Skip(s, p))
    else
      var first := ParseRedirs(s, p);
      if first.NoFile? then Fail else ParseArgs(s, first.pos, [], first.rs)
  }

  function ParseBlock(s: string, p: nat): (r: Result)
    requires p <= |s|
    ensures r.Ok? ==> p <= r.pos <= |s|
    decreases |s| - p, 0
  {
    if Ahead(s, p) != '(' then Fail
    else
      var inner := ParseLine(s, GetToken(s, p).next);
      if inner.Fail? || Ahead(s, inner.pos) != ')' then Fail
      else
        var after := ParseRedirs(s, GetToken(s, inner.pos).next);
        if after.NoFile? then Fail else Ok(Wrap(inner.cmd, after.rs), after.pos)
  }

  function ParsePipe(s: string, p: nat): (r: Result)
    requires p <= |s|
    ensures r.Ok? ==> p <= r.pos <= |s|
    decreases |s| - p, 2
  {
    var left := ParseExec(s, p);
    if left.Fail? then Fail
    else if Ahead(s, left.pos) != '|' then Ok(left.cmd, Skip(s, left.pos))
    else
      var right := ParsePipe(s, GetToken(s, left.pos).next);
      if right.Fail? then Fail else Ok(Pipe(left.cmd, right.cmd), right.pos)
  }

  /** parseline's loop over '&'. */
  function ParseBacks(s: string, p: nat, c: Cmd): (r: Result)
    requires p <= |s|
    ensures r.Ok? && p <= r.pos <= |s|
    decreases |s| - p
  {
    if Ahead(s, p) == '&' then ParseBacks(s, GetToken(s, p).next, Back(c)) else Ok(c, Skip(s, p))
  }

  function ParseLine(s: string, p: nat): (r: Result)
    requires p <= |s|
    ensures r.Ok? ==> p <= r.pos <= |s|
    decreases |s| - p, 3
  {
    var first := ParsePipe(s, p);
    if first.Fail? then Fail
    else
      var c := ParseBacks(s, first.pos, first.cmd);
      if Ahead(s, c.pos) != ';' then Ok(c.cmd, Skip(s, c.pos))
      else
        var rest := ParseLine(s, GetToken(s, c.pos).next);
        if rest.Fail? then Fail else Ok(List(c.cmd, rest.cmd), rest.pos)
  }

  /** parsecmd, before nulterminate: the whole line must be used. */
  function ParseCmd(s: string): (r: Result)
    ensures r.Ok? ==> r.pos == |s|
  {
    var r := ParseLine(s, 0);
    if r.Fail? || Skip(s, r.pos) != |s| then Fail else Ok(r.cmd, |s|)
  }

  // ---------- the parser, with its cursor ----------

  lemma {:induction false} SkipTwice(s: string, p: nat)
    requires p <= |s|
    ensures Skip(s, Skip(s, p)) == Skip(s, p) && GetToken(s, Skip(s, p)) == GetToken(s, p)
  {
  }

  class Parser {
    const s: string
    var ps: nat

    ghost predicate Valid()
      reads this
    {
      ps <= |s|
    }

    constructor (s: string)
      ensures Valid() && this.s == s && ps == 0
    {
      this.s, ps := s, 0;
    }

    method SkipSpace()
      requires Valid()
      modifies this
      ensures Valid() && ps == Skip(s, old(ps))
    {
      while ps < |s| && IsSpace(s[ps])
        invariant Valid() && Skip(s, ps) == Skip(s, old(ps))
        decreases |s| - ps
      {
        ps := ps + 1;
      }
    }

    method Peek(toks: string) returns (b: bool)
      requires Valid()
      modifies this
      ensures Valid() && ps == Skip(s, old(ps)) && b == (ps < |s| && s[ps] in toks)
    {
      SkipSpace();
      b := ps < |s| && s[ps] in toks;
    }

    method NextToken() returns (tok: Token, span: Span)
      requires Valid()
      modifies this
      ensures Valid() && GetToken(s, old(ps)) == Lexed(tok, span, ps)
    {
      SkipSpace();
      var q := ps;
      if ps == |s| {
        return End, Span(q, q);
      }
      if s[ps] == '>' {
        ps := ps + 1;
        if ps < |s| && s[ps] == '>' {
          tok, ps := Twice, ps + 1;
        } else {
          tok := Symbol('>');
        }
      } else if IsSymbol(s[ps]) {
        tok, ps := Symbol(s[ps]), ps + 1;
      } else {
        tok := Word;
        while ps < |s| && IsWordChar(s[ps])
          invariant q <= ps <= |s| && WordEnd(s, ps) == WordEnd(s, q)
          decreases |s| - ps
        {
          ps := ps + 1;
        }
      }
      span := Span(q, ps);
      SkipSpace();
    }

    /** parseredirs: the redirections found, innermost first. */
    method Redirections() returns (ok: bool, rs: seq<Redirection>)
      requires Valid()
      modifies this
      ensures Valid() && ps >= old(ps)
      ensures ok <==> ParseRedirs(s, old(ps)).Redirs?
      ensures ok ==> ParseRedirs(s, old(ps)) == Redirs(rs, ps)
    {
      ghost var want := ParseRedirs(s, ps);
      rs := [];
      while true
        invariant Valid() && ps >= old(ps)
        invariant Joined(want, rs, ParseRedirs(s, ps))
        decreases |s| - ps
      {
        ghost var p := ps;
        var b := Peek("<>");
        if !b {
          assert rs + [] == rs;
          return true, rs;
        }
        SkipTwice(s, p);
        var tok, _ := NextToken();
        var kind, file := NextToken();
        if kind != Word { return false, rs; }
        RedirsStep(s, p, want, rs);
        rs := rs + [Redirection(file, ModeOf(tok))];
      }
    }

    /** parseline */
    method Line() returns (r: Result)
      requires Valid()
      modifies this
      ensures Valid() && ps >= old(ps) && Agrees(r, ParseLine(s, old(ps)), ps)
      decreases |s| - ps, 3
    {
      r := Pipeline();
      if r.Fail? { return; }
      ghost var first, p := r.cmd, ps;
      var cmd := r.cmd;
      while true
        invariant Valid() && ps >= p && ParseBacks(s, ps, cmd) == ParseBacks(s, p, first)
        decreases |s| - ps
      {
        SkipTwice(s, ps);
        var b := Peek("&");
        if !b { break; }
        var _, _ := NextToken();
        cmd := Back(cmd);
      }
      SkipTwice(s, ps);
      r := Ok(cmd, ps);
      var b := Peek(";");
      if b {
        var _, _ := NextToken();
        r := Line();
        if r.Ok? { r := Ok(List(cmd, r.cmd), ps); }
      }
    }

    /** parsepipe */
    method Pipeline() returns (r: Result)
      requires Valid()
      modifies this
      ensures Valid() && ps >= old(ps) && Agrees(r, ParsePipe(s, old(ps)), ps)
      decreases |s| - ps, 2
    {
      r := Simple();
      if r.Fail? { return; }
      var left := r.cmd;
      SkipTwice(s, ps);
      var b := Peek("|");
      r := Ok(left, ps);
      if b {
        var _, _ := NextToken();
        r := Pipeline();
        if r.Ok? { r := Ok(Pipe(left, r.cmd), ps); }
      }
    }

    /** parseexec */
    method Simple() returns (r: Result)
      requires Valid()
      modifies this
      ensures Valid() && ps >= old(ps) && Agrees(r, ParseExec(s, old(ps)), ps)
      decreases |s| - ps, 1
    {
      SkipTwice(s, ps);
      var b := Peek("(");
      if b {
        r := Block();
        return;
      }
      RedirsSkip(s, old(ps));
      var ok, rs := Redirections();
      if !ok { return Fail; }
      r := Arguments(rs);
    }

    /** parseexec's loop. */
    method Arguments(first: seq<Redirection>) returns (r: Result)
      requires Valid()
      modifies this
      ensures Valid() && ps >= old(ps) && Agrees(r, ParseArgs(s, old(ps), [], first), ps)
      decreases |s| - ps, 0
    {
      var args, rs := [], first;
      while true
        invariant Valid() && ps >= old(ps) && ParseArgs(s, ps, args, rs) == ParseArgs(s, old(ps), [], first)
        invariant |args| < MAXARGS
        decreases |s| - ps
      {
        SkipTwice(s, ps);
        var b := Peek("|)&;");
        if b { break; }
        var tok, span := NextToken();
        if tok == End { break; }
        if tok != Word { return Fail; }
        args := args + [span];
        if |args| >= MAXARGS { return Fail; }
        var ok, more := Redirections();
        if !ok { return Fail; }
        rs := rs + more;
      }
      r := Ok(Wrap(Exec(args), rs), ps);
    }

    /** parseblock */
    method Block() returns (r: Result)
      requires Valid()
      modifies this
      ensures Valid() && ps >= old(ps) && Agrees(r, ParseBlock(s, old(ps)), ps)
      decreases |s| - ps, 0
    {
      SkipTwice(s, ps);
      var b := Peek("(");
      if !b { return Fail; }
      var _, _ := NextToken();
      r := Line();
      if r.Fail? { return; }
      var cmd := r.cmd;
      SkipTwice(s, ps);
      b := Peek(")");
      if !b { return Fail; }
      var _, _ := NextToken();
      var ok, rs := Redirections();
      if !ok { return Fail; }
      r := Ok(Wrap(cmd, rs), ps);
    }
  }

  /** The method's answer is the function's, and the cursor stands where the function says. */
  predicate Agrees(r: Result, f: Result, ps: nat) {
    r == f && (f.Ok? ==> ps == f.pos)
  }

  predicate Joined(want: Redirs, rs: seq<Redirection>, rest: Redirs) {
    if rest.NoFile? then want.NoFile? else want == Redirs(rs + rest.rs, rest.pos)
  }

  lemma RedirsStep(s: string, p: nat, want: Redirs, rs: seq<Redirection>)
    requires p <= |s| && RedirAhead(s, p) && Joined(want, rs, ParseRedirs(s, p))
    requires GetToken(s, GetToken(s, Skip(s, p)).next).tok == Word
    ensures var t := GetToken(s, Skip(s, p));
            var f := GetToken(s, t.next);
            Joined(want, rs + [Redirection(f.span, ModeOf(t.tok))], ParseRedirs(s, f.next))
  {
    var t := GetToken(s, Skip(s, p));
    var f := GetToken(s, t.next);
    var r, rest := Redirection(f.span, ModeOf(t.tok)), ParseRedirs(s, f.next);
    if rest.Redirs? { Assoc(rs, [r], rest.rs); }
  }

  lemma Assoc<T>(a: seq<T>, b: seq<T>, c: seq<T>)
    ensures a + b + c == a + (b + c)
  {
  }

  lemma RedirsSkip(s: string, p: nat)
    requires p <= |s|
    ensures ParseRedirs(s, Skip(s, p)) == ParseRedirs(s, p)
  {
    SkipTwice(s, p);
  }

  // ---------- every span in a parsed tree is a word of the line ----------

  ghost predicate WordsIn(s: string, c: Cmd) {
    match c
    case Exec(args) => forall i: nat :: i < |args| ==> IsWord(s, args[i])
    case Redir(cmd, file, _) => IsWord(s, file) && WordsIn(s, cmd)
    case Pipe(l, r) => WordsIn(s, l) && WordsIn(s, r)
    case List(l, r) => WordsIn(s, l) && WordsIn(s, r)
    case Back(cmd) => WordsIn(s, cmd)
  }

  ghost predicate FilesIn(s: string, rs: seq<Redirection>) {
    forall i: nat :: i < |rs| ==> IsWord(s, rs[i].file)
  }

  lemma {:induction false} WrapWords(s: string, c: Cmd, rs: seq<Redirection>)
    requires WordsIn(s, c) && FilesIn(s, rs)
    ensures WordsIn(s, Wrap(c, rs))
    decreases |rs|
  {
    if rs != [] { WrapWords(s, c, rs[..|rs| - 1]); }
  }

  lemma {:induction false} RedirsWords(s: string, p: nat)
    requires p <= |s|
    ensures ParseRedirs(s, p).Redirs? ==> FilesIn(s, ParseRedirs(s, p).rs)
    decreases |s| - p
  {
    if RedirAhead(s, p) {
      var t := GetToken(s, Skip(s, p));
      var f := GetToken(s, t.next);
      if f.tok == Word {
        TokenIsWord(s, t.next);
        RedirsWords(s, f.next);
      }
    }
  }

  lemma {:induction false} ArgsWords(s: string, p: nat, args: seq<Span>, rs: seq<Redirection>)
    requires p <= |s| && FilesIn(s, rs) && forall i: nat :: i < |args| ==> IsWord(s, args[i])
    ensures ParseArgs(s, p, args, rs).Ok? ==> WordsIn(s, ParseArgs(s, p, args, rs).cmd)
    decreases |s| - p
  {
    WrapWords(s, Exec(args), rs);
    if !StopAhead(s, p) {
      var t := GetToken(s, Skip(s, p));
      if t.tok == Word && |args| + 1 < MAXARGS {
        TokenIsWord(s, Skip(s, p));
        RedirsWords(s, t.next);
        var more := ParseRedirs(s, t.next);
        if more.Redirs? { ArgsWords(s, more.pos, args + [t.span], rs + more.rs); }
      }
    }
  }

  lemma {:induction false} ExecWords(s: string, p: nat)
    requires p <= |s|
    ensures ParseExec(s, p).Ok? ==> WordsIn(s, ParseExec(s, p).cmd)
    decreases |s| - p, 1
  {
    if Ahead(s, p) == '(' {
      BlockWords(s, Skip(s, p));
    } else {
      RedirsWords(s, p);
      var first := ParseRedirs(s, p);
      if first.Redirs? { ArgsWords(s, first.pos, [], first.rs); }
    }
  }

  lemma {:induction false} BlockWords(s: string, p: nat)
    requires p <= |s|
    ensures ParseBlock(s, p).Ok? ==> WordsIn(s, ParseBlock(s, p).cmd)
    decreases |s| - p, 0
  {
    if Ahead(s, p) == '(' {
      LineWords(s, GetToken(s, p).next);
      var inner := ParseLine(s, GetToken(s, p).next);
      if inner.Ok? && Ahead(s, inner.pos) == ')' {
        RedirsWords(s, GetToken(s, inner.pos).next);
        var after := ParseRedirs(s, GetToken(s, inner.pos).next);
        if after.Redirs? { WrapWords(s, inner.cmd, after.rs); }
      }
    }
  }

  lemma {:induction false} PipeWords(s: string, p: nat)
    requires p <= |s|
    ensures ParsePipe(s, p).Ok? ==> WordsIn(s, ParsePipe(s, p).cmd)
    decreases |s| - p, 2
  {
    ExecWords(s, p);
    var left := ParseExec(s, p);
    if left.Ok? && Ahead(s, left.pos) == '|' { PipeWords(s, GetToken(s, left.pos).next); }
  }

  lemma {:induction false} BacksWords(s: string, p: nat, c: Cmd)
    requires p <= |s| && WordsIn(s, c)
    ensures WordsIn(s, ParseBacks(s, p, c).cmd)
    decreases |s| - p
  {
    if Ahead(s, p) == '&' { BacksWords(s, GetToken(s, p).next, Back(c)); }
  }

  lemma {:induction false} LineWords(s: string, p: nat)
    requires p <= |s|
    ensures ParseLine(s, p).Ok? ==> WordsIn(s, ParseLine(s, p).cmd)
    decreases |s| - p, 3
  {
    PipeWords(s, p);
    var first := ParsePipe(s, p);
    if first.Ok? {
      BacksWords(s, first.pos, first.cmd);
      var c := ParseBacks(s, first.pos, first.cmd);
      if Ahead(s, c.pos) == ';' { LineWords(s, GetToken(s, c.pos).next); }
    }
  }

  // ---------- nulterminate ----------

  /** w is one of the tree's arguments or file names. */
  ghost predicate Mentions(c: Cmd, w: Span) {
    match c
    case Exec(args) => w in args
    case Redir(cmd, file, _) => w == file || Mentions(cmd, w)
    case Pipe(l, r) => Mentions(l, w) || Mentions(r, w)
    case List(l, r) => Mentions(l, w) || Mentions(r, w)
    case Back(cmd) => Mentions(cmd, w)
  }

  ghost predicate IsEnd(c: Cmd, i: nat) {
    exists w: Span :: Mentions(c, w) && w.eq == i
  }

  method Nulterminate(c: Cmd, buf: array<char>, ghost s: string)
    requires WordsIn(s, c) && buf.Length == |s| + 1
    modifies buf
    ensures forall i: nat :: i < buf.Length ==> buf[i] == if IsEnd(c, i) then '\0' else old(buf[i])
    decreases c
  {
    match c
    case Exec(args) =>
      var k := 0;
      while k < |args|
        invariant k <= |args|
        invariant forall i: nat :: i < buf.Length ==>
                    buf[i] == if (exists j: nat :: j < k && args[j].eq == i) then '\0' else old(buf[i])
      {
        assert IsWord(s, args[k]);
        buf[args[k].eq] := '\0';
        k := k + 1;
      }
      forall i: nat | i < buf.Length ensures IsEnd(c, i) <==> exists j: nat :: j < |args| && args[j].eq == i {
        if exists j: nat :: j < |args| && args[j].eq == i {
          var j: nat :| j < |args| && args[j].eq == i;
          assert Mentions(c, args[j]);
        }
      }
    case Redir(cmd, file, _) =>
      Nulterminate(cmd, buf, s);
      EndsRedir(c);
      buf[file.eq] := '\0';
    case Pipe(l, r) =>
      EndsBoth(c, l, r);
      Nulterminate(l, buf, s);
      Nulterminate(r, buf, s);
    case List(l, r) =>
      EndsBoth(c, l, r);
      Nulterminate(l, buf, s);
      Nulterminate(r, buf, s);
    case Back(cmd) =>
      EndsBack(c);
      Nulterminate(cmd, buf, s);
  }

  lemma EndsRedir(c: Cmd)
    requires c.Redir?
    ensures forall i: nat :: IsEnd(c, i) <==> IsEnd(c.cmd, i) || c.file.eq == i
  {
    forall i: nat ensures IsEnd(c, i) <==> IsEnd(c.cmd, i) || c.file.eq == i {
      if IsEnd(c.cmd, i) {
        var w :| Mentions(c.cmd, w) && w.eq == i;
        assert Mentions(c, w);
      }
      assert Mentions(c, c.file);
    }
  }

  lemma EndsBoth(c: Cmd, l: Cmd, r: Cmd)
    requires c == Pipe(l, r) || c == List(l, r)
    ensures forall i: nat :: IsEnd(c, i) <==> IsEnd(l, i) || IsEnd(r, i)
  {
    forall i: nat ensures IsEnd(c, i) <==> IsEnd(l, i) || IsEnd(r, i) {
      if IsEnd(l, i) {
        var w :| Mentions(l, w) && w.eq == i;
        assert Mentions(c, w);
      }
      if IsEnd(r, i) {
        var w :| Mentions(r, w) && w.eq == i;
        assert Mentions(c, w);
      }
    }
  }

  lemma EndsBack(c: Cmd)
    requires c.Back?
    ensures forall i: nat :: IsEnd(c, i) <==> IsEnd(c.cmd, i)
  {
    forall i: nat ensures IsEnd(c, i) <==> IsEnd(c.cmd, i) {
      if IsEnd(c.cmd, i) {
        var w :| Mentions(c.cmd, w) && w.eq == i;
        assert Mentions(c, w);
      }
    }
  }

  /** The C string at q is w. */
  predicate ReadsAs(b: seq<char>, q: nat, w: seq<char>) {
    q + |w| < |b| && b[q..q + |w|] == w && b[q + |w|] == '\0' && forall k: nat :: k < |w| ==> w[k] != '\0'
  }

  lemma {:induction false} MentionedIsWord(s: string, c: Cmd, w: Span)
    requires WordsIn(s, c) && Mentions(c, w)
    ensures IsWord(s, w)
    decreases c
  {
    match c
    case Exec(args) => var i :| 0 <= i < |args| && args[i] == w;
    case Redir(cmd, file, _) => if w != file { MentionedIsWord(s, cmd, w); }
    case Pipe(l, r) => if Mentions(l, w) { MentionedIsWord(s, l, w); } else { MentionedIsWord(s, r, w); }
    case List(l, r) => if Mentions(l, w) { MentionedIsWord(s, l, w); } else { MentionedIsWord(s, r, w); }
    case Back(cmd) => MentionedIsWord(s, cmd, w);
  }

  /** The NULs fall between words: each argument and file name reads as exactly its token. */
  lemma TokensReadBack(s: string, c: Cmd, b: seq<char>, w: Span)
    requires WordsIn(s, c) && Mentions(c, w) && |b| == |s| + 1 && forall k: nat :: k < |s| ==> s[k] != '\0'
    requires forall i: nat :: i <= |s| ==> b[i] == if IsEnd(c, i) then '\0' else (s + ['\0'])[i]
    ensures w.q <= w.eq <= |s| && ReadsAs(b, w.q, s[w.q..w.eq])
  {
    MentionedIsWord(s, c, w);
    forall i: nat | w.q <= i < w.eq ensures b[i] == s[i] {
      if IsEnd(c, i) {
        var x :| Mentions(c, x) && x.eq == i;
        MentionedIsWord(s, c, x);
      }
    }
    assert IsEnd(c, w.eq);
  }

  /** parsecmd: fails exactly when the grammar says so, and leaves every token a C string. */
  method ParseCommand(s: string) returns (r: Result, buf: array<char>)
    requires forall k: nat :: k < |s| ==> s[k] != '\0'
    ensures r == ParseCmd(s)
    ensures r.Ok? ==> buf.Length == |s| + 1
    ensures r.Ok? ==> forall w: Span :: Mentions(r.cmd, w) ==> w.q <= w.eq <= |s| && ReadsAs(buf[..], w.q, s[w.q..w.eq])
  {
    buf := new char[|s| + 1](i requires 0 <= i <= |s| => if i < |s| then s[i] else '\0');
    var parser := new Parser(s);
    r := parser.Line();
    if r.Fail? { return; }
    var _ := parser.Peek("");
    if parser.ps != |s| { return Fail, buf; }
    r := Ok(r.cmd, |s|);
    LineWords(s, 0);
    Nulterminate(r.cmd, buf, s);
    forall w: Span | Mentions(r.cmd, w) ensures w.q <= w.eq <= |s| && ReadsAs(buf[..], w.q, s[w.q..w.eq]) {
      MentionedIsWord(s, r.cmd, w);
      TokensReadBack(s, r.cmd, buf[..], w);
    }
  }

  // ---------- printing a tree, and parsing it back ----------

  datatype Tree =
    | TExec(words: seq<string>)
    | TRedir(cmd: Tree, file: string, mode: Mode)
    | TPipe(left: Tree, right: Tree)
    | TList(left: Tree, right: Tree)
    | TBack(cmd: Tree)

  predicate GoodWord(w: string) {
    w != [] && forall k: nat :: k < |w| ==> IsWordChar(w[k]) && w[k] != '\0'
  }

  predicate Good(t: Tree) {
    match t
    case TExec(words) => |words| < MAXARGS && forall i: nat :: i < |words| ==> GoodWord(words[i])
    case TRedir(c, f, _) => Good(c) && GoodWord(f)
    case TPipe(l, r) => Good(l) && Good(r)
    case TList(l, r) => Good(l) && Good(r)
    case TBack(c) => Good(c)
  }

  function Spaced(words: seq<string>): string {
    if words == [] then "" else if |words| == 1 then words[0] else words[0] + (" " + Spaced(words[1..]))
  }

  function OpOf(m: Mode): string {
    match m case Input => "<" case Output => ">" case Append => ">>"
  }

  function Paren(t: Tree): string
    decreases t, 1
  {
    "(" + (Print(t) + ")")
  }

  function Print(t: Tree): string
    decreases t, 0
  {
    match t
    case TExec(words) => Spaced(words)
    case TRedir(c, f, m) => Paren(c) + (OpOf(m) + f)
    case TPipe(l, r) => Paren(l) + ("|" + Paren(r))
    case TList(l, r) => Paren(l) + (";" + Paren(r))
    case TBack(c) => Paren(c) + "&"
  }

  predicate Spells(s: string, w: Span, word: string) {
    w.eq == w.q + |word| && At(s, w.q, word)
  }

  ghost predicate Means(s: string, c: Cmd, t: Tree) {
    match t
    case TExec(words) => c.Exec? && |c.args| == |words| && forall i: nat :: i < |words| ==>
      Spells(s, c.args[i], words[i])
    case TRedir(t1, f, m) => c.Redir? && Means(s, c.cmd, t1) && Spells(s, c.file, f) && c.mode == m
    case TPipe(l, r) => c.Pipe? && Means(s, c.left, l) && Means(s, c.right, r)
    case TList(l, r) => c.List? && Means(s, c.left, l) && Means(s, c.right, r)
    case TBack(t1) => c.Back? && Means(s, c.cmd, t1)
  }

  /** w stands at position p. */
  predicate At(s: string, p: nat, w: string) {
    p + |w| <= |s| && forall k: nat :: k < |w| ==> w[k] == s[p + k]
  }

  lemma AtSplit(s: string, p: nat, a: string, b: string)
    requires At(s, p, a + b)
    ensures At(s, p, a) && At(s, p + |a|, b)
  {
    var w := a + b;
    forall k: nat | k < |a| ensures a[k] == s[p + k] {
      assert w[k] == a[k];
    }
    forall k: nat | k < |b| ensures b[k] == s[p + |a| + k] {
      assert w[|a| + k] == b[k];
    }
  }

  lemma AtFirst(s: string, p: nat, w: string)
    requires At(s, p, w) && w != []
    ensures p < |s| && s[p] == w[0]
  {
    assert w[0] == s[p + 0];
  }

  /** A tree's text ends at the end of the line or before a ')'. */
  predicate Stop(s: string, p: nat) {
    p <= |s| && (p < |s| ==> s[p] == ')')
  }

  predicate Solid(s: string, p: nat) {
    p <= |s| && (p < |s| ==> !IsSpace(s[p]))
  }

  lemma SkipSolid(s: string, p: nat)
    requires Solid(s, p)
    ensures Skip(s, p) == p
  {
  }

  lemma {:induction false} WordAt(s: string, p: nat, w: string)
    requires At(s, p, w) && (forall k: nat :: k < |w| ==> IsWordChar(w[k]))
             && (p + |w| < |s| ==> !IsWordChar(s[p + |w|]))
    ensures WordEnd(s, p) == p + |w|
    decreases |w|
  {
    if w != [] {
      AtFirst(s, p, w);
      forall k: nat | k < |w| - 1 ensures w[1..][k] == s[p + 1 + k] {
        assert w[k + 1] == s[p + (k + 1)];
      }
      WordAt(s, p + 1, w[1..]);
    }
  }

  // ---------- arguments ----------

  lemma OneWord(s: string, p: nat, w: string)
    requires At(s, p, w) && GoodWord(w) && (p + |w| < |s| ==> !IsWordChar(s[p + |w|]))
    ensures p < |s| && IsWordChar(s[p]) && GetToken(s, p) == Lexed(Word, Span(p, p + |w|), Skip(s, p + |w|))
  {
    AtFirst(s, p, w);
    WordAt(s, p, w);
    SkipSolid(s, p);
  }

  /** The words stand from p to end, one space between them. */
  ghost predicate Laid(s: string, p: nat, words: seq<string>, end: nat)
    decreases |words|
  {
    if words == [] then p == end
    else
      && GoodWord(words[0]) && At(s, p, words[0])
      && if |words| == 1 then end == p + |words[0]|
         else p + |words[0]| < |s| && s[p + |words[0]|] == ' ' && Laid(s, p + |words[0]| + 1, words[1..], end)
  }

  lemma {:induction false} SpacedIsLaid(s: string, p: nat, words: seq<string>)
    requires At(s, p, Spaced(words)) && GoodWords(words)
    ensures Laid(s, p, words, p + |Spaced(words)|)
    decreases |words|
  {
    if |words| > 1 {
      var w, rest := words[0], words[1..];
      AtSplit(s, p, w, " " + Spaced(rest));
      AtSplit(s, p + |w|, " ", Spaced(rest));
      AtFirst(s, p + |w|, " ");
      SpacedIsLaid(s, p + |w| + 1, rest);
    }
  }

  ghost predicate GoodWords(words: seq<string>) {
    forall i: nat :: i < |words| ==> GoodWord(words[i])
  }

  /** At a word, or at the end of the command. */
  predicate Ready(s: string, p: nat) {
    p <= |s| && (p < |s| ==> IsWordChar(s[p]) || s[p] == ')')
  }

  lemma LaidReady(s: string, p: nat, words: seq<string>, end: nat)
    requires Laid(s, p, words, end) && Stop(s, end)
    ensures Ready(s, p)
  {
    if words != [] { AtFirst(s, p, words[0]); }
  }

  ghost predicate ArgsDone(s: string, r: Result, args: seq<Span>, words: seq<string>, end: nat) {
    && r.Ok? && r.pos == end && r.cmd.Exec? && |r.cmd.args| == |args| + |words| && r.cmd.args[..|args|] == args
    && forall i: nat :: i < |words| ==> Spells(s, r.cmd.args[|args| + i], words[i])
  }

  lemma {:induction false} ArgsPrint(s: string, p: nat, args: seq<Span>, words: seq<string>, end: nat, r: Result)
    requires Laid(s, p, words, end) && Stop(s, end) && |args| + |words| < MAXARGS && p <= |s|
    requires r == ParseArgs(s, p, args, [])
    ensures ArgsDone(s, r, args, words, end)
    decreases |words|
  {
    if words == [] {
      ArgsEnd(s, p, args);
    } else {
      var t := FirstWord(s, p, words, end);
      ArgsStep(s, p, args, t);
      ArgsPrint(s, t.next, args + [t.span], words[1..], end, r);
      ArgsMore(s, r, args, t.span, words, end);
    }
  }

  lemma FirstWord(s: string, p: nat, words: seq<string>, end: nat) returns (t: Lexed)
    requires words != [] && Laid(s, p, words, end) && Stop(s, end)
    ensures p < |s| && IsWordChar(s[p]) && GetToken(s, p) == t && t.tok == Word
    ensures Spells(s, t.span, words[0]) && Laid(s, t.next, words[1..], end) && Ready(s, t.next)
  {
    var e := p + |words[0]|;
    OneWord(s, p, words[0]);
    t := GetToken(s, p);
    if |words| == 1 {
      SkipSolid(s, e);
    } else {
      LaidReady(s, e + 1, words[1..], end);
      SkipSolid(s, e + 1);
      assert Skip(s, e) == Skip(s, e + 1);
    }
  }

  lemma ArgsEnd(s: string, p: nat, args: seq<Span>)
    requires Stop(s, p)
    ensures ParseArgs(s, p, args, []) == Ok(Exec(args), p)
  {
    SkipSolid(s, p);
  }

  lemma NoRedirs(s: string, p: nat)
    requires Solid(s, p) && (p < |s| ==> s[p] != '<' && s[p] != '>')
    ensures ParseRedirs(s, p) == Redirs([], p)
  {
    SkipSolid(s, p);
  }

  lemma ArgsStep(s: string, p: nat, args: seq<Span>, t: Lexed)
    requires p < |s| && IsWordChar(s[p]) && GetToken(s, p) == t && t.tok == Word && Ready(s, t.next)
             && |args| + 1 < MAXARGS
    ensures ParseArgs(s, p, args, []) == ParseArgs(s, t.next, args + [t.span], [])
  {
    SkipSolid(s, p);
    NoRedirs(s, t.next);
    var none: seq<Redirection> := [];
    assert none + none == none;
  }

  lemma ArgsMore(s: string, r: Result, args: seq<Span>, span: Span, words: seq<string>, end: nat)
    requires words != [] && Spells(s, span, words[0]) && ArgsDone(s, r, args + [span], words[1..], end)
    ensures ArgsDone(s, r, args, words, end)
  {
    var got := r.cmd.args;
    assert got[..|args|] == got[..|args| + 1][..|args|];
    assert got[|args|] == got[..|args| + 1][|args|];
    forall i: nat | i < |words| ensures Spells(s, got[|args| + i], words[i]) {
      if i > 0 {
        assert words[1..][i - 1] == words[i] && Spells(s, got[|args + [span]| + (i - 1)], words[1..][i - 1]);
      }
    }
  }

  // ---------- trees ----------

  /** parseexec stopped where the command ends, so the levels above it add nothing. */
  lemma LineOfExec(s: string, p: nat, c: Cmd, end: nat)
    requires p <= |s| && ParseExec(s, p) == Ok(c, end) && Stop(s, end)
    ensures ParsePipe(s, p) == Ok(c, end) && ParseLine(s, p) == Ok(c, end)
  {
    SkipSolid(s, end);
    PipeOfExec(s, p, c, end);
  }

  lemma PipeOfExec(s: string, p: nat, c: Cmd, end: nat)
    requires p <= |s| && ParseExec(s, p) == Ok(c, end) && Solid(s, end) && (end < |s| ==> s[end] != '|')
    ensures ParsePipe(s, p) == Ok(c, end)
  {
    SkipSolid(s, end);
  }

  /** A symbol, other than a second '>', is one token. */
  lemma SymbolToken(s: string, p: nat)
    requires p < |s| && IsSymbol(s[p]) && s[p] != '>' && Solid(s, p + 1)
    ensures GetToken(s, p) == Lexed(Symbol(s[p]), Span(p, p + 1), p + 1)
  {
    SkipSolid(s, p);
    SkipSolid(s, p + 1);
  }

  lemma PrintSolid(t: Tree)
    requires Good(t)
    ensures Print(t) != [] ==> !IsSpace(Print(t)[0])
  {
    match t
    case TExec(words) =>
      if words != [] {
        assert GoodWord(words[0]);
        SpacedFirst(words);
      }
    case TRedir(c, _, _) => assert Paren(c)[0] == '(';
    case TPipe(l, _) => assert Paren(l)[0] == '(';
    case TList(l, _) => assert Paren(l)[0] == '(';
    case TBack(c) => assert Paren(c)[0] == '(';
  }

  lemma SpacedFirst(words: seq<string>)
    requires words != [] && words[0] != []
    ensures Spaced(words) != [] && Spaced(words)[0] == words[0][0]
  {
  }

  lemma ExecPrint(s: string, p: nat, words: seq<string>)
    requires At(s, p, Spaced(words)) && Stop(s, p + |Spaced(words)|) && |words| < MAXARGS && GoodWords(words)
    ensures var r := ParseLine(s, p);
            r.Ok? && r.pos == p + |Spaced(words)| && Means(s, r.cmd, TExec(words))
  {
    var end := p + |Spaced(words)|;
    SpacedIsLaid(s, p, words);
    LaidReady(s, p, words, end);
    SkipSolid(s, p);
    NoRedirs(s, p);
    var r := ParseArgs(s, p, [], []);
    ArgsPrint(s, p, [], words, end, r);
    assert ParseExec(s, p) == r;
    LineOfExec(s, p, r.cmd, end);
  }

  /** Where the parts of a parenthesised tree are. */
  lemma ParenAt(s: string, p: nat, t: Tree)
    requires At(s, p, Paren(t)) && Good(t)
    ensures var e := p + 1 + |Print(t)|;
            && p < |s| && s[p] == '(' && e < |s| && s[e] == ')' && At(s, p + 1, Print(t))
               && |Paren(t)| == |Print(t)| + 2
            && Solid(s, p + 1)
  {
    AtSplit(s, p, "(", Print(t) + ")");
    AtSplit(s, p + 1, Print(t), ")");
    AtFirst(s, p, "(");
    AtFirst(s, p + 1 + |Print(t)|, ")");
    PrintSolid(t);
    if Print(t) != [] { AtFirst(s, p + 1, Print(t)); }
  }

  lemma OpToken(s: string, p: nat, m: Mode, f: string)
    requires At(s, p, OpOf(m) + f) && GoodWord(f)
    ensures var q := p + |OpOf(m)|;
            && At(s, q, f) && Solid(s, p) && RedirAhead(s, p)
            && GetToken(s, p).next == q && ModeOf(GetToken(s, p).tok) == m
  {
    var q := p + |OpOf(m)|;
    AtSplit(s, p, OpOf(m), f);
    AtFirst(s, p, OpOf(m));
    AtFirst(s, q, f);
    SkipSolid(s, p);
    SkipSolid(s, q);
    if m == Append { assert OpOf(m)[1] == s[p + 1]; }
  }

  /** One redirection, then the end of the command. */
  lemma RedirPrint(s: string, p: nat, m: Mode, f: string)
    requires At(s, p, OpOf(m) + f) && GoodWord(f) && Stop(s, p + |OpOf(m)| + |f|)
    ensures var q := p + |OpOf(m)|;
            Solid(s, p) && At(s, q, f) && ParseRedirs(s, p) == Redirs([Redirection(Span(q, q + |f|), m)], q + |f|)
  {
    var q := p + |OpOf(m)|;
    OpToken(s, p, m, f);
    OneWord(s, q, f);
    SkipSolid(s, q + |f|);
    NoRedirs(s, q + |f|);
    OneRedir(s, p, q, Span(q, q + |f|), m, q + |f|);
  }

  lemma OneRedir(s: string, p: nat, q: nat, file: Span, m: Mode, end: nat)
    requires Solid(s, p) && RedirAhead(s, p) && q <= |s| && GetToken(s, p).next == q && ModeOf(GetToken(s, p).tok) == m
    requires end <= |s| && GetToken(s, q) == Lexed(Word, file, end) && ParseRedirs(s, end) == Redirs([], end)
    ensures ParseRedirs(s, p) == Redirs([Redirection(file, m)], end)
  {
    SkipSolid(s, p);
    assert [Redirection(file, m)] + [] == [Redirection(file, m)];
  }

  // What each production does, by positions alone.  LineIs and ExecIs keep the parser's results under
  // a quantifier, so that the functions are unfolded only where Unfold is mentioned.

  predicate Unfold(k: int) { true }

  ghost predicate LineIs(s: string, p: nat, c: Cmd, end: nat) {
    p <= |s| && forall k: int :: Unfold(k) ==> ParseLine(s, p) == Ok(c, end)
  }

  ghost predicate ExecIs(s: string, p: nat, c: Cmd, end: nat) {
    p <= |s| && forall k: int :: Unfold(k) ==> ParseExec(s, p) == Ok(c, end)
  }

  /** A parenthesised command line from p to n. */
  ghost predicate Block(s: string, p: nat, n: nat, c: Cmd) {
    p < n < |s| && s[p] == '(' && s[n] == ')' && Solid(s, p + 1) && LineIs(s, p + 1, c, n)
  }

  lemma ExecIsBlock(s: string, p: nat)
    requires p < |s| && s[p] == '('
    ensures ParseExec(s, p) == ParseBlock(s, p)
  {
    SkipSolid(s, p);
  }

  lemma BlockParse(s: string, p: nat, n: nat, c: Cmd)
    requires p < n < |s| && s[p] == '(' && s[n] == ')' && Solid(s, p + 1) && Solid(s, n + 1)
             && ParseLine(s, p + 1) == Ok(c, n)
    ensures var after := ParseRedirs(s, n + 1);
            ParseBlock(s, p) == if after.NoFile? then Fail else Ok(Wrap(c, after.rs), after.pos)
  {
    SymbolAhead(s, p);
    SymbolAhead(s, n);
    assert ParseLine(s, GetToken(s, p).next) == Ok(c, n);
  }

  lemma SymbolAhead(s: string, p: nat)
    requires p < |s| && IsSymbol(s[p]) && s[p] != '>' && Solid(s, p + 1)
    ensures Ahead(s, p) == s[p] && GetToken(s, p).next == p + 1
  {
    SymbolToken(s, p);
    SkipSolid(s, p);
  }

  /** (c) followed by something that is no redirection. */
  lemma BareBlock(s: string, p: nat, n: nat, c: Cmd)
    requires Block(s, p, n, c) && Solid(s, n + 1) && (n + 1 < |s| ==> s[n + 1] != '<' && s[n + 1] != '>')
    ensures ExecIs(s, p, c, n + 1)
  {
    assert Unfold(0);
    NoRedirs(s, n + 1);
    ExecIsBlock(s, p);
    BlockParse(s, p, n, c);
  }

  lemma RedirBlock(s: string, p: nat, n: nat, c: Cmd, r: Redirection, end: nat)
    requires Block(s, p, n, c) && Solid(s, n + 1) && ParseRedirs(s, n + 1) == Redirs([r], end) && Stop(s, end)
    ensures LineIs(s, p, Redir(c, r.file, r.mode), end)
  {
    assert Unfold(0);
    ExecIsBlock(s, p);
    BlockParse(s, p, n, c);
    assert [r][..0] == [] && Wrap(c, [r]) == Redir(c, r.file, r.mode);
    LineOfExec(s, p, Redir(c, r.file, r.mode), end);
  }

  lemma LineOfPipe(s: string, p: nat, c: Cmd, end: nat)
    requires p <= |s| && ParsePipe(s, p) == Ok(c, end) && Stop(s, end)
    ensures ParseLine(s, p) == Ok(c, end)
  {
    SkipSolid(s, end);
  }

  lemma PipeOfTwo(s: string, p: nat, e: nat, cl: Cmd, cr: Cmd, end: nat)
    requires p <= e < |s| && ParseExec(s, p) == Ok(cl, e) && s[e] == '|' && Solid(s, e + 1)
             && ParsePipe(s, e + 1) == Ok(cr, end)
    ensures ParsePipe(s, p) == Ok(Pipe(cl, cr), end)
  {
    SymbolToken(s, e);
    SkipSolid(s, e);
  }

  lemma PipeParse(s: string, p: nat, e: nat, cl: Cmd, cr: Cmd, end: nat)
    requires p <= e < |s| && ExecIs(s, p, cl, e) && s[e] == '|' && Solid(s, e + 1) && ExecIs(s, e + 1, cr, end)
             && Stop(s, end)
    ensures LineIs(s, p, Pipe(cl, cr), end)
  {
    assert Unfold(0);
    LineOfExec(s, e + 1, cr, end);
    PipeOfTwo(s, p, e, cl, cr, end);
    LineOfPipe(s, p, Pipe(cl, cr), end);
  }

  lemma ListOfTwo(s: string, p: nat, e: nat, cl: Cmd, cr: Cmd, end: nat)
    requires p <= e < |s| && ParsePipe(s, p) == Ok(cl, e) && s[e] == ';' && Solid(s, e + 1)
             && ParseLine(s, e + 1) == Ok(cr, end)
    ensures ParseLine(s, p) == Ok(List(cl, cr), end)
  {
    SymbolToken(s, e);
    SkipSolid(s, e);
    assert ParseBacks(s, e, cl) == Ok(cl, e);
  }

  lemma ListParse(s: string, p: nat, e: nat, cl: Cmd, cr: Cmd, end: nat)
    requires p <= e < |s| && ExecIs(s, p, cl, e) && s[e] == ';' && Solid(s, e + 1) && ExecIs(s, e + 1, cr, end)
             && Stop(s, end)
    ensures LineIs(s, p, List(cl, cr), end)
  {
    assert Unfold(0);
    LineOfExec(s, e + 1, cr, end);
    PipeOfExec(s, p, cl, e);
    ListOfTwo(s, p, e, cl, cr, end);
  }

  lemma BackParse(s: string, p: nat, e: nat, c: Cmd)
    requires p <= e < |s| && ExecIs(s, p, c, e) && s[e] == '&' && Stop(s, e + 1)
    ensures LineIs(s, p, Back(c), e + 1)
  {
    assert Unfold(0);
    PipeOfExec(s, p, c, e);
    SymbolToken(s, e);
    SkipSolid(s, e);
    SkipSolid(s, e + 1);
    assert ParseBacks(s, e, c) == ParseBacks(s, e + 1, Back(c)) == Ok(Back(c), e + 1);
  }

  // The texts.

  /** The tree in parentheses at p: the inside ends before n. */
  ghost predicate Inside(s: string, p: nat, n: nat, t: Tree, c: Cmd) {
    Block(s, p, n, c) && n + 1 == p + |Paren(t)| && Means(s, c, t)
  }

  lemma SplitAt(s: string, p: nat, a: string, op: string, b: string)
    requires |op| == 1 && At(s, p, a + (op + b))
    ensures At(s, p, a) && p + |a| < |s| && s[p + |a|] == op[0] && At(s, p + |a| + 1, b)
  {
    AtSplit(s, p, a, op + b);
    AtSplit(s, p + |a|, op, b);
    AtFirst(s, p + |a|, op);
  }

  /** The text between two operands, and the first character of the second. */
  lemma OperandsAt(s: string, p: nat, a: string, op: string, b: string)
    requires |op| == 1 && At(s, p, a + (op + b)) && b != [] && !IsSpace(b[0])
    ensures var e := p + |a|;
            At(s, p, a) && e < |s| && s[e] == op[0] && At(s, e + 1, b) && Solid(s, e + 1)
  {
    SplitAt(s, p, a, op, b);
    AtFirst(s, p + |a| + 1, b);
  }

  lemma ParenFirst(t: Tree)
    ensures Paren(t) != [] && Paren(t)[0] == '('
  {
  }

  /** Two parenthesised trees with a symbol between them. */
  lemma PairAt(s: string, p: nat, l: Tree, op: string, r: Tree)
    requires |op| == 1 && At(s, p, Paren(l) + (op + Paren(r)))
    ensures var e := p + |Paren(l)|;
            At(s, p, Paren(l)) && e < |s| && s[e] == op[0] && At(s, e + 1, Paren(r)) && Solid(s, e + 1)
  {
    ParenFirst(r);
    OperandsAt(s, p, Paren(l), op, Paren(r));
  }

  ghost predicate Reads(s: string, p: nat, t: Tree, c: Cmd) {
    LineIs(s, p, c, p + |Print(t)|) && Means(s, c, t)
  }

  lemma RedirTree(s: string, p: nat, t: Tree) returns (c: Cmd)
    requires t.TRedir? && Good(t) && At(s, p, Print(t)) && Stop(s, p + |Print(t)|)
    ensures Reads(s, p, t, c)
    decreases t, 0
  {
    var e := p + |Paren(t.cmd)|;
    AtSplit(s, p, Paren(t.cmd), OpOf(t.mode) + t.file);
    var n, x := InsidePrint(s, p, t.cmd);
    RedirPrint(s, e, t.mode, t.file);
    var q := e + |OpOf(t.mode)|;
    c := Redir(x, Span(q, q + |t.file|), t.mode);
    RedirBlock(s, p, n, x, Redirection(Span(q, q + |t.file|), t.mode), q + |t.file|);
  }

  /** A parenthesised tree that no redirection follows. */
  lemma OperandTree(s: string, p: nat, t: Tree) returns (c: Cmd)
    requires Good(t) && At(s, p, Paren(t)) && Solid(s, p + |Paren(t)|)
    requires var e := p + |Paren(t)|; e < |s| ==> s[e] != '<' && s[e] != '>'
    ensures ExecIs(s, p, c, p + |Paren(t)|) && Means(s, c, t)
    decreases t, 3
  {
    var n;
    n, c := InsidePrint(s, p, t);
    BareBlock(s, p, n, c);
  }

  lemma PipeTree(s: string, p: nat, t: Tree) returns (c: Cmd)
    requires t.TPipe? && Good(t) && At(s, p, Print(t)) && Stop(s, p + |Print(t)|)
    ensures Reads(s, p, t, c)
    decreases t, 0
  {
    PairAt(s, p, t.left, "|", t.right);
    var e := p + |Paren(t.left)|;
    var x := OperandTree(s, p, t.left);
    var y := OperandTree(s, e + 1, t.right);
    PipeParse(s, p, e, x, y, e + 1 + |Paren(t.right)|);
    c := Pipe(x, y);
  }

  lemma ListTree(s: string, p: nat, t: Tree) returns (c: Cmd)
    requires t.TList? && Good(t) && At(s, p, Print(t)) && Stop(s, p + |Print(t)|)
    ensures Reads(s, p, t, c)
    decreases t, 0
  {
    PairAt(s, p, t.left, ";", t.right);
    var e := p + |Paren(t.left)|;
    var x := OperandTree(s, p, t.left);
    var y := OperandTree(s, e + 1, t.right);
    ListParse(s, p, e, x, y, e + 1 + |Paren(t.right)|);
    c := List(x, y);
  }

  lemma BackTree(s: string, p: nat, t: Tree) returns (c: Cmd)
    requires t.TBack? && Good(t) && At(s, p, Print(t)) && Stop(s, p + |Print(t)|)
    ensures Reads(s, p, t, c)
    decreases t, 0
  {
    var e := p + |Paren(t.cmd)|;
    AtSplit(s, p, Paren(t.cmd), "&");
    AtFirst(s, e, "&");
    var x := OperandTree(s, p, t.cmd);
    BackParse(s, p, e, x);
    c := Back(x);
  }

  lemma ExecTree(s: string, p: nat, words: seq<string>) returns (c: Cmd)
    requires At(s, p, Spaced(words)) && Stop(s, p + |Spaced(words)|) && |words| < MAXARGS && GoodWords(words)
    ensures Reads(s, p, TExec(words), c)
  {
    ExecPrint(s, p, words);
    c := ParseLine(s, p).cmd;
  }

  lemma {:induction false} LinePrint(s: string, p: nat, t: Tree) returns (c: Cmd)
    requires Good(t) && At(s, p, Print(t)) && Stop(s, p + |Print(t)|)
    ensures Reads(s, p, t, c)
    decreases t, 1
  {
    match t
    case TExec(words) =>
      c := ExecTree(s, p, words);
    case TRedir(_, _, _) => c := RedirTree(s, p, t);
    case TPipe(_, _) => c := PipeTree(s, p, t);
    case TList(_, _) => c := ListTree(s, p, t);
    case TBack(_) => c := BackTree(s, p, t);
  }

  lemma {:induction false} InsidePrint(s: string, p: nat, t: Tree) returns (n: nat, c: Cmd)
    requires Good(t) && At(s, p, Paren(t))
    ensures Inside(s, p, n, t, c)
    decreases t, 2
  {
    ParenAt(s, p, t);
    n := p + 1 + |Print(t)|;
    c := LinePrint(s, p + 1, t);
  }

  /** Parsing what was printed rebuilds the tree. */
  lemma RoundTrip(t: Tree)
    requires Good(t)
    ensures var r := ParseCmd(Print(t)); r.Ok? && Means(Print(t), r.cmd, t)
  {
    var s := Print(t);
    assert At(s, 0, s);
    var c := LinePrint(s, 0, t);
    assert Unfold(0);
  }
}
