/** The language the shell's parser accepts, user/sh.c, as a grammar over tokens:

      line   = pipe '&'* [ ';' line ]
      pipe   = simple [ '|' pipe ]
      simple = redir* ( word redir* )*          at most nine words
             | '(' line ')' redir*
      redir  = ( '<' | '>' | '>>' ) word

    White space may stand between any two tokens.  A derivation is a value of the types below; the
    parser of module Shell succeeds exactly on the lines that have one, with the tree it describes. */
module ShellGrammar {
  import opened Shell

  // ---------- tokens of a line ----------

  /** W is a word, S one of the single-character symbols, D stands for >>. */
  datatype Tok = W(span: Span) | S(c: char) | D

  function TokOf(t: Lexed): Tok {
    match t.tok
    case Symbol(c) => S(c)
    case Twice => D
    case _ => W(t.span)
  }

  /** What gettoken delivers from p on. */
  function Lex(s: string, p: nat): seq<Tok>
    requires p <= |s|
    decreases |s| - p
  {
    var t := GetToken(s, p);
    if t.tok == End then [] else [TokOf(t)] + Lex(s, t.next)
  }

  predicate Starts(toks: seq<Tok>, c: char) {
    toks != [] && toks[0] == S(c)
  }

  predicate StartsRedir(toks: seq<Tok>) {
    Starts(toks, '<') || Starts(toks, '>') || (toks != [] && toks[0] == D)
  }

  /** A simple command ends here. */
  predicate Ends(toks: seq<Tok>) {
    toks == [] || Starts(toks, '|') || EndsPipe(toks)
  }

  predicate EndsPipe(toks: seq<Tok>) {
    Starts(toks, '&') || Starts(toks, ';') || EndsLine(toks)
  }

  predicate EndsLine(toks: seq<Tok>) {
    toks == [] || Starts(toks, ')')
  }

  /** peek sees the first character of the next token. */
  lemma PeekToken(s: string, p: nat)
    requires p <= |s|
    ensures Lex(s, p) == [] <==> Skip(s, p) == |s|
    ensures RedirAhead(s, p) <==> StartsRedir(Lex(s, p))
    ensures Ahead(s, p) == '(' <==> Starts(Lex(s, p), '(')
    ensures Ahead(s, p) == ')' <==> Starts(Lex(s, p), ')')
    ensures Ahead(s, p) == '|' <==> Starts(Lex(s, p), '|')
    ensures Ahead(s, p) == '&' <==> Starts(Lex(s, p), '&')
    ensures Ahead(s, p) == ';' <==> Starts(Lex(s, p), ';')
  {
  }

  // Left keeps Lex under a quantifier, as LineIs and ExecIs keep the parser's results.

  /** The tokens from p on are toks. */
  ghost predicate Left(s: string, p: nat, toks: seq<Tok>) {
    p <= |s| && forall k: int :: Unfold(k) ==> Lex(s, p) == toks
  }

  lemma Peel(s: string, p: nat, x: Tok, rest: seq<Tok>)
    requires Left(s, p, [x] + rest)
    ensures var t := GetToken(s, p);
            t.tok != End && TokOf(t) == x && Left(s, t.next, rest)
  {
    assert Unfold(0);
    assert ([x] + rest)[1..] == rest;
  }

  lemma Peek(s: string, p: nat, toks: seq<Tok>)
    requires Left(s, p, toks)
    ensures Left(s, Skip(s, p), toks) && GetToken(s, Skip(s, p)) == GetToken(s, p)
    ensures toks == [] <==> Skip(s, p) == |s|
    ensures RedirAhead(s, p) <==> StartsRedir(toks)
    ensures Ahead(s, p) == '(' <==> Starts(toks, '(')
    ensures Ahead(s, p) == ')' <==> Starts(toks, ')')
    ensures Ahead(s, p) == '|' <==> Starts(toks, '|')
    ensures Ahead(s, p) == '&' <==> Starts(toks, '&')
    ensures Ahead(s, p) == ';' <==> Starts(toks, ';')
  {
    assert Unfold(0);
    PeekToken(s, p);
    SkipTwice(s, p);
  }

  // ---------- derivations ----------

  datatype Arg = Arg(word: Span, after: seq<Redirection>)
  datatype Simple = Words(lead: seq<Redirection>, args: seq<Arg>) | Group(line: Line, after: seq<Redirection>)
  datatype Pipeline = One(cmd: Simple) | Piped(cmd: Simple, more: Pipeline)
  datatype Line = Last(pipe: Pipeline, backs: nat) | Then(pipe: Pipeline, backs: nat, rest: Line)

  function RedirToks(r: Redirection): seq<Tok> {
    [match r.mode case Input => S('<') case Output => S('>') case Append => D, W(r.file)]
  }

  function RedirsToks(rs: seq<Redirection>): seq<Tok> {
    if rs == [] then [] else RedirToks(rs[0]) + RedirsToks(rs[1..])
  }

  function ArgsToks(args: seq<Arg>): seq<Tok> {
    if args == [] then [] else [W(args[0].word)] + RedirsToks(args[0].after) + ArgsToks(args[1..])
  }

  function SimpleToks(d: Simple): seq<Tok> {
    match d
    case Words(lead, args) => RedirsToks(lead) + ArgsToks(args)
    case Group(line, after) => [S('(')] + LineToks(line) + [S(')')] + RedirsToks(after)
  }

  function PipeToks(d: Pipeline): seq<Tok> {
    match d
    case One(cmd) => SimpleToks(cmd)
    case Piped(cmd, more) => SimpleToks(cmd) + [S('|')] + PipeToks(more)
  }

  function Ands(n: nat): seq<Tok> {
    seq(n, _ => S('&'))
  }

  function LineToks(d: Line): seq<Tok> {
    match d
    case Last(pipe, backs) => PipeToks(pipe) + Ands(backs)
    case Then(pipe, backs, rest) => PipeToks(pipe) + Ands(backs) + [S(';')] + LineToks(rest)
  }

  // ---------- what they mean ----------

  function Spans(args: seq<Arg>): seq<Span> {
    if args == [] then [] else [args[0].word] + Spans(args[1..])
  }

  function Redirections(args: seq<Arg>): seq<Redirection> {
    if args == [] then [] else args[0].after + Redirections(args[1..])
  }

  /** The command with the words and redirections of args after those that went before. */
  function ArgsMeaning(words: seq<Span>, rs: seq<Redirection>, args: seq<Arg>): Cmd {
    Wrap(Exec(words + Spans(args)), rs + Redirections(args))
  }

  lemma NoArgsMeaning(words: seq<Span>, rs: seq<Redirection>)
    ensures ArgsMeaning(words, rs, []) == Wrap(Exec(words), rs)
  {
    assert words + [] == words && rs + [] == rs;
  }

  lemma MoreArgsMeaning(words: seq<Span>, rs: seq<Redirection>, arg: Arg, args: seq<Arg>)
    ensures ArgsMeaning(words, rs, [arg] + args) == ArgsMeaning(words + [arg.word], rs + arg.after, args)
  {
    assert ([arg] + args)[1..] == args;
    assert words + Spans([arg] + args) == words + [arg.word] + Spans(args);
    assert rs + Redirections([arg] + args) == rs + arg.after + Redirections(args);
  }

  function SimpleMeaning(d: Simple): Cmd {
    match d
    case Words(lead, args) => ArgsMeaning([], lead, args)
    case Group(line, after) => Wrap(LineMeaning(line), after)
  }

  function PipeMeaning(d: Pipeline): Cmd {
    match d
    case One(cmd) => SimpleMeaning(cmd)
    case Piped(cmd, more) => Pipe(SimpleMeaning(cmd), PipeMeaning(more))
  }

  function Backs(c: Cmd, n: nat): Cmd
    decreases n
  {
    if n == 0 then c else Backs(Back(c), n - 1)
  }

  function LineMeaning(d: Line): Cmd {
    match d
    case Last(pipe, backs) => Backs(PipeMeaning(pipe), backs)
    case Then(pipe, backs, rest) => List(Backs(PipeMeaning(pipe), backs), LineMeaning(rest))
  }

  /** No simple command has more than nine words. */
  predicate SimpleShort(d: Simple) {
    match d
    case Words(_, args) => |args| < MAXARGS
    case Group(line, _) => LineShort(line)
  }

  predicate PipeShort(d: Pipeline) {
    SimpleShort(d.cmd) && (d.Piped? ==> PipeShort(d.more))
  }

  predicate LineShort(d: Line) {
    PipeShort(d.pipe) && (d.Then? ==> LineShort(d.rest))
  }

  // ---------- every derivation is parsed ----------

  ghost predicate RedirsAre(s: string, p: nat, rs: seq<Redirection>, q: nat) {
    p <= |s| && forall k: int :: Unfold(k) ==> ParseRedirs(s, p) == Redirs(rs, q)
  }

  ghost predicate ArgsAre(s: string, p: nat, args: seq<Span>, rs: seq<Redirection>, c: Cmd, q: nat) {
    p <= |s| && forall k: int :: Unfold(k) ==> ParseArgs(s, p, args, rs) == Ok(c, q)
  }

  ghost predicate PipeIs(s: string, p: nat, c: Cmd, q: nat) {
    p <= |s| && forall k: int :: Unfold(k) ==> ParsePipe(s, p) == Ok(c, q)
  }

  ghost predicate BacksAre(s: string, p: nat, c: Cmd, b: Cmd, q: nat) {
    p <= |s| && forall k: int :: Unfold(k) ==> ParseBacks(s, p, c) == Ok(b, q)
  }

  // One unfolding of each parsing function.

  lemma RedirsStop(s: string, p: nat)
    requires p <= |s| && !RedirAhead(s, p)
    ensures RedirsAre(s, p, [], Skip(s, p))
  {
  }

  lemma RedirsGo(s: string, p: nat, rs: seq<Redirection>, q: nat)
    requires p <= |s| && RedirAhead(s, p) && GetToken(s, Skip(s, p)) == GetToken(s, p)
    requires var f := GetToken(s, GetToken(s, p).next);
             f.tok == Word && RedirsAre(s, f.next, rs, q)
    ensures var t := GetToken(s, p);
            RedirsAre(s, p, [Redirection(GetToken(s, t.next).span, ModeOf(t.tok))] + rs, q)
  {
    assert Unfold(0);
  }

  lemma ArgsStop(s: string, p: nat, args: seq<Span>, rs: seq<Redirection>)
    requires p <= |s| && (StopAhead(s, p) || Skip(s, p) == |s|) && GetToken(s, Skip(s, p)) == GetToken(s, p)
    ensures ArgsAre(s, p, args, rs, Wrap(Exec(args), rs), Skip(s, p))
  {
  }

  lemma ArgsGo(s: string, p: nat, args: seq<Span>, rs: seq<Redirection>, after: seq<Redirection>, m: nat, c: Cmd,
               q: nat)
    requires p <= |s| && !StopAhead(s, p) && GetToken(s, Skip(s, p)) == GetToken(s, p) && GetToken(s, p).tok == Word
    requires |args| + 1 < MAXARGS && RedirsAre(s, GetToken(s, p).next, after, m)
    requires ArgsAre(s, m, args + [GetToken(s, p).span], rs + after, c, q)
    ensures ArgsAre(s, p, args, rs, c, q)
  {
    assert Unfold(0);
  }

  lemma ExecOfArgs(s: string, p: nat, lead: seq<Redirection>, m: nat, c: Cmd, q: nat)
    requires p <= |s| && Ahead(s, p) != '(' && RedirsAre(s, p, lead, m) && ArgsAre(s, m, [], lead, c, q)
    ensures ExecIs(s, p, c, q)
  {
    assert Unfold(0);
  }

  lemma ExecOfGroup(s: string, p: nat, c: Cmd, m: nat, after: seq<Redirection>, q: nat)
    requires p <= |s| && Ahead(s, p) == '(' && GetToken(s, Skip(s, p)) == GetToken(s, p)
    requires LineIs(s, GetToken(s, p).next, c, m) && m <= |s| && Ahead(s, m) == ')'
             && RedirsAre(s, GetToken(s, m).next, after, q)
    ensures ExecIs(s, p, Wrap(c, after), q)
  {
    assert Unfold(0);
    SkipTwice(s, p);
    assert Ahead(s, Skip(s, p)) == '(';
  }

  lemma PipeOfOne(s: string, p: nat, c: Cmd, m: nat)
    requires ExecIs(s, p, c, m) && m <= |s| && Ahead(s, m) != '|'
    ensures PipeIs(s, p, c, Skip(s, m))
  {
    assert Unfold(0);
  }

  lemma PipeOfMore(s: string, p: nat, c: Cmd, m: nat, more: Cmd, q: nat)
    requires ExecIs(s, p, c, m) && m <= |s| && Ahead(s, m) == '|' && PipeIs(s, GetToken(s, m).next, more, q)
    ensures PipeIs(s, p, Pipe(c, more), q)
  {
    assert Unfold(0);
  }

  lemma BacksStop(s: string, p: nat, c: Cmd)
    requires p <= |s| && Ahead(s, p) != '&'
    ensures BacksAre(s, p, c, c, Skip(s, p))
  {
  }

  lemma BacksGo(s: string, p: nat, c: Cmd, b: Cmd, q: nat)
    requires p <= |s| && Ahead(s, p) == '&' && BacksAre(s, GetToken(s, p).next, Back(c), b, q)
    ensures BacksAre(s, p, c, b, q)
  {
    assert Unfold(0);
  }

  lemma LineOfLast(s: string, p: nat, c: Cmd, m: nat, b: Cmd, e: nat)
    requires PipeIs(s, p, c, m) && BacksAre(s, m, c, b, e) && e <= |s| && Ahead(s, e) != ';'
    ensures LineIs(s, p, b, Skip(s, e))
  {
    assert Unfold(0);
  }

  lemma LineOfMore(s: string, p: nat, c: Cmd, m: nat, b: Cmd, e: nat, rest: Cmd, q: nat)
    requires PipeIs(s, p, c, m) && BacksAre(s, m, c, b, e) && e <= |s| && Ahead(s, e) == ';'
    requires LineIs(s, GetToken(s, e).next, rest, q)
    ensures LineIs(s, p, List(b, rest), q)
  {
    assert Unfold(0);
  }

  // Along a derivation.

  lemma {:induction false} RedirsParsed(s: string, p: nat, rs: seq<Redirection>, rest: seq<Tok>) returns (q: nat)
    requires Left(s, p, RedirsToks(rs) + rest) && !StartsRedir(rest)
    ensures RedirsAre(s, p, rs, q) && Left(s, q, rest)
    decreases |rs|
  {
    Peek(s, p, RedirsToks(rs) + rest);
    if rs == [] {
      assert RedirsToks(rs) + rest == rest;
      q := Skip(s, p);
      RedirsStop(s, p);
    } else {
      var after := RedirsToks(rs[1..]) + rest;
      var op, file := RedirToks(rs[0])[0], W(rs[0].file);
      assert RedirsToks(rs) + rest == [op] + ([file] + after);
      Peel(s, p, op, [file] + after);
      var t := GetToken(s, p);
      Peel(s, t.next, file, after);
      var f := GetToken(s, t.next);
      q := RedirsParsed(s, f.next, rs[1..], rest);
      RedirsGo(s, p, rs[1..], q);
      assert [rs[0]] + rs[1..] == rs && rs[0] == Redirection(f.span, ModeOf(t.tok));
    }
  }

  lemma {:induction false} ArgsParsed(s: string, p: nat, args: seq<Arg>, rest: seq<Tok>, done: seq<Span>,
                                      rs: seq<Redirection>) returns (q: nat)
    requires Left(s, p, ArgsToks(args) + rest) && Ends(rest) && |done| + |args| < MAXARGS
    ensures ArgsAre(s, p, done, rs, ArgsMeaning(done, rs, args), q) && Left(s, q, rest)
    decreases |args|
  {
    Peek(s, p, ArgsToks(args) + rest);
    if args == [] {
      assert ArgsToks(args) + rest == rest;
      NoArgsMeaning(done, rs);
      q := Skip(s, p);
      ArgsStop(s, p, done, rs);
    } else {
      var word, after, more := args[0].word, args[0].after, args[1..];
      var tail := ArgsToks(more) + rest;
      assert ArgsToks(args) + rest == [W(word)] + (RedirsToks(after) + tail);
      Peel(s, p, W(word), RedirsToks(after) + tail);
      NoRedirAhead(more, rest);
      var m := RedirsParsed(s, GetToken(s, p).next, after, tail);
      q := ArgsParsed(s, m, more, rest, done + [word], rs + after);
      assert [args[0]] + more == args;
      MoreArgsMeaning(done, rs, args[0], more);
      ArgsGo(s, p, done, rs, after, m, ArgsMeaning(done, rs, args), q);
    }
  }

  lemma NoRedirAhead(args: seq<Arg>, rest: seq<Tok>)
    requires Ends(rest)
    ensures !StartsRedir(ArgsToks(args) + rest) && !Starts(ArgsToks(args) + rest, '(')
  {
  }

  lemma NoGroupAhead(lead: seq<Redirection>, rest: seq<Tok>)
    requires !Starts(rest, '(')
    ensures !Starts(RedirsToks(lead) + rest, '(')
  {
  }

  lemma WordsParsed(s: string, p: nat, d: Simple, rest: seq<Tok>) returns (q: nat)
    requires d.Words? && Left(s, p, SimpleToks(d) + rest) && Ends(rest) && SimpleShort(d)
    ensures ExecIs(s, p, SimpleMeaning(d), q) && Left(s, q, rest)
  {
    var lead, args := d.lead, d.args;
    var after := ArgsToks(args) + rest;
    assert SimpleToks(d) + rest == RedirsToks(lead) + after;
    Peek(s, p, RedirsToks(lead) + after);
    NoRedirAhead(args, rest);
    NoGroupAhead(lead, after);
    var m := RedirsParsed(s, p, lead, after);
    q := ArgsParsed(s, m, args, rest, [], lead);
    ExecOfArgs(s, p, lead, m, SimpleMeaning(d), q);
  }

  lemma {:induction false} GroupParsed(s: string, p: nat, d: Simple, rest: seq<Tok>) returns (q: nat)
    requires d.Group? && Left(s, p, SimpleToks(d) + rest) && Ends(rest) && SimpleShort(d)
    ensures ExecIs(s, p, SimpleMeaning(d), q) && Left(s, q, rest)
    decreases d, 0
  {
    var close := RedirsToks(d.after) + rest;
    var tail := [S(')')] + close;
    assert SimpleToks(d) + rest == [S('(')] + (LineToks(d.line) + tail);
    Peek(s, p, [S('(')] + (LineToks(d.line) + tail));
    Peel(s, p, S('('), LineToks(d.line) + tail);
    var m := LineParsed(s, GetToken(s, p).next, d.line, tail);
    Peek(s, m, tail);
    Peel(s, m, S(')'), close);
    q := RedirsParsed(s, GetToken(s, m).next, d.after, rest);
    ExecOfGroup(s, p, LineMeaning(d.line), m, d.after, q);
  }

  lemma {:induction false} PipeParsed(s: string, p: nat, d: Pipeline, rest: seq<Tok>) returns (q: nat)
    requires Left(s, p, PipeToks(d) + rest) && EndsPipe(rest) && PipeShort(d)
    ensures PipeIs(s, p, PipeMeaning(d), q) && Left(s, q, rest)
    decreases d, 1
  {
    var after := if d.One? then rest else [S('|')] + (PipeToks(d.more) + rest);
    assert PipeToks(d) + rest == SimpleToks(d.cmd) + after;
    var m;
    if d.cmd.Words? { m := WordsParsed(s, p, d.cmd, after); } else { m := GroupParsed(s, p, d.cmd, after); }
    Peek(s, m, after);
    if d.One? {
      q := Skip(s, m);
      PipeOfOne(s, p, SimpleMeaning(d.cmd), m);
    } else {
      Peel(s, m, S('|'), PipeToks(d.more) + rest);
      q := PipeParsed(s, GetToken(s, m).next, d.more, rest);
      PipeOfMore(s, p, SimpleMeaning(d.cmd), m, PipeMeaning(d.more), q);
    }
  }

  lemma {:induction false} BacksParsed(s: string, p: nat, c: Cmd, n: nat, rest: seq<Tok>) returns (q: nat)
    requires Left(s, p, Ands(n) + rest) && !Starts(rest, '&')
    ensures BacksAre(s, p, c, Backs(c, n), q) && Left(s, q, rest)
    decreases n
  {
    Peek(s, p, Ands(n) + rest);
    if n == 0 {
      assert Ands(n) + rest == rest;
      q := Skip(s, p);
      BacksStop(s, p, c);
    } else {
      assert Ands(n) + rest == [S('&')] + (Ands(n - 1) + rest);
      Peel(s, p, S('&'), Ands(n - 1) + rest);
      q := BacksParsed(s, GetToken(s, p).next, Back(c), n - 1, rest);
      BacksGo(s, p, c, Backs(c, n), q);
    }
  }

  lemma {:induction false} LineParsed(s: string, p: nat, d: Line, rest: seq<Tok>) returns (q: nat)
    requires Left(s, p, LineToks(d) + rest) && EndsLine(rest) && LineShort(d)
    ensures LineIs(s, p, LineMeaning(d), q) && Left(s, q, rest)
    decreases d, 2
  {
    var after := if d.Last? then rest else [S(';')] + (LineToks(d.rest) + rest);
    assert LineToks(d) + rest == PipeToks(d.pipe) + (Ands(d.backs) + after);
    var c := PipeMeaning(d.pipe);
    var m := PipeParsed(s, p, d.pipe, Ands(d.backs) + after);
    var e := BacksParsed(s, m, c, d.backs, after);
    Peek(s, e, after);
    if d.Last? {
      q := Skip(s, e);
      LineOfLast(s, p, c, m, Backs(c, d.backs), e);
    } else {
      Peel(s, e, S(';'), LineToks(d.rest) + rest);
      q := LineParsed(s, GetToken(s, e).next, d.rest, rest);
      LineOfMore(s, p, c, m, Backs(c, d.backs), e, LineMeaning(d.rest), q);
    }
  }

  // ---------- whatever is parsed has a derivation ----------

  /** From p to q stand the tokens toks. */
  ghost predicate Between(s: string, p: nat, toks: seq<Tok>, q: nat) {
    p <= |s| && q <= |s| && forall k: int :: Unfold(k) ==> Lex(s, p) == toks + Lex(s, q)
  }

  lemma Nothing(s: string, p: nat)
    requires p <= |s|
    ensures Between(s, p, [], Skip(s, p))
  {
    LexSkip(s, p);
  }

  lemma LexSkip(s: string, p: nat)
    requires p <= |s|
    ensures Lex(s, Skip(s, p)) == Lex(s, p)
  {
    SkipTwice(s, p);
  }

  /** One token. */
  lemma Single(s: string, p: nat)
    requires p <= |s| && GetToken(s, p).tok != End
    ensures Between(s, p, [TokOf(GetToken(s, p))], GetToken(s, p).next)
  {
  }

  lemma Joined(s: string, p: nat, a: seq<Tok>, m: nat, b: seq<Tok>, q: nat)
    requires Between(s, p, a, m) && Between(s, m, b, q)
    ensures Between(s, p, a + b, q)
  {
    assert Unfold(0);
    assert a + (b + Lex(s, q)) == a + b + Lex(s, q);
  }

  /** The symbol that peek saw. */
  lemma Symbolic(s: string, p: nat, c: char)
    requires p <= |s| && Ahead(s, p) == c && (c == '(' || c == ')' || c == '|' || c == '&' || c == ';')
    ensures GetToken(s, p).next > p && Between(s, p, [S(c)], GetToken(s, p).next)
  {
    Single(s, p);
  }

  lemma {:induction false} RedirsFound(s: string, p: nat)
    requires p <= |s| && ParseRedirs(s, p).Redirs?
    ensures Between(s, p, RedirsToks(ParseRedirs(s, p).rs), ParseRedirs(s, p).pos)
    decreases |s| - p
  {
    if !RedirAhead(s, p) {
      Nothing(s, p);
    } else {
      SkipTwice(s, p);
      var t := GetToken(s, p);
      var f := GetToken(s, t.next);
      Single(s, p);
      Single(s, t.next);
      RedirsFound(s, f.next);
      var r, rest := Redirection(f.span, ModeOf(t.tok)), ParseRedirs(s, f.next);
      var rs := [r] + rest.rs;
      assert rs[1..] == rest.rs && rs[0] == r;
      assert [TokOf(t)] + [TokOf(f)] == RedirToks(r);
      Joined(s, p, [TokOf(t)], t.next, [TokOf(f)], f.next);
      Joined(s, p, RedirToks(r), f.next, RedirsToks(rest.rs), rest.pos);
    }
  }

  lemma ArgsClosed(s: string, p: nat, done: seq<Span>, rs: seq<Redirection>, c: Cmd, q: nat)
    requires ArgsAre(s, p, done, rs, c, q) && (StopAhead(s, p) || GetToken(s, p).tok == End)
    ensures c == Wrap(Exec(done), rs) && q == Skip(s, p)
  {
    assert Unfold(0);
    SkipTwice(s, p);
  }

  lemma ArgsOpen(s: string, p: nat, done: seq<Span>, rs: seq<Redirection>, c: Cmd, q: nat)
    returns (after: seq<Redirection>, m: nat)
    requires ArgsAre(s, p, done, rs, c, q) && !StopAhead(s, p) && GetToken(s, p).tok != End
    ensures var t := GetToken(s, p);
            t.tok == Word && |done| + 1 < MAXARGS && p < m <= |s|
            && ParseRedirs(s, t.next) == Redirs(after, m) && ArgsAre(s, m, done + [t.span], rs + after, c, q)
  {
    assert Unfold(0);
    SkipTwice(s, p);
    var more := ParseRedirs(s, GetToken(s, p).next);
    after, m := more.rs, more.pos;
  }

  lemma {:induction false} ArgsFound(s: string, p: nat, done: seq<Span>, rs: seq<Redirection>, c: Cmd, q: nat)
    returns (args: seq<Arg>)
    requires ArgsAre(s, p, done, rs, c, q) && |done| < MAXARGS
    ensures Between(s, p, ArgsToks(args), q) && |done| + |args| < MAXARGS
    ensures c == ArgsMeaning(done, rs, args)
    decreases |s| - p
  {
    if StopAhead(s, p) || GetToken(s, p).tok == End {
      args := [];
      ArgsClosed(s, p, done, rs, c, q);
      Nothing(s, p);
      NoArgsMeaning(done, rs);
    } else {
      var word := GetToken(s, p).span;
      var after, m := ArgsOpen(s, p, done, rs, c, q);
      var rest := ArgsFound(s, m, done + [word], rs + after, c, q);
      args := [Arg(word, after)] + rest;
      ArgJoined(s, p, after, m, rest, q);
      MoreArgsMeaning(done, rs, Arg(word, after), rest);
    }
  }

  lemma ArgJoined(s: string, p: nat, after: seq<Redirection>, m: nat, rest: seq<Arg>, q: nat)
    requires p <= |s| && GetToken(s, p).tok == Word && ParseRedirs(s, GetToken(s, p).next) == Redirs(after, m)
    requires Between(s, m, ArgsToks(rest), q)
    ensures Between(s, p, ArgsToks([Arg(GetToken(s, p).span, after)] + rest), q)
  {
    var t := GetToken(s, p);
    var args := [Arg(t.span, after)] + rest;
    assert args[1..] == rest;
    Single(s, p);
    RedirsFound(s, t.next);
    Joined(s, p, [W(t.span)], t.next, RedirsToks(after), m);
    Joined(s, p, [W(t.span)] + RedirsToks(after), m, ArgsToks(rest), q);
  }

  lemma WordsFound(s: string, p: nat) returns (d: Simple)
    requires p <= |s| && ParseExec(s, p).Ok? && Ahead(s, p) != '('
    ensures Between(s, p, SimpleToks(d), ParseExec(s, p).pos) && SimpleMeaning(d) == ParseExec(s, p).cmd
            && SimpleShort(d)
  {
    var first := ParseRedirs(s, p);
    RedirsFound(s, p);
    var args := ArgsFound(s, first.pos, [], first.rs, ParseExec(s, p).cmd, ParseExec(s, p).pos);
    d := Words(first.rs, args);
    Joined(s, p, RedirsToks(first.rs), first.pos, ArgsToks(args), ParseExec(s, p).pos);
  }

  lemma {:induction false} GroupFound(s: string, p: nat) returns (d: Simple)
    requires p <= |s| && ParseExec(s, p).Ok? && Ahead(s, p) == '('
    ensures Between(s, p, SimpleToks(d), ParseExec(s, p).pos) && SimpleMeaning(d) == ParseExec(s, p).cmd
            && SimpleShort(d)
    decreases |s| - p, 0
  {
    SkipTwice(s, p);
    Symbolic(s, p, '(');
    var open := GetToken(s, p).next;
    var line := LineFound(s, open);
    var m := ParseLine(s, open).pos;
    Symbolic(s, m, ')');
    var close := GetToken(s, m).next;
    var after := ParseRedirs(s, close);
    RedirsFound(s, close);
    d := Group(line, after.rs);
    Joined(s, p, [S('(')], open, LineToks(line), m);
    Joined(s, p, [S('(')] + LineToks(line), m, [S(')')], close);
    Joined(s, p, [S('(')] + LineToks(line) + [S(')')], close, RedirsToks(after.rs), after.pos);
  }

  lemma {:induction false} PipeFound(s: string, p: nat) returns (d: Pipeline)
    requires p <= |s| && ParsePipe(s, p).Ok?
    ensures Between(s, p, PipeToks(d), ParsePipe(s, p).pos) && PipeMeaning(d) == ParsePipe(s, p).cmd && PipeShort(d)
    decreases |s| - p, 1
  {
    var cmd;
    if Ahead(s, p) == '(' { cmd := GroupFound(s, p); } else { cmd := WordsFound(s, p); }
    var m := ParseExec(s, p).pos;
    if Ahead(s, m) != '|' {
      d := One(cmd);
      Nothing(s, m);
      assert SimpleToks(cmd) + [] == SimpleToks(cmd);
      Joined(s, p, SimpleToks(cmd), m, [], Skip(s, m));
    } else {
      Symbolic(s, m, '|');
      var bar := GetToken(s, m).next;
      var more := PipeFound(s, bar);
      d := Piped(cmd, more);
      Joined(s, p, SimpleToks(cmd), m, [S('|')], bar);
      Joined(s, p, SimpleToks(cmd) + [S('|')], bar, PipeToks(more), ParsePipe(s, bar).pos);
    }
  }

  lemma {:induction false} BacksFound(s: string, p: nat, c: Cmd) returns (n: nat)
    requires p <= |s|
    ensures Between(s, p, Ands(n), ParseBacks(s, p, c).pos) && Backs(c, n) == ParseBacks(s, p, c).cmd
    decreases |s| - p
  {
    if Ahead(s, p) == '&' {
      Symbolic(s, p, '&');
      var next := GetToken(s, p).next;
      var k := BacksFound(s, next, Back(c));
      n := k + 1;
      assert [S('&')] + Ands(k) == Ands(n);
      Joined(s, p, [S('&')], next, Ands(k), ParseBacks(s, next, Back(c)).pos);
    } else {
      n := 0;
      Nothing(s, p);
    }
  }

  lemma {:induction false} LineFound(s: string, p: nat) returns (d: Line)
    requires p <= |s| && ParseLine(s, p).Ok?
    ensures Between(s, p, LineToks(d), ParseLine(s, p).pos) && LineMeaning(d) == ParseLine(s, p).cmd && LineShort(d)
    decreases |s| - p, 2
  {
    var pipe := PipeFound(s, p);
    var first := ParsePipe(s, p);
    var n := BacksFound(s, first.pos, first.cmd);
    var e := ParseBacks(s, first.pos, first.cmd).pos;
    Joined(s, p, PipeToks(pipe), first.pos, Ands(n), e);
    var front := PipeToks(pipe) + Ands(n);
    if Ahead(s, e) != ';' {
      d := Last(pipe, n);
      Nothing(s, e);
      assert front + [] == front;
      Joined(s, p, front, e, [], Skip(s, e));
    } else {
      Symbolic(s, e, ';');
      var semi := GetToken(s, e).next;
      var rest := LineFound(s, semi);
      d := Then(pipe, n, rest);
      Joined(s, p, front, e, [S(';')], semi);
      Joined(s, p, front + [S(';')], semi, LineToks(rest), ParseLine(s, semi).pos);
    }
  }

  // ---------- the order of redirections ----------

  /** The redirections around a command, the innermost first, and the command inside. */
  function Around(c: Cmd): seq<Redirection> {
    if c.Redir? then Around(c.cmd) + [Redirection(c.file, c.mode)] else []
  }

  function Inside(c: Cmd): Cmd {
    if c.Redir? then Inside(c.cmd) else c
  }

  lemma {:induction false} WrapAround(c: Cmd, rs: seq<Redirection>)
    ensures Around(Wrap(c, rs)) == Around(c) + rs && Inside(Wrap(c, rs)) == Inside(c)
  {
    if rs == [] {
      assert Around(c) + [] == Around(c);
    } else {
      var rest, last := rs[..|rs| - 1], rs[|rs| - 1];
      WrapAround(c, rest);
      assert rest + [last] == rs;
      assert Around(c) + rest + [last] == Around(c) + rs;
    }
  }

  /** The redirection tokens in a list of tokens: an operator and the word after it. */
  function RedirsIn(toks: seq<Tok>): seq<Redirection> {
    if |toks| < 2 then []
    else if StartsRedir(toks) && toks[1].W? then [Redirection(toks[1].span, ModeOfTok(toks[0]))] + RedirsIn(toks[2..])
    else RedirsIn(toks[1..])
  }

  function ModeOfTok(t: Tok): Mode {
    if t == D then Append else if t == S('<') then Input else Output
  }

  /** The other words. */
  function WordsIn(toks: seq<Tok>): seq<Span> {
    if toks == [] then []
    else if StartsRedir(toks) then (if |toks| < 2 then [] else WordsIn(toks[2..]))
    else (if toks[0].W? then [toks[0].span] else []) + WordsIn(toks[1..])
  }

  lemma RedirFirst(r: Redirection, more: seq<Tok>, rs: seq<Redirection>)
    requires RedirsIn(more) == rs
    ensures RedirsIn(RedirToks(r) + more) == [r] + rs
  {
    assert (RedirToks(r) + more)[2..] == more;
  }

  lemma NoWord(r: Redirection, more: seq<Tok>, ws: seq<Span>)
    requires WordsIn(more) == ws
    ensures WordsIn(RedirToks(r) + more) == ws
  {
    assert (RedirToks(r) + more)[2..] == more;
  }

  lemma {:induction false} RedirsFirst(rs: seq<Redirection>, rest: seq<Tok>, after: seq<Redirection>)
    requires RedirsIn(rest) == after
    ensures RedirsIn(RedirsToks(rs) + rest) == rs + after
  {
    if rs == [] {
      assert RedirsToks(rs) + rest == rest && rs + after == after;
    } else {
      var more := RedirsToks(rs[1..]) + rest;
      assert RedirsToks(rs) + rest == RedirToks(rs[0]) + more;
      RedirsFirst(rs[1..], rest, after);
      RedirFirst(rs[0], more, rs[1..] + after);
      assert [rs[0]] + (rs[1..] + after) == rs + after;
    }
  }

  lemma {:induction false} NoWords(rs: seq<Redirection>, rest: seq<Tok>, ws: seq<Span>)
    requires WordsIn(rest) == ws
    ensures WordsIn(RedirsToks(rs) + rest) == ws
  {
    if rs == [] {
      assert RedirsToks(rs) + rest == rest;
    } else {
      var more := RedirsToks(rs[1..]) + rest;
      assert RedirsToks(rs) + rest == RedirToks(rs[0]) + more;
      NoWords(rs[1..], rest, ws);
      NoWord(rs[0], more, ws);
    }
  }

  lemma {:induction false} ArgsInOrder(args: seq<Arg>)
    ensures RedirsIn(ArgsToks(args)) == Redirections(args) && WordsIn(ArgsToks(args)) == Spans(args)
  {
    if args != [] {
      var toks, more := ArgsToks(args), ArgsToks(args[1..]);
      var tail := RedirsToks(args[0].after) + more;
      assert toks == [W(args[0].word)] + tail && toks[1..] == tail;
      ArgsInOrder(args[1..]);
      RedirsFirst(args[0].after, more, Redirections(args[1..]));
      NoWords(args[0].after, more, Spans(args[1..]));
      if |toks| < 2 { assert tail == []; }
    }
  }

  /** A command of words runs with the words in their order, inside its redirections in theirs: the last
      one on the line is the outermost, wherever among the words it stands. */
  lemma SimpleInOrder(d: Simple)
    requires d.Words?
    ensures Around(SimpleMeaning(d)) == RedirsIn(SimpleToks(d))
    ensures Inside(SimpleMeaning(d)) == Exec(WordsIn(SimpleToks(d)))
  {
    ArgsInOrder(d.args);
    RedirsFirst(d.lead, ArgsToks(d.args), Redirections(d.args));
    NoWords(d.lead, ArgsToks(d.args), Spans(d.args));
    WrapAround(Exec([] + Spans(d.args)), d.lead + Redirections(d.args));
    assert [] + Spans(d.args) == Spans(d.args);
    assert [] + (d.lead + Redirections(d.args)) == d.lead + Redirections(d.args);
  }

  /** So does a parenthesised line: what follows it goes around whatever it is. */
  lemma GroupInOrder(d: Simple)
    requires d.Group?
    ensures Around(SimpleMeaning(d)) == Around(LineMeaning(d.line)) + RedirsIn(RedirsToks(d.after))
    ensures Inside(SimpleMeaning(d)) == Inside(LineMeaning(d.line))
  {
    WrapAround(LineMeaning(d.line), d.after);
    RedirsFirst(d.after, [], []);
    assert RedirsToks(d.after) + [] == RedirsToks(d.after) && d.after + [] == d.after;
  }

  // ---------- the theorem ----------

  /** d is a derivation of the whole line. */
  ghost predicate Derives(s: string, d: Line) {
    LineToks(d) == Lex(s, 0) && LineShort(d)
  }

  /** parsecmd accepts exactly the lines of the grammar, and builds the tree of the derivation. */
  lemma ParsesIff(s: string, c: Cmd)
    ensures ParseCmd(s) == Ok(c, |s|) <==> exists d: Line :: Derives(s, d) && LineMeaning(d) == c
  {
    if d: Line :| Derives(s, d) && LineMeaning(d) == c {
      Accepts(s, d);
    }
    if ParseCmd(s) == Ok(c, |s|) {
      var d := Explains(s);
      assert Derives(s, d) && LineMeaning(d) == c;
    }
  }

  lemma Accepts(s: string, d: Line)
    requires Derives(s, d)
    ensures ParseCmd(s) == Ok(LineMeaning(d), |s|)
  {
    assert LineToks(d) + [] == LineToks(d);
    var q := LineParsed(s, 0, d, []);
    Peek(s, q, []);
    assert Unfold(0);
  }

  lemma Explains(s: string) returns (d: Line)
    requires ParseCmd(s).Ok?
    ensures Derives(s, d) && LineMeaning(d) == ParseCmd(s).cmd
  {
    d := LineFound(s, 0);
    var q := ParseLine(s, 0).pos;
    PeekToken(s, q);
    assert Unfold(0);
    assert LineToks(d) + [] == LineToks(d);
  }

  /** No line has two meanings. */
  lemma Unambiguous(s: string, d: Line, e: Line)
    requires Derives(s, d) && Derives(s, e)
    ensures LineMeaning(d) == LineMeaning(e)
  {
    Accepts(s, d);
    Accepts(s, e);
  }
}
