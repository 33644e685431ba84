/** user/grep.c: the regular expression matcher and the line buffer.  C strings are sequences of
    characters without the final NUL. */
module Grep {

  // ---------- what a pattern means ----------

  datatype Atom = Any | Literal(c: char)
  datatype Item = One(a: Atom) | Star(a: Atom)
  datatype Pattern = Pattern(items: seq<Item>, atEnd: bool)

  function AtomOf(c: char): Atom {
    if c == '.' then Any else Literal(c)
  }

  predicate Fits(a: Atom, c: char) {
    a == Any || a == Literal(c)
  }

  /** A character followed by '*' is repeated, a final '$' is an anchor, everything else stands for
      itself; '*' and '$' elsewhere are ordinary, and "$*" repeats a dollar sign. */
  function Parse(re: seq<char>): Pattern {
    if re == [] then Pattern([], false)
    else if |re| > 1 && re[1] == '*' then
      var rest := Parse(re[2..]);
      Pattern([Star(AtomOf(re[0]))] + rest.items, rest.atEnd)
    else if re == "$" then Pattern([], true)
    else
      var rest := Parse(re[1..]);
      Pattern([One(AtomOf(re[0]))] + rest.items, rest.atEnd)
  }

  /** The language of a list of items. */
  ghost predicate Denotes(items: seq<Item>, w: seq<char>) {
    if items == [] then w == []
    else if items[0].One? then w != [] && Fits(items[0].a, w[0]) && Denotes(items[1..], w[1..])
    else exists n: nat :: Repeats(items[0].a, w, n) && Denotes(items[1..], w[n..])
  }

  predicate Repeats(a: Atom, w: seq<char>, n: nat) {
    n <= |w| && forall i: nat :: i < n ==> Fits(a, w[i])
  }

  /** Some prefix of text, all of it if the pattern ends in '$', is in the language. */
  ghost predicate MatchesHere(p: Pattern, text: seq<char>) {
    exists j: nat :: PrefixIn(p, text, j)
  }

  ghost predicate PrefixIn(p: Pattern, text: seq<char>, j: nat) {
    j <= |text| && (p.atEnd ==> j == |text|) && Denotes(p.items, text[..j])
  }

  /** Some substring is in the language, one at the start if the pattern begins with '^'. */
  ghost predicate Matches(re: seq<char>, text: seq<char>) {
    exists i: nat, j: nat :: SubstringIn(re, text, i, j)
  }

  ghost predicate SubstringIn(re: seq<char>, text: seq<char>, i: nat, j: nat) {
    var anchored := re != [] && re[0] == '^';
    var p := Parse(if anchored then re[1..] else re);
    && i <= j <= |text| && (anchored ==> i == 0) && (p.atEnd ==> j == |text|) && Denotes(p.items, text[i..j])
  }

  // ---------- one step of matchhere ----------

  lemma HereEmpty(p: Pattern, text: seq<char>)
    requires p.items == []
    ensures MatchesHere(p, text) <==> (p.atEnd ==> text == [])
  {
    if p.atEnd ==> text == [] {
      assert PrefixIn(p, text, 0);
    }
    if MatchesHere(p, text) {
      var j: nat :| PrefixIn(p, text, j);
      assert text[..j] == [];
    }
  }

  lemma HereOne(p: Pattern, a: Atom, rest: Pattern, text: seq<char>)
    requires p == Pattern([One(a)] + rest.items, rest.atEnd)
    ensures MatchesHere(p, text) <==> text != [] && Fits(a, text[0]) && MatchesHere(rest, text[1..])
  {
    assert p.items[1..] == rest.items;
    if MatchesHere(p, text) {
      var j: nat :| PrefixIn(p, text, j);
      assert text[..j][1..] == text[1..][..j - 1];
      assert PrefixIn(rest, text[1..], j - 1);
    }
    if text != [] && Fits(a, text[0]) && MatchesHere(rest, text[1..]) {
      var j: nat :| PrefixIn(rest, text[1..], j);
      assert text[..j + 1][1..] == text[1..][..j];
      assert PrefixIn(p, text, j + 1);
    }
  }

  /** n copies of the atom, then the rest. */
  ghost predicate StarHere(a: Atom, rest: Pattern, text: seq<char>, n: nat) {
    Repeats(a, text, n) && MatchesHere(rest, text[n..])
  }

  ghost predicate StarMatches(a: Atom, rest: Pattern, text: seq<char>) {
    exists n: nat :: StarHere(a, rest, text, n)
  }

  lemma HereStar(p: Pattern, a: Atom, rest: Pattern, text: seq<char>)
    requires p == Pattern([Star(a)] + rest.items, rest.atEnd)
    ensures MatchesHere(p, text) <==> StarMatches(a, rest, text)
  {
    assert p.items[1..] == rest.items;
    if MatchesHere(p, text) {
      var j: nat :| PrefixIn(p, text, j);
      var n: nat :| Repeats(a, text[..j], n) && Denotes(rest.items, text[..j][n..]);
      assert text[..j][n..] == text[n..][..j - n];
      assert PrefixIn(rest, text[n..], j - n);
      forall i: nat | i < n ensures Fits(a, text[i]) { assert text[..j][i] == text[i]; }
      assert StarHere(a, rest, text, n);
    }
    if StarMatches(a, rest, text) {
      var n: nat :| StarHere(a, rest, text, n);
      var j: nat :| PrefixIn(rest, text[n..], j);
      StarBack(p, a, rest, text, n, j);
    }
  }

  lemma StarBack(p: Pattern, a: Atom, rest: Pattern, text: seq<char>, n: nat, j: nat)
    requires p == Pattern([Star(a)] + rest.items, rest.atEnd) && Repeats(a, text, n) && PrefixIn(rest, text[n..], j)
    ensures PrefixIn(p, text, n + j)
  {
    assert p.items[1..] == rest.items;
    var w := text[..n + j];
    assert w[n..] == text[n..][..j];
    assert Repeats(a, w, n);
  }

  // ---------- the matcher ----------

  method Match(re: seq<char>, text: seq<char>) returns (r: bool)
    ensures r <==> Matches(re, text)
  {
    if re != [] && re[0] == '^' {
      r := MatchHere(re[1..], text);
      AnchoredHere(re, text);
      return;
    }
    var i := 0;
    while true
      invariant i <= |text|
      invariant forall k: nat :: k < i ==> !MatchesHere(Parse(re), text[k..])
      decreases |text| - i
    {
      var here := MatchHere(re, text[i..]);
      if here {
        FloatingHere(re, text, i);
        return true;
      }
      if i == |text| { break; }
      i := i + 1;
    }
    NoneFloating(re, text);
    r := false;
  }

  lemma AnchoredHere(re: seq<char>, text: seq<char>)
    requires re != [] && re[0] == '^'
    ensures Matches(re, text) <==> MatchesHere(Parse(re[1..]), text)
  {
    if Matches(re, text) {
      var i: nat, j: nat :| SubstringIn(re, text, i, j);
      assert text[0..j] == text[..j];
      assert PrefixIn(Parse(re[1..]), text, j);
    }
    if MatchesHere(Parse(re[1..]), text) {
      var j: nat :| PrefixIn(Parse(re[1..]), text, j);
      assert text[0..j] == text[..j];
      assert SubstringIn(re, text, 0, j);
    }
  }

  lemma FloatingHere(re: seq<char>, text: seq<char>, i: nat)
    requires !(re != [] && re[0] == '^') && i <= |text| && MatchesHere(Parse(re), text[i..])
    ensures Matches(re, text)
  {
    var j: nat :| PrefixIn(Parse(re), text[i..], j);
    assert text[i..][..j] == text[i..i + j];
    assert SubstringIn(re, text, i, i + j);
  }

  lemma NoneFloating(re: seq<char>, text: seq<char>)
    requires !(re != [] && re[0] == '^') && forall k: nat :: k <= |text| ==> !MatchesHere(Parse(re), text[k..])
    ensures !Matches(re, text)
  {
    forall i: nat, j: nat ensures !SubstringIn(re, text, i, j) {
      if i <= j <= |text| {
        assert text[i..][..j - i] == text[i..j];
        assert !MatchesHere(Parse(re), text[i..]);
        assert !PrefixIn(Parse(re), text[i..], j - i);
      }
    }
  }

  method MatchHere(re: seq<char>, text: seq<char>) returns (r: bool)
    ensures r <==> MatchesHere(Parse(re), text)
    decreases |re|, 1
  {
    if re == [] {
      HereEmpty(Parse(re), text);
      return true;
    }
    if |re| > 1 && re[1] == '*' {
      r := MatchStar(re[0], re[2..], text);
      HereStar(Parse(re), AtomOf(re[0]), Parse(re[2..]), text);
      return;
    }
    if re == "$" {
      HereEmpty(Parse(re), text);
      return text == [];
    }
    HereOne(Parse(re), AtomOf(re[0]), Parse(re[1..]), text);
    if text != [] && (re[0] == '.' || re[0] == text[0]) {
      r := MatchHere(re[1..], text[1..]);
    } else {
      r := false;
    }
  }

  method MatchStar(c: char, re: seq<char>, text: seq<char>) returns (r: bool)
    ensures r <==> StarMatches(AtomOf(c), Parse(re), text)
    decreases |re|, 2
  {
    var i := 0;
    while true
      invariant Repeats(AtomOf(c), text, i)
      invariant forall k: nat :: k < i ==> !StarHere(AtomOf(c), Parse(re), text, k)
      decreases |text| - i
    {
      var here := MatchHere(re, text[i..]);
      if here {
        assert StarHere(AtomOf(c), Parse(re), text, i);
        return true;
      }
      assert !StarHere(AtomOf(c), Parse(re), text, i);
      if i == |text| || !(text[i] == c || c == '.') { break; }
      i := i + 1;
    }
    forall n: nat ensures !StarHere(AtomOf(c), Parse(re), text, n) {
      if n > i { assert Repeats(AtomOf(c), text, n) ==> Fits(AtomOf(c), text[i]); }
    }
    r := false;
  }

  // ---------- the line buffer ----------

  const BUFSIZE: nat := 1024

  /** Position of the first newline from p on, |s| if there is none. */
  function Newline(s: seq<char>, p: nat): (q: nat)
    requires p <= |s|
    ensures p <= q <= |s| && (q < |s| ==> s[q] == '\n') && forall k: nat :: p <= k < q ==> s[k] != '\n'
    decreases |s| - p
  {
    if p == |s| || s[p] == '\n' then p else Newline(s, p + 1)
  }

  /** What grep prints: the matching lines, with their newlines, up to the first line that does not
      fit the buffer.  A last line without a newline is not looked at. */
  ghost function Output(re: seq<char>, input: seq<char>): seq<char>
    decreases |input|
  {
    var q := Newline(input, 0);
    if q == |input| || q + 1 >= BUFSIZE then []
    else (if Matches(re, input[..q]) then input[..q + 1] else []) + Output(re, input[q + 1..])
  }

  /** The same for any way f of choosing lines. */
  ghost function Kept(f: seq<char> -> bool, input: seq<char>): seq<char>
    decreases |input|
  {
    var q := Newline(input, 0);
    if q == |input| || q + 1 >= BUFSIZE then []
    else (if f(input[..q]) then input[..q + 1] else []) + Kept(f, input[q + 1..])
  }

  ghost predicate Agree(f: seq<char> -> bool, re: seq<char>, t: seq<char>) {
    f(t) <==> Matches(re, t)
  }

  /** f chooses the lines that match. */
  ghost predicate Chooses(f: seq<char> -> bool, re: seq<char>) {
    forall t :: Agree(f, re, t)
  }

  lemma {:induction false} KeptIsOutput(f: seq<char> -> bool, re: seq<char>, input: seq<char>)
    requires Chooses(f, re)
    ensures Kept(f, input) == Output(re, input)
    decreases |input|
  {
    var q := Newline(input, 0);
    if q < |input| && q + 1 < BUFSIZE {
      assert Agree(f, re, input[..q]);
      KeptIsOutput(f, re, input[q + 1..]);
    }
  }

  lemma NewlineUnique(s: seq<char>, p: nat, q: nat)
    requires p <= q < |s| && s[q] == '\n' && forall k: nat :: p <= k < q ==> s[k] != '\n'
    ensures Newline(s, p) == q
  {
  }

  /** One line at the front. */
  lemma OutputLine(f: seq<char> -> bool, line: seq<char>, rest: seq<char>)
    requires |line| + 1 < BUFSIZE && forall k: nat :: k < |line| ==> line[k] != '\n'
    ensures Kept(f, line + ['\n'] + rest) == (if f(line) then line + ['\n'] else []) + Kept(f, rest)
  {
    var input := line + ['\n'] + rest;
    NewlineUnique(input, 0, |line|);
    assert input[..|line|] == line && input[..|line| + 1] == line + ['\n'] && input[|line| + 1..] == rest;
  }

  /** Nothing more comes once the buffer is full, or the input exhausted, without a newline. */
  lemma OutputEnds(f: seq<char> -> bool, pending: seq<char>, rest: seq<char>)
    requires (rest == [] || |pending| == BUFSIZE - 1) && forall k: nat :: k < |pending| ==> pending[k] != '\n'
    ensures Kept(f, pending + rest) == []
  {
    var input := pending + rest;
    forall k: nat | k < |pending| ensures input[k] != '\n' {
      assert input[k] == pending[k];
    }
  }

  // ---------- when every matching line is printed ----------

  /** The matching complete lines of the input, however long. */
  ghost function AllLines(re: seq<char>, input: seq<char>): seq<char>
    decreases |input|
  {
    var q := Newline(input, 0);
    if q == |input| then []
    else (if Matches(re, input[..q]) then input[..q + 1] else []) + AllLines(re, input[q + 1..])
  }

  /** The input from its first complete line that does not fit the buffer on. */
  function Unseen(input: seq<char>): seq<char>
    decreases |input|
  {
    var q := Newline(input, 0);
    if q == |input| then [] else if q + 1 >= BUFSIZE then input else Unseen(input[q + 1..])
  }

  /** grep prints the matching lines before the first that is too long, and none from there on. */
  lemma {:induction false} OutputStops(re: seq<char>, input: seq<char>)
    ensures AllLines(re, input) == Output(re, input) + AllLines(re, Unseen(input))
    decreases |input|
  {
    var q := Newline(input, 0);
    if q < |input| && q + 1 < BUFSIZE {
      OutputStops(re, input[q + 1..]);
      var line := if Matches(re, input[..q]) then input[..q + 1] else [];
      Assoc(line, Output(re, input[q + 1..]), AllLines(re, Unseen(input)));
    }
  }

  /** Every matching line is printed exactly when none matches from the first too long one on. */
  lemma AllPrintedIff(re: seq<char>, input: seq<char>)
    ensures Output(re, input) == AllLines(re, input) <==> AllLines(re, Unseen(input)) == []
  {
    OutputStops(re, input);
  }

  /** No newline follows a stretch of BUFSIZE - 1 bytes without one. */
  ghost predicate LinesFit(input: seq<char>) {
    forall p: nat :: p <= |input| ==> LineFits(input, p)
  }

  ghost predicate LineFits(input: seq<char>, p: nat)
    requires p <= |input|
  {
    Newline(input, p) < |input| ==> Newline(input, p) - p + 1 < BUFSIZE
  }

  lemma {:induction false} NewlineShift(s: seq<char>, k: nat, p: nat)
    requires k + p <= |s|
    ensures Newline(s[k..], p) + k == Newline(s, k + p)
    decreases |s| - p
  {
    if k + p < |s| && s[k + p] != '\n' { NewlineShift(s, k, p + 1); }
  }

  /** With lines of at most 1023 bytes, newline included, grep prints every matching line. */
  lemma {:induction false} FittingLinesPrinted(re: seq<char>, input: seq<char>)
    requires LinesFit(input)
    ensures Output(re, input) == AllLines(re, input)
    decreases |input|
  {
    var q := Newline(input, 0);
    assert LineFits(input, 0);
    if q < |input| {
      var rest := input[q + 1..];
      forall p: nat | p <= |rest| ensures LineFits(rest, p) {
        assert LineFits(input, q + 1 + p);
        NewlineShift(input, q + 1, p);
      }
      FittingLinesPrinted(re, rest);
    }
  }

  /** One line of 1023 letters hides the line after it. */
  lemma MatchingLineLost()
    ensures var input := seq(1023, _ => 'x') + "\n" + "a\n";
            Output("a", input) == [] && AllLines("a", input) == "a\n"
  {
    var long := seq(1023, _ => 'x');
    var input := long + "\n" + "a\n";
    NewlineUnique(input, 0, 1023);
    assert input[..1023] == long && input[1024..] == "a\n";
    var p := Parse("a");
    assert p.items[0] == One(Literal('a')) && p.items[1..] == [];
    forall i: nat, j: nat ensures !SubstringIn("a", long, i, j) {
      if i < j <= |long| { assert long[i..j][0] == 'x'; }
    }
    var last := "a\n";
    NewlineUnique(last, 0, 1);
    assert last[..1] == "a" && last[2..] == [];
    assert "a"[0..1][1..] == [];
    assert SubstringIn("a", "a", 0, 1);
  }

  /** The search for the end of the line: its index, or m when the NUL at m comes first. */
  method Strchr(buf: array<char>, p: nat, m: nat) returns (q: nat)
    requires p <= m < buf.Length && buf[m] == '\0' && forall k: nat :: p <= k < m ==> buf[k] != '\0'
    ensures q == Newline(buf[..m], p)
  {
    q := p;
    while buf[q] != '\n' && buf[q] != '\0'
      invariant p <= q <= m && forall k: nat :: p <= k < q ==> buf[k] != '\n'
      decreases m - q
    {
      q := q + 1;
    }
    if q < m { NewlineUnique(buf[..m], p, q); }
  }

  predicate NulFree(s: seq<char>) {
    forall k: nat :: k < |s| ==> s[k] != '\0'
  }

  predicate NoNewline(s: seq<char>) {
    forall k: nat :: k < |s| ==> s[k] != '\n'
  }

  /** grep's inner loop: prints the complete lines of buf[..m]; what is left starts at p. */
  method PrintLines(re: seq<char>, ghost f: seq<char> -> bool, buf: array<char>, m: nat, ghost rest: seq<char>)
    returns (p: nat, out: seq<char>)
    requires m < buf.Length == BUFSIZE && buf[m] == '\0' && NulFree(buf[..m]) && Chooses(f, re)
    modifies buf
    ensures p <= m && buf[p..m] == old(buf[p..m]) && NoNewline(buf[p..m])
    ensures out + Kept(f, buf[p..m] + rest) == Kept(f, old(buf[..m]) + rest)
  {
    ghost var b, left := buf[..m], Kept(f, buf[..m] + rest);
    p, out := 0, [];
    assert b[0..] == b;
    while true
      invariant p <= m && Tail(buf, b, p, m) && Remains(f, b[p..], rest, left) && out + left == Kept(f, b + rest)
      decreases m - p
    {
      var q, piece;
      ghost var left';
      q, piece, left' := PrintNext(re, f, buf, b, p, m, rest, left);
      if q == m { break; }
      Assoc(out, piece, left');
      p, out, left := q + 1, out + piece, left';
    }
    assert buf[p..m] == b[p..];
  }

  /** From p on the buffer is as it was, up to the NUL at m. */
  ghost predicate Tail(buf: array<char>, b: seq<char>, p: nat, m: nat)
    reads buf
  {
    && p <= m < buf.Length == BUFSIZE && |b| == m && NulFree(b) && buf[m] == '\0'
    && forall k: nat :: p <= k < m ==> buf[k] == b[k]
  }

  /** One turn of the inner loop; q == m when there is no further newline. */
  method PrintNext(re: seq<char>, ghost f: seq<char> -> bool, buf: array<char>, ghost b: seq<char>, p: nat, m: nat,
                   ghost rest: seq<char>, ghost left: seq<char>)
    returns (q: nat, piece: seq<char>, ghost left': seq<char>)
    requires Tail(buf, b, p, m) && Chooses(f, re) && Remains(f, b[p..], rest, left)
    modifies buf
    ensures p <= q <= m
    ensures q == m ==> Tail(buf, b, p, m) && NoNewline(buf[p..m])
    ensures q < m ==> Tail(buf, b, q + 1, m) && Remains(f, b[q + 1..], rest, left') && piece + left' == left
  {
    assert forall k: nat :: p <= k < m ==> b[k] != '\0';
    q := Strchr(buf, p, m);
    piece, left' := [], left;
    if q < m {
      assert buf[p..q] == b[p..q];
      piece := PrintLine(re, buf, p, q);
      assert Agree(f, re, b[p..q]);
      left' := LineStep(f, b, p, q, rest, piece, left);
    }
  }

  ghost predicate Remains(f: seq<char> -> bool, pending: seq<char>, rest: seq<char>, left: seq<char>) {
    left == Kept(f, pending + rest)
  }

  /** One line: NUL over its newline, match, and the newline back if it is printed. */
  method PrintLine(re: seq<char>, buf: array<char>, p: nat, q: nat) returns (piece: seq<char>)
    requires p <= q < buf.Length && buf[q] == '\n'
    modifies buf
    ensures forall k: nat :: k < buf.Length && k != q ==> buf[k] == old(buf[k])
    ensures piece == if Matches(re, old(buf[p..q])) then old(buf[p..q]) + ['\n'] else []
  {
    buf[q] := '\0';
    var r := Match(re, buf[p..q]);
    piece := [];
    assert buf[p..q] == old(buf[p..q]);
    if r {
      buf[q] := '\n';
      piece := buf[p..q + 1];
      assert piece == buf[p..q] + ['\n'];
    }
  }

  lemma CutLine(b: seq<char>, p: nat, q: nat, rest: seq<char>)
    requires p <= q < |b| && b[q] == '\n'
    ensures b[p..] + rest == b[p..q] + ['\n'] + (b[q + 1..] + rest)
  {
    var line, tail := b[p..q] + ['\n'], b[q + 1..];
    assert b[p..] == line + tail;
    Assoc(line, tail, rest);
  }

  lemma LineStep(f: seq<char> -> bool, b: seq<char>, p: nat, q: nat, rest: seq<char>, piece: seq<char>,
                 left: seq<char>) returns (left': seq<char>)
    requires p <= q < |b| < BUFSIZE && b[q] == '\n' && NoNewline(b[p..q]) && Remains(f, b[p..], rest, left)
    requires piece == if f(b[p..q]) then b[p..q] + ['\n'] else []
    ensures Remains(f, b[q + 1..], rest, left') && piece + left' == left
  {
    CutLine(b, p, q, rest);
    OutputLine(f, b[p..q], b[q + 1..] + rest);
    left' := Kept(f, b[q + 1..] + rest);
  }

  /** How much one read delivers: something between 1 and what was asked for and is there; nothing
      at the end of the input, or when nothing was asked for. */
  function ReadSize(size: nat, room: nat, left: nat): (n: nat)
    ensures n <= room && n <= left && (n == 0 <==> room == 0 || left == 0)
  {
    var most := if room < left then room else left;
    if most == 0 then 0 else if size == 0 then 1 else if size > most then most else size
  }

  /** grep: what is printed does not depend on how read cuts the input into pieces. */
  method Grep(re: seq<char>, input: seq<char>, sizes: nat -> nat) returns (out: seq<char>)
    requires NulFree(input)
    ensures out == Output(re, input)
  {
    var buf := new char[BUFSIZE];
    ghost var f := t => Matches(re, t);
    forall t ensures Agree(f, re, t) { }
    KeptIsOutput(f, re, input);
    Whole(f, buf, input);
    out := GrepLoop(re, f, input, sizes, buf, Kept(f, input));
  }

  method GrepLoop(re: seq<char>, ghost f: seq<char> -> bool, input: seq<char>, sizes: nat -> nat, buf: array<char>,
                  ghost total: seq<char>) returns (out: seq<char>)
    requires NulFree(input) && Chooses(f, re) && State(f, buf, 0, input, 0, total)
    modifies buf
    ensures out == total
  {
    var m: nat, pos: nat, calls: nat := 0, 0, 0;
    ghost var left := total;
    out := [];
    while true
      invariant m < BUFSIZE && pos <= |input| && State(f, buf, m, input, pos, left) && Joins(out, left, total)
      decreases |input| - pos
    {
      var n := ReadSize(sizes(calls), BUFSIZE - m - 1, |input| - pos);
      if n == 0 { break; }
      calls := calls + 1;
      var lines;
      ghost var left';
      m, lines, left' := ReadAndPrint(re, f, buf, m, input, pos, n, left);
      JoinsMore(out, lines, left', left, total);
      pos, out, left := pos + n, out + lines, left';
    }
    NothingLeft(f, buf, m, input, pos, left);
    assert out + [] == out;
  }

  predicate Joins(a: seq<char>, b: seq<char>, whole: seq<char>) {
    a + b == whole
  }

  lemma JoinsMore(out: seq<char>, lines: seq<char>, left': seq<char>, left: seq<char>, total: seq<char>)
    requires Joins(out, left, total) && Joins(lines, left', left)
    ensures Joins(out + lines, left', total)
  {
    Assoc(out, lines, left');
  }

  /** The buffer holds the beginning of a line; left is what is still to be printed. */
  ghost predicate State(f: seq<char> -> bool, buf: array<char>, m: nat, input: seq<char>, pos: nat, left: seq<char>)
    reads buf
  {
    && m <= buf.Length == BUFSIZE && pos <= |input| && NoNewline(buf[..m]) && NulFree(buf[..m])
    && Remains(f, buf[..m], input[pos..], left)
  }

  lemma Whole(f: seq<char> -> bool, buf: array<char>, input: seq<char>)
    requires buf.Length == BUFSIZE
    ensures State(f, buf, 0, input, 0, Kept(f, input))
  {
    assert buf[..0] + input[0..] == input;
  }

  lemma NothingLeft(f: seq<char> -> bool, buf: array<char>, m: nat, input: seq<char>, pos: nat, left: seq<char>)
    requires State(f, buf, m, input, pos, left) && (pos == |input| || m == BUFSIZE - 1)
    ensures left == []
  {
    OutputEnds(f, buf[..m], input[pos..]);
  }

  lemma Assoc(a: seq<char>, b: seq<char>, c: seq<char>)
    ensures a + b + c == a + (b + c)
  {
  }

  /** One turn of grep's outer loop. */
  method ReadAndPrint(re: seq<char>, ghost f: seq<char> -> bool, buf: array<char>, m: nat, input: seq<char>, pos: nat,
                      n: nat, ghost left: seq<char>)
    returns (m': nat, lines: seq<char>, ghost left': seq<char>)
    requires m + n < BUFSIZE && pos + n <= |input| && NulFree(input) && Chooses(f, re)
             && State(f, buf, m, input, pos, left)
    modifies buf
    ensures m' < BUFSIZE && State(f, buf, m', input, pos + n, left') && Joins(lines, left', left)
  {
    Fill(buf, m, input, pos, n);
    buf[m + n] := '\0';
    ghost var b := buf[..m + n];
    var p;
    p, lines := PrintLines(re, f, buf, m + n, input[pos + n..]);
    m' := m + n - p;
    assert buf[p..m + n] == b[p..];
    left' := Kept(f, buf[p..m + n] + input[pos + n..]);
    MoveDown(buf, p, m');
  }

  /** read into buf + m. */
  method Fill(buf: array<char>, m: nat, input: seq<char>, pos: nat, n: nat)
    requires m + n < buf.Length && pos + n <= |input| && NulFree(input) && NulFree(buf[..m])
    modifies buf
    ensures buf[..m + n] == old(buf[..m]) + input[pos..pos + n] && NulFree(buf[..m + n])
    ensures buf[..m + n] + input[pos + n..] == old(buf[..m]) + input[pos..]
  {
    forall i | 0 <= i < n {
      buf[m + i] := input[pos + i];
    }
    assert buf[..m + n] == old(buf[..m]) + input[pos..pos + n];
    assert input[pos..] == input[pos..pos + n] + input[pos + n..];
  }

  /** The unfinished line moves to the front of the buffer. */
  method MoveDown(buf: array<char>, p: nat, m: nat)
    requires p + m <= buf.Length
    modifies buf
    ensures buf[..m] == old(buf[p..p + m])
  {
    forall i | 0 <= i < m {
      buf[i] := buf[p + i];
    }
  }

  /** Two ways of delivering the same input print the same. */
  method SameOutput(re: seq<char>, input: seq<char>, sizes: nat -> nat, sizes': nat -> nat)
    returns (a: seq<char>, b: seq<char>)
    requires NulFree(input)
    ensures a == b
  {
    a := Grep(re, input, sizes);
    b := Grep(re, input, sizes');
  }
}
