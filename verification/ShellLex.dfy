/** The shell's tokens in the characters of a line, and the round trip through characters. */
module ShellLex {
  import opened ShellParse
  import opened ShellPrint

  /** Where a word is: s[q..e]. */
  datatype Span = Span(q: nat, e: nat)

  predicate White(c: char) { c == ' ' || c == '\t' || c == '\r' || c == '\n' || c == '\U{0B}' }

  predicate Symbol(c: char) { c == '<' || c == '|' || c == '>' || c == '&' || c == ';' || c == '(' || c == ')' }

  predicate InWord(c: char) { !White(c) && !Symbol(c) }

  // The first character at or after p that is not white space.
  function Skip(s: seq<char>, p: nat): (r: nat)
    requires p <= |s|
    ensures p <= r <= |s| && (forall k :: p <= k < r ==> White(s[k])) && (r < |s| ==> !White(s[r]))
    decreases |s| - p
  {
    if p < |s| && White(s[p]) then Skip(s, p + 1) else p
  }

  // The end of the word at p.
  function WordEnd(s: seq<char>, p: nat): (r: nat)
    requires p <= |s|
    ensures p <= r <= |s| && (forall k :: p <= k < r ==> InWord(s[k])) && (r < |s| ==> !InWord(s[r]))
    decreases |s| - p
  {
    if p < |s| && InWord(s[p]) then WordEnd(s, p + 1) else p
  }

  /** The token that begins at p, and where it ends. */
  function TokenAt(s: seq<char>, p: nat): (t: Tok<Span>)
    requires p < |s| && !White(s[p])
  {
    if !Symbol(s[p]) then Word(Span(p, WordEnd(s, p)))
    else if s[p] == '>' && p + 1 < |s| && s[p + 1] == '>' then Sym('+')
    else Sym(s[p])
  }

  function TokenEnd(s: seq<char>, p: nat): (e: nat)
    requires p < |s| && !White(s[p])
    ensures p < e <= |s|
  {
    if !Symbol(s[p]) then WordEnd(s, p)
    else if s[p] == '>' && p + 1 < |s| && s[p + 1] == '>' then p + 2
    else p + 1
  }

  /** All tokens from p on. */
  function Lex(s: seq<char>, p: nat): (ts: seq<Tok<Span>>)
    requires p <= |s|
    decreases |s| - p
  {
    var q := Skip(s, p);
    if q == |s| then [] else [TokenAt(s, q)] + Lex(s, TokenEnd(s, q))
  }

  // ---- Words as text ----

  function Text(s: seq<char>, w: Span): (t: seq<char>) { if w.q <= w.e <= |s| then s[w.q..w.e] else [] }

  function TextTok(s: seq<char>, t: Tok<Span>): (u: Tok<seq<char>>) {
    match t
    case Word(w) => Word(Text(s, w))
    case Sym(c) => Sym(c)
  }

  function Texts(s: seq<char>, ts: seq<Tok<Span>>): (us: seq<Tok<seq<char>>>)
    ensures |us| == |ts| && forall k :: 0 <= k < |ts| ==> us[k] == TextTok(s, ts[k])
  {
    seq(|ts|, k requires 0 <= k < |ts| => TextTok(s, ts[k]))
  }

  function TextWords(s: seq<char>, ws: seq<Span>): (us: seq<seq<char>>)
    ensures |us| == |ws| && forall k :: 0 <= k < |ws| ==> us[k] == Text(s, ws[k])
  {
    seq(|ws|, k requires 0 <= k < |ws| => Text(s, ws[k]))
  }

  function TextRedirs(s: seq<char>, rs: seq<Redirection<Span>>): (us: seq<Redirection<seq<char>>>)
    ensures |us| == |rs| && forall k :: 0 <= k < |rs| ==> us[k] == Redirection(Text(s, rs[k].file), rs[k].mode)
  {
    seq(|rs|, k requires 0 <= k < |rs| => Redirection(Text(s, rs[k].file), rs[k].mode))
  }

  /** The tree with its words as text. */
  function TextCmd(s: seq<char>, c: Cmd<Span>): (d: Cmd<seq<char>>) {
    match c
    case Exec(args) => Exec(TextWords(s, args))
    case Redir(x, f, m) => Redir(TextCmd(s, x), Text(s, f), m)
    case Pipe(l, r) => Pipe(TextCmd(s, l), TextCmd(s, r))
    case List(l, r) => List(TextCmd(s, l), TextCmd(s, r))
    case Back(x) => Back(TextCmd(s, x))
  }

  function TextResult(s: seq<char>, r: Result<Cmd<Span>>): (u: Result<Cmd<seq<char>>>) {
    if r.Fail? then Fail else Ok(TextCmd(s, r.value), r.i)
  }

  // ---- The parser does not look into words ----

  lemma SameSyms(s: seq<char>, ts: seq<Tok<Span>>, i: nat, c: char)
    ensures IsSym(Texts(s, ts), i, c) == IsSym(ts, i, c)
  {
  }

  lemma SameKind(s: seq<char>, ts: seq<Tok<Span>>, i: nat)
    ensures IsRedir(Texts(s, ts), i) == IsRedir(ts, i) && IsStop(Texts(s, ts), i) == IsStop(ts, i)
  {
  }

  lemma {:induction false} TextWrap(s: seq<char>, c: Cmd<Span>, rs: seq<Redirection<Span>>)
    ensures TextCmd(s, Wrap(c, rs)) == Wrap(TextCmd(s, c), TextRedirs(s, rs))
    decreases |rs|
  {
    if |rs| > 0 {
      var n := |rs| - 1;
      TextWrap(s, c, rs[..n]);
      assert TextRedirs(s, rs)[..n] == TextRedirs(s, rs[..n]);
    }
  }

  lemma {:induction false} SameRedirs(s: seq<char>, rs: seq<Redirection<Span>>, ts: seq<Tok<Span>>, i: nat)
    requires i <= |ts|
    ensures var r := Redirs(rs, ts, i);
            Redirs(TextRedirs(s, rs), Texts(s, ts), i) == if r.Fail? then Fail else Ok(TextRedirs(s, r.value), r.i)
    decreases |ts| - i
  {
    SameKind(s, ts, i);
    if IsRedir(ts, i) && i + 1 < |ts| && ts[i + 1].Word? {
      var rs' := rs + [Redirection(ts[i + 1].w, ts[i].c)];
      SameRedirs(s, rs', ts, i + 2);
      assert TextRedirs(s, rs') == TextRedirs(s, rs) + [Redirection(Text(s, ts[i + 1].w), ts[i].c)];
    }
  }

  lemma {:induction false} SameArgs(s: seq<char>, args: seq<Span>, rs: seq<Redirection<Span>>, ts: seq<Tok<Span>>,
                                    i: nat)
    requires i <= |ts|
    ensures Args(TextWords(s, args), TextRedirs(s, rs), Texts(s, ts), i) == TextResult(s, Args(args, rs, ts, i))
    decreases |ts| - i
  {
    hide Redirs;
    SameKind(s, ts, i);
    if IsStop(ts, i) || i == |ts| {
      TextWrap(s, Exec(args), rs);
    } else if ts[i].Word? && |args| + 1 < MAXARGS {
      SameRedirs(s, rs, ts, i + 1);
      var q := Redirs(rs, ts, i + 1);
      if q.Ok? {
        SameArgs(s, args + [ts[i].w], q.value, ts, q.i);
        assert TextWords(s, args + [ts[i].w]) == TextWords(s, args) + [Text(s, ts[i].w)];
      }
    }
  }

  lemma {:induction false} SameExec(s: seq<char>, ts: seq<Tok<Span>>, i: nat)
    requires i <= |ts|
    ensures ParseExec(Texts(s, ts), i) == TextResult(s, ParseExec(ts, i))
    decreases |ts| - i, 1
  {
    hide Redirs, Args, ParseBlock;
    SameSyms(s, ts, i, '(');
    if IsSym(ts, i, '(') {
      SameBlock(s, ts, i);
    } else {
      SameRedirs(s, [], ts, i);
      assert TextRedirs(s, []) == [] && TextWords(s, []) == [];
      var q := Redirs([], ts, i);
      if q.Ok? {
        SameArgs(s, [], q.value, ts, q.i);
      }
    }
  }

  lemma {:induction false} SameBlock(s: seq<char>, ts: seq<Tok<Span>>, i: nat)
    requires i <= |ts| && IsSym(ts, i, '(') && IsSym(Texts(s, ts), i, '(')
    ensures ParseBlock(Texts(s, ts), i) == TextResult(s, ParseBlock(ts, i))
    decreases |ts| - i, 0
  {
    hide Redirs, ParseLine;
    SameLine(s, ts, i + 1);
    var l := ParseLine(ts, i + 1);
    if l.Ok? {
      SameSyms(s, ts, l.i, ')');
      if IsSym(ts, l.i, ')') {
        SameRedirs(s, [], ts, l.i + 1);
        assert TextRedirs(s, []) == [];
        var q := Redirs([], ts, l.i + 1);
        if q.Ok? {
          TextWrap(s, l.value, q.value);
        }
      }
    }
  }

  lemma {:induction false} SamePipe(s: seq<char>, ts: seq<Tok<Span>>, i: nat)
    requires i <= |ts|
    ensures ParsePipe(Texts(s, ts), i) == TextResult(s, ParsePipe(ts, i))
    decreases |ts| - i, 2
  {
    hide ParseExec;
    SameExec(s, ts, i);
    var l := ParseExec(ts, i);
    if l.Ok? {
      SameSyms(s, ts, l.i, '|');
      if IsSym(ts, l.i, '|') {
        SamePipe(s, ts, l.i + 1);
      }
    }
  }

  lemma {:induction false} SameBacks(s: seq<char>, c: Cmd<Span>, ts: seq<Tok<Span>>, i: nat)
    requires i <= |ts|
    ensures Backs(TextCmd(s, c), Texts(s, ts), i) == TextResult(s, Backs(c, ts, i))
    decreases |ts| - i
  {
    SameSyms(s, ts, i, '&');
    if IsSym(ts, i, '&') {
      SameBacks(s, Back(c), ts, i + 1);
    }
  }

  lemma {:induction false} SameLine(s: seq<char>, ts: seq<Tok<Span>>, i: nat)
    requires i <= |ts|
    ensures ParseLine(Texts(s, ts), i) == TextResult(s, ParseLine(ts, i))
    decreases |ts| - i, 3
  {
    hide ParsePipe, Backs;
    SamePipe(s, ts, i);
    var p := ParsePipe(ts, i);
    if p.Ok? {
      SameBacks(s, p.value, ts, p.i);
      var b := Backs(p.value, ts, p.i);
      SameSyms(s, ts, b.i, ';');
      if IsSym(ts, b.i, ';') {
        SameLine(s, ts, b.i + 1);
      }
    }
  }

  lemma SameAll(s: seq<char>, ts: seq<Tok<Span>>)
    ensures ParseAll(Texts(s, ts)) == TextResult(s, ParseAll(ts))
  {
    SameLine(s, ts, 0);
  }

  // ---- A line for every tree ----

  function TokChars(u: Tok<seq<char>>): (cs: seq<char>) {
    match u
    case Word(w) => w
    case Sym(c) => if c == '+' then ['>', '>'] else [c]
  }

  /** Each token and a blank. */
  function Render(us: seq<Tok<seq<char>>>): (cs: seq<char>) {
    if |us| == 0 then [] else TokChars(us[0]) + [' '] + Render(us[1..])
  }

  predicate GoodWord(w: seq<char>) { |w| > 0 && forall k :: 0 <= k < |w| ==> InWord(w[k]) }

  predicate GoodTok(u: Tok<seq<char>>) {
    match u
    case Word(w) => GoodWord(w)
    case Sym(c) => Symbol(c) || c == '+'
  }

  predicate GoodWords(c: Cmd<seq<char>>) {
    match c
    case Exec(args) => forall k :: 0 <= k < |args| ==> GoodWord(args[k])
    case Redir(d, f, _) => GoodWord(f) && GoodWords(d)
    case Pipe(l, r) => GoodWords(l) && GoodWords(r)
    case List(l, r) => GoodWords(l) && GoodWords(r)
    case Back(d) => GoodWords(d)
  }

  lemma {:induction false} WordRuns(s: seq<char>, p: nat, e: nat)
    requires p <= e <= |s| && (forall k :: p <= k < e ==> InWord(s[k])) && e < |s| && !InWord(s[e])
    ensures WordEnd(s, p) == e
    decreases e - p
  {
    if p < e {
      WordRuns(s, p + 1, e);
    }
  }

  // The characters cs are at p.
  ghost predicate Here(s: seq<char>, p: nat, cs: seq<char>) { p + |cs| <= |s| && s[p..p + |cs|] == cs }

  lemma HereBoth(s: seq<char>, p: nat, a: seq<char>, b: seq<char>)
    requires Here(s, p, a + b)
    ensures Here(s, p, a) && Here(s, p + |a|, b)
  {
    var all := a + b;
    assert s[p..p + |a|] == all[..|a|] == a;
    assert s[p + |a|..p + |a| + |b|] == all[|a|..] == b;
  }

  lemma HereAt(s: seq<char>, p: nat, cs: seq<char>, k: nat)
    requires Here(s, p, cs) && k < |cs|
    ensures s[p + k] == cs[k]
  {
    assert s[p..p + |cs|][k] == cs[k];
  }

  lemma FirstWordTok(s: seq<char>, p: nat, w: seq<char>)
    requires Here(s, p, w) && p + |w| < |s| && s[p + |w|] == ' ' && GoodWord(w)
    ensures !White(s[p]) && TextTok(s, TokenAt(s, p)) == Word(w) && TokenEnd(s, p) == p + |w|
  {
    forall k | p <= k < p + |w|
      ensures InWord(s[k])
    {
      HereAt(s, p, w, k - p);
    }
    WordRuns(s, p, p + |w|);
  }

  lemma FirstSymTok(s: seq<char>, p: nat, c: char)
    requires Here(s, p, TokChars(Sym(c))) && p + |TokChars(Sym(c))| < |s| && s[p + |TokChars(Sym(c))|] == ' '
             && GoodTok(Sym(c))
    ensures !White(s[p]) && TextTok(s, TokenAt(s, p)) == Sym(c) && TokenEnd(s, p) == p + |TokChars(Sym(c))|
  {
    HereAt(s, p, TokChars(Sym(c)), 0);
    if c == '+' {
      HereAt(s, p, TokChars(Sym(c)), 1);
    }
  }

  lemma LexFirst(s: seq<char>, p: nat, u: Tok<seq<char>>)
    requires Here(s, p, TokChars(u)) && p + |TokChars(u)| < |s| && s[p + |TokChars(u)|] == ' ' && GoodTok(u)
    ensures |Lex(s, p)| > 0 && TextTok(s, Lex(s, p)[0]) == u && Lex(s, p)[1..] == Lex(s, p + |TokChars(u)| + 1)
  {
    if u.Word? {
      FirstWordTok(s, p, u.w);
    } else {
      FirstSymTok(s, p, u.c);
    }
    assert Skip(s, p) == p;
    SkipBlank(s, p + |TokChars(u)|);
  }

  lemma SkipBlank(s: seq<char>, p: nat)
    requires p < |s| && s[p] == ' '
    ensures Lex(s, p) == Lex(s, p + 1)
  {
    assert Skip(s, p) == Skip(s, p + 1);
  }

  ghost predicate AllGood(ts: seq<Tok<seq<char>>>) { forall k :: 0 <= k < |ts| ==> GoodTok(ts[k]) }

  lemma {:induction false} LexRender(s: seq<char>, p: nat, us: seq<Tok<seq<char>>>)
    requires Here(s, p, Render(us)) && p + |Render(us)| == |s| && AllGood(us)
    ensures Texts(s, Lex(s, p)) == us
    decreases |us|
  {
    if |us| > 0 {
      hide Lex, TokChars, TextTok, GoodTok, Here;
      var u, cs, rest := us[0], TokChars(us[0]), Render(us[1..]);
      assert Render(us) == cs + ([' '] + rest);
      HereBoth(s, p, cs, [' '] + rest);
      HereBoth(s, p + |cs|, [' '], rest);
      HereAt(s, p + |cs|, [' '], 0);
      LexFirst(s, p, u);
      LexRender(s, p + |cs| + 1, us[1..]);
      var ts := Lex(s, p);
      FirstText(s, ts);
      assert us == [u] + us[1..];
    }
  }

  lemma FirstText(s: seq<char>, ts: seq<Tok<Span>>)
    requires |ts| > 0
    ensures Texts(s, ts) == [TextTok(s, ts[0])] + Texts(s, ts[1..])
  {
  }

  lemma GoodBoth(a: seq<Tok<seq<char>>>, b: seq<Tok<seq<char>>>)
    requires AllGood(a) && AllGood(b)
    ensures AllGood(a + b)
  {
  }

  lemma GoodSyms(c: char, w: seq<char>)
    requires Symbol(c) || c == '+'
    ensures AllGood([Sym(c)]) && (GoodWord(w) ==> AllGood([Sym(c), Word(w)]))
  {
  }

  lemma {:induction false} GoodTokens(c: Cmd<seq<char>>, which: nat)
    requires Printable(c) && GoodWords(c) && which < 4
    ensures AllGood(if which == 3 then PLine(c) else if which == 2 then PBack(c) else if which == 1 then PPipe(c)
            else PExec(c))
    decreases c, Rank(c, which)
  {
    hide AllGood, GoodTok, GoodWord;
    if which == 3 {
      GoodLine(c);
    } else if which == 2 {
      if c.Back? {
        GoodTokens(c.cmd, 2);
        GoodSyms('&', []);
        GoodBoth(PBack(c.cmd), [Sym('&')]);
      } else {
        GoodTokens(c, 1);
      }
    } else if which == 1 {
      if c.Pipe? {
        GoodTokens(c.left, 0);
        GoodTokens(c.right, 1);
        GoodSyms('|', []);
        GoodBoth(PExec(c.left), [Sym('|')]);
        GoodBoth(PExec(c.left) + [Sym('|')], PPipe(c.right));
      } else {
        GoodTokens(c, 0);
      }
    } else {
      GoodExec(c);
    }
  }

  lemma {:induction false} GoodLine(c: Cmd<seq<char>>)
    requires Printable(c) && GoodWords(c)
    ensures AllGood(PLine(c))
    decreases c, Rank(c, 3), 0
  {
    hide AllGood, GoodTok, GoodWord, PBack;
    if c.List? {
      GoodTokens(c.left, 2);
      GoodTokens(c.right, 3);
      GoodSyms(';', []);
      GoodBoth(PBack(c.left), [Sym(';')]);
      GoodBoth(PBack(c.left) + [Sym(';')], PLine(c.right));
    } else {
      GoodTokens(c, 2);
    }
  }

  lemma {:induction false} GoodExec(c: Cmd<seq<char>>)
    requires Printable(c) && GoodWords(c)
    ensures AllGood(PExec(c))
    decreases c, Rank(c, 0), 0
  {
    hide PLine;
    match c
    case Exec(args) =>
    case Redir(d, f, m) =>
      GoodTokens(d, 0);
      GoodSyms(m, f);
      GoodBoth(PExec(d), [Sym(m), Word(f)]);
    case _ =>
      GoodTokens(c, 3);
      GoodSyms('(', []);
      GoodSyms(')', []);
      GoodBoth([Sym('(')], PLine(c));
      GoodBoth([Sym('(')] + PLine(c), [Sym(')')]);
  }

  /** Every tree with at most 9 words to a command, printed as a line of text, is what the line parses to. */
  lemma RoundTrip(c: Cmd<seq<char>>)
    requires Printable(c) && GoodWords(c)
    ensures var s := Render(PLine(c)); TextResult(s, ParseAll(Lex(s, 0))) == Ok(c, |PLine(c)|)
  {
    var s := Render(PLine(c));
    assert s[0..|s|] == s;
    GoodTokens(c, 3);
    LexRender(s, 0, PLine(c));
    SameAll(s, Lex(s, 0));
    TokensRoundTrip(c);
  }
}
