/** Printing a command tree, with parentheses where they are needed, and parsing it back. */
module ShellPrint {
  import opened ShellParse

  /** Any tree can be printed that has at most 9 words in each command and redirections of the three kinds. */
  predicate Printable<W>(c: Cmd<W>) {
    match c
    case Exec(args) => |args| < MAXARGS
    case Redir(d, _, m) => (m == '<' || m == '>' || m == '+') && Printable(d)
    case Pipe(l, r) => Printable(l) && Printable(r)
    case List(l, r) => Printable(l) && Printable(r)
    case Back(d) => Printable(d)
  }

  function Words<W>(ws: seq<W>): (ts: seq<Tok<W>>)
    ensures |ts| == |ws| && forall k :: 0 <= k < |ws| ==> ts[k] == Word(ws[k])
  {
    seq(|ws|, k requires 0 <= k < |ws| => Word(ws[k]))
  }

  // How far apart the printers are for one tree: each calls only ones of lower rank for the same tree.
  ghost function Rank<W>(c: Cmd<W>, printer: nat): (n: nat) {
    var first := if c.List? then 3 else if c.Back? then 2 else if c.Pipe? then 1 else 0;
    (printer + 4 - first) % 4
  }

  /** As a line, as what can stand before & or ;, as what can stand in a pipeline, as one command. */

  function PLine<W>(c: Cmd<W>): (ts: seq<Tok<W>>)
    decreases c, Rank(c, 3)
  {
    if c.List? then PBack(c.left) + [Sym(';')] + PLine(c.right) else PBack(c)
  }

  function PBack<W>(c: Cmd<W>): (ts: seq<Tok<W>>)
    decreases c, Rank(c, 2)
  {
    if c.Back? then PBack(c.cmd) + [Sym('&')] else PPipe(c)
  }

  function PPipe<W>(c: Cmd<W>): (ts: seq<Tok<W>>)
    decreases c, Rank(c, 1)
  {
    if c.Pipe? then PExec(c.left) + [Sym('|')] + PPipe(c.right) else PExec(c)
  }

  function PExec<W>(c: Cmd<W>): (ts: seq<Tok<W>>)
    decreases c, Rank(c, 0)
  {
    match c
    case Exec(args) => Words(args)
    case Redir(d, f, m) => PExec(d) + [Sym(m), Word(f)]
    case _ => [Sym('(')] + PLine(c) + [Sym(')')]
  }

  // ---- Where the tokens are ----

  ghost predicate At<W>(ts: seq<Tok<W>>, i: nat, us: seq<Tok<W>>) { i + |us| <= |ts| && ts[i..i + |us|] == us }

  lemma AtBoth<W>(ts: seq<Tok<W>>, i: nat, us: seq<Tok<W>>, vs: seq<Tok<W>>)
    requires At(ts, i, us + vs)
    ensures At(ts, i, us) && At(ts, i + |us|, vs)
  {
    var all := us + vs;
    assert ts[i..i + |us|] == all[..|us|] == us;
    assert ts[i + |us|..i + |us| + |vs|] == all[|us|..] == vs;
  }

  lemma AtOne<W>(ts: seq<Tok<W>>, i: nat, t: Tok<W>)
    requires At(ts, i, [t])
    ensures i < |ts| && ts[i] == t
  {
    assert ts[i..i + 1][0] == t;
  }

  // What may come after a line, a background command, a pipeline, a command.

  predicate AfterLine<W>(ts: seq<Tok<W>>, i: nat) { i == |ts| || IsSym(ts, i, ')') }

  predicate AfterBack<W>(ts: seq<Tok<W>>, i: nat) { AfterLine(ts, i) || IsSym(ts, i, ';') }

  predicate AfterPipe<W>(ts: seq<Tok<W>>, i: nat) { AfterBack(ts, i) || IsSym(ts, i, '&') }

  predicate AfterExec<W>(ts: seq<Tok<W>>, i: nat) { AfterPipe(ts, i) || IsSym(ts, i, '|') }

  // ---- One command ----

  function PRedirs<W>(rs: seq<Redirection<W>>): (ts: seq<Tok<W>>)
    ensures |ts| == 2 * |rs|
  {
    if |rs| == 0 then [] else [Sym(rs[0].mode), Word(rs[0].file)] + PRedirs(rs[1..])
  }

  function Base<W>(c: Cmd<W>): (b: Cmd<W>)
    ensures !b.Redir? && (c == b || b < c)
  {
    if c.Redir? then Base(c.cmd) else c
  }

  function Reds<W>(c: Cmd<W>): (rs: seq<Redirection<W>>) {
    if c.Redir? then Reds(c.cmd) + [Redirection(c.file, c.mode)] else []
  }

  lemma {:induction false} OneMoreRedir<W>(rs: seq<Redirection<W>>, r: Redirection<W>)
    ensures PRedirs(rs + [r]) == PRedirs(rs) + [Sym(r.mode), Word(r.file)]
  {
    if |rs| == 0 {
      assert rs + [r] == [r] && [r][1..] == [];
    } else {
      OneMoreRedir(rs[1..], r);
      assert (rs + [r])[1..] == rs[1..] + [r];
    }
  }

  lemma {:induction false} Unwrap<W>(c: Cmd<W>)
    requires Printable(c)
    ensures Wrap(Base(c), Reds(c)) == c && PExec(c) == PExec(Base(c)) + PRedirs(Reds(c)) && Printable(Base(c))
    ensures forall k :: 0 <= k < |Reds(c)| ==>
            Reds(c)[k].mode == '<' || Reds(c)[k].mode == '>' || Reds(c)[k].mode == '+'
  {
    if c.Redir? {
      Unwrap(c.cmd);
      var rs, r := Reds(c.cmd), Redirection(c.file, c.mode);
      assert (rs + [r])[..|rs|] == rs;
      OneMoreRedir(rs, r);
      assert PExec(Base(c)) + (PRedirs(rs) + [Sym(r.mode), Word(r.file)])
             == PExec(Base(c)) + PRedirs(rs) + [Sym(r.mode), Word(r.file)];
    } else {
      assert PExec(c) + [] == PExec(c);
    }
  }

  lemma {:induction false} BackRedirs<W>(acc: seq<Redirection<W>>, rs: seq<Redirection<W>>, ts: seq<Tok<W>>, i: nat)
    requires At(ts, i, PRedirs(rs)) && !IsRedir(ts, i + 2 * |rs|)
    requires forall k :: 0 <= k < |rs| ==> rs[k].mode == '<' || rs[k].mode == '>' || rs[k].mode == '+'
    ensures Redirs(acc, ts, i) == Ok(acc + rs, i + 2 * |rs|)
    decreases |rs|
  {
    if |rs| == 0 {
      assert acc + rs == acc;
    } else {
      var two := [Sym(rs[0].mode), Word(rs[0].file)];
      AtBoth(ts, i, two, PRedirs(rs[1..]));
      assert ts[i] == ts[i..i + 2][0] == two[0] && ts[i + 1] == ts[i..i + 2][1] == two[1];
      BackRedirs(acc + [rs[0]], rs[1..], ts, i + 2);
      assert acc + [rs[0]] + rs[1..] == acc + rs;
    }
  }

  lemma {:induction false} BackArgs<W>(done: seq<W>, ws: seq<W>, rs: seq<Redirection<W>>, ts: seq<Tok<W>>, i: nat)
    requires At(ts, i, Words(ws) + PRedirs(rs)) && AfterExec(ts, i + |ws| + 2 * |rs|) && |done| + |ws| < MAXARGS
             && |ws| > 0
    requires forall k :: 0 <= k < |rs| ==> rs[k].mode == '<' || rs[k].mode == '>' || rs[k].mode == '+'
    ensures Args(done, [], ts, i) == Ok(Wrap(Exec(done + ws), rs), i + |ws| + 2 * |rs|)
    decreases |ws|
  {
    hide At, Wrap, PRedirs;
    var us := ws[1..];
    assert Words(ws) + PRedirs(rs) == [Word(ws[0])] + (Words(us) + PRedirs(rs));
    AtBoth(ts, i, [Word(ws[0])], Words(us) + PRedirs(rs));
    AtOne(ts, i, Word(ws[0]));
    if |us| > 0 {
      FirstWord(ts, i + 1, us, PRedirs(rs));
      assert Redirs([], ts, i + 1) == Ok([], i + 1);
      BackArgs(done + [ws[0]], us, rs, ts, i + 1);
      assert done + [ws[0]] + us == done + ws;
    } else {
      assert Words(us) + PRedirs(rs) == PRedirs(rs);
      BackRedirs([], rs, ts, i + 1);
      assert [] + rs == rs && done + ws == done + [ws[0]];
    }
  }

  lemma FirstWord<W>(ts: seq<Tok<W>>, i: nat, ws: seq<W>, vs: seq<Tok<W>>)
    requires At(ts, i, Words(ws) + vs) && |ws| > 0
    ensures i < |ts| && ts[i] == Word(ws[0])
  {
    assert ts[i] == ts[i..i + |ws| + |vs|][0] == (Words(ws) + vs)[0];
  }

  // ---- The round trip, level by level ----

  lemma {:induction false} BackExec<W>(c: Cmd<W>, ts: seq<Tok<W>>, i: nat)
    requires Printable(c) && At(ts, i, PExec(c)) && AfterExec(ts, i + |PExec(c)|)
    ensures ParseExec(ts, i) == Ok(c, i + |PExec(c)|)
    decreases c, Rank(c, 0)
  {
    hide At, PLine, Words, PRedirs, Wrap, ParseLine;
    Unwrap(c);
    var b, rs := Base(c), Reds(c);
    AtBoth(ts, i, PExec(b), PRedirs(rs));
    if b.Exec? {
      BackSimple(b.args, rs, ts, i);
    } else {
      BackParens(PLine(b), ts, i);
      BackLine(b, ts, i + 1);
      BackRedirs([], rs, ts, i + |PExec(b)|);
      assert [] + rs == rs;
    }
  }

  lemma BackSimple<W>(ws: seq<W>, rs: seq<Redirection<W>>, ts: seq<Tok<W>>, i: nat)
    requires At(ts, i, Words(ws) + PRedirs(rs)) && AfterExec(ts, i + |ws| + 2 * |rs|) && |ws| < MAXARGS
    requires forall k :: 0 <= k < |rs| ==> rs[k].mode == '<' || rs[k].mode == '>' || rs[k].mode == '+'
    ensures ParseExec(ts, i) == Ok(Wrap(Exec(ws), rs), i + |ws| + 2 * |rs|)
  {
    hide At, Wrap;
    if |ws| > 0 {
      FirstWord(ts, i, ws, PRedirs(rs));
      assert Redirs([], ts, i) == Ok([], i);
      BackArgs([], ws, rs, ts, i);
      assert [] + ws == ws;
    } else {
      assert Words(ws) + PRedirs(rs) == PRedirs(rs);
      BackRedirs([], rs, ts, i);
      assert [] + rs == rs && ws == [];
      NoParen(rs, ts, i);
    }
  }

  lemma BackParens<W>(l: seq<Tok<W>>, ts: seq<Tok<W>>, i: nat)
    requires At(ts, i, [Sym('(')] + l + [Sym(')')])
    ensures IsSym(ts, i, '(') && At(ts, i + 1, l) && IsSym(ts, i + 1 + |l|, ')')
  {
    hide At;
    assert [Sym('(')] + l + [Sym(')')] == [Sym('(')] + (l + [Sym(')')]);
    AtBoth(ts, i, [Sym('(')], l + [Sym(')')]);
    AtOne(ts, i, Sym('('));
    AtBoth(ts, i + 1, l, [Sym(')')]);
    AtOne(ts, i + 1 + |l|, Sym(')'));
  }

  lemma {:induction false} NoParen<W>(rs: seq<Redirection<W>>, ts: seq<Tok<W>>, i: nat)
    requires At(ts, i, PRedirs(rs)) && AfterExec(ts, i + 2 * |rs|)
    requires forall k :: 0 <= k < |rs| ==> rs[k].mode == '<' || rs[k].mode == '>' || rs[k].mode == '+'
    ensures !IsSym(ts, i, '(')
  {
    if |rs| > 0 {
      assert PRedirs(rs) == [Sym(rs[0].mode)] + ([Word(rs[0].file)] + PRedirs(rs[1..]));
      AtBoth(ts, i, [Sym(rs[0].mode)], [Word(rs[0].file)] + PRedirs(rs[1..]));
      AtOne(ts, i, Sym(rs[0].mode));
    }
  }

  lemma {:induction false} BackPipe<W>(c: Cmd<W>, ts: seq<Tok<W>>, i: nat)
    requires Printable(c) && At(ts, i, PPipe(c)) && AfterPipe(ts, i + |PPipe(c)|)
    ensures ParsePipe(ts, i) == Ok(c, i + |PPipe(c)|)
    decreases c, Rank(c, 1)
  {
    hide At, PExec, ParseExec, PLine, PBack;
    if c.Pipe? {
      var l, r := PExec(c.left), PPipe(c.right);
      assert PPipe(c) == l + ([Sym('|')] + r);
      AtBoth(ts, i, l, [Sym('|')] + r);
      AtBoth(ts, i + |l|, [Sym('|')], r);
      AtOne(ts, i + |l|, Sym('|'));
      BackExec(c.left, ts, i);
      BackPipe(c.right, ts, i + |l| + 1);
    } else {
      BackExec(c, ts, i);
    }
  }

  lemma {:induction false} BackBack<W>(c: Cmd<W>, ts: seq<Tok<W>>, i: nat)
    requires Printable(c) && At(ts, i, PBack(c)) && AfterPipe(ts, i + |PBack(c)|)
    ensures var p := ParsePipe(ts, i); p.Ok? && Backs(p.value, ts, p.i) == Backs(c, ts, i + |PBack(c)|)
    decreases c, Rank(c, 2)
  {
    hide At, PExec, ParsePipe, PLine, PPipe;
    if c.Back? {
      var d := PBack(c.cmd);
      AtBoth(ts, i, d, [Sym('&')]);
      AtOne(ts, i + |d|, Sym('&'));
      BackBack(c.cmd, ts, i);
    } else {
      BackPipe(c, ts, i);
    }
  }

  lemma {:induction false} BackLine<W>(c: Cmd<W>, ts: seq<Tok<W>>, i: nat)
    requires Printable(c) && At(ts, i, PLine(c)) && AfterLine(ts, i + |PLine(c)|)
    ensures ParseLine(ts, i) == Ok(c, i + |PLine(c)|)
    decreases c, Rank(c, 3)
  {
    hide At, PExec, ParsePipe, PBack, PPipe;
    if c.List? {
      var l, r := PBack(c.left), PLine(c.right);
      assert PLine(c) == l + ([Sym(';')] + r);
      AtBoth(ts, i, l, [Sym(';')] + r);
      AtBoth(ts, i + |l|, [Sym(';')], r);
      AtOne(ts, i + |l|, Sym(';'));
      BackBack(c.left, ts, i);
      BackLine(c.right, ts, i + |l| + 1);
    } else {
      BackBack(c, ts, i);
    }
  }

  /** Every printable tree comes back from its tokens. */
  lemma TokensRoundTrip<W>(c: Cmd<W>)
    requires Printable(c)
    ensures ParseAll(PLine(c)) == Ok(c, |PLine(c)|)
  {
    assert PLine(c)[0..|PLine(c)|] == PLine(c);
    BackLine(c, PLine(c), 0);
  }
}
