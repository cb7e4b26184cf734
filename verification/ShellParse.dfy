/** The shell's grammar (user/sh.c): tokens, command trees, and the recursive-descent parser as functions on
    a sequence of tokens. */
module ShellParse {

  const MAXARGS := 10

  /** A word or a symbol; '+' stands for >>. W is what is known of a word. */
  datatype Tok<W> = Word(w: W) | Sym(c: char)

  /** mode is '<', '>' or '+'. */
  datatype Cmd<W> = Exec(args: seq<W>) | Redir(cmd: Cmd<W>, file: W, mode: char)
                  | Pipe(left: Cmd<W>, right: Cmd<W>) | List(left: Cmd<W>, right: Cmd<W>) | Back(cmd: Cmd<W>)

  datatype Redirection<W> = Redirection(file: W, mode: char)

  /** Fail is one of the parser's panics; Ok gives the tree and the number of tokens before the next one. */
  datatype Result<T> = Fail | Ok(value: T, i: nat)

  predicate IsSym<W>(ts: seq<Tok<W>>, i: nat, c: char) { i < |ts| && ts[i].Sym? && ts[i].c == c }

  predicate IsRedir<W>(ts: seq<Tok<W>>, i: nat) { IsSym(ts, i, '<') || IsSym(ts, i, '>') || IsSym(ts, i, '+') }

  predicate IsStop<W>(ts: seq<Tok<W>>, i: nat) {
    IsSym(ts, i, '|') || IsSym(ts, i, ')') || IsSym(ts, i, '&') || IsSym(ts, i, ';')
  }

  /** A command with redirections, the first of them innermost. */
  function Wrap<W>(c: Cmd<W>, rs: seq<Redirection<W>>): (r: Cmd<W>) {
    if |rs| == 0 then c else Redir(Wrap(c, rs[..|rs| - 1]), rs[|rs| - 1].file, rs[|rs| - 1].mode)
  }

  /** parseredirs: the redirections at i are added to rs. */
  function Redirs<W>(rs: seq<Redirection<W>>, ts: seq<Tok<W>>, i: nat): (r: Result<seq<Redirection<W>>>)
    requires i <= |ts|
    ensures r.Ok? ==> i <= r.i <= |ts|
    decreases |ts| - i
  {
    if !IsRedir(ts, i) then Ok(rs, i)
    else if i + 1 < |ts| && ts[i + 1].Word? then Redirs(rs + [Redirection(ts[i + 1].w, ts[i].c)], ts, i + 2)
    else Fail
  }

  /** The loop of parseexec: words, and redirections after each. */
  function Args<W>(args: seq<W>, rs: seq<Redirection<W>>, ts: seq<Tok<W>>, i: nat): (r: Result<Cmd<W>>)
    requires i <= |ts|
    ensures r.Ok? ==> i <= r.i <= |ts|
    decreases |ts| - i
  {
    if IsStop(ts, i) || i == |ts| then Ok(Wrap(Exec(args), rs), i)
    else if !ts[i].Word? || |args| + 1 >= MAXARGS then Fail
    else
      var q := Redirs(rs, ts, i + 1);
      if q.Fail? then Fail else Args(args + [ts[i].w], q.value, ts, q.i)
  }

  function ParseExec<W>(ts: seq<Tok<W>>, i: nat): (r: Result<Cmd<W>>)
    requires i <= |ts|
    ensures r.Ok? ==> i <= r.i <= |ts|
    decreases |ts| - i, 1
  {
    if IsSym(ts, i, '(') then ParseBlock(ts, i)
    else
      var q := Redirs([], ts, i);
      if q.Fail? then Fail else Args([], q.value, ts, q.i)
  }

  function ParseBlock<W>(ts: seq<Tok<W>>, i: nat): (r: Result<Cmd<W>>)
    requires i <= |ts| && IsSym(ts, i, '(')
    ensures r.Ok? ==> i <= r.i <= |ts|
    decreases |ts| - i, 0
  {
    var l := ParseLine(ts, i + 1);
    if l.Fail? || !IsSym(ts, l.i, ')') then Fail
    else
      var q := Redirs([], ts, l.i + 1);
      if q.Fail? then Fail else Ok(Wrap(l.value, q.value), q.i)
  }

  function ParsePipe<W>(ts: seq<Tok<W>>, i: nat): (r: Result<Cmd<W>>)
    requires i <= |ts|
    ensures r.Ok? ==> i <= r.i <= |ts|
    decreases |ts| - i, 2
  {
    var l := ParseExec(ts, i);
    if l.Fail? || !IsSym(ts, l.i, '|') then l
    else
      var r := ParsePipe(ts, l.i + 1);
      if r.Fail? then Fail else Ok(Pipe(l.value, r.value), r.i)
  }

  /** The loop of parseline. */
  function Backs<W>(c: Cmd<W>, ts: seq<Tok<W>>, i: nat): (r: Result<Cmd<W>>)
    requires i <= |ts|
    ensures r.Ok? && i <= r.i <= |ts| && !IsSym(ts, r.i, '&')
    decreases |ts| - i
  {
    if IsSym(ts, i, '&') then Backs(Back(c), ts, i + 1) else Ok(c, i)
  }

  function ParseLine<W>(ts: seq<Tok<W>>, i: nat): (r: Result<Cmd<W>>)
    requires i <= |ts|
    ensures r.Ok? ==> i <= r.i <= |ts|
    decreases |ts| - i, 3
  {
    var p := ParsePipe(ts, i);
    if p.Fail? then Fail
    else
      var b := Backs(p.value, ts, p.i);
      if !IsSym(ts, b.i, ';') then b
      else
        var r := ParseLine(ts, b.i + 1);
        if r.Fail? then Fail else Ok(List(b.value, r.value), r.i)
  }

  /** parsecmd: nothing may be left over. */
  function ParseAll<W>(ts: seq<Tok<W>>): (r: Result<Cmd<W>>) {
    var l := ParseLine(ts, 0);
    if l.Fail? || l.i != |ts| then Fail else l
  }

  // ---- Every word of the tree is a word of the line ----

  ghost predicate Has<W>(c: Cmd<W>, w: W) {
    match c
    case Exec(args) => w in args
    case Redir(d, f, _) => w == f || Has(d, w)
    case Pipe(l, r) => Has(l, w) || Has(r, w)
    case List(l, r) => Has(l, w) || Has(r, w)
    case Back(d) => Has(d, w)
  }

  ghost predicate InLine<W>(ts: seq<Tok<W>>, w: W) { exists k :: 0 <= k < |ts| && ts[k] == Word(w) }

  ghost predicate FromLine<W(!new)>(c: Cmd<W>, ts: seq<Tok<W>>) { forall w :: Has(c, w) ==> InLine(ts, w) }

  ghost predicate RedirsFrom<W>(rs: seq<Redirection<W>>, ts: seq<Tok<W>>) {
    forall k :: 0 <= k < |rs| ==> InLine(ts, rs[k].file)
  }

  lemma {:induction false} WrapFrom<W(!new)>(c: Cmd<W>, rs: seq<Redirection<W>>, ts: seq<Tok<W>>)
    requires FromLine(c, ts) && RedirsFrom(rs, ts)
    ensures FromLine(Wrap(c, rs), ts)
    decreases |rs|
  {
    if |rs| > 0 {
      WrapFrom(c, rs[..|rs| - 1], ts);
    }
  }

  lemma {:induction false} RedirsIn<W>(rs: seq<Redirection<W>>, ts: seq<Tok<W>>, i: nat)
    requires i <= |ts| && RedirsFrom(rs, ts)
    ensures Redirs(rs, ts, i).Ok? ==> RedirsFrom(Redirs(rs, ts, i).value, ts)
    decreases |ts| - i
  {
    if IsRedir(ts, i) && i + 1 < |ts| && ts[i + 1].Word? {
      assert InLine(ts, ts[i + 1].w);
      RedirsIn(rs + [Redirection(ts[i + 1].w, ts[i].c)], ts, i + 2);
    }
  }

  lemma {:induction false} ArgsIn<W(!new)>(args: seq<W>, rs: seq<Redirection<W>>, ts: seq<Tok<W>>, i: nat)
    requires i <= |ts| && RedirsFrom(rs, ts) && forall k :: 0 <= k < |args| ==> InLine(ts, args[k])
    ensures Args(args, rs, ts, i).Ok? ==> FromLine(Args(args, rs, ts, i).value, ts)
    decreases |ts| - i
  {
    if IsStop(ts, i) || i == |ts| {
      WrapFrom(Exec(args), rs, ts);
    } else if ts[i].Word? && |args| + 1 < MAXARGS {
      var q := Redirs(rs, ts, i + 1);
      RedirsIn(rs, ts, i + 1);
      assert InLine(ts, ts[i].w);
      if q.Ok? {
        ArgsIn(args + [ts[i].w], q.value, ts, q.i);
      }
    }
  }

  lemma {:induction false} ExecIn<W(!new)>(ts: seq<Tok<W>>, i: nat)
    requires i <= |ts|
    ensures ParseExec(ts, i).Ok? ==> FromLine(ParseExec(ts, i).value, ts)
    decreases |ts| - i, 1
  {
    hide FromLine, Redirs, Args;
    if IsSym(ts, i, '(') {
      BlockIn(ts, i);
    } else {
      RedirsIn([], ts, i);
      var q := Redirs([], ts, i);
      if q.Ok? {
        ArgsIn([], q.value, ts, q.i);
      }
    }
  }

  lemma {:induction false} BlockIn<W(!new)>(ts: seq<Tok<W>>, i: nat)
    requires i <= |ts| && IsSym(ts, i, '(')
    ensures ParseBlock(ts, i).Ok? ==> FromLine(ParseBlock(ts, i).value, ts)
    decreases |ts| - i, 0
  {
    hide FromLine, Redirs, ParseLine;
    LineIn(ts, i + 1);
    var l := ParseLine(ts, i + 1);
    if l.Ok? && IsSym(ts, l.i, ')') {
      RedirsIn([], ts, l.i + 1);
      var q := Redirs([], ts, l.i + 1);
      if q.Ok? {
        WrapFrom(l.value, q.value, ts);
      }
    }
  }

  lemma {:induction false} PipeIn<W(!new)>(ts: seq<Tok<W>>, i: nat)
    requires i <= |ts|
    ensures ParsePipe(ts, i).Ok? ==> FromLine(ParsePipe(ts, i).value, ts)
    decreases |ts| - i, 2
  {
    hide ParseExec;
    ExecIn(ts, i);
    var l := ParseExec(ts, i);
    if l.Ok? && IsSym(ts, l.i, '|') {
      PipeIn(ts, l.i + 1);
    }
  }

  lemma {:induction false} BacksIn<W(!new)>(c: Cmd<W>, ts: seq<Tok<W>>, i: nat)
    requires i <= |ts| && FromLine(c, ts)
    ensures FromLine(Backs(c, ts, i).value, ts)
    decreases |ts| - i
  {
    if IsSym(ts, i, '&') {
      BacksIn(Back(c), ts, i + 1);
    }
  }

  lemma {:induction false} LineIn<W(!new)>(ts: seq<Tok<W>>, i: nat)
    requires i <= |ts|
    ensures ParseLine(ts, i).Ok? ==> FromLine(ParseLine(ts, i).value, ts)
    decreases |ts| - i, 3
  {
    hide ParsePipe, Backs;
    PipeIn(ts, i);
    var p := ParsePipe(ts, i);
    if p.Ok? {
      BacksIn(p.value, ts, p.i);
      var b := Backs(p.value, ts, p.i);
      if IsSym(ts, b.i, ';') {
        LineIn(ts, b.i + 1);
      }
    }
  }
}
