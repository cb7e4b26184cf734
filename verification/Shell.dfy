/** The shell's parser (user/sh.c) as it is: methods that advance a position in the line. They do what the
    functions on tokens say. */
module Shell {
  import opened ShellParse
  import opened ShellLex

  /** Position p is before token i of the line. */
  ghost predicate Before(s: seq<char>, p: nat, ts: seq<Tok<Span>>, i: nat) {
    p <= |s| && i <= |ts| && Lex(s, p) == ts[i..] && '\0' !in s
  }

  // The loop that skips white space, in gettoken and peek.
  method SkipWhite(s: seq<char>, p: nat) returns (r: nat)
    requires p <= |s|
    ensures r == Skip(s, p)
  {
    r := p;
    while r < |s| && White(s[r])
      invariant p <= r <= |s| && Skip(s, r) == Skip(s, p)
    {
      r := r + 1;
    }
  }

  /** gettoken: the next token, with its place if it is a word, and the position after it and after white
      space; at the end 0. */
  method GetToken(s: seq<char>, p: nat, ghost ts: seq<Tok<Span>>, ghost i: nat)
      returns (tok: char, q: nat, e: nat, p': nat)
    requires Before(s, p, ts, i)
    ensures i == |ts| ==> tok == '\0' && Before(s, p', ts, i)
    ensures i < |ts| ==>
            Before(s, p', ts, i + 1) && p' > p && ts[i] == if tok == 'a' then Word(Span(q, e)) else Sym(tok)
    ensures i < |ts| ==> tok != '\0'
  {
    hide Before, TokenAt, TokenEnd;
    Bounds(s, p, ts, i);
    q := SkipWhite(s, p);
    Next(s, p, ts, i);
    if q == |s| {
      return '\0', q, q, q;
    }
    tok, e := ScanToken(s, q);
    p' := SkipWhite(s, e);
    Skipped(s, e, ts, i + 1);
  }

  // The switch in gettoken.
  method ScanToken(s: seq<char>, q: nat) returns (tok: char, e: nat)
    requires q < |s| && !White(s[q]) && s[q] != '\0'
    ensures e == TokenEnd(s, q) && TokenAt(s, q) == (if tok == 'a' then Word(Span(q, e)) else Sym(tok)) && tok != '\0'
  {
    var t := q;
    tok := s[t];
    if s[t] == '|' || s[t] == '(' || s[t] == ')' || s[t] == ';' || s[t] == '&' || s[t] == '<' {
      t := t + 1;
    } else if s[t] == '>' {
      t := t + 1;
      if t < |s| && s[t] == '>' {
        tok := '+';
        t := t + 1;
      }
    } else {
      tok := 'a';
      while t < |s| && !White(s[t]) && !Symbol(s[t])
        invariant q <= t <= |s| && WordEnd(s, t) == WordEnd(s, q)
      {
        t := t + 1;
      }
    }
    e := t;
  }

  // The token at a position, and the same after white space.

  lemma Next(s: seq<char>, p: nat, ts: seq<Tok<Span>>, i: nat)
    requires Before(s, p, ts, i)
    ensures var q := Skip(s, p);
            && (i == |ts| <==> q == |s|) && Before(s, q, ts, i)
            && (i < |ts| ==> ts[i] == TokenAt(s, q) && Before(s, TokenEnd(s, q), ts, i + 1))
  {
    var q := Skip(s, p);
    assert Skip(s, q) == q;
    if i < |ts| {
      assert ts[i] == ts[i..][0] && ts[i + 1..] == ts[i..][1..];
    }
  }

  lemma Skipped(s: seq<char>, p: nat, ts: seq<Tok<Span>>, i: nat)
    requires Before(s, p, ts, i)
    ensures p <= |s| && Before(s, Skip(s, p), ts, i)
  {
    assert Skip(s, Skip(s, p)) == Skip(s, p);
  }

  /** peek: whether the next token is a symbol in toks; '>' there stands for > and >>. */
  method Peek(s: seq<char>, p: nat, toks: seq<char>, ghost ts: seq<Tok<Span>>, ghost i: nat)
      returns (yes: bool, p': nat)
    requires Before(s, p, ts, i) && forall k :: 0 <= k < |toks| ==> Symbol(toks[k])
    ensures Before(s, p', ts, i) && p' >= p
    ensures yes <==> i < |ts| && ts[i].Sym? && (ts[i].c in toks || (ts[i].c == '+' && '>' in toks))
  {
    p' := SkipWhite(s, p);
    Next(s, p, ts, i);
    yes := p' < |s| && s[p'] in toks;
  }

  lemma Bounds(s: seq<char>, p: nat, ts: seq<Tok<Span>>, i: nat)
    requires Before(s, p, ts, i)
    ensures i <= |ts| && p <= |s| && '\0' !in s
  {
  }

  // ---- The parser ----

  /** What a parsing method promises: the tree and the position, or the panic, that the function gives. */
  ghost predicate Agrees(r: Result<Cmd<Span>>, ok: bool, c: Cmd<Span>, s: seq<char>, p: nat, ts: seq<Tok<Span>>) {
    ok == r.Ok? && (ok ==> c == r.value && Before(s, p, ts, r.i))
  }

  method ParseRedirs(s: seq<char>, p: nat, rs: seq<Redirection<Span>>, ghost ts: seq<Tok<Span>>, ghost i: nat)
      returns (ok: bool, rs': seq<Redirection<Span>>, p': nat)
    requires Before(s, p, ts, i)
    ensures i <= |ts|
    ensures var r := Redirs(rs, ts, i); ok == r.Ok? && (ok ==> rs' == r.value && Before(s, p', ts, r.i))
  {
    hide Before;
    Bounds(s, p, ts, i);
    rs', p' := rs, p;
    ghost var j := i;
    var more;
    more, p' := Peek(s, p', ['<', '>'], ts, j);
    while more
      invariant i <= j <= |ts| && Before(s, p', ts, j) && Redirs(rs', ts, j) == Redirs(rs, ts, i)
      invariant more <==> IsRedir(ts, j)
      decreases |ts| - j
    {
      var mode, q, e;
      mode, q, e, p' := GetToken(s, p', ts, j);
      var tok;
      tok, q, e, p' := GetToken(s, p', ts, j + 1);
      if tok != 'a' {
        return false, rs', p'; // "missing file for redirection"
      }
      rs', j := rs' + [Redirection(Span(q, e), mode)], j + 2;
      more, p' := Peek(s, p', ['<', '>'], ts, j);
    }
    ok := true;
  }

  method ParseExecCmd(s: seq<char>, p: nat, ghost ts: seq<Tok<Span>>, ghost i: nat)
      returns (ok: bool, c: Cmd<Span>, p': nat)
    requires Before(s, p, ts, i)
    ensures i <= |ts| && Agrees(ParseExec(ts, i), ok, c, s, p', ts)
    decreases |ts| - i, 1
  {
    hide Before, ParseBlock, Redirs, Wrap;
    Bounds(s, p, ts, i);
    c := Exec([]);
    var block;
    block, p' := Peek(s, p, ['('], ts, i);
    if block {
      ok, c, p' := ParseBlockCmd(s, p', ts, i);
      return;
    }
    var rs;
    ghost var j;
    ok, rs, p' := ParseRedirs(s, p', [], ts, i);
    if !ok {
      return;
    }
    j := Redirs([], ts, i).i;
    var args := [];
    var stop;
    stop, p' := Peek(s, p', ['|', ')', '&', ';'], ts, j);
    while !stop
      invariant j <= |ts| && Before(s, p', ts, j) && Args(args, rs, ts, j) == ParseExec(ts, i) && |args| < MAXARGS
      invariant stop <==> IsStop(ts, j)
      decreases |ts| - j
    {
      var tok, q, e;
      tok, q, e, p' := GetToken(s, p', ts, j);
      if tok == '\0' {
        break;
      }
      if tok != 'a' {
        return false, c, p'; // "syntax"
      }
      args := args + [Span(q, e)];
      if |args| >= MAXARGS {
        return false, c, p'; // "too many args"
      }
      ghost var r := Redirs(rs, ts, j + 1);
      ok, rs, p' := ParseRedirs(s, p', rs, ts, j + 1);
      if !ok {
        return;
      }
      j := r.i;
      stop, p' := Peek(s, p', ['|', ')', '&', ';'], ts, j);
    }
    ok, c := true, Wrap(Exec(args), rs);
  }

  method ParseBlockCmd(s: seq<char>, p: nat, ghost ts: seq<Tok<Span>>, ghost i: nat)
      returns (ok: bool, c: Cmd<Span>, p': nat)
    requires Before(s, p, ts, i) && IsSym(ts, i, '(')
    ensures i <= |ts| && Agrees(ParseBlock(ts, i), ok, c, s, p', ts)
    decreases |ts| - i, 0
  {
    hide Before, ParseLine, Redirs, Wrap;
    var tok, q, e;
    tok, q, e, p' := GetToken(s, p, ts, i);
    ok, c, p' := ParseLineCmd(s, p', ts, i + 1);
    if !ok {
      return;
    }
    ghost var j := ParseLine(ts, i + 1).i;
    var close;
    close, p' := Peek(s, p', [')'], ts, j);
    if !close {
      return false, c, p'; // "syntax - missing )"
    }
    tok, q, e, p' := GetToken(s, p', ts, j);
    var rs;
    ok, rs, p' := ParseRedirs(s, p', [], ts, j + 1);
    if ok {
      c := Wrap(c, rs);
    }
  }

  method ParsePipeCmd(s: seq<char>, p: nat, ghost ts: seq<Tok<Span>>, ghost i: nat)
      returns (ok: bool, c: Cmd<Span>, p': nat)
    requires Before(s, p, ts, i)
    ensures i <= |ts| && Agrees(ParsePipe(ts, i), ok, c, s, p', ts)
    decreases |ts| - i, 2
  {
    hide Before, ParseExec;
    Bounds(s, p, ts, i);
    ok, c, p' := ParseExecCmd(s, p, ts, i);
    if !ok {
      return;
    }
    ghost var j := ParseExec(ts, i).i;
    var more;
    more, p' := Peek(s, p', ['|'], ts, j);
    if more {
      var tok, q, e, right;
      tok, q, e, p' := GetToken(s, p', ts, j);
      ok, right, p' := ParsePipeCmd(s, p', ts, j + 1);
      if ok {
        c := Pipe(c, right);
      }
    }
  }

  method ParseLineCmd(s: seq<char>, p: nat, ghost ts: seq<Tok<Span>>, ghost i: nat)
      returns (ok: bool, c: Cmd<Span>, p': nat)
    requires Before(s, p, ts, i)
    ensures i <= |ts| && Agrees(ParseLine(ts, i), ok, c, s, p', ts)
    decreases |ts| - i, 3
  {
    hide Before, ParsePipe;
    Bounds(s, p, ts, i);
    ok, c, p' := ParsePipeCmd(s, p, ts, i);
    if !ok {
      return;
    }
    ghost var j := ParsePipe(ts, i).i;
    ghost var b := Backs(c, ts, j);
    var more;
    more, p' := Peek(s, p', ['&'], ts, j);
    while more
      invariant i <= j <= |ts| && Before(s, p', ts, j) && Backs(c, ts, j) == b && (more <==> IsSym(ts, j, '&'))
      decreases |ts| - j
    {
      var tok, q, e;
      tok, q, e, p' := GetToken(s, p', ts, j);
      c, j := Back(c), j + 1;
      more, p' := Peek(s, p', ['&'], ts, j);
    }
    more, p' := Peek(s, p', [';'], ts, j);
    if more {
      var tok, q, e, right;
      tok, q, e, p' := GetToken(s, p', ts, j);
      ok, right, p' := ParseLineCmd(s, p', ts, j + 1);
      if ok {
        c := List(c, right);
      }
    }
  }

  /** parsecmd up to nulterminate: the tree of the whole line. */
  method ParseCmd(s: seq<char>) returns (ok: bool, c: Cmd<Span>)
    requires '\0' !in s
    ensures var r := ParseAll(Lex(s, 0)); ok == r.Ok? && (ok ==> c == r.value)
  {
    ghost var ts := Lex(s, 0);
    assert ts[0..] == ts;
    var p;
    ok, c, p := ParseLineCmd(s, 0, ts, 0);
    if !ok {
      return;
    }
    ghost var i := ParseLine(ts, 0).i;
    Next(s, p, ts, i);
    p := SkipWhite(s, p); // peek(&s, es, "")
    if p != |s| {
      return false, c; // "leftovers"
    }
  }

  // ---- nulterminate ----

  /** k is the end of a word of the tree. */
  ghost predicate EndsAt(c: Cmd<Span>, k: nat) { exists w :: Has(c, w) && w.e == k }

  /** nulterminate: a NUL at the end of every word of the tree, and nothing else. */
  method NulTerminate(c: Cmd<Span>, buf: array<char>)
    requires forall w :: Has(c, w) ==> w.e < buf.Length
    modifies buf
    ensures forall k :: 0 <= k < buf.Length ==> buf[k] == if EndsAt(c, k) then '\0' else old(buf[k])
    decreases c
  {
    match c
    case Exec(args) =>
      var i := 0;
      while i < |args|
        invariant i <= |args|
        invariant forall k :: 0 <= k < buf.Length ==>
                  buf[k] == if exists j :: 0 <= j < i && args[j].e == k then '\0' else old(buf[k])
      {
        assert Has(c, args[i]);
        buf[args[i].e] := '\0';
        i := i + 1;
      }
      forall k | 0 <= k < buf.Length
        ensures EndsAt(c, k) <==> exists j :: 0 <= j < |args| && args[j].e == k
      {
        if j :| 0 <= j < |args| && args[j].e == k {
          assert Has(c, args[j]);
        }
      }
    case Redir(d, f, _) =>
      assert forall w :: Has(d, w) ==> Has(c, w);
      assert Has(c, f);
      NulTerminate(d, buf);
      buf[f.e] := '\0';
      forall k | 0 <= k < buf.Length
        ensures EndsAt(c, k) <==> EndsAt(d, k) || k == f.e
      {
        RedirEnds(c, k);
      }
    case Pipe(l, r) =>
      NulBoth(c, l, r, buf);
    case List(l, r) =>
      NulBoth(c, l, r, buf);
    case Back(d) =>
      assert forall w :: Has(d, w) <==> Has(c, w);
      NulTerminate(d, buf);
      assert forall k :: 0 <= k < buf.Length ==> (EndsAt(c, k) <==> EndsAt(d, k));
  }

  lemma RedirEnds(c: Cmd<Span>, k: nat)
    requires c.Redir?
    ensures EndsAt(c, k) <==> EndsAt(c.cmd, k) || k == c.file.e
  {
    assert Has(c, c.file);
    if w :| Has(c.cmd, w) && w.e == k {
      assert Has(c, w);
    }
    if w :| Has(c, w) && w.e == k {
      assert w == c.file || Has(c.cmd, w);
    }
  }

  method NulBoth(ghost c: Cmd<Span>, l: Cmd<Span>, r: Cmd<Span>, buf: array<char>)
    requires c == Pipe(l, r) || c == List(l, r)
    requires forall w :: Has(c, w) ==> w.e < buf.Length
    modifies buf
    ensures forall k :: 0 <= k < buf.Length ==> buf[k] == if EndsAt(c, k) then '\0' else old(buf[k])
    decreases c, 0
  {
    assert forall w :: Has(l, w) ==> Has(c, w);
    assert forall w :: Has(r, w) ==> Has(c, w);
    NulTerminate(l, buf);
    NulTerminate(r, buf);
    forall k | 0 <= k < buf.Length
      ensures EndsAt(c, k) <==> EndsAt(l, k) || EndsAt(r, k)
    {
      BothEnds(c, l, r, k);
    }
  }

  lemma BothEnds(c: Cmd<Span>, l: Cmd<Span>, r: Cmd<Span>, k: nat)
    requires c == Pipe(l, r) || c == List(l, r)
    ensures EndsAt(c, k) <==> EndsAt(l, k) || EndsAt(r, k)
  {
    if w :| Has(l, w) && w.e == k {
      assert Has(c, w);
    }
    if w :| Has(r, w) && w.e == k {
      assert Has(c, w);
    }
    if w :| Has(c, w) && w.e == k {
      assert Has(l, w) || Has(r, w);
    }
  }

  /** A word of the line: its characters are in words, and the one after it, if there is one, is not. */
  ghost predicate IsWord(s: seq<char>, w: Span) {
    w.q < w.e <= |s| && (forall k :: w.q <= k < w.e ==> InWord(s[k])) && (w.e < |s| ==> !InWord(s[w.e]))
  }

  lemma {:induction false} LexWords(s: seq<char>, p: nat, w: Span)
    requires p <= |s| && InLine(Lex(s, p), w)
    ensures IsWord(s, w)
    decreases |s| - p
  {
    var q := Skip(s, p);
    var k :| 0 <= k < |Lex(s, p)| && Lex(s, p)[k] == Word(w);
    if k > 0 {
      assert Lex(s, TokenEnd(s, q))[k - 1] == Word(w);
      LexWords(s, TokenEnd(s, q), w);
    }
  }

  /** parsecmd: once the words are ended by NULs in place, each word of the tree is, as a C string, exactly
      its token: no NUL is inside another word. */
  method ParseInPlace(buf: array<char>, n: nat) returns (ok: bool, c: Cmd<Span>)
    requires n < buf.Length && buf[n] == '\0' && '\0' !in buf[..n]
    modifies buf
    ensures var r := ParseAll(Lex(old(buf[..n]), 0)); ok == r.Ok? && (ok ==> c == r.value)
    ensures ok ==>
            forall w :: Has(c, w) ==>
              w.q < w.e <= n && buf[w.q..w.e] == old(buf[w.q..w.e]) && '\0' !in buf[w.q..w.e] && buf[w.e] == '\0'
    ensures !ok ==> buf[..] == old(buf[..])
  {
    hide Lex, ParseAll;
    ghost var s := buf[..n];
    ok, c := ParseCmd(buf[..n]);
    if !ok {
      return;
    }
    AllWords(s, c);
    NulTerminate(c, buf);
    forall w | Has(c, w)
      ensures w.q < w.e <= n && buf[w.q..w.e] == s[w.q..w.e] && buf[w.e] == '\0'
    {
      assert IsWord(s, w);
      assert EndsAt(c, w.e);
      forall k | w.q <= k < w.e
        ensures buf[k] == s[k]
      {
        NotInside(s, c, w, k);
      }
    }
    assert forall w :: Has(c, w) ==> '\0' !in s[w.q..w.e];
  }

  lemma AllWords(s: seq<char>, c: Cmd<Span>)
    requires var r := ParseAll(Lex(s, 0)); r.Ok? && c == r.value
    ensures forall w :: Has(c, w) ==> IsWord(s, w)
  {
    LineIn(Lex(s, 0), 0);
    forall w | Has(c, w)
      ensures IsWord(s, w)
    {
      LexWords(s, 0, w);
    }
  }

  lemma NotInside(s: seq<char>, c: Cmd<Span>, w: Span, k: nat)
    requires (forall v :: Has(c, v) ==> IsWord(s, v)) && IsWord(s, w) && w.q <= k < w.e
    ensures !EndsAt(c, k)
  {
  }
}
