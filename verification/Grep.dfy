/** grep (user/grep.c): the matcher of Kernighan and Pike, The Practice of Programming, chapter 9, and the
    loop that feeds it lines. A C string is the sequence of its characters before the NUL. */
module Grep {

  // ---- What a pattern means ----

  /** One(c) is the character c, or any if c is '.'; Star(c) is any number of these; End is the end of the
      text. */
  datatype Tok = One(c: char) | Star(c: char) | End

  function Parse(re: seq<char>): (t: seq<Tok>) {
    if |re| == 0 then []
    else if |re| > 1 && re[1] == '*' then [Star(re[0])] + Parse(re[2..])
    else if re == ['$'] then [End]
    else [One(re[0])] + Parse(re[1..])
  }

  predicate Fits(c: char, x: char) { c == '.' || c == x }

  /** text[i..j] is what t stands for. */
  ghost predicate Piece(t: Tok, text: seq<char>, i: nat, j: nat)
    requires i <= j <= |text|
  {
    match t
    case One(c) => j == i + 1 && Fits(c, text[i])
    case Star(c) => forall k :: i <= k < j ==> Fits(c, text[k])
    case End => i == j == |text|
  }

  /** cuts divides the text from `from` on into pieces, one for each token. */
  ghost predicate Splits(ts: seq<Tok>, text: seq<char>, from: nat, cuts: seq<nat>) {
    && |cuts| == |ts| + 1 && cuts[0] == from <= |text|
    && forall i :: 0 <= i < |ts| ==> PieceAt(ts, text, cuts, i)
  }

  ghost predicate PieceAt(ts: seq<Tok>, text: seq<char>, cuts: seq<nat>, i: nat)
    requires i < |ts| < |cuts|
  {
    cuts[i] <= cuts[i + 1] <= |text| && Piece(ts[i], text, cuts[i], cuts[i + 1])
  }

  /** The tokens match a part of the text that begins at `from`. */
  ghost predicate MatchesAt(ts: seq<Tok>, text: seq<char>, from: nat) { exists cuts :: Splits(ts, text, from, cuts) }

  /** The pattern matches somewhere in the text, or at its beginning if it begins with '^'. */
  ghost predicate Matches(re: seq<char>, text: seq<char>) {
    if |re| > 0 && re[0] == '^' then MatchesAt(Parse(re[1..]), text, 0)
    else exists from :: 0 <= from <= |text| && MatchesAt(Parse(re), text, from)
  }

  lemma NoTokens(text: seq<char>, from: nat)
    requires from <= |text|
    ensures MatchesAt([], text, from)
  {
    assert Splits([], text, from, [from]);
  }

  /** A first token takes a piece, and the others match after it. */
  lemma FirstToken(t: Tok, ts: seq<Tok>, text: seq<char>, from: nat)
    requires from <= |text|
    ensures MatchesAt([t] + ts, text, from) <==> exists j :: TakesTo(t, ts, text, from, j)
  {
    if MatchesAt([t] + ts, text, from) {
      var cuts :| Splits([t] + ts, text, from, cuts);
      SplitRest(t, ts, text, from, cuts);
      assert TakesTo(t, ts, text, from, cuts[1]);
    }
    if j :| TakesTo(t, ts, text, from, j) {
      var cuts :| Splits(ts, text, j, cuts);
      SplitMore(t, ts, text, from, j, cuts);
    }
  }

  ghost predicate TakesTo(t: Tok, ts: seq<Tok>, text: seq<char>, from: nat, j: nat) {
    from <= j <= |text| && Piece(t, text, from, j) && MatchesAt(ts, text, j)
  }

  lemma SplitRest(t: Tok, ts: seq<Tok>, text: seq<char>, from: nat, cuts: seq<nat>)
    requires Splits([t] + ts, text, from, cuts)
    ensures from <= cuts[1] <= |text| && Piece(t, text, from, cuts[1]) && Splits(ts, text, cuts[1], cuts[1..])
  {
    var all := [t] + ts;
    assert all[0] == t && forall i :: 0 <= i < |ts| ==> all[i + 1] == ts[i];
    var rest := cuts[1..];
    assert PieceAt(all, text, cuts, 0);
    forall i | 0 <= i < |ts|
      ensures PieceAt(ts, text, rest, i)
    {
      assert PieceAt(all, text, cuts, i + 1);
    }
  }

  lemma SplitMore(t: Tok, ts: seq<Tok>, text: seq<char>, from: nat, j: nat, cuts: seq<nat>)
    requires from <= j <= |text| && Piece(t, text, from, j) && Splits(ts, text, j, cuts)
    ensures MatchesAt([t] + ts, text, from)
  {
    var all, more := [t] + ts, [from] + cuts;
    forall i | 0 <= i < |all|
      ensures PieceAt(all, text, more, i)
    {
      assert i > 0 ==> PieceAt(ts, text, cuts, i - 1);
    }
    assert Splits(all, text, from, more);
  }

  // ---- The matcher ----

  /** matchhere: the pattern matches at the beginning of the text from `at` on. */
  method MatchHere(re: seq<char>, text: seq<char>, at: nat) returns (r: bool)
    requires at <= |text|
    ensures r <==> MatchesAt(Parse(re), text, at)
    decreases |re|
  {
    if |re| == 0 {
      NoTokens(text, at);
      return true;
    }
    if |re| > 1 && re[1] == '*' {
      r := MatchStar(re[0], re[2..], text, at);
      return;
    }
    if re == ['$'] {
      OnlyEnd(text, at);
      return at == |text|;
    }
    FirstToken(One(re[0]), Parse(re[1..]), text, at);
    if at < |text| && (re[0] == '.' || re[0] == text[at]) {
      r := MatchHere(re[1..], text, at + 1);
      assert r ==> TakesTo(One(re[0]), Parse(re[1..]), text, at, at + 1);
      return;
    }
    r := false;
  }

  /** matchstar: any number of c, and then the pattern. */
  method MatchStar(c: char, re: seq<char>, text: seq<char>, at: nat) returns (r: bool)
    requires at <= |text|
    ensures r <==> MatchesAt([Star(c)] + Parse(re), text, at)
    decreases |re| + 1
  {
    FirstToken(Star(c), Parse(re), text, at);
    var i := at;
    while true
      invariant at <= i <= |text| && Piece(Star(c), text, at, i)
      invariant forall j :: at <= j < i ==> !MatchesAt(Parse(re), text, j)
      decreases |text| - i
    {
      var here := MatchHere(re, text, i);
      if here {
        assert TakesTo(Star(c), Parse(re), text, at, i);
        return true;
      }
      if i == |text| || !(text[i] == c || c == '.') {
        assert forall j: nat :: TakesTo(Star(c), Parse(re), text, at, j) ==> j <= i;
        return false;
      }
      i := i + 1;
    }
  }

  lemma OnlyEnd(text: seq<char>, at: nat)
    requires at <= |text|
    ensures MatchesAt([End], text, at) <==> at == |text|
  {
    NoTokens(text, at);
    FirstToken(End, [], text, at);
    assert [End] + [] == [End];
    if at == |text| {
      assert TakesTo(End, [], text, at, at);
    }
  }

  /** match: the pattern matches the text. */
  method Match(re: seq<char>, text: seq<char>) returns (r: bool)
    ensures r <==> Matches(re, text)
  {
    if |re| > 0 && re[0] == '^' {
      r := MatchHere(re[1..], text, 0);
      return;
    }
    var i := 0;
    while true
      invariant i <= |text|
      invariant forall j :: 0 <= j < i ==> !MatchesAt(Parse(re), text, j)
      decreases |text| - i
    {
      var here := MatchHere(re, text, i);
      if here {
        return true;
      }
      if i == |text| {
        return false;
      }
      i := i + 1;
    }
  }

  // ---- The lines that grep writes ----

  const BUF := 1024

  // The first newline at or after k, if no NUL comes before it.
  ghost function NewlineFrom(s: seq<char>, k: nat): (q: int)
    requires k <= |s|
    ensures q == -1 || (k <= q < |s| && s[q] == '\n' && forall i :: k <= i < q ==> s[i] != '\n' && s[i] != '\0')
    ensures q == -1 ==> forall i :: k <= i < |s| && s[i] == '\n' ==> exists j :: k <= j < i && s[j] == '\0'
    decreases |s| - k
  {
    if k == |s| || s[k] == '\0' then -1 else if s[k] == '\n' then k else NewlineFrom(s, k + 1)
  }

  /** All lines of s, up to the first NUL, that end in a newline and match. */
  ghost function Selected(re: seq<char>, s: seq<char>): (out: seq<char>)
    decreases |s|
  {
    var q := NewlineFrom(s, 0);
    if q == -1 then [] else (if Matches(re, s[..q]) then s[..q + 1] else []) + Selected(re, s[q + 1..])
  }

  /** What grep writes of s: it stops at the first line that, with its newline, does not fit into the
      buffer. */
  ghost function Written(re: seq<char>, s: seq<char>): (out: seq<char>)
    decreases |s|
  {
    var q := NewlineFrom(s, 0);
    if q == -1 || q + 1 >= BUF then [] else (if Matches(re, s[..q]) then s[..q + 1] else []) + Written(re, s[q + 1..])
  }

  /** Where it stops: what is left of s then. */
  ghost function Unread(s: seq<char>): (t: seq<char>)
    decreases |s|
  {
    var q := NewlineFrom(s, 0);
    if q == -1 || q + 1 >= BUF then s else Unread(s[q + 1..])
  }

  lemma {:induction false} ThenTheRest(re: seq<char>, s: seq<char>)
    ensures Selected(re, s) == Written(re, s) + Selected(re, Unread(s))
    decreases |s|
  {
    var q := NewlineFrom(s, 0);
    if q != -1 && q + 1 < BUF {
      hide Matches, NewlineFrom;
      ThenTheRest(re, s[q + 1..]);
      var out := if Matches(re, s[..q]) then s[..q + 1] else [];
      Assoc(out, Written(re, s[q + 1..]), Selected(re, Unread(s)));
    }
  }

  lemma Assoc(a: seq<char>, b: seq<char>, c: seq<char>)
    ensures a + (b + c) == (a + b) + c
  {
  }

  /** grep writes every line it should exactly if none of them comes after the first line that is too long. */
  lemma WritesAllIff(re: seq<char>, s: seq<char>)
    ensures Written(re, s) == Selected(re, s) <==> Selected(re, Unread(s)) == []
  {
    hide Written, Selected, Unread;
    ThenTheRest(re, s);
    assert |Selected(re, s)| == |Written(re, s)| + |Selected(re, Unread(s))|;
  }

  /** A line of 1023 characters and its newline is too long: it matches, and is not written. */
  lemma LongLine() returns (s: seq<char>)
    ensures Selected(['a'], s) == s && Written(['a'], s) == [] != s
  {
    var line := seq(BUF - 1, _ => 'a');
    s := line + ['\n'];
    assert NewlineFrom(s, 0) == BUF - 1 by {
      var q := NewlineFrom(s, 0);
      assert s[BUF - 1] == '\n' && forall i :: 0 <= i < BUF - 1 ==> s[i] == 'a';
    }
    assert s[..BUF - 1] == line && s[BUF..] == [];
    MatchesA(line);
    assert s[..BUF] == s;
  }

  lemma MatchesA(line: seq<char>)
    requires |line| > 0 && line[0] == 'a'
    ensures Matches(['a'], line)
  {
    assert Parse(['a']) == [One('a')];
    assert Splits([One('a')], line, 0, [0, 1]);
    assert MatchesAt(Parse(['a']), line, 0);
  }

  // s[i..j + 1] is a line that ends in a newline.
  ghost predicate Line(s: seq<char>, i: nat, j: nat) {
    i <= j < |s| && (i == 0 || s[i - 1] == '\n') && s[j] == '\n' && forall k :: i <= k < j ==> s[k] != '\n'
  }

  /** So it does if every line that ends in a newline fits into 1023 characters, however long what comes
      after the last newline is. */
  lemma {:induction false} ShortLines(re: seq<char>, s: seq<char>)
    requires forall i: nat, j: nat :: Line(s, i, j) ==> j - i + 1 < BUF
    ensures Written(re, s) == Selected(re, s)
    decreases |s|
  {
    var q := NewlineFrom(s, 0);
    if q != -1 {
      assert Line(s, 0, q);
      var t := s[q + 1..];
      forall i: nat, j: nat | Line(t, i, j)
        ensures j - i + 1 < BUF
      {
        ShiftLine(s, q + 1, i, j);
      }
      ShortLines(re, t);
    }
  }

  // A line of s[d..] is a line of s, if a line of s ends before d.
  lemma ShiftLine(s: seq<char>, d: nat, i: nat, j: nat)
    requires 0 < d <= |s| && s[d - 1] == '\n' && Line(s[d..], i, j)
    ensures Line(s, i + d, j + d)
  {
    forall k | i + d <= k < j + d
      ensures s[k] != '\n'
    {
      assert s[d..][k - d] != '\n';
    }
  }

  // ---- The loop ----

  /** strchr(p, '\n') in a buffer whose first m characters are in use. */
  method FindNewline(buf: array<char>, p: nat, m: nat) returns (q: int)
    requires p <= m < buf.Length && buf[m] == '\0'
    ensures q == -1 || p <= q < m
    ensures q == (if NewlineFrom(buf[p..m], 0) == -1 then -1 else p + NewlineFrom(buf[p..m], 0))
  {
    ghost var s := buf[p..m];
    var i := p;
    while buf[i] != '\0'
      invariant p <= i <= m && NewlineFrom(s, i - p) == NewlineFrom(s, 0)
      decreases m - i
    {
      if buf[i] == '\n' {
        return i;
      }
      i := i + 1;
    }
    q := -1;
  }

  // Reading on behind a line, and behind the buffer, changes nothing before.

  lemma {:induction false} NewlineWithin(s: seq<char>, t: seq<char>, k: nat)
    requires k <= |s| && NewlineFrom(s, k) != -1
    ensures NewlineFrom(s + t, k) == NewlineFrom(s, k)
    decreases |s| - k
  {
    if s[k] != '\n' {
      NewlineWithin(s, t, k + 1);
    }
  }

  lemma {:induction false} NewlineBeyond(s: seq<char>, t: seq<char>, k: nat)
    requires k <= |s| && NewlineFrom(s, k) == -1
    ensures NewlineFrom(s + t, k) == -1 || NewlineFrom(s + t, k) >= |s|
    decreases |s| - k
  {
    if k < |s| && s[k] != '\0' {
      NewlineBeyond(s, t, k + 1);
    }
  }

  lemma NextLine(re: seq<char>, s: seq<char>, rest: seq<char>, q: nat)
    requires q == NewlineFrom(s, 0) && q + 1 < BUF
    ensures q < |s| && Written(re, s + rest)
            == (if Matches(re, s[..q]) then s[..q + 1] else []) + Written(re, s[q + 1..] + rest)
  {
    NewlineWithin(s, rest, 0);
    var all := s + rest;
    assert all[..q] == s[..q] && all[..q + 1] == s[..q + 1] && all[q + 1..] == s[q + 1..] + rest;
  }

  lemma NothingMore(re: seq<char>, s: seq<char>, rest: seq<char>)
    requires NewlineFrom(s, 0) == -1 && (rest == [] || |s| + 1 >= BUF)
    ensures Written(re, s + rest) == []
  {
    NewlineBeyond(s, rest, 0);
    assert rest == [] ==> s + rest == s;
  }

  /** grep: what it writes does not depend on how the reads divide the input. */
  method GrepFile(re: seq<char>, input: seq<char>, buf: array<char>) returns (out: seq<char>)
    requires buf.Length == BUF
    modifies buf
    ensures out == Written(re, input)
  {
    hide Written, NewlineFrom, Matches;
    out := [];
    var m: nat, pos: nat := 0, 0; // pos is how much of the input has been read
    Begins(re, input, buf[..m]);
    while true
      invariant m < BUF && pos <= |input| && NewlineFrom(buf[..m], 0) == -1
      invariant Written(re, input) == out + Written(re, buf[..m] + input[pos..])
      decreases |input| - pos
    {
      var n := Read(|input| - pos, BUF - m - 1);
      if n == 0 {
        NothingMore(re, buf[..m], input[pos..]);
        return;
      }
      Fill(buf, m, input, pos, n);
      pos, m := pos + n, m + n;
      buf[m] := '\0';
      var p;
      out, p := GrepBuffer(re, buf, m, out, input, pos);
      if m > 0 {
        m := m - p;
        Shift(buf, p, m);
      }
    }
  }

  lemma Begins(re: seq<char>, input: seq<char>, s: seq<char>)
    requires |s| == 0
    ensures NewlineFrom(s, 0) == -1 && Written(re, input) == [] + Written(re, s + input[0..])
  {
    assert s + input[0..] == input;
  }

  // read: some of what is left, as much as there is room for.
  method Read(left: nat, room: nat) returns (n: nat)
    ensures n <= left && n <= room && (n == 0 <==> left == 0 || room == 0)
  {
    if left == 0 || room == 0 {
      return 0;
    }
    n :| 0 < n <= left && n <= room;
  }

  method Fill(buf: array<char>, m: nat, input: seq<char>, pos: nat, n: nat)
    requires m + n < buf.Length && pos + n <= |input|
    modifies buf
    ensures buf[..m + n] + input[pos + n..] == old(buf[..m]) + input[pos..]
  {
    forall k | 0 <= k < n {
      buf[m + k] := input[pos + k];
    }
    assert buf[..m + n] == old(buf[..m]) + input[pos..pos + n];
    assert input[pos..] == input[pos..pos + n] + input[pos + n..];
  }

  // memmove(buf, p, m).
  method Shift(buf: array<char>, p: nat, m: nat)
    requires p + m <= buf.Length
    modifies buf
    ensures buf[..m] == old(buf[p..p + m])
  {
    forall k | 0 <= k < m {
      buf[k] := buf[p + k];
    }
  }

  // The inner loop of grep: the lines in the buffer.
  method GrepBuffer(re: seq<char>, buf: array<char>, m: nat, out: seq<char>, ghost input: seq<char>, ghost pos: nat)
      returns (out': seq<char>, p: nat)
    requires buf.Length == BUF && m < BUF && buf[m] == '\0' && pos <= |input|
    requires Written(re, input) == out + Written(re, buf[..m] + input[pos..])
    modifies buf
    ensures p <= m && NewlineFrom(buf[p..m], 0) == -1
    ensures Written(re, input) == out' + Written(re, buf[p..m] + input[pos..])
  {
    hide Written, NewlineFrom, Matches;
    ghost var rest := input[pos..];
    p, out' := 0, out;
    assert buf[0..m] == buf[..m];
    var q := FindNewline(buf, p, m);
    while q != -1
      invariant p <= m && buf[m] == '\0' && Written(re, input) == out' + Written(re, buf[p..m] + rest)
      invariant q == (if NewlineFrom(buf[p..m], 0) == -1 then -1 else p + NewlineFrom(buf[p..m], 0))
      decreases m - p
    {
      ghost var prev, s := out', buf[p..m];
      NextLine(re, s, rest, q - p);
      assert s[..q - p] == buf[p..q] && s[..q - p + 1] == buf[p..q + 1] && s[q - p + 1..] == buf[q + 1..m];
      out' := GrepLine(re, buf, p, q, m, out');
      Assoc(prev, if Matches(re, s[..q - p]) then s[..q - p + 1] else [], Written(re, s[q - p + 1..] + rest));
      p := q + 1;
      q := FindNewline(buf, p, m);
    }
  }

  // One line: the newline becomes a NUL, and a newline again if the line is written.
  method GrepLine(re: seq<char>, buf: array<char>, p: nat, q: nat, m: nat, out: seq<char>) returns (out': seq<char>)
    requires p <= q < m < buf.Length && buf[q] == '\n'
    modifies buf
    ensures out' == out + if Matches(re, old(buf[p..q])) then old(buf[p..q + 1]) else []
    ensures buf[q + 1..m] == old(buf[q + 1..m]) && buf[m] == old(buf[m])
  {
    hide Matches;
    buf[q] := '\0';
    assert buf[p..q] == old(buf[p..q]);
    var yes := Match(re, buf[p..q]);
    out' := out;
    if yes {
      buf[q] := '\n';
      assert buf[p..q + 1] == old(buf[p..q + 1]);
      out' := out + buf[p..q + 1];
    }
  }
}
