/** The index-driven scanner, proved against normalization on tokens. */
module NormalizeScan {
  import opened Wrappers
  import opened NormalizeQuotes
  import opened NormalizeMeaning

  // ---- Copying one token ----

  /** `out` is what the token at `i` is rewritten to, and `j` the index behind the token. */
  ghost predicate Scanned(u: Unicode, s: string, i: nat, out: string, j: nat)
    requires i < |s|
  {
    var t := FirstToken(u, s[i..]);
    out == Emit(t).Text() && j == i + |t.Text()|
  }

  lemma Slices(s: string, i: nat, j: nat)
    requires i <= j <= |s|
    ensures s[i..][j - i..] == s[j..] && s[i..][..j - i] == s[i..j]
  {
  }

  lemma TakeSplit(s: string, step: nat, n: nat)
    requires step + n <= |s|
    ensures s[..step + n] == s[..step] + s[step..][..n]
    ensures step == 1 ==> s[..1] == [s[0]]
    ensures step == 2 ==> s[..2] == [s[0], s[1]]
  {
  }

  lemma Suffix(s: string, i: nat)
    requires i < |s|
    ensures s[i..][0] == s[i] && s[i..][1..] == s[i + 1..]
    ensures i + 1 < |s| ==> s[i..][1] == s[i + 1] && s[i..][2..] == s[i + 2..]
  {
  }

  method CopyLine(ghost u: Unicode, s: string, i: nat) returns (out: string, j: nat)
    requires i + 1 < |s| && s[i] == s[i + 1] == '/'
    ensures Scanned(u, s, i, out, j)
  {
    out, j := [], i;
    while j < |s| && s[j] != '\n'
      invariant i <= j <= |s| && out == s[i..j]
      invariant j + LineEnd(s[j..]) == i + LineEnd(s[i..])
    {
      assert s[j..][1..] == s[j + 1..];
      out := out + [s[j]];
      j := j + 1;
    }
  }

  method CopyBlock(ghost u: Unicode, s: string, i: nat) returns (out: string, j: nat)
    requires i + 1 < |s| && s[i] == '/' && s[i + 1] == '*'
    ensures Scanned(u, s, i, out, j)
  {
    Suffix(s, i);
    BlockText(s, i);
    out, j := ['/', '*'], i + 2;
    while j < |s|
      invariant i + 2 <= j <= |s| && out == s[i..j]
      invariant j + Reach(BlockEnd(s[j..]), s[j..]) == i + 2 + Reach(BlockEnd(s[i + 2..]), s[i + 2..])
    {
      var ch := s[j];
      assert s[j..][1..] == s[j + 1..];
      out := out + [ch];
      j := j + 1;
      if ch == '*' && j < |s| && s[j] == '/' {
        out := out + ['/'];
        j := j + 1;
        return;
      }
    }
  }

  lemma BlockText(s: string, i: nat)
    requires i + 1 < |s| && s[i] == '/' && s[i + 1] == '*'
    ensures var n := 2 + Reach(BlockEnd(s[i + 2..]), s[i + 2..]);
      TakeBlock(s[i + 2..]).Text() == s[i..i + n]
  {
    var m := Reach(BlockEnd(s[i + 2..]), s[i + 2..]);
    assert s[i..i + 2 + m] == ['/', '*'] + s[i + 2..][..m];
  }

  function Copied(quote: char, s: string): string {
    if quote == '\'' then Requoted(s) else s[..Reach(LiteralEnd(quote, s), s)]
  }

  lemma {:induction false} RequotedStops(s: string)
    ensures Requoted(s[..Reach(LiteralEnd('\'', s), s)]) == Requoted(s)
    decreases |s|
  {
    var n := Reach(LiteralEnd('\'', s), s);
    if s != [] && s[0] != '\'' {
      var step := if s[0] == '\\' && |s| > 1 then 2 else 1;
      RequotedStops(s[step..]);
      assert s[..n][step..] == s[step..][..n - step];
    }
  }

  method CopyLiteral(ghost u: Unicode, s: string, i: nat) returns (out: string, j: nat)
    requires i < |s| && IsQuote(s[i])
    ensures Scanned(u, s, i, out, j)
  {
    var quote := s[i];
    var mark := if quote == '\'' then '"' else quote;
    out, j := [mark], i + 1;
    ghost var whole := [mark] + Copied(quote, s[i + 1..]);
    ghost var end := i + 1 + Reach(LiteralEnd(quote, s[i + 1..]), s[i + 1..]);
    LiteralText(u, s, i);
    while j < |s|
      invariant i + 1 <= j <= |s| && out + Copied(quote, s[j..]) == whole
      invariant j + Reach(LiteralEnd(quote, s[j..]), s[j..]) == end
    {
      if s[j] == quote {
        Suffix(s, j);
        CopyStep(quote, s[j..]);
        out := out + [mark];
        j := j + 1;
        return;
      }
      var piece, k := CopyPiece(quote, s, j);
      out := Append(out, piece, Copied(quote, s[k..]));
      j := k;
    }
  }

  /** One character of a literal, or one escape. */
  method CopyPiece(quote: char, s: string, i: nat) returns (piece: string, j: nat)
    requires i < |s| && IsQuote(quote) && s[i] != quote
    ensures i < j <= |s| && Copied(quote, s[i..]) == piece + Copied(quote, s[j..])
    ensures i + Reach(LiteralEnd(quote, s[i..]), s[i..]) == j + Reach(LiteralEnd(quote, s[j..]), s[j..])
  {
    var ch := s[i];
    Suffix(s, i);
    CopyStep(quote, s[i..]);
    j := i + 1;
    if ch == '\\' && j < |s| {
      var escaped := s[j];
      j := j + 1;
      piece := if quote == '\'' && escaped == '\'' then ['\''] else ['\\', escaped];
    } else {
      piece := if quote == '\'' && ch == '"' then ['\\', ch] else [ch];
    }
  }

  /** Appends `text`; what is to follow only says how the pieces associate. */
  function Append(out: string, text: string, ghost after: string): (r: string)
    ensures r + after == out + (text + after)
  {
    out + text
  }

  lemma LiteralText(u: Unicode, s: string, i: nat)
    requires i < |s| && IsQuote(s[i])
    ensures var mark := if s[i] == '\'' then '"' else s[i];
      Emit(FirstToken(u, s[i..])).Text() == [mark] + Copied(s[i], s[i + 1..])
    ensures |FirstToken(u, s[i..]).Text()| == 1 + Reach(LiteralEnd(s[i], s[i + 1..]), s[i + 1..])
  {
    Suffix(s, i);
    RequotedStops(s[i + 1..]);
    assert FirstToken(u, s[i..]) == TakeLiteral(s[i], s[i + 1..]);
  }

  /** One turn of the literal loop. */
  lemma CopyStep(quote: char, s: string)
    requires s != [] && IsQuote(quote)
    ensures s[0] == quote ==> Copied(quote, s) == [if quote == '\'' then '"' else quote]
                              && Reach(LiteralEnd(quote, s), s) == 1
    ensures s[0] == '\\' && |s| > 1 ==>
      Copied(quote, s) == (if quote == '\'' && s[1] == '\'' then ['\''] else ['\\', s[1]]) + Copied(quote, s[2..])
      && Reach(LiteralEnd(quote, s), s) == 2 + Reach(LiteralEnd(quote, s[2..]), s[2..])
    ensures s[0] != quote && !(s[0] == '\\' && |s| > 1) ==>
      Copied(quote, s) == (if quote == '\'' && s[0] == '"' then ['\\', '"'] else [s[0]]) + Copied(quote, s[1..])
      && Reach(LiteralEnd(quote, s), s) == 1 + Reach(LiteralEnd(quote, s[1..]), s[1..])
  {
    if quote != '\'' && s[0] != quote {
      var step := if s[0] == '\\' && |s| > 1 then 2 else 1;
      var n := Reach(LiteralEnd(quote, s[step..]), s[step..]);
      TakeSplit(s, step, n);
    }
  }

  method CopyWord(u: Unicode, s: string, i: nat) returns (out: string, j: nat)
    requires i <= |s|
    ensures WordAt(u, s, i, out, j)
  {
    j := i;
    while j < |s| && u.WordChar(s[j])
      invariant i <= j <= |s|
      invariant j + WordEnd(u, s[j..]) == i + WordEnd(u, s[i..])
    {
      assert s[j..][1..] == s[j + 1..];
      j := j + 1;
    }
    out := s[i..j];
    Slices(s, i, j);
  }

  /** `word` is the run of word characters at `i`, and `j` the index behind it. */
  ghost predicate WordAt(u: Unicode, s: string, i: nat, word: string, j: nat)
    requires i <= |s|
  {
    var rest := s[i..];
    var n := WordEnd(u, rest);
    j == i + n && word == rest[..n] && j <= |s| && s[j..] == rest[n..]
  }

  // ---- Looking ahead for the reserved property ----

  method SkipSpaces(u: Unicode, s: string, i: nat) returns (j: nat)
    requires u.Sane() && i <= |s|
    ensures i <= j <= |s| && Lex(u, s[j..]) == DropSpaces(u, Lex(u, s[i..]))
  {
    j := i;
    ghost var target := DropSpaces(u, Lex(u, s[i..]));
    while j < |s| && u.whitespace(s[j])
      invariant i <= j <= |s| && DropSpaces(u, Lex(u, s[j..])) == target
    {
      SpaceDropped(u, s, j);
      j := j + 1;
    }
    SpaceStops(u, s, j);
  }

  lemma SpaceStops(u: Unicode, s: string, j: nat)
    requires j <= |s| && (j < |s| ==> !u.whitespace(s[j]))
    ensures DropSpaces(u, Lex(u, s[j..])) == Lex(u, s[j..])
  {
    if j < |s| {
      Suffix(s, j);
    }
  }

  lemma SpaceDropped(u: Unicode, s: string, j: nat)
    requires u.Sane() && j < |s| && u.whitespace(s[j])
    ensures DropSpaces(u, Lex(u, s[j..])) == DropSpaces(u, Lex(u, s[j + 1..]))
  {
    Suffix(s, j);
    SpaceFirst(u, s[j..]);
    assert ([Other(s[j])] + Lex(u, s[j + 1..]))[1..] == Lex(u, s[j + 1..]);
  }

  lemma SpaceFirst(u: Unicode, s: string)
    requires u.Sane() && s != [] && u.whitespace(s[0])
    ensures Lex(u, s) == [Other(s[0])] + Lex(u, s[1..])
  {
  }

  /** The index after a reserved property access that starts at `i`, if there is one. */
  method SkipReserved(u: Unicode, s: string, i: nat) returns (end: Option<nat>)
    requires u.Sane() && i <= |s|
    ensures AheadAt(u, s, i, end)
  {
    var j := SkipSpaces(u, s, i);
    if j == |s| || s[j] != '.' {
      NoDot(u, s, i, j);
      return None;
    }
    var start := SkipSpaces(u, s, j + 1);
    var word, k := CopyWord(u, s, start);
    Ahead(u, s, i, j, start, word, k);
    end := if word == SIGNAL then Some(k) else None;
  }

  lemma NoDot(u: Unicode, s: string, i: nat, j: nat)
    requires u.Sane() && i <= j <= |s| && (j < |s| ==> s[j] != '.')
    requires Lex(u, s[j..]) == DropSpaces(u, Lex(u, s[i..]))
    ensures AheadAt(u, s, i, None)
  {
    DotFirst(u, s[j..]);
  }

  lemma AheadDot(u: Unicode, ts: seq<Token>, dot: seq<Token>, e: seq<Token>)
    requires dot == DropSpaces(u, ts) && dot != [] && dot[0] == Other('.') && e == DropSpaces(u, dot[1..])
    ensures AfterReserved(u, ts) == if e != [] && e[0] == Word(SIGNAL) then Some(e[1..]) else None
  {
  }

  lemma Ahead(u: Unicode, s: string, i: nat, j: nat, start: nat, word: string, k: nat)
    requires u.Sane() && i <= j < start <= |s| && s[j] == '.' && WordAt(u, s, start, word, k)
    requires Lex(u, s[j..]) == DropSpaces(u, Lex(u, s[i..]))
    requires Lex(u, s[start..]) == DropSpaces(u, Lex(u, s[j + 1..]))
    ensures AheadAt(u, s, i, if word == SIGNAL then Some(k) else None)
  {
    Suffix(s, j);
    DotFirst(u, s[j..]);
    WordFirst(u, s[start..], SIGNAL);
    AheadDot(u, Lex(u, s[i..]), Lex(u, s[j..]), Lex(u, s[start..]));
  }

  ghost predicate AheadAt(u: Unicode, s: string, i: nat, end: Option<nat>)
    requires i <= |s|
  {
    var after := AfterReserved(u, Lex(u, s[i..]));
    match end
    case None => after == None
    case Some(k) => i < k <= |s| && after == Some(Lex(u, s[k..]))
  }

  lemma DotFirst(u: Unicode, s: string)
    requires u.Sane()
    ensures Lex(u, s) != [] && Lex(u, s)[0] == Other('.') <==> s != [] && s[0] == '.'
    ensures s != [] && s[0] == '.' ==> Lex(u, s)[1..] == Lex(u, s[1..])
  {
  }

  lemma WordFirst(u: Unicode, s: string, w: string)
    requires u.Sane() && w != [] && w[0] == '_'
    ensures Lex(u, s) != [] && Lex(u, s)[0] == Word(w) <==> s[..WordEnd(u, s)] == w
    ensures s[..WordEnd(u, s)] == w ==> s != [] && Lex(u, s)[1..] == Lex(u, s[WordEnd(u, s)..])
  {
    var n := WordEnd(u, s);
    if s[..n] == w {
      assert s[0] == s[..n][0] == '_';
      assert FirstToken(u, s) == Word(w);
    } else if s != [] {
      assert Lex(u, s)[0] == FirstToken(u, s);
    }
  }

  // ---- The scanner ----

  lemma OneTokenOf(u: Unicode, s: string)
    requires s != [] && !IsReserved(u, Lex(u, s))
    ensures var t := FirstToken(u, s); Normalized(u, s) == Emit(t).Text() + Normalized(u, s[|t.Text()|..])
  {
    RewriteOther(u, Lex(u, s));
  }

  lemma OneToken(u: Unicode, s: string, i: nat, text: string, j: nat)
    requires i < |s| && !IsReserved(u, Lex(u, s[i..])) && Scanned(u, s, i, text, j)
    ensures i < j <= |s| && Normalized(u, s[i..]) == text + Normalized(u, s[j..])
  {
    var rest := s[i..];
    Slices(s, i, j);
    assert rest[|FirstToken(u, rest).Text()|..] == s[j..];
    OneTokenOf(u, rest);
  }

  lemma LexWord(u: Unicode, s: string, i: nat, word: string, j: nat)
    requires u.Sane() && i < |s| && u.WordStart(s[i]) && !IsQuote(s[i]) && WordAt(u, s, i, word, j)
    ensures Lex(u, s[i..]) != [] && Lex(u, s[i..])[0] == Word(word) && Lex(u, s[i..])[1..] == Lex(u, s[j..])
    ensures Scanned(u, s, i, word, j)
  {
    var rest := s[i..];
    assert rest[0] == s[i];
    assert FirstToken(u, rest) == Word(word);
  }

  lemma ReservedAccess(u: Unicode, whole: string, tail: string, after: string)
    requires whole != [] && Lex(u, whole)[0] == Word(CTX) && Lex(u, whole)[1..] == Lex(u, tail)
    requires AfterReserved(u, Lex(u, tail)) == Some(Lex(u, after))
    ensures Normalized(u, whole) == (CTX + Text(INDEX)) + Normalized(u, after)
  {
    RewriteReserved(u, Lex(u, whole));
    TextConcat(INDEX, Rewrite(u, Lex(u, after)));
  }

  lemma {:induction false} TextConcat(a: seq<Token>, b: seq<Token>)
    ensures Text(a + b) == Text(a) + Text(b)
  {
    if a == [] {
      assert a + b == b;
    } else {
      assert (a + b)[1..] == a[1..] + b;
      TextConcat(a[1..], b);
    }
  }

  lemma TextOfThree(a: Token, b: Token, c: Token)
    ensures Text([a, b, c]) == a.Text() + (b.Text() + c.Text())
  {
    assert [a, b, c][1..] == [b, c] && [b, c][1..] == [c] && [c][1..] == [];
    assert Text([c]) == c.Text();
    assert Text([b, c]) == b.Text() + Text([c]);
  }

  lemma IndexText(w: string)
    ensures Text([Other('['), Literal('"', w + ['"']), Other(']')]) == ['[', '"'] + w + ['"', ']']
  {
    TextOfThree(Other('['), Literal('"', w + ['"']), Other(']'));
  }

  method NormalizeExpression(u: Unicode, expr: string) returns (out: string)
    requires u.Sane()
    ensures out == Normalized(u, expr)
  {
    out := [];
    var i := 0;
    assert expr[0..] == expr;
    while i < |expr|
      invariant i <= |expr| && out + Normalized(u, expr[i..]) == Normalized(u, expr)
    {
      var text, j := ScanToken(u, expr, i);
      out := out + text;
      i := j;
    }
  }

  /** One turn of the scanner: the branch for the character at `i`. */
  method ScanToken(u: Unicode, expr: string, i: nat) returns (text: string, j: nat)
    requires u.Sane() && i < |expr|
    ensures i < j <= |expr| && Normalized(u, expr[i..]) == text + Normalized(u, expr[j..])
  {
    var ch := expr[i];
    Suffix(expr, i);
    if ch == '/' && i + 1 < |expr| && expr[i + 1] == '/' {
      text, j := CopyLine(u, expr, i);
    } else if ch == '/' && i + 1 < |expr| && expr[i + 1] == '*' {
      text, j := CopyBlock(u, expr, i);
    } else if IsQuote(ch) {
      text, j := CopyLiteral(u, expr, i);
    } else if u.WordStart(ch) {
      text, j := ScanWord(u, expr, i);
      return;
    } else {
      text, j := [ch], i + 1;
    }
    OneToken(u, expr, i, text, j);
  }

  method ScanWord(u: Unicode, expr: string, i: nat) returns (text: string, j: nat)
    requires u.Sane() && i < |expr| && u.WordStart(expr[i]) && !IsQuote(expr[i])
    ensures i < j <= |expr| && Normalized(u, expr[i..]) == text + Normalized(u, expr[j..])
  {
    text, j := CopyWord(u, expr, i);
    LexWord(u, expr, i, text, j);
    if text == CTX {
      var end := SkipReserved(u, expr, j);
      if end.Some? {
        ReservedAccess(u, expr[i..], expr[j..], expr[end.value..]);
        IndexText(SIGNAL);
        return text + (['[', '"'] + SIGNAL + ['"', ']']), end.value;
      }
    }
    OneToken(u, expr, i, text, j);
  }
}
