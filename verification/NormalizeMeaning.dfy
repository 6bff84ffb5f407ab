/** What the expression normalizer keeps: the token structure, the text of every literal, and its own output. */
module NormalizeMeaning {
  import opened Wrappers
  import opened NormalizeQuotes

  // ---- Extents of a prefix and of a concatenation ----

  lemma {:induction false} LineCut(s: string, rest: string)
    ensures LineEnd(s[..LineEnd(s)]) == LineEnd(s)
    ensures LineEnd(s) == |s| && (rest == [] || rest[0] == '\n') ==> LineEnd(s + rest) == |s|
  {
    if s == [] {
      assert s + rest == rest;
    } else {
      LineCut(s[1..], rest);
      assert (s + rest)[1..] == s[1..] + rest;
      if s[0] != '\n' {
        assert s[..LineEnd(s)][1..] == s[1..][..LineEnd(s[1..])];
      }
    }
  }

  lemma {:induction false} BlockCut(s: string, rest: string)
    ensures BlockEnd(s).Some? ==> BlockEnd(s[..BlockEnd(s).value]) == BlockEnd(s) == BlockEnd(s + rest)
  {
    if BlockEnd(s).Some? && !(s[0] == '*' && s[1] == '/') {
      BlockCut(s[1..], rest);
      assert (s + rest)[1..] == s[1..] + rest;
      assert s[..BlockEnd(s).value][1..] == s[1..][..BlockEnd(s[1..]).value];
    }
  }

  lemma {:induction false} LiteralCut(quote: char, s: string, rest: string)
    ensures var n := LiteralEnd(quote, s);
      n.Some? ==> LiteralEnd(quote, s[..n.value]) == n == LiteralEnd(quote, s + rest)
    decreases |s|
  {
    var n := LiteralEnd(quote, s);
    if n.Some? && s[0] != quote {
      var step := if s[0] == '\\' && |s| > 1 then 2 else 1;
      LiteralCut(quote, s[step..], rest);
      assert (s + rest)[step..] == s[step..] + rest;
      assert s[..n.value][step..] == s[step..][..n.value - step];
    }
  }

  lemma {:induction false} WordCut(u: Unicode, s: string, rest: string)
    ensures WordEnd(u, s[..WordEnd(u, s)]) == WordEnd(u, s)
    ensures WordEnd(u, s) == |s| && (rest == [] || !u.WordChar(rest[0])) ==> WordEnd(u, s + rest) == |s|
    ensures WordEnd(u, s) < |s| ==> !u.WordChar(s[WordEnd(u, s)])
  {
    if s == [] {
      assert s + rest == rest;
    } else {
      WordCut(u, s[1..], rest);
      assert (s + rest)[1..] == s[1..] + rest;
      if u.WordChar(s[0]) {
        assert s[..WordEnd(u, s)][1..] == s[1..][..WordEnd(u, s[1..])];
      }
    }
  }

  lemma {:induction false} LineStops(s: string)
    ensures LineEnd(s) < |s| ==> s[LineEnd(s)] == '\n'
  {
    if s != [] && s[0] != '\n' {
      LineStops(s[1..]);
    }
  }

  // ---- When a token stands in front of a text ----

  function Head(s: string): Option<char> {
    if s == [] then None else Some(s[0])
  }

  /** `t` is the first token of its own text followed by any text that starts with `head`. */
  ghost predicate Fits(u: Unicode, t: Token, head: Option<char>) {
    match t
    case Line(text) => |text| > 1 && text[0] == text[1] == '/' && LineEnd(text) == |text| && (head.None? || head.value == '\n')
    case Block(body) => BlockEnd(body) == Some(|body|) || (BlockEnd(body).None? && head.None?)
    case Literal(quote, body) =>
      IsQuote(quote) && (LiteralEnd(quote, body) == Some(|body|) || (LiteralEnd(quote, body).None? && head.None?))
    case Word(text) =>
      && text != [] && u.WordStart(text[0]) && !IsQuote(text[0]) && text[0] != '/' && WordEnd(u, text) == |text|
      && (head.None? || !u.WordChar(head.value))
    case Other(c) =>
      !IsQuote(c) && !u.WordStart(c) && (c == '/' ==> head != Some('/') && head != Some('*'))
  }

  ghost predicate Separated(u: Unicode, ts: seq<Token>) {
    ts == [] || (Fits(u, ts[0], Head(Text(ts[1..]))) && Separated(u, ts[1..]))
  }

  lemma FirstFits(u: Unicode, s: string)
    requires u.Sane() && s != []
    ensures var t := FirstToken(u, s); Fits(u, t, Head(s[|t.Text()|..]))
  {
    var t := FirstToken(u, s);
    match t
    case Line(text) => LineCut(s, []); LineStops(s);
    case Block(body) => BlockCut(s[2..], []); WholeText(s[2..]);
    case Literal(quote, body) => LiteralCut(quote, s[1..], []); WholeText(s[1..]);
    case Word(text) => WordCut(u, s, []);
    case Other(c) =>
  }

  lemma WholeText(s: string)
    ensures s[..|s|] == s && s + [] == s
  {
  }

  lemma Cut(body: string, rest: string)
    ensures (body + rest)[..|body|] == body && (rest == [] ==> body + rest == body)
  {
  }

  lemma TakesBlock(body: string, rest: string)
    requires BlockEnd(body) == Some(|body|) || (BlockEnd(body).None? && rest == [])
    ensures TakeBlock(body + rest) == Block(body)
  {
    Cut(body, rest);
    BlockCut(body, rest);
  }

  lemma TakesLiteral(quote: char, body: string, rest: string)
    requires LiteralEnd(quote, body) == Some(|body|) || (LiteralEnd(quote, body).None? && rest == [])
    ensures TakeLiteral(quote, body + rest) == Literal(quote, body)
  {
    Cut(body, rest);
    LiteralCut(quote, body, rest);
  }

  lemma Behind(front: string, body: string, rest: string)
    ensures ((front + body) + rest)[|front|..] == body + rest
  {
  }

  lemma TakesWord(u: Unicode, text: string, rest: string)
    requires u.Sane() && Fits(u, Word(text), Head(rest))
    ensures FirstToken(u, text + rest) == Word(text)
  {
    WordCut(u, text, rest);
    Cut(text, rest);
  }

  lemma FirstOf(u: Unicode, t: Token, rest: string)
    requires u.Sane() && Fits(u, t, Head(rest))
    ensures t.Text() != [] && FirstToken(u, t.Text() + rest) == t
  {
    match t
    case Line(text) => LineCut(text, rest); Cut(text, rest);
    case Block(body) => TakesBlock(body, rest); Behind(['/', '*'], body, rest);
    case Literal(quote, body) => TakesLiteral(quote, body, rest); Behind([quote], body, rest);
    case Word(text) => TakesWord(u, text, rest);
    case Other(c) => assert rest == [] ==> [c] + rest == [c];
  }

  /** Reading a text gives separated tokens that spell the text. */
  lemma {:induction false} LexSeparates(u: Unicode, s: string)
    requires u.Sane()
    ensures Separated(u, Lex(u, s)) && Text(Lex(u, s)) == s
    decreases |s|
  {
    if s != [] {
      var t := FirstToken(u, s);
      var rest := s[|t.Text()|..];
      LexSeparates(u, rest);
      FirstFits(u, s);
      assert Lex(u, s)[1..] == Lex(u, rest);
      assert s == s[..|t.Text()|] + rest;
    }
  }

  /** Separated tokens are read back from the text they spell. */
  lemma {:induction false} LexInvertsText(u: Unicode, ts: seq<Token>)
    requires u.Sane() && Separated(u, ts)
    ensures Lex(u, Text(ts)) == ts
  {
    if ts != [] {
      var rest := Text(ts[1..]);
      LexInvertsText(u, ts[1..]);
      FirstOf(u, ts[0], rest);
      assert Text(ts)[|ts[0].Text()|..] == rest;
    }
  }

  // ---- What rewriting keeps ----

  /** One unit of a literal's text: a character, or an escape whose meaning is left to the script language. */
  datatype Piece = Char(c: char) | Escape(c: char)

  /** The text of a literal body: an escaped quote stands for the quote. */
  function Pieces(quote: char, s: string): seq<Piece> {
    if s == [] || s[0] == quote then []
    else if s[0] == '\\' && |s| > 1 then
      [if s[1] == '\'' || s[1] == '"' then Char(s[1]) else Escape(s[1])] + Pieces(quote, s[2..])
    else [Char(s[0])] + Pieces(quote, s[1..])
  }

  /** Requoting keeps the text of a literal and whether, and only at its end, the literal is closed. */
  lemma {:induction false} RequotedSameText(s: string)
    ensures Pieces('"', Requoted(s)) == Pieces('\'', s)
    ensures LiteralEnd('\'', s).Some? ==> LiteralEnd('"', Requoted(s)) == Some(|Requoted(s)|)
    ensures LiteralEnd('\'', s).None? ==> LiteralEnd('"', Requoted(s)).None?
    decreases |s|
  {
    if s != [] && s[0] != '\'' {
      if s[0] == '\\' && |s| > 1 {
        RequotedSameText(s[2..]);
        var front := if s[1] == '\'' then ['\''] else ['\\', s[1]];
        assert Requoted(s)[|front|..] == Requoted(s[2..]);
      } else {
        RequotedSameText(s[1..]);
        var front := if s[0] == '"' then ['\\', '"'] else [s[0]];
        assert Requoted(s)[|front|..] == Requoted(s[1..]);
        if s[0] == '\\' {
          assert s[1..] == [];
        }
      }
    }
  }

  lemma EmitFits(u: Unicode, t: Token, head: Option<char>)
    requires Fits(u, t, head)
    ensures Fits(u, Emit(t), head)
  {
    if t.Literal? && t.quote == '\'' {
      RequotedSameText(t.body);
    }
  }

  /** The first character of a text, with the quote it is rewritten to. */
  function Quoted(head: Option<char>): Option<char> {
    if head == Some('\'') then Some('"') else head
  }

  lemma HeadMayBeQuoted(u: Unicode, t: Token, head: Option<char>)
    requires u.Sane() && Fits(u, t, head)
    ensures Fits(u, t, Quoted(head))
  {
  }

  lemma HeadOfRewrite(u: Unicode, ts: seq<Token>)
    requires u.Sane() && Separated(u, ts)
    ensures Head(Text(Rewrite(u, ts))) == Quoted(Head(Text(ts)))
  {
    if ts != [] {
      FirstOf(u, ts[0], Text(ts[1..]));
    }
  }

  lemma {:induction false} DropSeparated(u: Unicode, ts: seq<Token>)
    requires Separated(u, ts)
    ensures Separated(u, DropSpaces(u, ts))
  {
    if ts != [] && ts[0].Other? && u.whitespace(ts[0].c) {
      DropSeparated(u, ts[1..]);
    }
  }

  lemma ReservedSeparated(u: Unicode, ts: seq<Token>)
    requires Separated(u, ts)
    ensures AfterReserved(u, ts).Some? ==> Separated(u, AfterReserved(u, ts).value)
  {
    DropSeparated(u, ts);
    var d := DropSpaces(u, ts);
    if d != [] {
      DropSeparated(u, d[1..]);
    }
  }

  lemma BracketsSeparated(u: Unicode, body: string, rest: seq<Token>)
    requires u.Sane() && Separated(u, rest) && LiteralEnd('"', body) == Some(|body|)
    ensures var all := [Other('['), Literal('"', body), Other(']')] + rest;
      Separated(u, all) && Head(Text(all)) == Some('[')
  {
    var close := [Other(']')] + rest;
    var literal := [Literal('"', body)] + close;
    var all := [Other('[')] + literal;
    assert close[1..] == rest && literal[1..] == close && all[1..] == literal;
    assert Text(close) == [']'] + Text(rest);
    assert Text(literal) == (['"'] + body) + Text(close);
    assert Separated(u, close);
    assert Separated(u, literal);
    assert all == [Other('['), Literal('"', body), Other(']')] + rest;
  }

  lemma IndexSeparated(u: Unicode, rest: seq<Token>)
    requires u.Sane() && Separated(u, rest)
    ensures Separated(u, INDEX + rest) && Head(Text(INDEX + rest)) == Some('[')
  {
    SignalCloses(SIGNAL);
    BracketsSeparated(u, SIGNAL + ['"'], rest);
  }

  lemma {:induction false} SignalCloses(s: string)
    requires '"' !in s && '\\' !in s
    ensures LiteralEnd('"', s + ['"']) == Some(|s| + 1)
    ensures Pieces('"', s + ['"']) == Chars(s)
  {
    if s != [] {
      SignalCloses(s[1..]);
      assert (s + ['"'])[1..] == s[1..] + ['"'];
    }
  }

  function Chars(s: string): seq<Piece> {
    seq(|s|, i requires 0 <= i < |s| => Char(s[i]))
  }

  ghost predicate IsReserved(u: Unicode, ts: seq<Token>) {
    ts != [] && ts[0] == Word(CTX) && AfterReserved(u, ts[1..]).Some?
  }

  lemma RewriteReserved(u: Unicode, ts: seq<Token>)
    requires IsReserved(u, ts)
    ensures Rewrite(u, ts) == [ts[0]] + (INDEX + Rewrite(u, AfterReserved(u, ts[1..]).value))
    ensures Rewrite(u, ts)[1..] == INDEX + Rewrite(u, AfterReserved(u, ts[1..]).value)
  {
    var rest := INDEX + Rewrite(u, AfterReserved(u, ts[1..]).value);
    assert Rewrite(u, ts) == [ts[0]] + rest;
    assert ([ts[0]] + rest)[1..] == rest;
  }

  lemma RewriteOther(u: Unicode, ts: seq<Token>)
    requires ts != [] && !IsReserved(u, ts)
    ensures Rewrite(u, ts) == [Emit(ts[0])] + Rewrite(u, ts[1..])
    ensures Rewrite(u, ts)[1..] == Rewrite(u, ts[1..])
  {
  }

  lemma ReservedFits(u: Unicode, ts: seq<Token>, rest: seq<Token>)
    requires u.Sane() && ts != [] && ts[0] == Word(CTX) && Separated(u, ts) && Separated(u, rest)
    ensures Separated(u, [ts[0]] + (INDEX + rest))
  {
    IndexSeparated(u, rest);
    var all := [ts[0]] + (INDEX + rest);
    assert all[0] == ts[0] && all[1..] == INDEX + rest;
    assert Fits(u, ts[0], Some('['));
  }

  lemma OtherFits(u: Unicode, ts: seq<Token>)
    requires u.Sane() && ts != [] && !IsReserved(u, ts) && Separated(u, ts) && Separated(u, Rewrite(u, ts[1..]))
    ensures Separated(u, Rewrite(u, ts))
  {
    RewriteOther(u, ts);
    HeadOfRewrite(u, ts[1..]);
    HeadMayBeQuoted(u, ts[0], Head(Text(ts[1..])));
    EmitFits(u, ts[0], Quoted(Head(Text(ts[1..]))));
  }

  lemma {:induction false} RewriteSeparates(u: Unicode, ts: seq<Token>)
    requires u.Sane() && Separated(u, ts)
    ensures Separated(u, Rewrite(u, ts))
    decreases |ts|
  {
    if IsReserved(u, ts) {
      var tail := AfterReserved(u, ts[1..]).value;
      ReservedSeparated(u, ts[1..]);
      RewriteSeparates(u, tail);
      ReservedFits(u, ts, Rewrite(u, tail));
      RewriteReserved(u, ts);
    } else if ts != [] {
      RewriteSeparates(u, ts[1..]);
      OtherFits(u, ts);
    }
  }

  /** Reading the normalized text gives exactly the rewritten tokens of the original text. */
  lemma NormalizedTokens(u: Unicode, s: string)
    requires u.Sane()
    ensures Lex(u, Normalized(u, s)) == Rewrite(u, Lex(u, s))
  {
    LexSeparates(u, s);
    RewriteSeparates(u, Lex(u, s));
    LexInvertsText(u, Rewrite(u, Lex(u, s)));
  }

  // ---- Rewriting twice ----

  lemma {:induction false} DropCommutes(u: Unicode, ts: seq<Token>)
    ensures DropSpaces(u, Rewrite(u, ts)) == Rewrite(u, DropSpaces(u, ts))
  {
    if ts != [] {
      if ts[0].Other? && u.whitespace(ts[0].c) {
        DropCommutes(u, ts[1..]);
        assert Rewrite(u, ts)[1..] == Rewrite(u, ts[1..]);
      }
    }
  }

  /** The first token after rewriting is the same one, with its quotes normalized. */
  lemma RewriteFirst(u: Unicode, ts: seq<Token>)
    requires ts != []
    ensures Rewrite(u, ts) != [] && Rewrite(u, ts)[0] == Emit(ts[0])
    ensures ts[0] != Word(CTX) ==> Rewrite(u, ts)[1..] == Rewrite(u, ts[1..])
  {
  }

  lemma ReservedStays(u: Unicode, ts: seq<Token>)
    requires AfterReserved(u, ts).None?
    ensures AfterReserved(u, Rewrite(u, ts)).None?
  {
    DropCommutes(u, ts);
    var d := DropSpaces(u, ts);
    if d != [] {
      RewriteFirst(u, d);
      if d[0] == Other('.') {
        DropCommutes(u, d[1..]);
        var e := DropSpaces(u, d[1..]);
        if e != [] {
          RewriteFirst(u, e);
        }
      }
    }
  }

  lemma IndexIsNotReserved(u: Unicode, rest: seq<Token>)
    requires u.Sane()
    ensures AfterReserved(u, INDEX + rest).None?
  {
    assert (INDEX + rest)[0] == Other('[');
  }

  lemma RewriteIndex(u: Unicode, rest: seq<Token>)
    ensures Rewrite(u, INDEX + rest) == INDEX + Rewrite(u, rest)
  {
    var all := INDEX + rest;
    assert all[1..][1..][1..] == rest;
    assert all[0] == Other('[') && all[1..][0] == INDEX[1] && all[1..][1..][0] == Other(']');
    RewriteFirst(u, all);
    RewriteFirst(u, all[1..]);
    RewriteFirst(u, all[1..][1..]);
    var r := Rewrite(u, all);
    assert r == [r[0]] + r[1..] && r[1..] == [r[1]] + r[1..][1..] && r[1..][1..] == [r[2]] + r[1..][1..][1..];
  }

  lemma OtherStays(u: Unicode, ts: seq<Token>)
    requires ts != [] && !IsReserved(u, ts)
    ensures !IsReserved(u, Rewrite(u, ts))
  {
    RewriteOther(u, ts);
    if ts[0] == Word(CTX) {
      ReservedStays(u, ts[1..]);
    }
  }

  lemma {:induction false} RewriteTwice(u: Unicode, ts: seq<Token>)
    requires u.Sane()
    ensures Rewrite(u, Rewrite(u, ts)) == Rewrite(u, ts)
    decreases |ts|
  {
    if IsReserved(u, ts) {
      var rest := Rewrite(u, AfterReserved(u, ts[1..]).value);
      RewriteTwice(u, AfterReserved(u, ts[1..]).value);
      RewriteReserved(u, ts);
      IndexIsNotReserved(u, rest);
      RewriteIndex(u, rest);
      RewriteOther(u, Rewrite(u, ts));
    } else if ts != [] {
      RewriteTwice(u, ts[1..]);
      RewriteOther(u, ts);
      OtherStays(u, ts);
      RewriteOther(u, Rewrite(u, ts));
    }
  }

  /** Normalizing a normalized expression changes nothing, for every text. */
  lemma NormalizeIdempotent(u: Unicode, s: string)
    requires u.Sane()
    ensures Normalized(u, Normalized(u, s)) == Normalized(u, s)
  {
    NormalizedTokens(u, s);
    RewriteTwice(u, Lex(u, s));
  }

  // ---- Meaning ----

  /** What an expression says, with the notation of literals and of the reserved property forgotten. */
  datatype Item = Plain(t: Token) | TextLiteral(pieces: seq<Piece>, closed: bool) | Reserved

  function ItemOf(t: Token): Item {
    if t.Literal? && t.quote != '`' then TextLiteral(Pieces(t.quote, t.body), LiteralEnd(t.quote, t.body).Some?)
    else Plain(t)
  }

  /** A bracketed access to the reserved property. */
  predicate Bracketed(ts: seq<Token>) {
    |ts| > 2 && ts[0] == Other('[') && ItemOf(ts[1]) == TextLiteral(Chars(SIGNAL), true) && ts[2] == Other(']')
  }

  function Items(u: Unicode, ts: seq<Token>): seq<Item>
    decreases |ts|
  {
    if ts == [] then []
    else if ts[0] == Word(CTX) && AfterReserved(u, ts[1..]).Some? then
      [Reserved] + Items(u, AfterReserved(u, ts[1..]).value)
    else if ts[0] == Word(CTX) && Bracketed(ts[1..]) then [Reserved] + Items(u, ts[4..])
    else [ItemOf(ts[0])] + Items(u, ts[1..])
  }

  lemma EmitMeans(t: Token)
    ensures ItemOf(Emit(t)) == ItemOf(t)
  {
    if t.Literal? && t.quote == '\'' {
      RequotedSameText(t.body);
    }
  }

  lemma BracketsStay(u: Unicode, ts: seq<Token>)
    ensures Bracketed(Rewrite(u, ts)) <==> Bracketed(ts)
    ensures Bracketed(ts) ==> Rewrite(u, ts)[3..] == Rewrite(u, ts[3..])
  {
    if ts != [] {
      RewriteFirst(u, ts);
      if ts[0] == Other('[') && |ts| > 1 {
        RewriteFirst(u, ts[1..]);
        EmitMeans(ts[1]);
        if ts[1].Literal? && |ts| > 2 {
          RewriteFirst(u, ts[2..]);
          assert ts[1..][1..] == ts[2..] && ts[2..][1..] == ts[3..];
        }
      }
    }
  }

  lemma BracketsMean(u: Unicode, index: seq<Token>, rest: seq<Token>)
    requires |index| == 3 && Bracketed(index) && AfterReserved(u, index + rest).None?
    ensures Items(u, [Word(CTX)] + (index + rest)) == [Reserved] + Items(u, rest)
  {
    var all := [Word(CTX)] + (index + rest);
    assert all[1..] == index + rest && all[4..] == rest;
  }

  lemma IndexBracketed()
    ensures Bracketed(INDEX)
  {
    SignalCloses(SIGNAL);
  }

  lemma ReservedMeans(u: Unicode, ts: seq<Token>)
    requires u.Sane() && IsReserved(u, ts)
    ensures Items(u, Rewrite(u, ts)) == [Reserved] + Items(u, Rewrite(u, AfterReserved(u, ts[1..]).value))
  {
    var rest := Rewrite(u, AfterReserved(u, ts[1..]).value);
    RewriteReserved(u, ts);
    IndexIsNotReserved(u, rest);
    IndexBracketed();
    BracketsMean(u, INDEX, rest);
  }

  lemma {:induction false} RewriteMeans(u: Unicode, ts: seq<Token>)
    requires u.Sane()
    ensures Items(u, Rewrite(u, ts)) == Items(u, ts)
    decreases |ts|
  {
    if IsReserved(u, ts) {
      RewriteMeans(u, AfterReserved(u, ts[1..]).value);
      ReservedMeans(u, ts);
    } else if ts != [] {
      RewriteOther(u, ts);
      OtherStays(u, ts);
      BracketsStay(u, ts[1..]);
      EmitMeans(ts[0]);
      RewriteMeans(u, ts[1..]);
      if ts[0] == Word(CTX) && Bracketed(ts[1..]) {
        RewriteMeans(u, ts[4..]);
        assert ts[1..][3..] == ts[4..] && Rewrite(u, ts)[4..] == Rewrite(u, ts[1..])[3..];
      }
    }
  }

  /** The normalized expression says what the original said: the same comments, back-quoted literals, words and
      signs verbatim, the same text in every other literal, the same accesses to the reserved property. */
  lemma NormalizeKeepsMeaning(u: Unicode, s: string)
    requires u.Sane()
    ensures Items(u, Lex(u, Normalized(u, s))) == Items(u, Lex(u, s))
  {
    NormalizedTokens(u, s);
    RewriteMeans(u, Lex(u, s));
  }

  /** No single-quoted literal and no dotted access to the reserved property is left. */
  lemma NormalForm(u: Unicode, s: string)
    requires u.Sane()
    ensures var ts := Lex(u, Normalized(u, s)); Rewrite(u, ts) == ts
    ensures forall t :: t in Lex(u, Normalized(u, s)) ==> Normal(t)
  {
    NormalizedTokens(u, s);
    RewriteTwice(u, Lex(u, s));
    NoSingleQuotes(u, Lex(u, s));
  }

  predicate Normal(t: Token) {
    !(t.Literal? && t.quote == '\'')
  }

  lemma {:induction false} NoSingleQuotes(u: Unicode, ts: seq<Token>)
    ensures forall t :: t in Rewrite(u, ts) ==> Normal(t)
    decreases |ts|
  {
    if IsReserved(u, ts) {
      NoSingleQuotes(u, AfterReserved(u, ts[1..]).value);
      RewriteReserved(u, ts);
      assert forall t :: t in INDEX ==> Normal(t);
    } else if ts != [] {
      NoSingleQuotes(u, ts[1..]);
      RewriteOther(u, ts);
    }
  }
}
