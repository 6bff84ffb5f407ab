/** The expression normalizer: legacy quotes and the reserved property, outside literals and comments. */
module NormalizeQuotes {
  import opened Wrappers

  // ---- Characters ----

  /** The character classes of the host's Unicode tables. */
  datatype Unicode = Unicode(alphabetic: char -> bool, numeric: char -> bool, whitespace: char -> bool) {

    predicate WordStart(c: char) {
      alphabetic(c) || c == '_'
    }

    predicate WordChar(c: char) {
      alphabetic(c) || numeric(c) || c == '_'
    }

    /** What any Unicode table says of the punctuation used here. */
    ghost predicate Sane() {
      && !WordChar('[') && !WordChar(']') && !WordChar('.') && !WordChar('"') && !WordChar('/')
      && forall c :: whitespace(c) ==> !WordStart(c) && !IsQuote(c) && c !in ['/', '.', '[']
    }
  }

  predicate IsQuote(c: char) {
    c == '\'' || c == '"' || c == '`'
  }

  // ---- Extents ----

  /** How many characters precede the end of the line. */
  function LineEnd(s: string): (n: nat)
    ensures n <= |s|
  {
    if s == [] || s[0] == '\n' then 0 else 1 + LineEnd(s[1..])
  }

  /** The length of a block comment's body with its closing mark, if it is closed. */
  function BlockEnd(s: string): (n: Option<nat>)
    ensures n.Some? ==> 2 <= n.value <= |s|
  {
    if |s| < 2 then None
    else if s[0] == '*' && s[1] == '/' then Some(2)
    else match BlockEnd(s[1..])
      case None => None
      case Some(n) => Some(n + 1)
  }

  /** The length of a literal's body with its closing quote, if it is closed. */
  function LiteralEnd(quote: char, s: string): (n: Option<nat>)
    ensures n.Some? ==> 1 <= n.value <= |s|
  {
    if s == [] then None
    else if s[0] == quote then Some(1)
    else
      var step := if s[0] == '\\' && |s| > 1 then 2 else 1;
      match LiteralEnd(quote, s[step..])
      case None => None
      case Some(n) => Some(n + step)
  }

  function WordEnd(u: Unicode, s: string): (n: nat)
    ensures n <= |s|
  {
    if s == [] || !u.WordChar(s[0]) then 0 else 1 + WordEnd(u, s[1..])
  }

  function Reach(n: Option<nat>, s: string): (m: nat)
    requires n.Some? ==> n.value <= |s|
    ensures m <= |s|
  {
    if n.Some? then n.value else |s|
  }

  // ---- Tokens ----

  /** `Block` and `Literal` bodies include the closing mark when there is one. */
  datatype Token = Line(text: string) | Block(body: string) | Literal(quote: char, body: string)
                 | Word(text: string) | Other(c: char)
  {
    function Text(): string {
      match this
      case Line(text) => text
      case Block(body) => ['/', '*'] + body
      case Literal(quote, body) => [quote] + body
      case Word(text) => text
      case Other(c) => [c]
    }
  }

  function TakeBlock(s: string): (t: Token)
    ensures 2 <= |t.Text()| <= |s| + 2 && s[..|t.Text()| - 2] == t.Text()[2..]
  {
    Block(s[..Reach(BlockEnd(s), s)])
  }

  function TakeLiteral(quote: char, s: string): (t: Token)
    ensures 1 <= |t.Text()| <= |s| + 1 && s[..|t.Text()| - 1] == t.Text()[1..]
  {
    Literal(quote, s[..Reach(LiteralEnd(quote, s), s)])
  }

  function FirstToken(u: Unicode, s: string): (t: Token)
    requires s != []
    ensures 1 <= |t.Text()| <= |s| && s[..|t.Text()|] == t.Text()
  {
    if |s| > 1 && s[0] == '/' && s[1] == '/' then Line(s[..LineEnd(s)])
    else if |s| > 1 && s[0] == '/' && s[1] == '*' then TakeBlock(s[2..])
    else if IsQuote(s[0]) then TakeLiteral(s[0], s[1..])
    else if u.WordStart(s[0]) then Word(s[..WordEnd(u, s)])
    else Other(s[0])
  }

  function Lex(u: Unicode, s: string): seq<Token>
    decreases |s|
  {
    if s == [] then []
    else
      var t := FirstToken(u, s);
      [t] + Lex(u, s[|t.Text()|..])
  }

  function Text(ts: seq<Token>): string {
    if ts == [] then [] else ts[0].Text() + Text(ts[1..])
  }

  // ---- Normalization on tokens ----

  /** The body of a single-quoted literal, written for double quotes. */
  function Requoted(s: string): string {
    if s == [] then []
    else if s[0] == '\'' then ['"']
    else if s[0] == '\\' && |s| > 1 then
      (if s[1] == '\'' then ['\''] else ['\\', s[1]]) + Requoted(s[2..])
    else
      (if s[0] == '"' then ['\\', '"'] else [s[0]]) + Requoted(s[1..])
  }

  function Emit(t: Token): Token {
    if t.Literal? && t.quote == '\'' then Literal('"', Requoted(t.body)) else t
  }

  const CTX: string := "ctx"
  const SIGNAL: string := "_last_signal"
  const INDEX: seq<Token> := [Other('['), Literal('"', SIGNAL + ['"']), Other(']')]

  function DropSpaces(u: Unicode, ts: seq<Token>): (r: seq<Token>)
    ensures |r| <= |ts|
  {
    if ts != [] && ts[0].Other? && u.whitespace(ts[0].c) then DropSpaces(u, ts[1..]) else ts
  }

  /** What follows a reserved property access, if the tokens after `ctx` are one. */
  function AfterReserved(u: Unicode, ts: seq<Token>): (r: Option<seq<Token>>)
    ensures r.Some? ==> |r.value| < |ts|
  {
    var d := DropSpaces(u, ts);
    if d == [] || d[0] != Other('.') then None
    else
      var e := DropSpaces(u, d[1..]);
      if e != [] && e[0] == Word(SIGNAL) then Some(e[1..]) else None
  }

  function Rewrite(u: Unicode, ts: seq<Token>): seq<Token>
    decreases |ts|
  {
    if ts == [] then []
    else if ts[0] == Word(CTX) && AfterReserved(u, ts[1..]).Some? then
      [ts[0]] + INDEX + Rewrite(u, AfterReserved(u, ts[1..]).value)
    else [Emit(ts[0])] + Rewrite(u, ts[1..])
  }

  function Normalized(u: Unicode, s: string): string {
    Text(Rewrite(u, Lex(u, s)))
  }
}
