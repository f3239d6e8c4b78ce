/** src/TagScanner.ts: a cursor over the filter string that hands out one
    token per `nextToken()` call.

    `ScanToken(s, i)` is what one call does from cursor position `i`, and
    `Tokens(s, i)` the whole sequence of calls up to and including the first
    EOF. The class `TagScanner` is the source's object, proved to follow them.
    The regular-expression classes of the source are ASCII here: `\s` is
    space, tab, line feed, vertical tab, form feed and carriage return, and
    `[\w./]` is letters, digits, `_`, `.` and `/`. */
module TagScanning {
  import opened Wrappers

  datatype TokenType = Identifier | Colon | And | Or | Not | LParen | RParen | Eof

  datatype Token = Token(kind: TokenType, lexeme: string)

  predicate IsWhitespace(c: char) {
    c == ' ' || '\t' <= c <= '\r'
  }

  predicate IsIdentifierChar(c: char) {
    || 'a' <= c <= 'z' || 'A' <= c <= 'Z' || '0' <= c <= '9'
    || c == '_' || c == '.' || c == '/'
  }

  /** The cases of the `switch` in `nextToken`. */
  function SingleCharKind(c: char): (r: Option<TokenType>)
    ensures r.Some? <==> c in "&|!():"
    ensures r.Some? ==> r.value != Identifier && r.value != Eof
  {
    match c
    case '&' => Some(And)
    case '|' => Some(Or)
    case '!' => Some(Not)
    case '(' => Some(LParen)
    case ')' => Some(RParen)
    case ':' => Some(Colon)
    case _ => None
  }

  /** Where `skipWhitespace` stops when started at `i`. */
  function WhitespaceEnd(s: string, i: nat): (j: nat)
    requires i <= |s|
    ensures i <= j <= |s|
    ensures forall k :: i <= k < j ==> IsWhitespace(s[k])
    ensures j == |s| || !IsWhitespace(s[j])
    decreases |s| - i
  {
    if i < |s| && IsWhitespace(s[i]) then WhitespaceEnd(s, i + 1) else i
  }

  /** Where the loop of `makeIdentifier` stops when started at `i`. */
  function IdentifierEnd(s: string, i: nat): (j: nat)
    requires i <= |s|
    ensures i <= j <= |s|
    ensures forall k :: i <= k < j ==> IsIdentifierChar(s[k])
    ensures j == |s| || !IsIdentifierChar(s[j])
    decreases |s| - i
  {
    if i < |s| && IsIdentifierChar(s[i]) then IdentifierEnd(s, i + 1) else i
  }

  /** One `nextToken()` call with the cursor at `i`: the token and the new
      cursor. The lexeme is the input between the first non-blank position
      and the new cursor, and only EOF consumes nothing. */
  function ScanToken(s: string, i: nat): (r: (Token, nat))
    requires i <= |s|
    ensures WhitespaceEnd(s, i) <= r.1 <= |s|
    ensures r.0.lexeme == s[WhitespaceEnd(s, i)..r.1]
    ensures r.0.kind == Eof <==> WhitespaceEnd(s, i) == |s|
    ensures r.0.kind != Eof ==> WhitespaceEnd(s, i) < r.1
  {
    var b := WhitespaceEnd(s, i);
    if b >= |s| then
      (Token(Eof, s[b..b]), b)
    else
      match SingleCharKind(s[b])
      case Some(kind) => (Token(kind, s[b..b + 1]), b + 1)
      case None =>
        var j := IdentifierEnd(s, b + 1);
        (Token(Identifier, s[b..j]), j)
  }

  /** The tokens of successive `nextToken()` calls from cursor `i`, up to and
      including the first EOF. */
  function Tokens(s: string, i: nat): (ts: seq<Token>)
    requires i <= |s|
    ensures |ts| > 0 && ts[|ts| - 1].kind == Eof
    decreases |s| - i
  {
    var (t, j) := ScanToken(s, i);
    if t.kind == Eof then [t] else [t] + Tokens(s, j)
  }

  /** The lexemes of a token sequence, concatenated. */
  function Spelling(ts: seq<Token>): string {
    if ts == [] then "" else ts[0].lexeme + Spelling(ts[1..])
  }

  /** The input with every whitespace character removed. */
  function NonBlank(s: string): string {
    if s == [] then "" else (if IsWhitespace(s[0]) then "" else [s[0]]) + NonBlank(s[1..])
  }

  // ----- lemmas -------------------------------------------------------------

  /** Once the input is exhausted, `nextToken` answers EOF with an empty
      lexeme, and keeps doing so on every later call. */
  lemma EofIsSticky(s: string, i: nat)
    requires i <= |s| && ScanToken(s, i).0.kind == Eof
    ensures ScanToken(s, i) == (Token(Eof, ""), |s|)
    ensures ScanToken(s, ScanToken(s, i).1) == (Token(Eof, ""), |s|)
  {
  }

  /** `& | ! ( ) :` each give their own token with a one-character lexeme. */
  lemma SingleCharacterTokens(s: string, i: nat)
    requires i <= |s|
    requires WhitespaceEnd(s, i) < |s| && SingleCharKind(s[WhitespaceEnd(s, i)]).Some?
    ensures ScanToken(s, i) ==
              (Token(SingleCharKind(s[WhitespaceEnd(s, i)]).value, [s[WhitespaceEnd(s, i)]]),
               WhitespaceEnd(s, i) + 1)
  {
    var b := WhitespaceEnd(s, i);
    assert s[b..b + 1] == [s[b]];
  }

  /** Any other non-blank character starts an identifier, which also takes
      the longest following run of identifier characters. The first character
      is kept even when it is not an identifier character itself. */
  lemma IdentifierIsMaximal(s: string, i: nat)
    requires i <= |s|
    requires WhitespaceEnd(s, i) < |s| && SingleCharKind(s[WhitespaceEnd(s, i)]).None?
    ensures var (t, j) := ScanToken(s, i);
            && t.kind == Identifier
            && t.lexeme[0] == s[WhitespaceEnd(s, i)]
            && (forall k :: 1 <= k < |t.lexeme| ==> IsIdentifierChar(t.lexeme[k]))
            && (j == |s| || !IsIdentifierChar(s[j]))
  {
  }

  /** Whitespace is only ever skipped: no lexeme contains any. */
  lemma LexemeHasNoWhitespace(s: string, i: nat)
    requires i <= |s|
    ensures forall k :: 0 <= k < |ScanToken(s, i).0.lexeme| ==> !IsWhitespace(ScanToken(s, i).0.lexeme[k])
  {
    var b := WhitespaceEnd(s, i);
    var (t, j) := ScanToken(s, i);
    forall k | 0 <= k < |t.lexeme| ensures !IsWhitespace(t.lexeme[k]) {
      assert t.lexeme[k] == s[b + k];
      if k > 0 {
        assert IsIdentifierChar(s[b + k]);
      }
    }
  }

  lemma {:induction false} NonBlankAppend(a: string, b: string)
    ensures NonBlank(a + b) == NonBlank(a) + NonBlank(b)
    decreases |a|
  {
    if a == [] {
      assert a + b == b;
    } else {
      assert (a + b)[0] == a[0];
      assert (a + b)[1..] == a[1..] + b;
      NonBlankAppend(a[1..], b);
    }
  }

  lemma {:induction false} NonBlankOfBlanks(s: string)
    requires forall k :: 0 <= k < |s| ==> IsWhitespace(s[k])
    ensures NonBlank(s) == ""
    decreases |s|
  {
    if s != [] {
      NonBlankOfBlanks(s[1..]);
    }
  }

  lemma {:induction false} NonBlankOfNoBlanks(s: string)
    requires forall k :: 0 <= k < |s| ==> !IsWhitespace(s[k])
    ensures NonBlank(s) == s
    decreases |s|
  {
    if s != [] {
      NonBlankOfNoBlanks(s[1..]);
      assert [s[0]] + s[1..] == s;
    }
  }

  /** One token accounts exactly for the non-blank text it passes over. */
  lemma ScanTokenSpelling(s: string, i: nat)
    requires i <= |s|
    ensures NonBlank(s[i..]) == ScanToken(s, i).0.lexeme + NonBlank(s[ScanToken(s, i).1..])
  {
    var b := WhitespaceEnd(s, i);
    var (t, j) := ScanToken(s, i);
    assert s[i..] == s[i..b] + (s[b..j] + s[j..]);
    NonBlankAppend(s[i..b], s[b..j] + s[j..]);
    NonBlankAppend(s[b..j], s[j..]);
    NonBlankOfBlanks(s[i..b]);
    LexemeHasNoWhitespace(s, i);
    NonBlankOfNoBlanks(s[b..j]);
  }

  /** The tokens spell the input back, whitespace aside: concatenating the
      lexemes of all tokens from cursor `i` gives the rest of the input with
      its whitespace removed. Nothing is dropped, reordered or invented. */
  lemma {:induction false} TokensSpellInput(s: string, i: nat)
    requires i <= |s|
    ensures Spelling(Tokens(s, i)) == NonBlank(s[i..])
    decreases |s| - i
  {
    var (t, j) := ScanToken(s, i);
    ScanTokenSpelling(s, i);
    var ts := Tokens(s, i);
    if t.kind == Eof {
      assert ts == [t];
      assert s[j..] == [];
      assert Spelling(ts) == t.lexeme + Spelling(ts[1..]);
    } else {
      TokensSpellInput(s, j);
      assert ts == [t] + Tokens(s, j);
      assert ts[1..] == Tokens(s, j);
    }
  }

  // ----- the scanner object ---------------------------------------------------

  /** The `TagScanner` object: `begin` marks the start of the token being
      made, `current` the next unread character. */
  class TagScanner {
    const filter: string
    var current: nat
    var begin: nat

    ghost predicate Valid()
      reads this
    {
      begin <= current <= |filter|
    }

    constructor (filter: string)
      ensures Valid() && this.filter == filter && current == 0 && begin == 0
    {
      this.filter := filter;
      current := 0;
      begin := 0;
    }

    /** `makeToken`: the lexeme is the input from `begin` to `current`. */
    method MakeToken(kind: TokenType) returns (token: Token)
      requires Valid()
      modifies this`begin
      ensures Valid() && begin == current
      ensures token == Token(kind, filter[old(begin)..current])
    {
      token := Token(kind, filter[begin..current]);
      begin := current;
    }

    method SkipWhitespace()
      requires Valid()
      modifies this`current, this`begin
      ensures Valid() && begin == current
      ensures current == WhitespaceEnd(filter, old(current))
    {
      while current < |filter| && IsWhitespace(filter[current])
        invariant old(current) <= current <= |filter|
        invariant WhitespaceEnd(filter, current) == WhitespaceEnd(filter, old(current))
      {
        current := current + 1;
      }
      begin := current;
    }

    /** `advance`: the next character as a string, or "" at the end. */
    method Advance() returns (c: string)
      requires Valid()
      modifies this`current
      ensures Valid()
      ensures old(current) < |filter| ==> c == [filter[old(current)]] && current == old(current) + 1
      ensures old(current) == |filter| ==> c == "" && current == old(current)
    {
      if current < |filter| {
        c := [filter[current]];
        current := current + 1;
        return;
      }
      return "";
    }

    method MakeIdentifier() returns (token: Token)
      requires Valid()
      modifies this`current, this`begin
      ensures Valid() && begin == current
      ensures current == IdentifierEnd(filter, old(current))
      ensures token == Token(Identifier, filter[old(begin)..current])
    {
      while current < |filter| && IsIdentifierChar(filter[current])
        invariant Valid() && begin == old(begin)
        invariant old(current) <= current
        invariant IdentifierEnd(filter, current) == IdentifierEnd(filter, old(current))
      {
        var _ := Advance();
      }
      token := MakeToken(Identifier);
    }

    method NextToken() returns (token: Token)
      requires Valid()
      modifies this`current, this`begin
      ensures Valid() && begin == current
      ensures (token, current) == ScanToken(filter, old(current))
    {
      SkipWhitespace();
      if current >= |filter| {
        token := MakeToken(Eof);
        return;
      }
      var c := Advance();
      assert c == [filter[begin]];
      if c == "&" {
        token := MakeToken(And);
      } else if c == "|" {
        token := MakeToken(Or);
      } else if c == "!" {
        token := MakeToken(Not);
      } else if c == "(" {
        token := MakeToken(LParen);
      } else if c == ")" {
        token := MakeToken(RParen);
      } else if c == ":" {
        token := MakeToken(Colon);
      } else {
        token := MakeIdentifier();
      }
    }
  }
}
