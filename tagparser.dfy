/** src/TagParser.ts: recursive descent with one token of lookahead.

      filter  := EOF | binary EOF
      binary  := unary ((AND | OR) unary)*      -- one level, left-associative
      unary   := NOT unary | primary
      primary := LPAREN binary RPAREN | IDENTIFIER (COLON <any token>)?

    The parser reads its tokens from a scanner that answers EOF forever once
    the input is exhausted. Here the scanner's output is a token sequence whose
    last element is EOF, and advancing past that last token stays on it.
    `Primary`, `Unary`, `Binary` and `BinaryTail` say what each parsing method
    does from a position; the class `TagParser` is the source's object. */
module TagParsing {
  import opened Wrappers
  import opened Filters
  import opened TagScanning

  const ClosingParenMessage := "Expected closing parenthesis"
  const IdentifierMessage := "Expected identifier"
  const EndOfInputMessage := "Expected end of input"

  predicate IsSyntaxMessage(m: string) {
    m == ClosingParenMessage || m == IdentifierMessage || m == EndOfInputMessage
  }

  /** What a token source yields: tokens, the last of them EOF. */
  predicate IsStream(toks: seq<Token>) {
    |toks| > 0 && toks[|toks| - 1].kind == Eof
  }

  /** The position after `advance()`; the final EOF repeats forever. */
  function Next(toks: seq<Token>, p: nat): (q: nat)
    requires IsStream(toks) && p < |toks|
    ensures q < |toks|
    ensures toks[p].kind != Eof ==> q == p + 1
    ensures p == |toks| - 1 ==> q == p
  {
    if p + 1 < |toks| then p + 1 else p
  }

  /** A filter and the position of the first token after it. */
  datatype Parsed = Parsed(filter: Filter, next: nat)

  /** `parsePrimary` from position `p`. After `IDENTIFIER COLON` the next
      token is taken as the value whatever its type. */
  function Primary(toks: seq<Token>, p: nat): (r: Result<Parsed, string>)
    requires IsStream(toks) && p < |toks|
    ensures r.Success? ==> p < r.value.next < |toks|
    ensures r.Failure? ==> IsSyntaxMessage(r.error)
    decreases |toks| - p, 0
  {
    if toks[p].kind == LParen then
      match Binary(toks, p + 1)
      case Failure(e) => Failure(e)
      case Success(Parsed(expr, q)) =>
        if toks[q].kind == RParen then Success(Parsed(expr, Next(toks, q)))
        else Failure(ClosingParenMessage)
    else if toks[p].kind == Identifier then
      var key := toks[p].lexeme;
      if toks[p + 1].kind == Colon then
        var v := Next(toks, p + 1);
        Success(Parsed(MetaTag(key, toks[v].lexeme), Next(toks, v)))
      else
        Success(Parsed(Tag(key), p + 1))
    else
      Failure(IdentifierMessage)
  }

  /** `parseUnary` from position `p`. */
  function Unary(toks: seq<Token>, p: nat): (r: Result<Parsed, string>)
    requires IsStream(toks) && p < |toks|
    ensures r.Success? ==> p < r.value.next < |toks|
    ensures r.Failure? ==> IsSyntaxMessage(r.error)
    decreases |toks| - p, 1
  {
    if toks[p].kind == Not then
      match Unary(toks, p + 1)
      case Failure(e) => Failure(e)
      case Success(Parsed(operand, q)) => Success(Parsed(NotTag(operand), q))
    else
      Primary(toks, p)
  }

  /** The loop of `parseBinary`, entered with `left` already parsed and the
      cursor at `p`. */
  function BinaryTail(toks: seq<Token>, left: Filter, p: nat): (r: Result<Parsed, string>)
    requires IsStream(toks) && p < |toks|
    ensures r.Success? ==> p <= r.value.next < |toks|
    ensures r.Failure? ==> IsSyntaxMessage(r.error)
    decreases |toks| - p, 2
  {
    if toks[p].kind == And || toks[p].kind == Or then
      match Unary(toks, p + 1)
      case Failure(e) => Failure(e)
      case Success(Parsed(right, q)) =>
        BinaryTail(toks, Combine(toks[p].kind, left, right), q)
    else
      Success(Parsed(left, p))
  }

  /** The filter an operator token builds: AND gives `AndTag`, otherwise
      (OR) `OrTag`. */
  function Combine(op: TokenType, left: Filter, right: Filter): Filter {
    if op == And then AndTag(left, right) else OrTag(left, right)
  }

  /** `parseBinary` from position `p`. */
  function Binary(toks: seq<Token>, p: nat): (r: Result<Parsed, string>)
    requires IsStream(toks) && p < |toks|
    ensures r.Success? ==> p < r.value.next < |toks|
    ensures r.Failure? ==> IsSyntaxMessage(r.error)
    decreases |toks| - p, 3
  {
    match Unary(toks, p)
    case Failure(e) => Failure(e)
    case Success(Parsed(left, q)) => BinaryTail(toks, left, q)
  }

  /** `parse()` with the cursor at `p`: an EOF there is the empty filter,
      otherwise a `binary` that must be followed by EOF. */
  function ParseFrom(toks: seq<Token>, p: nat): (r: Result<Filter, string>)
    requires IsStream(toks) && p < |toks|
    ensures r.Failure? ==> IsSyntaxMessage(r.error)
  {
    if toks[p].kind == Eof then Success(TrueTag)
    else
      match Binary(toks, p)
      case Failure(e) => Failure(e)
      case Success(Parsed(f, q)) => if toks[q].kind == Eof then Success(f) else Failure(EndOfInputMessage)
  }

  /** `parse()` over a whole token stream. */
  function ParseTokens(toks: seq<Token>): (r: Result<Filter, string>)
    requires IsStream(toks)
    ensures toks[0].kind == Eof ==> r == Success(TrueTag)
    ensures r.Failure? ==> IsSyntaxMessage(r.error)
  {
    ParseFrom(toks, 0)
  }

  /** `new TagParser(filter).parse()`: the scanner's tokens, then the parser. */
  function ParseFilter(filter: string): (r: Result<Filter, string>)
    ensures r.Failure? ==> IsSyntaxMessage(r.error)
  {
    ParseTokens(Tokens(filter, 0))
  }

  // ----- a printer that parse inverts -----------------------------------------

  /** Filters with a token form inside a larger filter (`TrueTag` has none;
      it only arises from the empty input). */
  predicate Printable(f: Filter) {
    match f
    case Tag(_) => true
    case MetaTag(_, _) => true
    case TrueTag => false
    case NotTag(i) => Printable(i)
    case AndTag(l, r) => Printable(l) && Printable(r)
    case OrTag(l, r) => Printable(l) && Printable(r)
  }

  predicate IsBinary(f: Filter) {
    f.AndTag? || f.OrTag?
  }

  function OperatorToken(isAnd: bool): Token {
    if isAnd then Token(And, "&") else Token(Or, "|")
  }

  /** The tokens of `f` as an operand of `unary`: a binary filter gets
      parentheses. */
  function Operand(f: Filter): seq<Token>
    requires Printable(f)
    decreases f, 1
  {
    if IsBinary(f) then [Token(LParen, "(")] + Chain(f) + [Token(RParen, ")")]
    else
      match f
      case Tag(k) => [Token(Identifier, k)]
      case MetaTag(k, v) => [Token(Identifier, k), Token(Colon, ":"), Token(Identifier, v)]
      case NotTag(i) => [Token(Not, "!")] + Operand(i)
  }

  /** The tokens of `f` as a `binary` chain: the left operand of AND/OR is
      written without parentheses (the chain associates to the left), the right
      one as an operand. */
  function Chain(f: Filter): seq<Token>
    requires Printable(f)
    decreases f, if IsBinary(f) then 0 else 2
  {
    if IsBinary(f) then Chain(f.left) + [OperatorToken(f.AndTag?)] + Operand(f.right)
    else Operand(f)
  }

  /** The whole token stream for a filter; `TrueTag` is the empty input. */
  function Print(f: Filter): seq<Token>
    requires f == TrueTag || Printable(f)
  {
    (if f == TrueTag then [] else Chain(f)) + [Token(Eof, "")]
  }

  // A chain seen the way the loop of `parseBinary` reads it: a first operand,
  // then links, each an operator and the operand to its right.

  datatype Link = Link(isAnd: bool, operand: Filter)

  /** The filter one turn of the loop builds from `left`. */
  function Join(left: Filter, k: Link): Filter {
    if k.isAnd then AndTag(left, k.operand) else OrTag(left, k.operand)
  }

  /** The filter a run of the loop builds from `x`. */
  function Fold(x: Filter, ls: seq<Link>): Filter
    decreases |ls|
  {
    if ls == [] then x else Fold(Join(x, ls[0]), ls[1..])
  }

  /** The first operand of a chain. */
  function Head(f: Filter): Filter {
    if IsBinary(f) then Head(f.left) else f
  }

  /** The links of a chain after its first operand. */
  function Links(f: Filter): seq<Link> {
    if IsBinary(f) then Links(f.left) + [Link(f.AndTag?, f.right)] else []
  }

  predicate PrintableLinks(ls: seq<Link>)
    decreases |ls|
  {
    ls == [] || (Printable(ls[0].operand) && PrintableLinks(ls[1..]))
  }

  function LinkTokens(ls: seq<Link>): seq<Token>
    requires PrintableLinks(ls)
    decreases |ls|
  {
    if ls == [] then []
    else [OperatorToken(ls[0].isAnd)] + (Operand(ls[0].operand) + LinkTokens(ls[1..]))
  }

  /** A measure: the nodes the links add to a chain. */
  function LinksSize(ls: seq<Link>): nat
    decreases |ls|
  {
    if ls == [] then 0 else 1 + Size(ls[0].operand) + LinksSize(ls[1..])
  }

  lemma {:induction false} FoldAppend(x: Filter, ls: seq<Link>, k: Link)
    ensures Fold(x, ls + [k]) == Join(Fold(x, ls), k)
    decreases |ls|
  {
    if ls != [] {
      assert (ls + [k])[1..] == ls[1..] + [k];
      FoldAppend(Join(x, ls[0]), ls[1..], k);
    }
  }

  lemma {:induction false} LinksAppend(ls: seq<Link>, k: Link)
    requires PrintableLinks(ls) && Printable(k.operand)
    ensures PrintableLinks(ls + [k])
    ensures LinkTokens(ls + [k]) == LinkTokens(ls) + [OperatorToken(k.isAnd)] + Operand(k.operand)
    decreases |ls|
  {
    if ls == [] {
      assert [k][1..] == [];
    } else {
      assert (ls + [k])[1..] == ls[1..] + [k];
      LinksAppend(ls[1..], k);
    }
  }

  lemma {:induction false} LinksSizeAppend(ls: seq<Link>, k: Link)
    ensures LinksSize(ls + [k]) == LinksSize(ls) + 1 + Size(k.operand)
    decreases |ls|
  {
    if ls == [] {
      assert [k][1..] == [];
    } else {
      assert (ls + [k])[1..] == ls[1..] + [k];
      LinksSizeAppend(ls[1..], k);
    }
  }

  lemma {:induction false} LinkTokensStartWithOperator(ls: seq<Link>)
    requires PrintableLinks(ls) && LinkTokens(ls) != []
    ensures LinkTokens(ls)[0] == OperatorToken(ls[0].isAnd)
  {
  }

  /** Every printable chain is its first operand followed by its links. */
  lemma {:induction false} ChainSplits(f: Filter)
    requires Printable(f)
    ensures Printable(Head(f)) && PrintableLinks(Links(f))
    ensures Chain(f) == Operand(Head(f)) + LinkTokens(Links(f))
  {
    if IsBinary(f) {
      ChainSplits(f.left);
      LinksAppend(Links(f.left), Link(f.AndTag?, f.right));
    } else {
      assert PrintableLinks([]);
    }
  }

  /** The loop of `parseBinary` rebuilds a chain from its first operand and
      its links. */
  lemma {:induction false} ChainFolds(f: Filter)
    ensures !IsBinary(Head(f))
    ensures Fold(Head(f), Links(f)) == f
    ensures Size(Head(f)) + LinksSize(Links(f)) == Size(f)
  {
    if IsBinary(f) {
      var k := Link(f.AndTag?, f.right);
      ChainFolds(f.left);
      FoldAppend(Head(f), Links(f.left), k);
      LinksSizeAppend(Links(f.left), k);
    }
  }

  // ----- where the parts of a printed chain lie in a token sequence ------------

  /** Position `k` of a run that starts at `p`. */
  function Offset(p: nat, k: nat): nat {
    p + k
  }

  /** `xs` occurs in `toks` at position `p`. */
  predicate At(toks: seq<Token>, p: nat, xs: seq<Token>) {
    p + |xs| <= |toks| && forall k {:trigger Offset(p, k)} | 0 <= k < |xs| :: toks[Offset(p, k)] == xs[k]
  }

  lemma {:induction false} AtSplit(toks: seq<Token>, p: nat, xs: seq<Token>, ys: seq<Token>)
    requires At(toks, p, xs + ys)
    ensures At(toks, p, xs) && At(toks, p + |xs|, ys)
  {
    forall k | 0 <= k < |xs|
      ensures toks[Offset(p, k)] == xs[k]
    {
      assert (xs + ys)[k] == xs[k];
    }
    forall k | 0 <= k < |ys|
      ensures toks[Offset(p + |xs|, k)] == ys[k]
    {
      assert Offset(p + |xs|, k) == Offset(p, |xs| + k);
      assert (xs + ys)[|xs| + k] == ys[k];
    }
  }

  lemma {:induction false} AtStart(xs: seq<Token>, ys: seq<Token>)
    ensures At(xs + ys, 0, xs) && At(xs + ys, |xs|, ys)
  {
    forall k | 0 <= k < |xs + ys|
      ensures (xs + ys)[Offset(0, k)] == (xs + ys)[k]
    {
    }
    AtSplit(xs + ys, 0, xs, ys);
  }

  lemma {:induction false} AtIndex(toks: seq<Token>, p: nat, xs: seq<Token>, k: nat)
    requires At(toks, p, xs) && k < |xs|
    ensures toks[p + k] == xs[k]
  {
    assert toks[Offset(p, k)] == xs[k];
  }

  lemma {:induction false} AtSingle(toks: seq<Token>, p: nat, t: Token)
    requires At(toks, p, [t])
    ensures p < |toks| && toks[p] == t
  {
    assert toks[Offset(p, 0)] == [t][0];
  }

  lemma {:induction false} AtCons(toks: seq<Token>, q: nat, t: Token, xs: seq<Token>, ys: seq<Token>)
    requires At(toks, q, [t] + (xs + ys))
    ensures q < |toks| && toks[q] == t
    ensures At(toks, q + 1, xs) && At(toks, q + 1 + |xs|, ys)
    ensures |[t] + (xs + ys)| == 1 + |xs| + |ys|
  {
    AtSplit(toks, q, [t], xs + ys);
    AtSingle(toks, q, t);
    AtSplit(toks, q + 1, xs, ys);
  }

  lemma {:induction false} AtWrapped(toks: seq<Token>, p: nat, a: Token, xs: seq<Token>, b: Token)
    requires At(toks, p, [a] + xs + [b])
    ensures p + 1 + |xs| < |toks| && toks[p] == a && toks[p + 1 + |xs|] == b
    ensures At(toks, p + 1, xs)
    ensures |[a] + xs + [b]| == |xs| + 2
  {
    AtSplit(toks, p, [a] + xs, [b]);
    AtSplit(toks, p, [a], xs);
    AtSingle(toks, p, a);
    AtSingle(toks, p + 1 + |xs|, b);
  }

  /** The first operand of a chain, and what follows it. */
  lemma {:induction false} ChainParts(toks: seq<Token>, p: nat, f: Filter)
    requires Printable(f)
    requires At(toks, p, Chain(f)) && p + |Chain(f)| < |toks|
    requires toks[p + |Chain(f)|].kind != Colon
    ensures Printable(Head(f)) && PrintableLinks(Links(f))
    ensures At(toks, p, Operand(Head(f)))
    ensures At(toks, p + |Operand(Head(f))|, LinkTokens(Links(f)))
    ensures p + |Operand(Head(f))| + |LinkTokens(Links(f))| == p + |Chain(f)|
    ensures toks[p + |Operand(Head(f))|].kind != Colon
  {
    ChainSplits(f);
    var h, ls := Head(f), Links(f);
    AtSplit(toks, p, Operand(h), LinkTokens(ls));
    NoColonBeforeLinks(toks, p + |Operand(h)|, ls);
  }

  /** A run of links starts with an operator, so no COLON stands where it
      begins, unless it is empty and the token after it is that place. */
  lemma {:induction false} NoColonBeforeLinks(toks: seq<Token>, r: nat, ls: seq<Link>)
    requires PrintableLinks(ls)
    requires At(toks, r, LinkTokens(ls)) && r + |LinkTokens(ls)| < |toks|
    requires toks[r + |LinkTokens(ls)|].kind != Colon
    ensures toks[r].kind != Colon
  {
    if ls != [] {
      AtIndex(toks, r, LinkTokens(ls), 0);
      LinkTokensStartWithOperator(ls);
    }
  }

  /** The operator, the operand and the remaining links of a run of links. */
  lemma {:induction false} LinkParts(toks: seq<Token>, q: nat, ls: seq<Link>)
    requires PrintableLinks(ls) && ls != []
    requires At(toks, q, LinkTokens(ls))
    ensures Printable(ls[0].operand) && PrintableLinks(ls[1..])
    ensures q < |toks| && toks[q] == OperatorToken(ls[0].isAnd)
    ensures At(toks, q + 1, Operand(ls[0].operand))
    ensures At(toks, q + 1 + |Operand(ls[0].operand)|, LinkTokens(ls[1..]))
    ensures 1 + |Operand(ls[0].operand)| + |LinkTokens(ls[1..])| == |LinkTokens(ls)|
  {
    var t, o, rest := OperatorToken(ls[0].isAnd), Operand(ls[0].operand), LinkTokens(ls[1..]);
    assert LinkTokens(ls) == [t] + (o + rest);
    AtCons(toks, q, t, o, rest);
  }

  // ----- the parse functions on those parts ---------------------------------

  /** `parseBinary` continues with its loop after the first operand. */
  lemma {:induction false} BinaryStart(toks: seq<Token>, p: nat, left: Filter, q: nat)
    requires IsStream(toks) && p < |toks| && q < |toks|
    requires Unary(toks, p) == Success(Parsed(left, q))
    ensures Binary(toks, p) == BinaryTail(toks, left, q)
  {
  }

  /** The loop of `parseBinary` stops at a token other than AND or OR. */
  lemma {:induction false} TailStop(toks: seq<Token>, left: Filter, e: nat)
    requires IsStream(toks) && e < |toks|
    requires toks[e].kind != And && toks[e].kind != Or
    ensures BinaryTail(toks, left, e) == Success(Parsed(left, e))
  {
  }

  /** One turn of the loop of `parseBinary` reads one link. */
  lemma {:induction false} TailStep(toks: seq<Token>, x: Filter, q: nat, k: Link, q2: nat)
    requires IsStream(toks) && q + 1 < |toks| && q2 < |toks|
    requires toks[q] == OperatorToken(k.isAnd)
    requires Unary(toks, q + 1) == Success(Parsed(k.operand, q2))
    ensures BinaryTail(toks, x, q) == BinaryTail(toks, Join(x, k), q2)
  {
    assert Combine(toks[q].kind, x, k.operand) == Join(x, k);
  }

  // ----- the round trip -------------------------------------------------------

  /** An operand is read back by `parseUnary`, unless a COLON follows it. */
  lemma {:induction false} OperandRoundTrip(toks: seq<Token>, p: nat, f: Filter)
    requires IsStream(toks) && Printable(f)
    requires At(toks, p, Operand(f)) && p + |Operand(f)| < |toks|
    requires toks[p + |Operand(f)|].kind != Colon
    ensures Unary(toks, p) == Success(Parsed(f, p + |Operand(f)|))
    decreases Size(f), 3
  {
    if IsBinary(f) {
      ParenRoundTrip(toks, p, f);
    } else if f.NotTag? {
      AtSplit(toks, p, [Token(Not, "!")], Operand(f.inner));
      AtIndex(toks, p, Operand(f), 0);
      OperandRoundTrip(toks, p + 1, f.inner);
    } else {
      LeafRoundTrip(toks, p, f);
    }
  }

  lemma {:induction false} LeafRoundTrip(toks: seq<Token>, p: nat, f: Filter)
    requires IsStream(toks) && (f.Tag? || f.MetaTag?)
    requires At(toks, p, Operand(f)) && p + |Operand(f)| < |toks|
    requires toks[p + |Operand(f)|].kind != Colon
    ensures Unary(toks, p) == Success(Parsed(f, p + |Operand(f)|))
  {
    AtIndex(toks, p, Operand(f), 0);
    if f.MetaTag? {
      AtIndex(toks, p, Operand(f), 1);
      AtIndex(toks, p, Operand(f), 2);
    }
  }

  /** A parenthesised chain is read back by `parsePrimary`. */
  lemma {:induction false} ParenRoundTrip(toks: seq<Token>, p: nat, f: Filter)
    requires IsStream(toks) && Printable(f) && IsBinary(f)
    requires At(toks, p, Operand(f)) && p + |Operand(f)| < |toks|
    ensures Unary(toks, p) == Success(Parsed(f, p + |Operand(f)|))
    decreases Size(f), 2
  {
    var c := Chain(f);
    AtWrapped(toks, p, Token(LParen, "("), c, Token(RParen, ")"));
    ChainRoundTrip(toks, p + 1, f);
    ParenStep(toks, p, f, p + 1 + |c|);
  }

  /** `parseUnary` at an opening parenthesis reads the filter `parseBinary`
      finds after it and then the closing one. */
  lemma {:induction false} ParenStep(toks: seq<Token>, p: nat, f: Filter, q: nat)
    requires IsStream(toks) && p < q < |toks|
    requires toks[p].kind == LParen && toks[q].kind == RParen
    requires Binary(toks, p + 1) == Success(Parsed(f, q))
    ensures Unary(toks, p) == Success(Parsed(f, q + 1))
  {
    assert Primary(toks, p) == Success(Parsed(f, q + 1));
  }

  /** A chain is read back by `parseBinary` when the token after it is
      neither AND, OR nor COLON. */
  lemma {:induction false} ChainRoundTrip(toks: seq<Token>, p: nat, f: Filter)
    requires IsStream(toks) && Printable(f)
    requires At(toks, p, Chain(f)) && p + |Chain(f)| < |toks|
    requires toks[p + |Chain(f)|].kind != And && toks[p + |Chain(f)|].kind != Or
    requires toks[p + |Chain(f)|].kind != Colon
    ensures Binary(toks, p) == Success(Parsed(f, p + |Chain(f)|))
    decreases Size(f), if IsBinary(f) then 1 else 4
  {
    var h, ls := Head(f), Links(f);
    ChainFolds(f);
    ChainParts(toks, p, f);
    var q := p + |Operand(h)|;
    OperandRoundTrip(toks, p, h);
    LinksRoundTrip(toks, h, q, ls);
    BinaryStart(toks, p, h, q);
  }

  /** The loop of `parseBinary` reads a run of links, building on `x`. */
  lemma {:induction false} LinksRoundTrip(toks: seq<Token>, x: Filter, q: nat, ls: seq<Link>)
    requires IsStream(toks) && PrintableLinks(ls)
    requires At(toks, q, LinkTokens(ls)) && q + |LinkTokens(ls)| < |toks|
    requires toks[q + |LinkTokens(ls)|].kind != And && toks[q + |LinkTokens(ls)|].kind != Or
    requires toks[q + |LinkTokens(ls)|].kind != Colon
    ensures BinaryTail(toks, x, q) == Success(Parsed(Fold(x, ls), q + |LinkTokens(ls)|))
    decreases LinksSize(ls), 0
  {
    if ls == [] {
      TailStop(toks, x, q);
    } else {
      var k := ls[0];
      var q2 := q + 1 + |Operand(k.operand)|;
      LinkParts(toks, q, ls);
      NoColonBeforeLinks(toks, q2, ls[1..]);
      OperandRoundTrip(toks, q + 1, k.operand);
      LinksRoundTrip(toks, Join(x, k), q2, ls[1..]);
      TailStep(toks, x, q, k, q2);
    }
  }

  /** `parse` inverts `Print`: every filter with a token form is read back
      exactly, so AND and OR chain to the left at one level, NOT takes one
      operand, and parentheses group. */
  lemma {:induction false} ParseInvertsPrint(f: Filter)
    requires f == TrueTag || Printable(f)
    ensures ParseTokens(Print(f)) == Success(f)
  {
    if f != TrueTag {
      var toks := Print(f);
      AtStart(Chain(f), [Token(Eof, "")]);
      AtSingle(toks, |Chain(f)|, Token(Eof, ""));
      ChainRoundTrip(toks, 0, f);
      ChainSplits(f);
      AtIndex(toks, 0, Chain(f), 0);
      assert toks[0] == Operand(Head(f))[0];
    }
  }

  // ----- worked examples ----------------------------------------------------

  function Ident(k: string): Token {
    Token(Identifier, k)
  }

  const EofToken := Token(Eof, "")

  /** AND and OR share one level and associate to the left, whichever comes
      first: `a & b | c` and `a | b & c`. */
  lemma OneLevelLeftAssociative()
    ensures ParseTokens([Ident("a"), Token(And, "&"), Ident("b"), Token(Or, "|"), Ident("c"), EofToken])
            == Success(OrTag(AndTag(Tag("a"), Tag("b")), Tag("c")))
    ensures ParseTokens([Ident("a"), Token(Or, "|"), Ident("b"), Token(And, "&"), Ident("c"), EofToken])
            == Success(AndTag(OrTag(Tag("a"), Tag("b")), Tag("c")))
  {
    var t := [Ident("a"), Token(And, "&"), Ident("b"), Token(Or, "|"), Ident("c"), EofToken];
    var a, b, c := Tag("a"), Tag("b"), Tag("c");
    assert Unary(t, 0) == Success(Parsed(a, 1));
    assert Unary(t, 2) == Success(Parsed(b, 3));
    assert Unary(t, 4) == Success(Parsed(c, 5));
    assert BinaryTail(t, OrTag(AndTag(a, b), c), 5) == Success(Parsed(OrTag(AndTag(a, b), c), 5));
    assert BinaryTail(t, a, 1) == BinaryTail(t, AndTag(a, b), 3);
    assert Binary(t, 0) == Success(Parsed(OrTag(AndTag(a, b), c), 5));
    var u := [Ident("a"), Token(Or, "|"), Ident("b"), Token(And, "&"), Ident("c"), EofToken];
    assert Unary(u, 0) == Success(Parsed(a, 1));
    assert Unary(u, 2) == Success(Parsed(b, 3));
    assert Unary(u, 4) == Success(Parsed(c, 5));
    assert BinaryTail(u, AndTag(OrTag(a, b), c), 5) == Success(Parsed(AndTag(OrTag(a, b), c), 5));
    assert BinaryTail(u, a, 1) == BinaryTail(u, OrTag(a, b), 3);
    assert Binary(u, 0) == Success(Parsed(AndTag(OrTag(a, b), c), 5));
  }

  /** `!abcd & (efgh | ijkl)`: NOT binds one operand, parentheses group. */
  lemma NegationAndGrouping()
    ensures ParseTokens([Token(Not, "!"), Ident("abcd"), Token(And, "&"), Token(LParen, "("),
                         Ident("efgh"), Token(Or, "|"), Ident("ijkl"), Token(RParen, ")"), EofToken])
            == Success(AndTag(NotTag(Tag("abcd")), OrTag(Tag("efgh"), Tag("ijkl"))))
  {
    var t := [Token(Not, "!"), Ident("abcd"), Token(And, "&"), Token(LParen, "("),
              Ident("efgh"), Token(Or, "|"), Ident("ijkl"), Token(RParen, ")"), EofToken];
    var a, e, i := Tag("abcd"), Tag("efgh"), Tag("ijkl");
    assert Unary(t, 1) == Success(Parsed(a, 2));
    assert Unary(t, 0) == Success(Parsed(NotTag(a), 2));
    assert Unary(t, 4) == Success(Parsed(e, 5));
    assert Unary(t, 6) == Success(Parsed(i, 7));
    assert BinaryTail(t, OrTag(e, i), 7) == Success(Parsed(OrTag(e, i), 7));
    assert Binary(t, 4) == Success(Parsed(OrTag(e, i), 7));
    assert Primary(t, 3) == Success(Parsed(OrTag(e, i), 8));
    assert Unary(t, 3) == Success(Parsed(OrTag(e, i), 8));
    assert BinaryTail(t, AndTag(NotTag(a), OrTag(e, i)), 8) == Success(Parsed(AndTag(NotTag(a), OrTag(e, i)), 8));
    assert Binary(t, 0) == Success(Parsed(AndTag(NotTag(a), OrTag(e, i)), 8));
  }

  /** After `IDENTIFIER COLON` any token is the value: `a:&` is the meta tag
      (a, &), and `a:` takes the empty lexeme of EOF. */
  lemma MetaTagValueIsAnyToken()
    ensures ParseTokens([Ident("a"), Token(Colon, ":"), Token(And, "&"), EofToken])
            == Success(MetaTag("a", "&"))
    ensures ParseTokens([Ident("a"), Token(Colon, ":"), EofToken]) == Success(MetaTag("a", ""))
  {
    var t := [Ident("a"), Token(Colon, ":"), Token(And, "&"), EofToken];
    assert Unary(t, 0) == Success(Parsed(MetaTag("a", "&"), 3));
    assert Binary(t, 0) == Success(Parsed(MetaTag("a", "&"), 3));
    var u := [Ident("a"), Token(Colon, ":"), EofToken];
    assert Next(u, 1) == 2 && Next(u, 2) == 2;
    assert Unary(u, 0) == Success(Parsed(MetaTag("a", ""), 2));
    assert Binary(u, 0) == Success(Parsed(MetaTag("a", ""), 2));
  }

  /** The three syntax errors: `(a`, `a &`, and `a)` / `a b`. */
  lemma SyntaxErrors()
    ensures ParseTokens([Token(LParen, "("), Ident("a"), EofToken]) == Failure(ClosingParenMessage)
    ensures ParseTokens([Ident("a"), Token(And, "&"), EofToken]) == Failure(IdentifierMessage)
    ensures ParseTokens([Ident("a"), Token(RParen, ")"), EofToken]) == Failure(EndOfInputMessage)
    ensures ParseTokens([Ident("a"), Ident("b"), EofToken]) == Failure(EndOfInputMessage)
  {
    var t1 := [Token(LParen, "("), Ident("a"), EofToken];
    assert Unary(t1, 1) == Success(Parsed(Tag("a"), 2));
    assert BinaryTail(t1, Tag("a"), 2) == Success(Parsed(Tag("a"), 2));
    assert Binary(t1, 1) == Success(Parsed(Tag("a"), 2));
    assert Unary(t1, 0) == Failure(ClosingParenMessage);
    var t2 := [Ident("a"), Token(And, "&"), EofToken];
    assert Unary(t2, 0) == Success(Parsed(Tag("a"), 1));
    assert Unary(t2, 2) == Failure(IdentifierMessage);
    assert Binary(t2, 0) == Failure(IdentifierMessage);
    var t3 := [Ident("a"), Token(RParen, ")"), EofToken];
    assert Unary(t3, 0) == Success(Parsed(Tag("a"), 1));
    assert BinaryTail(t3, Tag("a"), 1) == Success(Parsed(Tag("a"), 1));
    assert Binary(t3, 0) == Success(Parsed(Tag("a"), 1));
    var t4 := [Ident("a"), Ident("b"), EofToken];
    assert Unary(t4, 0) == Success(Parsed(Tag("a"), 1));
    assert BinaryTail(t4, Tag("a"), 1) == Success(Parsed(Tag("a"), 1));
    assert Binary(t4, 0) == Success(Parsed(Tag("a"), 1));
  }

  /** An empty or all-blank input is the filter that matches everything: its
      first token is already EOF. */
  lemma BlankInputIsTrue(filter: string)
    requires forall k :: 0 <= k < |filter| ==> IsWhitespace(filter[k])
    ensures Tokens(filter, 0) == [EofToken]
    ensures ParseFilter(filter) == Success(TrueTag)
  {
    assert WhitespaceEnd(filter, 0) == |filter|;
  }

  // ----- the parser object ----------------------------------------------------

  /** What a parsing method returns in the source: the filter, or the message
      it throws. */
  function FilterOf(r: Result<Parsed, string>): Result<Filter, string> {
    match r
    case Success(Parsed(f, _)) => Success(f)
    case Failure(e) => Failure(e)
  }

  /** The scanner as the parser uses it (`BaseTagScanner`): each
      `nextToken()` call hands out the next token of a stream that ends in
      EOF, and EOF again once the stream is exhausted. */
  class TokenSource {
    const tokens: seq<Token>
    var index: nat

    ghost predicate Valid()
      reads this
    {
      IsStream(tokens) && index < |tokens|
    }

    constructor (tokens: seq<Token>)
      requires IsStream(tokens)
      ensures Valid() && this.tokens == tokens && index == 0
    {
      this.tokens := tokens;
      index := 0;
    }

    method NextToken() returns (token: Token)
      requires Valid()
      modifies this
      ensures Valid()
      ensures token == tokens[old(index)] && index == Next(tokens, old(index))
    {
      token := tokens[index];
      index := Next(tokens, index);
    }
  }

  /** The `TagParser` object. Its scanner delivers the tokens `Tokens(filter,
      0)` of the `TagScanner`; the ghost `position` is the index of `current`
      among them. */
  class TagParser {
    const scanner: TokenSource
    var current: Token
    var previous: Token
    ghost var position: nat

    ghost predicate Valid()
      reads this, scanner
    {
      && scanner.Valid()
      && position < |scanner.tokens|
      && current == scanner.tokens[position]
      && scanner.index == Next(scanner.tokens, position)
    }

    /** `new TagParser(filter)`: the scanner is created and `current` and
        `previous` both hold its first token. */
    constructor (filter: string)
      ensures Valid() && scanner.tokens == Tokens(filter, 0)
      ensures position == 0 && previous == current && fresh(scanner)
    {
      scanner := new TokenSource(Tokens(filter, 0));
      position := 0;
      new;
      current := scanner.NextToken();
      previous := current;
    }

    /** `advance()`: `previous` takes the current token, and the scanner
        supplies the next one (EOF again at the end). */
    method Advance()
      requires Valid()
      modifies this, scanner
      ensures Valid()
      ensures position == Next(scanner.tokens, old(position)) && previous == old(current)
    {
      previous := current;
      position := scanner.index;
      current := scanner.NextToken();
    }

    /** `match(expected)`: consume the current token when it has the
        expected type, and say whether it did. */
    method Match(expected: TokenType) returns (matched: bool)
      requires Valid()
      modifies this, scanner
      ensures Valid()
      ensures matched <==> old(current).kind == expected
      ensures matched ==> position == Next(scanner.tokens, old(position)) && previous == old(current)
      ensures !matched ==> position == old(position) && previous == old(previous)
    {
      if current.kind == expected {
        Advance();
        return true;
      }
      return false;
    }

    /** `expect(expected, message)`: like `match`, but a token of another
        type is an error carrying `message`. */
    method Expect(expected: TokenType, message: string) returns (r: Result<(), string>)
      requires Valid()
      modifies this, scanner
      ensures Valid()
      ensures r == if old(current).kind == expected then Success(()) else Failure(message)
      ensures r.Success? ==> position == Next(scanner.tokens, old(position)) && previous == old(current)
      ensures r.Failure? ==> position == old(position) && previous == old(previous)
    {
      if current.kind == expected {
        Advance();
        return Success(());
      }
      return Failure(message);
    }

    /** `parsePrimary()`. */
    method ParsePrimary() returns (r: Result<Filter, string>)
      requires Valid()
      modifies this, scanner
      ensures Valid()
      ensures r == FilterOf(Primary(scanner.tokens, old(position)))
      ensures r.Success? ==> position == Primary(scanner.tokens, old(position)).value.next
      decreases |scanner.tokens| - position, 0
    {
      var isGroup := Match(LParen);
      if isGroup {
        var expr := ParseBinary();
        if expr.Failure? {
          return expr;
        }
        var closed := Expect(RParen, ClosingParenMessage);
        if closed.Failure? {
          return Failure(closed.error);
        }
        return expr;
      }
      var named := Expect(Identifier, IdentifierMessage);
      if named.Failure? {
        return Failure(named.error);
      }
      var key := previous.lexeme;
      var isMeta := Match(Colon);
      if isMeta {
        Advance();
        return Success(MetaTag(key, previous.lexeme));
      }
      return Success(Tag(key));
    }

    /** `parseUnary()`. */
    method ParseUnary() returns (r: Result<Filter, string>)
      requires Valid()
      modifies this, scanner
      ensures Valid()
      ensures r == FilterOf(Unary(scanner.tokens, old(position)))
      ensures r.Success? ==> position == Unary(scanner.tokens, old(position)).value.next
      decreases |scanner.tokens| - position, 1
    {
      var negated := Match(Not);
      if negated {
        var operand := ParseUnary();
        if operand.Failure? {
          return operand;
        }
        return Success(NotTag(operand.value));
      }
      r := ParsePrimary();
    }

    /** `parseBinary()`: AND and OR at one level, folded to the left. */
    method ParseBinary() returns (r: Result<Filter, string>)
      requires Valid()
      modifies this, scanner
      ensures Valid()
      ensures r == FilterOf(Binary(scanner.tokens, old(position)))
      ensures r.Success? ==> position == Binary(scanner.tokens, old(position)).value.next
      decreases |scanner.tokens| - position, 3
    {
      ghost var start := position;
      var first := ParseUnary();
      if first.Failure? {
        return first;
      }
      var left := first.value;
      while true
        invariant Valid() && start < position
        invariant Binary(scanner.tokens, start) == BinaryTail(scanner.tokens, left, position)
        decreases |scanner.tokens| - position
      {
        ghost var op := position;
        var isOperator := Match(And);
        if !isOperator {
          isOperator := Match(Or);
        }
        if !isOperator {
          break;
        }
        var operator := previous;
        var right := ParseUnary();
        if right.Failure? {
          return right;
        }
        if operator.kind == And {
          left := AndTag(left, right.value);
        } else {
          left := OrTag(left, right.value);
        }
      }
      return Success(left);
    }

    /** `parse()`: EOF at once is the empty filter; otherwise a `binary`
        followed by EOF. */
    method Parse() returns (r: Result<Filter, string>)
      requires Valid()
      modifies this, scanner
      ensures Valid()
      ensures r == ParseFrom(scanner.tokens, old(position))
    {
      if current.kind == Eof {
        return Success(TrueTag);
      }
      var filter := ParseBinary();
      if filter.Failure? {
        return filter;
      }
      var done := Expect(Eof, EndOfInputMessage);
      if done.Failure? {
        return Failure(done.error);
      }
      return filter;
    }
  }

  /** `new TagParser(filter).parse()`. */
  method ParseText(filter: string) returns (r: Result<Filter, string>)
    ensures r == ParseFilter(filter)
  {
    var parser := new TagParser(filter);
    r := parser.Parse();
  }
}
