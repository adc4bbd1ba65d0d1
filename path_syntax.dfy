/**
 * Lexical structure of a route path such as `/alfa/{param}/tango*`.
 *
 * A path is literal text interrupted by two kinds of placeholder: a named
 * parameter `{name}` and the wildcard character `*`. Tokenize splits a path
 * into maximal literal runs and placeholders, and Unparse writes the tokens
 * back; the two are inverse to each other.
 */
module PathSyntax {

  /** One element of a parsed path. */
  datatype Token = Literal(text: string) | Param(name: string) | Wildcard

  /** A character that starts a placeholder. */
  predicate IsPlaceholderStart(c: char) {
    c == '{' || c == '*'
  }

  /** A character allowed inside the braces of `{name}`. */
  predicate IsNameChar(c: char) {
    c != '{' && c != '}' && c != '/' && c != '*'
  }

  /** A parameter name: not empty, no braces, slashes or stars. */
  predicate ValidName(n: string) {
    |n| > 0 && forall i :: 0 <= i < |n| ==> IsNameChar(n[i])
  }

  /** A literal run as Tokenize produces it: not empty, no brace and no star. */
  predicate ValidLiteral(s: string) {
    |s| > 0 && forall i :: 0 <= i < |s| ==> !IsPlaceholderStart(s[i]) && s[i] != '}'
  }

  /** Length of the longest prefix of `s` holding no `{` and no `*`. */
  function LiteralLength(s: string): (k: nat)
    ensures k <= |s|
    ensures forall i :: 0 <= i < k ==> !IsPlaceholderStart(s[i])
    ensures k < |s| ==> IsPlaceholderStart(s[k])
  {
    if s == [] || IsPlaceholderStart(s[0]) then 0 else 1 + LiteralLength(s[1..])
  }

  /** Index of the first `}` in `s`, or `|s|` when there is none. */
  function CloseIndex(s: string): (k: nat)
    ensures k <= |s|
    ensures forall i :: 0 <= i < k ==> s[i] != '}'
    ensures k < |s| ==> s[k] == '}'
  {
    if s == [] || s[0] == '}' then 0 else 1 + CloseIndex(s[1..])
  }

  /**
   * Every `{` is closed by a `}` around a valid name (so braces are neither
   * empty, unterminated nor nested) and no `}` stands on its own.
   */
  predicate WellFormed(s: string)
    decreases |s|
  {
    if s == [] then true
    else if s[0] == '*' then WellFormed(s[1..])
    else if s[0] == '{' then
      var k := CloseIndex(s[1..]);
      k + 1 < |s| && ValidName(s[1..k + 1]) && WellFormed(s[k + 2..])
    else
      var k := LiteralLength(s);
      (forall i :: 0 <= i < k ==> s[i] != '}') && WellFormed(s[k..])
  }

  /** The text a token stands for in a path. */
  function TokenText(t: Token): string {
    match t
    case Literal(s) => s
    case Param(n) => "{" + n + "}"
    case Wildcard => "*"
  }

  /** Writes a token list back as path text. */
  function Unparse(toks: seq<Token>): string {
    if toks == [] then "" else TokenText(toks[0]) + Unparse(toks[1..])
  }

  /** Writing out two token lists one after the other writes out their concatenation. */
  lemma {:induction false} UnparseAppend(a: seq<Token>, b: seq<Token>)
    ensures Unparse(a + b) == Unparse(a) + Unparse(b)
  {
    if a == [] {
      assert a + b == b;
    } else {
      assert (a + b)[1..] == a[1..] + b;
      UnparseAppend(a[1..], b);
    }
  }

  /** A token as Tokenize produces it. */
  predicate ValidToken(t: Token) {
    match t
    case Literal(s) => ValidLiteral(s)
    case Param(n) => ValidName(n)
    case Wildcard => true
  }

  /** The shape Tokenize produces: valid tokens, never two literals in a row. */
  predicate Canonical(toks: seq<Token>) {
    toks == [] ||
    (&& ValidToken(toks[0])
     && (toks[0].Literal? && |toks| > 1 ==> !toks[1].Literal?)
     && Canonical(toks[1..]))
  }

  /** Splits a well-formed path into literal runs, parameters and wildcards. */
  function Tokenize(s: string): seq<Token>
    requires WellFormed(s)
    decreases |s|
  {
    if s == [] then []
    else if s[0] == '*' then [Wildcard] + Tokenize(s[1..])
    else if s[0] == '{' then
      var k := CloseIndex(s[1..]);
      [Param(s[1..k + 1])] + Tokenize(s[k + 2..])
    else
      var k := LiteralLength(s);
      [Literal(s[..k])] + Tokenize(s[k..])
  }

  /**
   * Tokenize gives canonical tokens that write back to the path, and starts
   * with a literal exactly when the path does not start with a placeholder.
   */
  lemma {:induction false} TokenizeSpec(s: string)
    requires WellFormed(s)
    ensures Canonical(Tokenize(s))
    ensures Unparse(Tokenize(s)) == s
    ensures Tokenize(s) == [] <==> s == []
    ensures Tokenize(s) != [] ==> (Tokenize(s)[0].Literal? <==> !IsPlaceholderStart(s[0]))
    decreases |s|
  {
    if s == [] {
    } else if s[0] == '*' {
      TokenizeSpec(s[1..]);
      PlaceholderStep(s, Wildcard, s[1..], Tokenize(s[1..]));
    } else if s[0] == '{' {
      var k := CloseIndex(s[1..]);
      TokenizeSpec(s[k + 2..]);
      assert s[1..][k] == '}';
      BracedSplit(s, k);
      PlaceholderStep(s, Param(s[1..k + 1]), s[k + 2..], Tokenize(s[k + 2..]));
    } else {
      var k := LiteralLength(s);
      TokenizeSpec(s[k..]);
      LiteralStep(s, Tokenize(s[k..]));
    }
  }

  /** A placeholder in front of the tokens of the rest of the path. */
  lemma PlaceholderStep(s: string, t: Token, rest: string, r: seq<Token>)
    requires ValidToken(t) && !t.Literal? && s == TokenText(t) + rest
    requires Canonical(r) && Unparse(r) == rest
    ensures Canonical([t] + r) && Unparse([t] + r) == s
    ensures [t] + r != [] && !([t] + r)[0].Literal?
  {
    assert ([t] + r)[1..] == r;
  }

  /** A path starting with `{` and closed at `k + 1` is the braces around a name, then the rest. */
  lemma BracedSplit(s: string, k: nat)
    requires k + 1 < |s| && s[0] == '{' && s[k + 1] == '}'
    ensures s == "{" + s[1..k + 1] + "}" + s[k + 2..]
  {
    assert s == [s[0]] + s[1..k + 1] + [s[k + 1]] + s[k + 2..];
  }

  /** A maximal literal run in front of the tokens of the rest of the path. */
  lemma LiteralStep(s: string, r: seq<Token>)
    requires WellFormed(s) && s != [] && !IsPlaceholderStart(s[0])
    requires var k := LiteralLength(s);
      && Canonical(r) && Unparse(r) == s[k..]
      && (r == [] <==> s[k..] == [])
      && (r != [] ==> (r[0].Literal? <==> !IsPlaceholderStart(s[k..][0])))
    ensures var k := LiteralLength(s);
      Canonical([Literal(s[..k])] + r) && Unparse([Literal(s[..k])] + r) == s
  {
    var k := LiteralLength(s);
    var toks := [Literal(s[..k])] + r;
    assert toks[1..] == r;
    assert s[k..] != [] ==> s[k..][0] == s[k];
    LiteralRunValid(s);
    assert s == s[..k] + s[k..];
  }

  /** The maximal literal run at the start of a well-formed path is a valid literal. */
  lemma LiteralRunValid(s: string)
    requires WellFormed(s) && s != [] && !IsPlaceholderStart(s[0])
    ensures ValidLiteral(s[..LiteralLength(s)])
  {
    var k := LiteralLength(s);
    assert k > 0;
    assert forall i :: 0 <= i < k ==> s[i] != '}';
    assert forall i :: 0 <= i < k ==> s[..k][i] == s[i];
  }

  /** Splitting the written-out form of a canonical token list gives it back. */
  lemma {:induction false} TokenizeUnparse(toks: seq<Token>)
    requires Canonical(toks)
    ensures WellFormed(Unparse(toks))
    ensures Tokenize(Unparse(toks)) == toks
  {
    if toks != [] {
      var rest := toks[1..];
      TokenizeUnparse(rest);
      var r := Unparse(rest);
      assert toks == [toks[0]] + rest;
      match toks[0]
      case Wildcard =>
        TokenizeWildcard(r);
      case Param(n) =>
        TokenizeParam(n, r);
      case Literal(t) =>
        UnparseStartsWithPlaceholder(rest);
        TokenizeLiteral(t, r);
    }
  }

  lemma TokenizeWildcard(r: string)
    requires WellFormed(r)
    ensures WellFormed("*" + r) && Tokenize("*" + r) == [Wildcard] + Tokenize(r)
  {
    assert ("*" + r)[1..] == r;
  }

  lemma TokenizeParam(n: string, r: string)
    requires ValidName(n) && WellFormed(r)
    ensures WellFormed("{" + n + "}" + r)
    ensures Tokenize("{" + n + "}" + r) == [Param(n)] + Tokenize(r)
  {
    var s := "{" + n + "}" + r;
    assert s[1..] == n + "}" + r;
    CloseIndexAfterName(n, r);
    assert s[1..|n| + 1] == n;
    assert s[|n| + 2..] == r;
  }

  lemma TokenizeLiteral(t: string, r: string)
    requires ValidLiteral(t) && WellFormed(r)
    requires r != [] ==> IsPlaceholderStart(r[0])
    ensures WellFormed(t + r)
    ensures Tokenize(t + r) == [Literal(t)] + Tokenize(r)
  {
    var s := t + r;
    LiteralLengthOfRun(t, r);
    assert s[..|t|] == t;
    assert s[|t|..] == r;
  }

  lemma {:induction false} CloseIndexAfterName(n: string, r: string)
    requires forall i :: 0 <= i < |n| ==> IsNameChar(n[i])
    ensures CloseIndex(n + "}" + r) == |n|
  {
    if n != [] {
      assert (n + "}" + r)[1..] == n[1..] + "}" + r;
      CloseIndexAfterName(n[1..], r);
    }
  }

  lemma {:induction false} LiteralLengthOfRun(t: string, r: string)
    requires forall i :: 0 <= i < |t| ==> !IsPlaceholderStart(t[i])
    requires r != [] ==> IsPlaceholderStart(r[0])
    ensures LiteralLength(t + r) == |t|
  {
    if t != [] {
      assert (t + r)[1..] == t[1..] + r;
      LiteralLengthOfRun(t[1..], r);
    } else {
      assert t + r == r;
    }
  }

  /** A canonical list that does not start with a literal is written with a placeholder first. */
  lemma UnparseStartsWithPlaceholder(toks: seq<Token>)
    requires Canonical(toks)
    requires toks != [] ==> !toks[0].Literal?
    ensures Unparse(toks) != [] ==> IsPlaceholderStart(Unparse(toks)[0])
  {
    if toks != [] {
      assert Unparse(toks) == TokenText(toks[0]) + Unparse(toks[1..]);
    }
  }

  /** The path text contains `*` exactly when its tokens contain a wildcard. */
  lemma {:induction false} StarIffWildcard(toks: seq<Token>)
    requires Canonical(toks)
    ensures '*' in Unparse(toks) <==> Wildcard in toks
  {
    if toks != [] {
      var rest := toks[1..];
      StarIffWildcard(rest);
      var text := TokenText(toks[0]);
      assert Unparse(toks) == text + Unparse(rest);
      assert toks == [toks[0]] + rest;
      assert '*' in text <==> toks[0] == Wildcard by {
        match toks[0]
        case Literal(s) =>
          assert ValidLiteral(s);
        case Param(n) =>
          assert ValidName(n);
          assert forall i :: 1 <= i <= |n| ==> text[i] == n[i - 1];
        case Wildcard =>
          assert text[0] == '*';
      }
    }
  }
}
