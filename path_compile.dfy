/**
 * What a Path compiles its tokens into: the regular-expression text, the
 * parameter index (one entry per capturing group) and the segments (the
 * literal text between `{name}` placeholders).
 */
module PathCompile {
  import opened PathSyntax

  /** The capturing group a `{name}` becomes: one or more characters, reluctant. */
  const PARAMETER_GROUP: string := "(.+?)"

  /** The capturing group a `*` becomes: zero or more characters, reluctant. */
  const WILDCARD_GROUP: string := "(.*?)"

  /** The placeholders, which become capturing groups, in order. */
  function Groups(toks: seq<Token>): (g: seq<Token>)
    ensures forall i :: 0 <= i < |g| ==> !g[i].Literal?
    ensures |g| <= |toks|
  {
    if toks == [] then []
    else if toks[0].Literal? then Groups(toks[1..])
    else [toks[0]] + Groups(toks[1..])
  }

  /** Number of `{name}` placeholders. */
  function ParamCount(toks: seq<Token>): nat {
    if toks == [] then 0
    else (if toks[0].Param? then 1 else 0) + ParamCount(toks[1..])
  }

  /** The text a token contributes to the regular expression. */
  function GroupText(t: Token): string {
    match t
    case Literal(s) => s
    case Param(_) => PARAMETER_GROUP
    case Wildcard => WILDCARD_GROUP
  }

  /** The regular expression without its end anchor. */
  function RegexBody(toks: seq<Token>): string {
    if toks == [] then "" else GroupText(toks[0]) + RegexBody(toks[1..])
  }

  /** The regular-expression text of a path: its body anchored at the end. */
  function RegexPattern(toks: seq<Token>): string {
    RegexBody(toks) + "$"
  }

  /** The regular expression of two token lists in a row is the two regular expressions in a row. */
  lemma {:induction false} RegexBodyAppend(a: seq<Token>, b: seq<Token>)
    ensures RegexBody(a + b) == RegexBody(a) + RegexBody(b)
  {
    if a == [] {
      assert a + b == b;
    } else {
      assert (a + b)[1..] == a[1..] + b;
      RegexBodyAppend(a[1..], b);
    }
  }

  /** The name of each capturing group in order; a wildcard's is empty. */
  function ParameterIndex(toks: seq<Token>): (names: seq<string>)
    ensures |names| == |Groups(toks)|
  {
    if toks == [] then []
    else match toks[0]
      case Literal(_) => ParameterIndex(toks[1..])
      case Param(n) => [n] + ParameterIndex(toks[1..])
      case Wildcard => [""] + ParameterIndex(toks[1..])
  }

  /**
   * The literal pieces of the path text between `{name}` placeholders; a `*`
   * stays inside its segment. There is always one more segment than there
   * are parameters.
   */
  function Segments(toks: seq<Token>): (segs: seq<string>)
    ensures |segs| == ParamCount(toks) + 1
  {
    if toks == [] then [""]
    else
      var r := Segments(toks[1..]);
      match toks[0]
      case Param(_) => [""] + r
      case Literal(s) => [s + r[0]] + r[1..]
      case Wildcard => ["*" + r[0]] + r[1..]
  }

  /** The placeholder texts `{name}`, in order. */
  function Placeholders(toks: seq<Token>): (ps: seq<string>)
    ensures |ps| == ParamCount(toks)
  {
    if toks == [] then []
    else if toks[0].Param? then [TokenText(toks[0])] + Placeholders(toks[1..])
    else Placeholders(toks[1..])
  }

  /** `segs[0] + fills[0] + segs[1] + ... + fills[n - 1] + segs[n]`. */
  function Interleave(segs: seq<string>, fills: seq<string>): string
    requires |segs| == |fills| + 1
  {
    if fills == [] then segs[0]
    else segs[0] + fills[0] + Interleave(segs[1..], fills[1..])
  }

  /** Putting the placeholders back between the segments restores the path. */
  lemma {:induction false} SegmentsSplitPath(toks: seq<Token>)
    ensures Interleave(Segments(toks), Placeholders(toks)) == Unparse(toks)
  {
    if toks != [] {
      var rest := toks[1..];
      SegmentsSplitPath(rest);
      var r := Segments(rest);
      var ps := Placeholders(rest);
      assert Unparse(toks) == TokenText(toks[0]) + Unparse(rest);
      match toks[0]
      case Param(n) =>
        InterleaveConsParam(TokenText(toks[0]), r, ps);
      case Literal(s) =>
        InterleaveConsHead(s, r, ps);
      case Wildcard =>
        InterleaveConsHead("*", r, ps);
    }
  }

  lemma InterleaveConsParam(p: string, segs: seq<string>, fills: seq<string>)
    requires |segs| == |fills| + 1
    ensures Interleave([""] + segs, [p] + fills) == p + Interleave(segs, fills)
  {
    assert ([""] + segs)[1..] == segs;
    assert ([p] + fills)[1..] == fills;
    assert "" + p == p;
  }

  lemma InterleaveConsHead(pre: string, segs: seq<string>, fills: seq<string>)
    requires |segs| == |fills| + 1
    ensures Interleave([pre + segs[0]] + segs[1..], fills) == pre + Interleave(segs, fills)
  {
    var segs' := [pre + segs[0]] + segs[1..];
    if fills != [] {
      assert segs'[1..] == segs[1..];
    }
  }

  /** No segment holds a brace: segments are cut exactly at the placeholders. */
  lemma {:induction false} SegmentsBraceFree(toks: seq<Token>)
    requires Canonical(toks)
    ensures forall i :: 0 <= i < |Segments(toks)| ==> '{' !in Segments(toks)[i] && '}' !in Segments(toks)[i]
  {
    if toks != [] {
      var rest := toks[1..];
      SegmentsBraceFree(rest);
      var r := Segments(rest);
      var segs := Segments(toks);
      match toks[0]
      case Param(n) =>
        assert segs == [""] + r;
      case Literal(s) =>
        assert ValidLiteral(s);
        assert segs == [s + r[0]] + r[1..];
        assert forall j :: 1 <= j < |segs| ==> segs[j] == r[j];
        assert forall c :: c in s + r[0] ==> c in s || c in r[0];
      case Wildcard =>
        assert segs == ["*" + r[0]] + r[1..];
        assert forall j :: 1 <= j < |segs| ==> segs[j] == r[j];
        assert forall c :: c in "*" + r[0] ==> c == '*' || c in r[0];
    }
  }

  /** Without parameters the only segment is the whole path text. */
  lemma {:induction false} SegmentsWithoutParams(toks: seq<Token>)
    requires ParamCount(toks) == 0
    ensures Segments(toks) == [Unparse(toks)]
  {
    SegmentsSplitPath(toks);
  }

  /** Each parameter has a non-empty name and each wildcard the empty one. */
  lemma {:induction false} ParameterIndexNames(toks: seq<Token>)
    requires Canonical(toks)
    ensures forall i :: 0 <= i < |Groups(toks)| ==>
      (ParameterIndex(toks)[i] == "" <==> Groups(toks)[i] == Wildcard) &&
      (Groups(toks)[i].Param? ==> ParameterIndex(toks)[i] == Groups(toks)[i].name)
  {
    if toks != [] {
      var rest := toks[1..];
      ParameterIndexNames(rest);
      if !toks[0].Literal? {
        assert Groups(toks) == [toks[0]] + Groups(rest);
        assert forall i :: 1 <= i < |Groups(toks)| ==>
          Groups(toks)[i] == Groups(rest)[i - 1] && ParameterIndex(toks)[i] == ParameterIndex(rest)[i - 1];
      }
    }
  }

  /** A non-empty name appears in the parameter index exactly when the path has a parameter. */
  lemma {:induction false} HasNamedGroupIffParam(toks: seq<Token>)
    requires Canonical(toks)
    ensures (exists i :: 0 <= i < |ParameterIndex(toks)| && ParameterIndex(toks)[i] != "")
        <==> ParamCount(toks) > 0
  {
    if toks != [] {
      var rest := toks[1..];
      HasNamedGroupIffParam(rest);
      var pi := ParameterIndex(toks);
      var pr := ParameterIndex(rest);
      match toks[0]
      case Literal(_) =>
      case Param(n) =>
        assert pi[0] == n && n != "";
      case Wildcard =>
        assert forall i :: 1 <= i < |pi| ==> pi[i] == pr[i - 1];
        assert forall i :: 0 <= i < |pr| ==> pr[i] == pi[i + 1];
    }
  }

  /**
   * The regular-expression body, read off the raw path text one character
   * at a time: `*` gives the wildcard group, `{name}` the parameter group,
   * any other character stands for itself.
   */
  function RewritePlaceholders(s: string): string
    requires WellFormed(s)
    decreases |s|
  {
    if s == [] then ""
    else if s[0] == '*' then WILDCARD_GROUP + RewritePlaceholders(s[1..])
    else if s[0] == '{' then
      var k := CloseIndex(s[1..]);
      PARAMETER_GROUP + RewritePlaceholders(s[k + 2..])
    else
      WellFormedTail(s);
      [s[0]] + RewritePlaceholders(s[1..])
  }

  /** Dropping the first character of a literal run keeps a path well formed. */
  lemma WellFormedTail(s: string)
    requires WellFormed(s) && s != [] && !IsPlaceholderStart(s[0])
    ensures WellFormed(s[1..])
  {
    var t := s[1..];
    var k := LiteralLength(s);
    if t != [] && !IsPlaceholderStart(t[0]) {
      LiteralLengthShift(s);
      assert t[k - 1..] == s[k..];
    }
  }

  lemma LiteralLengthShift(s: string)
    requires s != [] && !IsPlaceholderStart(s[0])
    ensures LiteralLength(s[1..]) == LiteralLength(s) - 1
  {
  }

  /** The regular expression is the path with each placeholder rewritten to its group. */
  lemma {:induction false} RegexIsRewrittenPath(s: string)
    requires WellFormed(s)
    ensures RegexBody(Tokenize(s)) == RewritePlaceholders(s)
    decreases |s|
  {
    if s != [] {
      if s[0] == '*' {
        RegexIsRewrittenPath(s[1..]);
      } else if s[0] == '{' {
        var k := CloseIndex(s[1..]);
        RegexIsRewrittenPath(s[k + 2..]);
      } else {
        var k := LiteralLength(s);
        RegexIsRewrittenPath(s[k..]);
        RewriteLiteralRun(s, k);
      }
    }
  }

  /** Rewriting leaves a literal run untouched. */
  lemma {:induction false} RewriteLiteralRun(s: string, k: nat)
    requires WellFormed(s) && k <= LiteralLength(s)
    ensures WellFormed(s[k..])
    ensures RewritePlaceholders(s) == s[..k] + RewritePlaceholders(s[k..])
    decreases k
  {
    if k == 0 {
      assert s[..k] == [] && s[k..] == s;
    } else {
      var t := s[1..];
      RewriteFirst(s);
      LiteralLengthShift(s);
      RewriteLiteralRun(t, k - 1);
      SliceAfterFirst(s, k);
      RunStep(RewritePlaceholders(s), RewritePlaceholders(t), RewritePlaceholders(s[k..]), s[..k], s[0], t[..k - 1]);
    }
  }

  /** A character outside a placeholder is copied to the regular expression as it is. */
  lemma RewriteFirst(s: string)
    requires WellFormed(s) && s != [] && !IsPlaceholderStart(s[0])
    ensures WellFormed(s[1..])
    ensures RewritePlaceholders(s) == [s[0]] + RewritePlaceholders(s[1..])
  {
    WellFormedTail(s);
  }

  lemma SliceAfterFirst(s: string, k: nat)
    requires 0 < k <= |s|
    ensures s[1..][k - 1..] == s[k..] && s[..k] == [s[0]] + s[1..][..k - 1]
  {
  }

  lemma RunStep(whole: string, tail: string, rest: string, run: string, c: char, tailRun: string)
    requires whole == [c] + tail && tail == tailRun + rest && run == [c] + tailRun
    ensures whole == run + rest
  {
  }
}
