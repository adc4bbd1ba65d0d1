/**
 * What the Path test suite asserts of each route path, proved of the model:
 * the flags, the regular expression, the parameter index and the segments a
 * path compiles to, the URLs it matches and refuses, what it extracts from
 * them and the URLs it creates. Each suite assertion is one lemma about the
 * Path value; the concrete computations it rests on are small lemmas of
 * their own about the tokens.
 */
module PathExamples {
  import opened PathSyntax
  import opened PathCompile
  import opened PathMatching
  import opened Paths
  import opened PathProperties
  import opened PathExamplePaths

  const NO_SLASH := "alfa/bravo"
  const NO_SLASH_COLON := "alfa/bravo/:id"
  const COLON := "/alfa/bravo/:id"

  const PLAIN_THEN_ZULU := "/alfa/bravo/tango/zulu"
  const ZULU_THEN_PLAIN := "/zulu/alfa/bravo/tango"
  const UNROOTED := "zulu/alfa/abc/tango"

  const A := "/alfa/a/tango"
  const ABC := "/alfa/abc/tango"
  const A_ZULU := "/alfa/a/tango/zulu"
  const EMPTY_PARAM := "/alfa//tango"
  const NO_PARAM := "/alfa/tango"
  const ABC_DEF := "/alfa/abc/tango/def"

  const BRAVO := "/alfa/bravo/tango"
  const BRAVO_ZULU := "/alfa/bravo/tango/zulu"
  const VALUE_WITH_TANGO := "/alfa/x/tango/y/tango/z"

  // A path without parameters.

  /** A path of plain text keeps its text and has no flags, no regex and an empty parameter index. */
  lemma PlainPathHasNoRegex()
    ensures PLAIN_PATH.Valid() && PLAIN_PATH.path == "/alfa/bravo/tango"
    ensures !PLAIN_PATH.HasParameters() && !PLAIN_PATH.HasWildcards()
    ensures PLAIN_PATH.Regex().None? && PLAIN_PATH.ParameterIndex() == []
  {
    PlainParses();
  }

  /** It matches its own text only, and extracts nothing from it. */
  lemma PlainPathMatchesItself()
    ensures PLAIN_PATH.Valid()
    ensures PLAIN_PATH.Matches(PLAIN)
    ensures !PLAIN_PATH.Matches(PLAIN_THEN_ZULU) && !PLAIN_PATH.Matches(ZULU_THEN_PLAIN)
    ensures PLAIN_PATH.ExtractParameters(PLAIN) == Ok(map[])
  {
    PlainPathHasNoRegex();
    PlainPath(PLAIN_PATH);
    assert |PLAIN_THEN_ZULU| != |PLAIN| && |ZULU_THEN_PLAIN| != |PLAIN|;
  }

  // Invalid paths.

  /** Text without placeholders is a well-formed path. */
  lemma LiteralIsWellFormed(s: string)
    requires ValidLiteral(s)
    ensures WellFormed(s)
  {
    TokenizeUnparse([Literal(s)]);
    assert [Literal(s)][1..] == [];
    assert s + "" == s;
  }

  lemma NoSlashIsLiteral()
    ensures ValidLiteral(NO_SLASH) && NO_SLASH[0] == 'a'
  {
  }

  lemma NoSlashColonIsLiteral()
    ensures ValidLiteral(NO_SLASH_COLON) && NO_SLASH_COLON[0] == 'a'
  {
  }

  lemma ColonIsLiteral()
    ensures ValidLiteral(COLON) && COLON[0] == '/' && ':' in COLON
  {
    assert COLON[12] == ':';
  }

  /** A path that does not start with `/` is refused with an IllegalArgumentException. */
  lemma MissingSlashRefused()
    ensures WellFormed(NO_SLASH) && NewPath(NO_SLASH) == Err(MissingLeadingSlash(NO_SLASH))
    ensures Kind(NewPath(NO_SLASH).failure) == IllegalArgument
  {
    NoSlashIsLiteral();
    LiteralIsWellFormed(NO_SLASH);
  }

  /** So is one that also holds a `:`: the leading `/` is checked first. */
  lemma MissingSlashWithColonRefused()
    ensures WellFormed(NO_SLASH_COLON) && NewPath(NO_SLASH_COLON) == Err(MissingLeadingSlash(NO_SLASH_COLON))
    ensures Kind(NewPath(NO_SLASH_COLON).failure) == IllegalArgument
  {
    NoSlashColonIsLiteral();
    LiteralIsWellFormed(NO_SLASH_COLON);
  }

  /** A path holding `:` is refused with an IllegalArgumentException. */
  lemma ColonRefused()
    ensures WellFormed(COLON) && NewPath(COLON) == Err(ColonInPath(COLON))
    ensures Kind(NewPath(COLON).failure) == IllegalArgument
  {
    ColonIsLiteral();
    LiteralIsWellFormed(COLON);
  }

  // Extracting from a URL the path does not match.

  /** Extracting from a longer URL than a plain path fails with an IllegalArgumentException. */
  lemma ExtractFromLongerUrlFails()
    ensures PLAIN_PATH.Valid()
    ensures PLAIN_PATH.ExtractParameters(PLAIN_THEN_ZULU) == Err(UrlDoesNotMatch(PLAIN_THEN_ZULU))
    ensures Kind(PLAIN_PATH.ExtractParameters(PLAIN_THEN_ZULU).failure) == IllegalArgument
  {
    PlainPathMatchesItself();
  }

  /** So does extracting from a URL with text before the path's leading `/`. */
  lemma ExtractFromUnrootedUrlFails()
    ensures ONE_PARAM_PATH.Valid()
    ensures ONE_PARAM_PATH.ExtractParameters(UNROOTED) == Err(UrlDoesNotMatch(UNROOTED))
  {
    OneParamParses();
    MatchedUrlKeepsLeadingText(ONE_PARAM_PATH, UNROOTED);
  }

  // A path with parameters.

  /** `/alfa/{param}/tango` does not match a URL that goes on after `/tango`. */
  lemma OneParamRejectsLongerUrl()
    ensures ONE_PARAM_PATH.Valid() && !ONE_PARAM_PATH.Matches(A_ZULU)
  {
    OneParamParses();
    MatchedUrlKeepsTrailingText(ONE_PARAM_PATH, A_ZULU);
    assert A_ZULU[|A_ZULU| - 1] != 'o';
  }

  /** Two halves compiled one after the other, then anchored, give the whole pattern. */
  lemma RegexJoin(toks: seq<Token>, head: seq<Token>, tail: seq<Token>, s: string, a: string, b: string)
    requires toks == head + tail && s == a + b + "$"
    requires RegexBody(head) == a && RegexBody(tail) == b
    ensures RegexPattern(toks) == s
  {
    RegexBodyAppend(head, tail);
  }

  lemma RegexBodyTwo(a: Token, b: Token)
    ensures RegexBody([a, b]) == GroupText(a) + GroupText(b)
  {
    assert [a, b][1..] == [b];
    assert [b][1..] == [];
    assert RegexBody([b]) == GroupText(b) + RegexBody([]);
    assert GroupText(b) + "" == GroupText(b);
    assert RegexBody([a, b]) == GroupText(a) + RegexBody([b]);
  }

  lemma RegexBodyThree(a: Token, b: Token, c: Token)
    ensures RegexBody([a, b, c]) == GroupText(a) + (GroupText(b) + GroupText(c))
  {
    assert [a, b, c][1..] == [b, c];
    RegexBodyTwo(b, c);
  }

  lemma RegexBodyFour(a: Token, b: Token, c: Token, d: Token)
    ensures RegexBody([a, b, c, d]) == GroupText(a) + (GroupText(b) + (GroupText(c) + GroupText(d)))
  {
    assert [a, b, c, d][1..] == [b, c, d];
    RegexBodyThree(b, c, d);
  }

  lemma OneParamStarIndex()
    ensures PathCompile.ParameterIndex(ONE_PARAM_STAR_TOKENS) == ["param", ""]
  {
  }

  lemma OneParamStarPattern()
    ensures RegexPattern(ONE_PARAM_STAR_TOKENS) == "/alfa/(.+?)/tango(.*?)$"
  {
    RegexBodyFour(Literal("/alfa/"), Param("param"), Literal("/tango"), Wildcard);
  }

  /** `/alfa/{param}/tango*` has both flags and indexes its groups as `param` and the empty name. */
  lemma OneParamStarFlags()
    ensures ONE_PARAM_STAR_PATH.Valid() && ONE_PARAM_STAR_PATH.path == "/alfa/{param}/tango*"
    ensures ONE_PARAM_STAR_PATH.HasParameters() && ONE_PARAM_STAR_PATH.HasWildcards()
    ensures ONE_PARAM_STAR_PATH.ParameterIndex() == ["param", ""]
  {
    OneParamStarParses();
    OneParamStarIndex();
    assert ONE_PARAM_STAR[19] == '*';
  }

  lemma OneParamStarRegex()
    ensures ONE_PARAM_STAR_PATH.Valid()
    ensures ONE_PARAM_STAR_PATH.Regex() == Some("/alfa/(.+?)/tango(.*?)$")
  {
    OneParamStarParses();
    OneParamStarPattern();
  }

  /** Captures that fit their groups and rebuild `u` make the path match it. */
  lemma MatchedBy(p: Path, u: string, caps: seq<string>)
    requires p.Valid() && |caps| == |Groups(p.tokens)| && Fits(p.tokens, caps) && Fill(p.tokens, caps) == u
    ensures p.Matches(u)
  {
  }

  /** The URLs `/alfa/{param}/tango*` rebuilds from a parameter and a wildcard capture. */
  lemma OneParamStarFill(x: string, y: string)
    ensures Fill(ONE_PARAM_STAR_TOKENS, [x, y]) == "/alfa/" + (x + ("/tango" + y))
    ensures Fits(ONE_PARAM_STAR_TOKENS, [x, y]) <==> FitsGroup(Param("param"), x) && FitsGroup(Wildcard, y)
  {
    FillGroupsAfterLiterals("/alfa/", Param("param"), "/tango", Wildcard, [x, y]);
  }

  lemma OneParamStarFillsA()
    ensures Fits(ONE_PARAM_STAR_TOKENS, ["a", ""]) && Fill(ONE_PARAM_STAR_TOKENS, ["a", ""]) == A
  {
    OneParamStarFill("a", "");
    APieced();
    assert AllDot("a") && AllDot("");
  }

  lemma APieced()
    ensures "/alfa/" + ("a" + ("/tango" + "")) == A
  {
  }

  lemma OneParamStarFillsAbc()
    ensures Fits(ONE_PARAM_STAR_TOKENS, ["abc", ""]) && Fill(ONE_PARAM_STAR_TOKENS, ["abc", ""]) == ABC
  {
    OneParamStarFill("abc", "");
    AbcPieced();
    assert AllDot("abc") && AllDot("");
  }

  lemma AbcPieced()
    ensures "/alfa/" + ("abc" + ("/tango" + "")) == ABC
  {
  }

  lemma OneParamStarFillsAZulu()
    ensures Fits(ONE_PARAM_STAR_TOKENS, ["a", "/zulu"]) && Fill(ONE_PARAM_STAR_TOKENS, ["a", "/zulu"]) == A_ZULU
  {
    OneParamStarFill("a", "/zulu");
    AZuluPieced();
    assert AllDot("a") && AllDot("/zulu");
  }

  lemma AZuluPieced()
    ensures "/alfa/" + ("a" + ("/tango" + "/zulu")) == A_ZULU
  {
  }

  /** `/alfa/{param}/tango*` matches a one-character parameter. */
  lemma OneParamStarMatchesA()
    ensures ONE_PARAM_STAR_PATH.Valid() && ONE_PARAM_STAR_PATH.Matches(A)
  {
    OneParamStarParses();
    OneParamStarFillsA();
    MatchedBy(ONE_PARAM_STAR_PATH, A, ["a", ""]);
  }

  /** It matches a three-character parameter. */
  lemma OneParamStarMatchesAbc()
    ensures ONE_PARAM_STAR_PATH.Valid() && ONE_PARAM_STAR_PATH.Matches(ABC)
  {
    OneParamStarParses();
    OneParamStarFillsAbc();
    MatchedBy(ONE_PARAM_STAR_PATH, ABC, ["abc", ""]);
  }

  /** It matches text after `/tango`, which the wildcard takes. */
  lemma OneParamStarMatchesAZulu()
    ensures ONE_PARAM_STAR_PATH.Valid() && ONE_PARAM_STAR_PATH.Matches(A_ZULU)
  {
    OneParamStarParses();
    OneParamStarFillsAZulu();
    MatchedBy(ONE_PARAM_STAR_PATH, A_ZULU, ["a", "/zulu"]);
  }

  lemma OneParamStarMinimalLength()
    ensures MinimalUrlLength(ONE_PARAM_STAR_TOKENS) == 13
  {
  }

  /** An empty parameter, or none at all, is not matched: `{param}` takes at least one character. */
  lemma OneParamStarRejectsEmptyParam()
    ensures ONE_PARAM_STAR_PATH.Valid()
    ensures !ONE_PARAM_STAR_PATH.Matches(EMPTY_PARAM) && !ONE_PARAM_STAR_PATH.Matches(NO_PARAM)
  {
    OneParamStarParses();
    OneParamStarMinimalLength();
    MatchedUrlLength(ONE_PARAM_STAR_PATH, EMPTY_PARAM);
    MatchedUrlLength(ONE_PARAM_STAR_PATH, NO_PARAM);
  }

  lemma OneParamStarCaptures()
    ensures MatchFrom(ONE_PARAM_STAR_TOKENS, ABC) == Some(["abc", ""])
  {
    OneParamStarFillsAbc();
    MatchFillSlashDelimited(ONE_PARAM_STAR_TOKENS, ["abc", ""]);
  }

  lemma BindParam()
    ensures Bind(["param", ""], ["abc", ""]) == map["param" := "abc"]
  {
  }

  /** Extracting from `/alfa/abc/tango` binds `param` to `abc` and nothing else. */
  lemma OneParamStarExtracts()
    ensures ONE_PARAM_STAR_PATH.Valid()
    ensures ONE_PARAM_STAR_PATH.ExtractParameters(ABC) == Ok(map["param" := "abc"])
  {
    OneParamStarFlags();
    OneParamStarCaptures();
    BindParam();
  }

  lemma TwoParamsIndex()
    ensures PathCompile.ParameterIndex(TWO_PARAMS_TOKENS) == ["param", "arg"]
  {
  }

  lemma TwoParamsPattern()
    ensures RegexPattern(TWO_PARAMS_TOKENS) == "/alfa/(.+?)/tango/(.+?)$"
  {
    RegexBodyFour(Literal("/alfa/"), Param("param"), Literal("/tango/"), Param("arg"));
  }

  /** `/alfa/{param}/tango/{arg}` has parameters and indexes them in order. */
  lemma TwoParamsFlags()
    ensures TWO_PARAMS_PATH.Valid() && TWO_PARAMS_PATH.path == "/alfa/{param}/tango/{arg}"
    ensures TWO_PARAMS_PATH.HasParameters()
    ensures TWO_PARAMS_PATH.ParameterIndex() == ["param", "arg"]
  {
    TwoParamsParses();
    TwoParamsIndex();
  }

  lemma TwoParamsRegex()
    ensures TWO_PARAMS_PATH.Valid()
    ensures TWO_PARAMS_PATH.Regex() == Some("/alfa/(.+?)/tango/(.+?)$")
  {
    TwoParamsParses();
    TwoParamsPattern();
  }

  lemma TwoParamsCaptures()
    ensures MatchFrom(TWO_PARAMS_TOKENS, ABC_DEF) == Some(["abc", "def"])
  {
    TwoParamsFillAbcDef();
    MatchFillSlashDelimited(TWO_PARAMS_TOKENS, ["abc", "def"]);
  }

  lemma TwoParamsFillAbcDef()
    ensures Fits(TWO_PARAMS_TOKENS, ["abc", "def"]) && Fill(TWO_PARAMS_TOKENS, ["abc", "def"]) == ABC_DEF
  {
    TwoParamsFill("abc", "def");
    AbcDefPieced();
    assert AllDot("abc") && AllDot("def");
  }

  lemma AbcDefPieced()
    ensures "/alfa/" + ("abc" + ("/tango/" + "def")) == ABC_DEF
  {
  }

  /** The URLs `/alfa/{param}/tango/{arg}` rebuilds from two captures. */
  lemma TwoParamsFill(x: string, y: string)
    ensures Fill(TWO_PARAMS_TOKENS, [x, y]) == "/alfa/" + (x + ("/tango/" + y))
    ensures Fits(TWO_PARAMS_TOKENS, [x, y]) <==> FitsGroup(Param("param"), x) && FitsGroup(Param("arg"), y)
  {
    FillGroupsAfterLiterals("/alfa/", Param("param"), "/tango/", Param("arg"), [x, y]);
  }

  lemma BindTwoParams()
    ensures Bind(["param", "arg"], ["abc", "def"]) == map["param" := "abc", "arg" := "def"]
  {
  }

  /** Extracting from `/alfa/abc/tango/def` binds both parameters. */
  lemma TwoParamsExtracts()
    ensures TWO_PARAMS_PATH.Valid()
    ensures TWO_PARAMS_PATH.ExtractParameters(ABC_DEF) == Ok(map["param" := "abc", "arg" := "def"])
  {
    TwoParamsFlags();
    TwoParamsCaptures();
    BindTwoParams();
  }

  // Paths with wildcards.

  lemma StarParamIndex()
    ensures PathCompile.ParameterIndex(STAR_PARAM_TOKENS) == ["", "param"]
  {
  }

  lemma StarParamPattern()
    ensures RegexPattern(STAR_PARAM_TOKENS) == "/alfa/(.*?)/(.+?)/tango$"
  {
    StarParamRegexHead();
    StarParamRegexTail();
    StarParamRegexHalves();
    RegexJoin(STAR_PARAM_TOKENS, [Literal("/alfa/"), Wildcard],
              [Literal("/"), Param("param"), Literal("/tango")], "/alfa/(.*?)/(.+?)/tango$", "/alfa/(.*?)", "/(.+?)/tango");
  }

  lemma StarParamRegexHalves()
    ensures STAR_PARAM_TOKENS == [Literal("/alfa/"), Wildcard] + [Literal("/"), Param("param"), Literal("/tango")]
    ensures "/alfa/(.*?)/(.+?)/tango$" == "/alfa/(.*?)" + "/(.+?)/tango" + "$"
  {
  }

  lemma StarParamRegexHead()
    ensures RegexBody([Literal("/alfa/"), Wildcard]) == "/alfa/(.*?)"
  {
    RegexBodyTwo(Literal("/alfa/"), Wildcard);
  }

  lemma StarParamRegexTail()
    ensures RegexBody([Literal("/"), Param("param"), Literal("/tango")]) == "/(.+?)/tango"
  {
    RegexBodyThree(Literal("/"), Param("param"), Literal("/tango"));
  }

  /** The path with a wildcard before its parameter indexes the wildcard first. */
  lemma StarParamFlags()
    ensures STAR_PARAM_PATH.Valid() && STAR_PARAM_PATH.path == "/alfa/*/{param}/tango"
    ensures STAR_PARAM_PATH.HasParameters() && STAR_PARAM_PATH.HasWildcards()
    ensures STAR_PARAM_PATH.ParameterIndex() == ["", "param"]
  {
    StarParamParses();
    StarParamIndex();
    assert STAR_PARAM[6] == '*';
  }

  lemma StarParamRegex()
    ensures STAR_PARAM_PATH.Valid()
    ensures STAR_PARAM_PATH.Regex() == Some("/alfa/(.*?)/(.+?)/tango$")
  {
    StarParamParses();
    StarParamPattern();
  }

  lemma TwoParamsStarIndex()
    ensures PathCompile.ParameterIndex(TWO_PARAMS_STAR_TOKENS) == ["param", "arg", ""]
  {
  }

  lemma TwoParamsStarPattern()
    ensures RegexPattern(TWO_PARAMS_STAR_TOKENS) == "/alfa/(.+?)/tango/(.+?)/(.*?)$"
  {
    TwoParamsStarRegexHead();
    TwoParamsStarRegexTail();
    TwoParamsStarRegexHalves();
    RegexJoin(TWO_PARAMS_STAR_TOKENS, [Literal("/alfa/"), Param("param"), Literal("/tango/")],
              [Param("arg"), Literal("/"), Wildcard], "/alfa/(.+?)/tango/(.+?)/(.*?)$", "/alfa/(.+?)/tango/", "(.+?)/(.*?)");
  }

  lemma TwoParamsStarRegexHalves()
    ensures TWO_PARAMS_STAR_TOKENS == [Literal("/alfa/"), Param("param"), Literal("/tango/")] + [Param("arg"), Literal("/"), Wildcard]
    ensures "/alfa/(.+?)/tango/(.+?)/(.*?)$" == "/alfa/(.+?)/tango/" + "(.+?)/(.*?)" + "$"
  {
  }

  lemma TwoParamsStarRegexHead()
    ensures RegexBody([Literal("/alfa/"), Param("param"), Literal("/tango/")]) == "/alfa/(.+?)/tango/"
  {
    RegexBodyThree(Literal("/alfa/"), Param("param"), Literal("/tango/"));
  }

  lemma TwoParamsStarRegexTail()
    ensures RegexBody([Param("arg"), Literal("/"), Wildcard]) == "(.+?)/(.*?)"
  {
    RegexBodyThree(Param("arg"), Literal("/"), Wildcard);
  }

  /** The path ending in a wildcard after two parameters indexes the wildcard last. */
  lemma TwoParamsStarFlags()
    ensures TWO_PARAMS_STAR_PATH.Valid() && TWO_PARAMS_STAR_PATH.path == "/alfa/{param}/tango/{arg}/*"
    ensures TWO_PARAMS_STAR_PATH.HasParameters() && TWO_PARAMS_STAR_PATH.HasWildcards()
    ensures TWO_PARAMS_STAR_PATH.ParameterIndex() == ["param", "arg", ""]
  {
    TwoParamsStarParses();
    TwoParamsStarIndex();
    assert TWO_PARAMS_STAR[26] == '*';
  }

  lemma TwoParamsStarRegex()
    ensures TWO_PARAMS_STAR_PATH.Valid()
    ensures TWO_PARAMS_STAR_PATH.Regex() == Some("/alfa/(.+?)/tango/(.+?)/(.*?)$")
  {
    TwoParamsStarParses();
    TwoParamsStarPattern();
  }

  lemma StarsParamIndex()
    ensures PathCompile.ParameterIndex(STARS_PARAM_TOKENS) == ["", "", "param"]
  {
  }

  lemma StarsParamPattern()
    ensures RegexPattern(STARS_PARAM_TOKENS) == "/(.*?)/alfa/(.*?)/(.+?)/tango$"
  {
    StarsParamRegexHead();
    StarsParamRegexTail();
    StarsParamRegexHalves();
    RegexJoin(STARS_PARAM_TOKENS, [Literal("/"), Wildcard, Literal("/alfa/")],
              [Wildcard, Literal("/"), Param("param"), Literal("/tango")], "/(.*?)/alfa/(.*?)/(.+?)/tango$", "/(.*?)/alfa/", "(.*?)/(.+?)/tango");
  }

  lemma StarsParamRegexHalves()
    ensures STARS_PARAM_TOKENS == [Literal("/"), Wildcard, Literal("/alfa/")] + [Wildcard, Literal("/"), Param("param"), Literal("/tango")]
    ensures "/(.*?)/alfa/(.*?)/(.+?)/tango$" == "/(.*?)/alfa/" + "(.*?)/(.+?)/tango" + "$"
  {
  }

  lemma StarsParamRegexHead()
    ensures RegexBody([Literal("/"), Wildcard, Literal("/alfa/")]) == "/(.*?)/alfa/"
  {
    RegexBodyThree(Literal("/"), Wildcard, Literal("/alfa/"));
  }

  lemma StarsParamRegexTail()
    ensures RegexBody([Wildcard, Literal("/"), Param("param"), Literal("/tango")]) == "(.*?)/(.+?)/tango"
  {
    RegexBodyFour(Wildcard, Literal("/"), Param("param"), Literal("/tango"));
  }

  /** The path with two wildcards before its parameter indexes each with the empty name. */
  lemma StarsParamFlags()
    ensures STARS_PARAM_PATH.Valid() && STARS_PARAM_PATH.path == "/*/alfa/*/{param}/tango"
    ensures STARS_PARAM_PATH.HasParameters() && STARS_PARAM_PATH.HasWildcards()
    ensures STARS_PARAM_PATH.ParameterIndex() == ["", "", "param"]
  {
    StarsParamParses();
    StarsParamIndex();
    assert STARS_PARAM[1] == '*';
  }

  lemma StarsParamRegex()
    ensures STARS_PARAM_PATH.Valid()
    ensures STARS_PARAM_PATH.Regex() == Some("/(.*?)/alfa/(.*?)/(.+?)/tango$")
  {
    StarsParamParses();
    StarsParamPattern();
  }

  lemma StarTwoParamsStarIndex()
    ensures PathCompile.ParameterIndex(STAR_TWO_PARAMS_STAR_TOKENS) == ["", "param", "arg", ""]
  {
  }

  lemma StarTwoParamsStarPattern()
    ensures RegexPattern(STAR_TWO_PARAMS_STAR_TOKENS) == "/alfa/(.*?)/(.+?)/tango/(.+?)/(.*?)$"
  {
    StarTwoParamsStarRegexHead();
    StarTwoParamsStarRegexTail();
    StarTwoParamsStarRegexHalves();
    RegexJoin(STAR_TWO_PARAMS_STAR_TOKENS, [Literal("/alfa/"), Wildcard, Literal("/"), Param("param")],
              [Literal("/tango/"), Param("arg"), Literal("/"), Wildcard], "/alfa/(.*?)/(.+?)/tango/(.+?)/(.*?)$", "/alfa/(.*?)/(.+?)", "/tango/(.+?)/(.*?)");
  }

  lemma StarTwoParamsStarRegexHalves()
    ensures STAR_TWO_PARAMS_STAR_TOKENS == [Literal("/alfa/"), Wildcard, Literal("/"), Param("param")] + [Literal("/tango/"), Param("arg"), Literal("/"), Wildcard]
    ensures "/alfa/(.*?)/(.+?)/tango/(.+?)/(.*?)$" == "/alfa/(.*?)/(.+?)" + "/tango/(.+?)/(.*?)" + "$"
  {
  }

  lemma StarTwoParamsStarRegexHead()
    ensures RegexBody([Literal("/alfa/"), Wildcard, Literal("/"), Param("param")]) == "/alfa/(.*?)/(.+?)"
  {
    RegexBodyFour(Literal("/alfa/"), Wildcard, Literal("/"), Param("param"));
  }

  lemma StarTwoParamsStarRegexTail()
    ensures RegexBody([Literal("/tango/"), Param("arg"), Literal("/"), Wildcard]) == "/tango/(.+?)/(.*?)"
  {
    RegexBodyFour(Literal("/tango/"), Param("arg"), Literal("/"), Wildcard);
  }

  /** Wildcards and parameters mixed are indexed in the order they appear. */
  lemma StarTwoParamsStarFlags()
    ensures STAR_TWO_PARAMS_STAR_PATH.Valid()
    ensures STAR_TWO_PARAMS_STAR_PATH.path == "/alfa/*/{param}/tango/{arg}/*"
    ensures STAR_TWO_PARAMS_STAR_PATH.HasParameters() && STAR_TWO_PARAMS_STAR_PATH.HasWildcards()
    ensures STAR_TWO_PARAMS_STAR_PATH.ParameterIndex() == ["", "param", "arg", ""]
  {
    StarTwoParamsStarParses();
    StarTwoParamsStarIndex();
    assert STAR_TWO_PARAMS_STAR[6] == '*';
  }

  lemma StarTwoParamsStarRegex()
    ensures STAR_TWO_PARAMS_STAR_PATH.Valid()
    ensures STAR_TWO_PARAMS_STAR_PATH.Regex() == Some("/alfa/(.*?)/(.+?)/tango/(.+?)/(.*?)$")
  {
    StarTwoParamsStarParses();
    StarTwoParamsStarPattern();
  }

  // Creating URLs.

  lemma OneParamSegments()
    ensures Segments(ONE_PARAM_TOKENS) == ["/alfa/", "/tango"]
  {
    assert Segments(ONE_PARAM_TOKENS[2..]) == ["/tango"] by {
      assert "/tango" + "" == "/tango";
    }
    assert Segments(ONE_PARAM_TOKENS[1..]) == ["", "/tango"];
    assert "/alfa/" + "" == "/alfa/";
  }

  lemma OneParamValues()
    ensures HasAllValues(ONE_PARAM_TOKENS, map["param" := "bravo"])
    ensures ParamValues(ONE_PARAM_TOKENS, map["param" := "bravo"]) == ["bravo"]
  {
    var values := map["param" := "bravo"];
    assert ParamValues(ONE_PARAM_TOKENS[2..], values) == [];
  }

  /** `create` gives the URL the segments and the values spell out. */
  lemma CreateJoin(p: Path, values: map<string, string>, segs: seq<string>, vals: seq<string>, url: string)
    requires p.Valid() && '*' !in p.path && HasAllValues(p.tokens, values)
    requires p.Segments() == segs && ParamValues(p.tokens, values) == vals
    requires |segs| == |vals| + 1 && Interleave(segs, vals) == url
    ensures p.Create(values) == Ok(url)
  {
    CreateSucceeds(p, values);
  }

  lemma BravoInterleaved()
    ensures Interleave(["/alfa/", "/tango"], ["bravo"]) == BRAVO
  {
  }

  /** `create` puts the value in place of the parameter. */
  lemma CreateOneParam()
    ensures ONE_PARAM_PATH.Valid()
    ensures ONE_PARAM_PATH.Create(map["param" := "bravo"]) == Ok(BRAVO)
  {
    OneParamParses();
    OneParamSegments();
    OneParamValues();
    OneParamHasNoStar();
    BravoInterleaved();
    CreateJoin(ONE_PARAM_PATH, map["param" := "bravo"], ["/alfa/", "/tango"], ["bravo"], BRAVO);
  }

  lemma TwoParamsSegments()
    ensures Segments(TWO_PARAMS_TOKENS) == ["/alfa/", "/tango/", ""]
  {
    assert Segments(TWO_PARAMS_TOKENS[3..]) == ["", ""];
    assert TWO_PARAMS_TOKENS[2..][1..] == TWO_PARAMS_TOKENS[3..];
    assert "/tango/" + "" == "/tango/";
    assert Segments(TWO_PARAMS_TOKENS[2..]) == ["/tango/", ""];
    assert Segments(TWO_PARAMS_TOKENS[1..]) == ["", "/tango/", ""];
    assert "/alfa/" + "" == "/alfa/";
    assert ["", "/tango/", ""][1..] == ["/tango/", ""];
  }

  lemma TwoParamsValues(param: string, arg: string)
    ensures HasAllValues(TWO_PARAMS_TOKENS, map["param" := param, "arg" := arg])
    ensures ParamValues(TWO_PARAMS_TOKENS, map["param" := param, "arg" := arg]) == [param, arg]
  {
    var values := map["param" := param, "arg" := arg];
    var t := TWO_PARAMS_TOKENS;
    assert values["param"] == param && values["arg"] == arg;
    assert ParamValues(t[4..], values) == [];
    assert t[3..][1..] == t[4..];
    assert ParamValues(t[3..], values) == [arg];
    assert t[2..][1..] == t[3..];
    assert ParamValues(t[2..], values) == [arg];
    assert ParamValues(t[1..], values) == [param, arg];
  }

  lemma BravoZuluInterleaved()
    ensures Interleave(["/alfa/", "/tango/", ""], ["bravo", "zulu"]) == BRAVO_ZULU
  {
    assert ["/alfa/", "/tango/", ""][1..] == ["/tango/", ""];
  }

  /** `create` puts each value in place of its parameter. */
  lemma CreateTwoParams()
    ensures TWO_PARAMS_PATH.Valid()
    ensures TWO_PARAMS_PATH.Create(map["param" := "bravo", "arg" := "zulu"]) == Ok(BRAVO_ZULU)
  {
    TwoParamsParses();
    TwoParamsSegments();
    TwoParamsValues("bravo", "zulu");
    TwoParamsHasNoStar();
    BravoZuluInterleaved();
    CreateJoin(TWO_PARAMS_PATH, map["param" := "bravo", "arg" := "zulu"], ["/alfa/", "/tango/", ""], ["bravo", "zulu"], BRAVO_ZULU);
  }

  /** A path with a wildcard refuses to create a URL with an IllegalStateException. */
  lemma CreateWithWildcardFails()
    ensures STAR_PARAM_PATH.Valid()
    ensures STAR_PARAM_PATH.Create(map["param" := "val"]) == Err(WildcardsCannotCreate)
    ensures Kind(STAR_PARAM_PATH.Create(map["param" := "val"]).failure) == IllegalState
  {
    StarParamParses();
    assert STAR_PARAM[6] == '*';
  }

  // Segments.

  lemma TwoSegmentParamsSegments()
    ensures Segments(TWO_SEGMENT_PARAMS_TOKENS) == ["/alfa/", "/beta/", ""]
  {
    var t := TWO_SEGMENT_PARAMS_TOKENS;
    assert Segments(t[3..]) == ["", ""];
    assert t[2..][1..] == t[3..];
    assert "/beta/" + "" == "/beta/";
    assert Segments(t[2..]) == ["/beta/", ""];
    assert Segments(t[1..]) == ["", "/beta/", ""];
    assert "/alfa/" + "" == "/alfa/";
    assert ["", "/beta/", ""][1..] == ["/beta/", ""];
  }

  /** The segments of `/alfa/{p1}/beta/{p2}` end with an empty one after the closing parameter. */
  lemma SegmentsOfTwoParams()
    ensures TWO_SEGMENT_PARAMS_PATH.Valid()
    ensures TWO_SEGMENT_PARAMS_PATH.Segments() == ["/alfa/", "/beta/", ""]
  {
    TwoSegmentParamsParses();
    TwoSegmentParamsSegments();
  }

  lemma ThreeSegmentParamsSegments()
    ensures Segments(THREE_SEGMENT_PARAMS_TOKENS) == ["/", "/alfa/", "/beta/", ""]
  {
    var t := THREE_SEGMENT_PARAMS_TOKENS;
    assert Segments(t[5..]) == ["", ""];
    assert t[4..][1..] == t[5..];
    assert "/beta/" + "" == "/beta/";
    assert Segments(t[4..]) == ["/beta/", ""];
    assert Segments(t[3..]) == ["", "/beta/", ""];
    assert t[2..][1..] == t[3..];
    assert "/alfa/" + "" == "/alfa/";
    assert ["", "/beta/", ""][1..] == ["/beta/", ""];
    assert Segments(t[2..]) == ["/alfa/", "/beta/", ""];
    assert Segments(t[1..]) == ["", "/alfa/", "/beta/", ""];
    assert "/" + "" == "/";
    assert ["", "/alfa/", "/beta/", ""][1..] == ["/alfa/", "/beta/", ""];
  }

  /** A parameter right after the leading `/` gives the segment `/` alone. */
  lemma SegmentsOfThreeParams()
    ensures THREE_SEGMENT_PARAMS_PATH.Valid()
    ensures THREE_SEGMENT_PARAMS_PATH.Segments() == ["/", "/alfa/", "/beta/", ""]
  {
    ThreeSegmentParamsParses();
    ThreeSegmentParamsSegments();
  }

  lemma OneSegmentParamSegments()
    ensures Segments(ONE_SEGMENT_PARAM_TOKENS) == ["/alfa/", "/beta"]
  {
    assert Segments(ONE_SEGMENT_PARAM_TOKENS[2..]) == ["/beta"] by {
      assert "/beta" + "" == "/beta";
    }
    assert Segments(ONE_SEGMENT_PARAM_TOKENS[1..]) == ["", "/beta"];
    assert "/alfa/" + "" == "/alfa/";
  }

  /** Text after the last parameter is the last segment. */
  lemma SegmentsOfOneParam()
    ensures ONE_SEGMENT_PARAM_PATH.Valid()
    ensures ONE_SEGMENT_PARAM_PATH.Segments() == ["/alfa/", "/beta"]
  {
    OneSegmentParamParses();
    OneSegmentParamSegments();
  }

  // Create, then extract.

  lemma ValueWithTangoInterleaved()
    ensures Interleave(["/alfa/", "/tango/", ""], ["x/tango/y", "z"]) == VALUE_WITH_TANGO
  {
    assert ["/alfa/", "/tango/", ""][1..] == ["/tango/", ""];
  }

  lemma ValueWithTangoCreated()
    ensures TWO_PARAMS_PATH.Valid()
    ensures TWO_PARAMS_PATH.Create(map["param" := "x/tango/y", "arg" := "z"]) == Ok(VALUE_WITH_TANGO)
  {
    TwoParamsParses();
    TwoParamsSegments();
    TwoParamsValues("x/tango/y", "z");
    TwoParamsHasNoStar();
    ValueWithTangoInterleaved();
    CreateJoin(TWO_PARAMS_PATH, map["param" := "x/tango/y", "arg" := "z"], ["/alfa/", "/tango/", ""], ["x/tango/y", "z"], VALUE_WITH_TANGO);
  }

  lemma ValueWithTangoSplitsEarly()
    ensures MatchFrom(TWO_PARAMS_TOKENS, VALUE_WITH_TANGO).Some?
    ensures |MatchFrom(TWO_PARAMS_TOKENS, VALUE_WITH_TANGO).value[0]| <= 1
  {
    ValueWithTangoFill();
    MatchShortestFirst(TWO_PARAMS_TOKENS, VALUE_WITH_TANGO, ["x", "y/tango/z"]);
  }

  lemma ValueWithTangoFill()
    ensures Fits(TWO_PARAMS_TOKENS, ["x", "y/tango/z"]) && Fill(TWO_PARAMS_TOKENS, ["x", "y/tango/z"]) == VALUE_WITH_TANGO
  {
    TwoParamsFill("x", "y/tango/z");
    ValueWithTangoPieced();
    assert AllDot("x") && AllDot("y/tango/z");
  }

  lemma ValueWithTangoPieced()
    ensures "/alfa/" + ("x" + ("/tango/" + "y/tango/z")) == VALUE_WITH_TANGO
  {
  }

  /** A literal in front adds its text in front of the URL and no group. */
  lemma FillLiteralCons(s: string, rest: seq<Token>, caps: seq<string>)
    requires |caps| == |Groups(rest)|
    ensures Groups([Literal(s)] + rest) == Groups(rest)
    ensures Fill([Literal(s)] + rest, caps) == s + Fill(rest, caps)
    ensures Fits([Literal(s)] + rest, caps) == Fits(rest, caps)
  {
    assert ([Literal(s)] + rest)[1..] == rest;
  }

  /** A group in front puts the first capture in front of the URL. */
  lemma FillGroupCons(g: Token, rest: seq<Token>, caps: seq<string>)
    requires !g.Literal? && |caps| == |Groups(rest)| + 1
    ensures Groups([g] + rest) == [g] + Groups(rest)
    ensures Fill([g] + rest, caps) == caps[0] + Fill(rest, caps[1..])
    ensures Fits([g] + rest, caps) == (FitsGroup(g, caps[0]) && Fits(rest, caps[1..]))
  {
    assert ([g] + rest)[1..] == rest;
  }

  /** A literal then a group in front: its text, then the first capture. */
  lemma FillLiteralGroup(a: string, g: Token, rest: seq<Token>, caps: seq<string>)
    requires !g.Literal? && |caps| == |Groups(rest)| + 1
    ensures Groups([Literal(a), g] + rest) == [g] + Groups(rest)
    ensures Fill([Literal(a), g] + rest, caps) == a + (caps[0] + Fill(rest, caps[1..]))
    ensures Fits([Literal(a), g] + rest, caps) == (FitsGroup(g, caps[0]) && Fits(rest, caps[1..]))
  {
    assert [Literal(a), g] + rest == [Literal(a)] + ([g] + rest);
    FillGroupCons(g, rest, caps);
    FillLiteralCons(a, [g] + rest, caps);
  }

  /** Two groups, each after a literal: the URL is the four pieces in a row. */
  lemma FillGroupsAfterLiterals(a: string, g: Token, b: string, h: Token, caps: seq<string>)
    requires !g.Literal? && !h.Literal? && |caps| == 2
    ensures |Groups([Literal(a), g, Literal(b), h])| == 2
    ensures Fill([Literal(a), g, Literal(b), h], caps) == a + (caps[0] + (b + caps[1]))
    ensures Fits([Literal(a), g, Literal(b), h], caps) <==> FitsGroup(g, caps[0]) && FitsGroup(h, caps[1])
  {
    var tail := [Literal(b), h];
    FillTail(b, h, caps[1..]);
    assert [Literal(a), g] + tail == [Literal(a), g, Literal(b), h];
    FillLiteralGroup(a, g, tail, caps);
  }

  /** Two groups, each after a literal, are the groups of the path. */
  lemma GroupsAfterLiterals(a: string, g: Token, b: string, h: Token)
    requires !g.Literal? && !h.Literal?
    ensures Groups([Literal(a), g, Literal(b), h]) == [g, h]
  {
    FillTail(b, h, [""]);
    assert [Literal(a), g] + [Literal(b), h] == [Literal(a), g, Literal(b), h];
    FillLiteralGroup(a, g, [Literal(b), h], ["", ""]);
  }

  lemma FillTail(b: string, h: Token, last: seq<string>)
    requires !h.Literal? && |last| == 1
    ensures Groups([Literal(b), h]) == [h]
    ensures Fill([Literal(b), h], last) == b + last[0]
    ensures Fits([Literal(b), h], last) == FitsGroup(h, last[0])
  {
    assert [Literal(b), h] + [] == [Literal(b), h];
    FillLiteralGroup(b, h, [], last);
    assert last[0] + "" == last[0];
  }

  /** Splitting a URL at a one-character piece after a known prefix. */
  lemma SplitAfterPrefix(v: string, a: string, x: string, b: string, y: string)
    requires v == a + (x + (b + y)) && |x| == 1
    ensures x == v[|a|..|a| + 1] && y == v[|a| + 1 + |b|..]
  {
  }

  lemma ValueWithTangoPieces()
    ensures VALUE_WITH_TANGO[6..7] == "x" && VALUE_WITH_TANGO[14..] == "y/tango/z"
  {
  }

  /** A match of two parameters whose first capture is one character long is read off the URL. */
  lemma CapturesOfTwoParams(toks: seq<Token>, u: string, a: string, n: string, b: string, m: string, x: string, y: string)
    requires toks == [Literal(a), Param(n), Literal(b), Param(m)]
    requires MatchFrom(toks, u).Some? && |MatchFrom(toks, u).value[0]| <= 1
    requires |u| >= |a| + 1 + |b| && u[|a|..|a| + 1] == x && u[|a| + 1 + |b|..] == y
    ensures MatchFrom(toks, u) == Some([x, y])
  {
    var c := MatchFrom(toks, u).value;
    GroupsAfterLiterals(a, Param(n), b, Param(m));
    FillGroupsAfterLiterals(a, Param(n), b, Param(m), c);
    assert |c[0]| == 1;
    SplitAfterPrefix(u, a, c[0], b, c[1]);
    assert c == [c[0], c[1]];
  }

  lemma ValueWithTangoCaptures()
    ensures MatchFrom(TWO_PARAMS_TOKENS, VALUE_WITH_TANGO) == Some(["x", "y/tango/z"])
  {
    ValueWithTangoSplitsEarly();
    ValueWithTangoPieces();
    CapturesOfTwoParams(TWO_PARAMS_TOKENS, VALUE_WITH_TANGO, "/alfa/", "param", "/tango/", "arg", "x", "y/tango/z");
  }

  lemma BindValueWithTango()
    ensures Bind(["param", "arg"], ["x", "y/tango/z"]) == map["param" := "x", "arg" := "y/tango/z"]
  {
  }

  /** The URL is matched, and `param` gets its first character only. */
  lemma ValueWithTangoExtracted()
    ensures TWO_PARAMS_PATH.Valid()
    ensures TWO_PARAMS_PATH.ExtractParameters(VALUE_WITH_TANGO) == Ok(map["param" := "x", "arg" := "y/tango/z"])
  {
    TwoParamsFlags();
    ValueWithTangoCaptures();
    BindValueWithTango();
  }

  /**
   * `create` followed by `extractParameters` is not an identity in general:
   * a value holding `/tango/` is split differently, because the first group
   * stops at the first place where the rest can still match.
   */
  lemma CreateThenExtractCanDiffer()
    ensures TWO_PARAMS_PATH.Valid()
    ensures TWO_PARAMS_PATH.Create(map["param" := "x/tango/y", "arg" := "z"]) == Ok(VALUE_WITH_TANGO)
    ensures TWO_PARAMS_PATH.ExtractParameters(VALUE_WITH_TANGO) != Ok(map["param" := "x/tango/y", "arg" := "z"])
  {
    ValueWithTangoCreated();
    ValueWithTangoExtracted();
  }
}
