/**
 * The route paths the Path test suite builds, each with the tokens it splits
 * into, and the proof that the constructor accepts it and splits it so.
 */
module PathExamplePaths {
  import opened PathSyntax
  import opened Paths
  import opened PathProperties

  const PLAIN := "/alfa/bravo/tango"
  const PLAIN_TOKENS := [Literal("/alfa/bravo/tango")]
  const PLAIN_PATH := Path(PLAIN, PLAIN_TOKENS)

  const ONE_PARAM := "/alfa/{param}/tango"
  const ONE_PARAM_TOKENS := [Literal("/alfa/"), Param("param"), Literal("/tango")]
  const ONE_PARAM_PATH := Path(ONE_PARAM, ONE_PARAM_TOKENS)

  const ONE_PARAM_STAR := "/alfa/{param}/tango*"
  const ONE_PARAM_STAR_TOKENS := [Literal("/alfa/"), Param("param"), Literal("/tango"), Wildcard]
  const ONE_PARAM_STAR_PATH := Path(ONE_PARAM_STAR, ONE_PARAM_STAR_TOKENS)

  const TWO_PARAMS := "/alfa/{param}/tango/{arg}"
  const TWO_PARAMS_TOKENS := [Literal("/alfa/"), Param("param"), Literal("/tango/"), Param("arg")]
  const TWO_PARAMS_PATH := Path(TWO_PARAMS, TWO_PARAMS_TOKENS)

  const STAR_PARAM := "/alfa/*/{param}/tango"
  const STAR_PARAM_TOKENS := [Literal("/alfa/"), Wildcard, Literal("/"), Param("param"), Literal("/tango")]
  const STAR_PARAM_PATH := Path(STAR_PARAM, STAR_PARAM_TOKENS)

  const TWO_PARAMS_STAR := "/alfa/{param}/tango/{arg}/*"
  const TWO_PARAMS_STAR_TOKENS := [Literal("/alfa/"), Param("param"), Literal("/tango/"), Param("arg"), Literal("/"), Wildcard]
  const TWO_PARAMS_STAR_PATH := Path(TWO_PARAMS_STAR, TWO_PARAMS_STAR_TOKENS)

  const STARS_PARAM := "/*/alfa/*/{param}/tango"
  const STARS_PARAM_TOKENS := [Literal("/"), Wildcard, Literal("/alfa/"), Wildcard, Literal("/"), Param("param"), Literal("/tango")]
  const STARS_PARAM_PATH := Path(STARS_PARAM, STARS_PARAM_TOKENS)

  const STAR_TWO_PARAMS_STAR := "/alfa/*/{param}/tango/{arg}/*"
  const STAR_TWO_PARAMS_STAR_TOKENS := [Literal("/alfa/"), Wildcard, Literal("/"), Param("param"), Literal("/tango/"), Param("arg"), Literal("/"), Wildcard]
  const STAR_TWO_PARAMS_STAR_PATH := Path(STAR_TWO_PARAMS_STAR, STAR_TWO_PARAMS_STAR_TOKENS)

  const TWO_SEGMENT_PARAMS := "/alfa/{p1}/beta/{p2}"
  const TWO_SEGMENT_PARAMS_TOKENS := [Literal("/alfa/"), Param("p1"), Literal("/beta/"), Param("p2")]
  const TWO_SEGMENT_PARAMS_PATH := Path(TWO_SEGMENT_PARAMS, TWO_SEGMENT_PARAMS_TOKENS)

  const THREE_SEGMENT_PARAMS := "/{p0}/alfa/{p1}/beta/{p2}"
  const THREE_SEGMENT_PARAMS_TOKENS := [Literal("/"), Param("p0"), Literal("/alfa/"), Param("p1"), Literal("/beta/"), Param("p2")]
  const THREE_SEGMENT_PARAMS_PATH := Path(THREE_SEGMENT_PARAMS, THREE_SEGMENT_PARAMS_TOKENS)

  const ONE_SEGMENT_PARAM := "/alfa/{p1}/beta"
  const ONE_SEGMENT_PARAM_TOKENS := [Literal("/alfa/"), Param("p1"), Literal("/beta")]
  const ONE_SEGMENT_PARAM_PATH := Path(ONE_SEGMENT_PARAM, ONE_SEGMENT_PARAM_TOKENS)

  /** Two halves written out one after the other write out the whole list. */
  lemma UnparseJoin(toks: seq<Token>, head: seq<Token>, tail: seq<Token>, s: string, a: string, b: string)
    requires toks == head + tail && s == a + b
    requires Unparse(head) == a && Unparse(tail) == b
    ensures Unparse(toks) == s
  {
    UnparseAppend(head, tail);
  }

  lemma UnparseTwo(a: Token, b: Token)
    ensures Unparse([a, b]) == TokenText(a) + TokenText(b)
  {
    assert [a, b][1..] == [b];
    assert [b][1..] == [];
    assert Unparse([b]) == TokenText(b) + Unparse([]);
    assert TokenText(b) + "" == TokenText(b);
    assert Unparse([a, b]) == TokenText(a) + Unparse([b]);
  }

  lemma UnparseThree(a: Token, b: Token, c: Token)
    ensures Unparse([a, b, c]) == TokenText(a) + (TokenText(b) + TokenText(c))
  {
    assert [a, b, c][1..] == [b, c];
    UnparseTwo(b, c);
  }

  lemma UnparseFour(a: Token, b: Token, c: Token, d: Token)
    ensures Unparse([a, b, c, d]) == TokenText(a) + (TokenText(b) + (TokenText(c) + TokenText(d)))
  {
    assert [a, b, c, d][1..] == [b, c, d];
    UnparseThree(b, c, d);
  }

  lemma PlainParses()
    ensures WellFormed(PLAIN) && NewPath(PLAIN) == Ok(PLAIN_PATH)
  {
    PlainCanonical();
    PlainUnparses();
    PlainColonFree();
    Parses(PLAIN, PLAIN_TOKENS);
  }

  lemma PlainCanonical()
    ensures Canonical(PLAIN_TOKENS)
  {
  }

  lemma PlainUnparses()
    ensures Unparse(PLAIN_TOKENS) == PLAIN
  {
  }

  lemma PlainColonFree()
    ensures ':' !in PLAIN
  {
  }

  lemma OneParamParses()
    ensures WellFormed(ONE_PARAM) && NewPath(ONE_PARAM) == Ok(ONE_PARAM_PATH)
  {
    OneParamCanonical();
    OneParamUnparses();
    OneParamColonFree();
    Parses(ONE_PARAM, ONE_PARAM_TOKENS);
  }

  lemma OneParamCanonical()
    ensures Canonical(ONE_PARAM_TOKENS)
  {
  }

  lemma OneParamUnparses()
    ensures Unparse(ONE_PARAM_TOKENS) == ONE_PARAM
  {
    UnparseThree(Literal("/alfa/"), Param("param"), Literal("/tango"));
  }

  lemma OneParamColonFree()
    ensures ':' !in ONE_PARAM
  {
  }

  lemma OneParamStarParses()
    ensures WellFormed(ONE_PARAM_STAR) && NewPath(ONE_PARAM_STAR) == Ok(ONE_PARAM_STAR_PATH)
  {
    OneParamStarCanonical();
    OneParamStarUnparses();
    OneParamStarColonFree();
    Parses(ONE_PARAM_STAR, ONE_PARAM_STAR_TOKENS);
  }

  lemma OneParamStarCanonical()
    ensures Canonical(ONE_PARAM_STAR_TOKENS)
  {
  }

  lemma OneParamStarUnparses()
    ensures Unparse(ONE_PARAM_STAR_TOKENS) == ONE_PARAM_STAR
  {
    UnparseFour(Literal("/alfa/"), Param("param"), Literal("/tango"), Wildcard);
  }

  lemma OneParamStarColonFree()
    ensures ':' !in ONE_PARAM_STAR
  {
  }

  lemma TwoParamsParses()
    ensures WellFormed(TWO_PARAMS) && NewPath(TWO_PARAMS) == Ok(TWO_PARAMS_PATH)
  {
    TwoParamsCanonical();
    TwoParamsUnparses();
    TwoParamsColonFree();
    Parses(TWO_PARAMS, TWO_PARAMS_TOKENS);
  }

  lemma TwoParamsCanonical()
    ensures Canonical(TWO_PARAMS_TOKENS)
  {
  }

  lemma TwoParamsUnparses()
    ensures Unparse(TWO_PARAMS_TOKENS) == TWO_PARAMS
  {
    UnparseFour(Literal("/alfa/"), Param("param"), Literal("/tango/"), Param("arg"));
  }

  lemma TwoParamsColonFree()
    ensures ':' !in TWO_PARAMS
  {
  }

  lemma StarParamParses()
    ensures WellFormed(STAR_PARAM) && NewPath(STAR_PARAM) == Ok(STAR_PARAM_PATH)
  {
    StarParamCanonical();
    StarParamUnparses();
    StarParamColonFree();
    Parses(STAR_PARAM, STAR_PARAM_TOKENS);
  }

  lemma StarParamCanonical()
    ensures Canonical(STAR_PARAM_TOKENS)
  {
  }

  lemma StarParamUnparses()
    ensures Unparse(STAR_PARAM_TOKENS) == STAR_PARAM
  {
    StarParamHead();
    StarParamTail();
    StarParamHalves();
    UnparseJoin(STAR_PARAM_TOKENS, [Literal("/alfa/"), Wildcard],
                [Literal("/"), Param("param"), Literal("/tango")], STAR_PARAM, "/alfa/*", "/{param}/tango");
  }

  lemma StarParamHalves()
    ensures STAR_PARAM_TOKENS == [Literal("/alfa/"), Wildcard] + [Literal("/"), Param("param"), Literal("/tango")]
    ensures STAR_PARAM == "/alfa/*" + "/{param}/tango"
  {
  }

  lemma StarParamHead()
    ensures Unparse([Literal("/alfa/"), Wildcard]) == "/alfa/*"
  {
    UnparseTwo(Literal("/alfa/"), Wildcard);
  }

  lemma StarParamTail()
    ensures Unparse([Literal("/"), Param("param"), Literal("/tango")]) == "/{param}/tango"
  {
    UnparseThree(Literal("/"), Param("param"), Literal("/tango"));
  }

  lemma StarParamColonFree()
    ensures ':' !in STAR_PARAM
  {
  }

  lemma TwoParamsStarParses()
    ensures WellFormed(TWO_PARAMS_STAR) && NewPath(TWO_PARAMS_STAR) == Ok(TWO_PARAMS_STAR_PATH)
  {
    TwoParamsStarCanonical();
    TwoParamsStarUnparses();
    TwoParamsStarColonFree();
    Parses(TWO_PARAMS_STAR, TWO_PARAMS_STAR_TOKENS);
  }

  lemma TwoParamsStarCanonical()
    ensures Canonical(TWO_PARAMS_STAR_TOKENS)
  {
  }

  lemma TwoParamsStarUnparses()
    ensures Unparse(TWO_PARAMS_STAR_TOKENS) == TWO_PARAMS_STAR
  {
    TwoParamsStarHead();
    TwoParamsStarTail();
    TwoParamsStarHalves();
    UnparseJoin(TWO_PARAMS_STAR_TOKENS, [Literal("/alfa/"), Param("param"), Literal("/tango/")],
                [Param("arg"), Literal("/"), Wildcard], TWO_PARAMS_STAR, "/alfa/{param}/tango/", "{arg}/*");
  }

  lemma TwoParamsStarHalves()
    ensures TWO_PARAMS_STAR_TOKENS == [Literal("/alfa/"), Param("param"), Literal("/tango/")] + [Param("arg"), Literal("/"), Wildcard]
    ensures TWO_PARAMS_STAR == "/alfa/{param}/tango/" + "{arg}/*"
  {
  }

  lemma TwoParamsStarHead()
    ensures Unparse([Literal("/alfa/"), Param("param"), Literal("/tango/")]) == "/alfa/{param}/tango/"
  {
    UnparseThree(Literal("/alfa/"), Param("param"), Literal("/tango/"));
  }

  lemma TwoParamsStarTail()
    ensures Unparse([Param("arg"), Literal("/"), Wildcard]) == "{arg}/*"
  {
    UnparseThree(Param("arg"), Literal("/"), Wildcard);
  }

  lemma TwoParamsStarColonFree()
    ensures ':' !in TWO_PARAMS_STAR
  {
  }

  lemma StarsParamParses()
    ensures WellFormed(STARS_PARAM) && NewPath(STARS_PARAM) == Ok(STARS_PARAM_PATH)
  {
    StarsParamCanonical();
    StarsParamUnparses();
    StarsParamColonFree();
    Parses(STARS_PARAM, STARS_PARAM_TOKENS);
  }

  lemma StarsParamCanonical()
    ensures Canonical(STARS_PARAM_TOKENS)
  {
  }

  lemma StarsParamUnparses()
    ensures Unparse(STARS_PARAM_TOKENS) == STARS_PARAM
  {
    StarsParamHead();
    StarsParamTail();
    StarsParamHalves();
    UnparseJoin(STARS_PARAM_TOKENS, [Literal("/"), Wildcard, Literal("/alfa/")],
                [Wildcard, Literal("/"), Param("param"), Literal("/tango")], STARS_PARAM, "/*/alfa/", "*/{param}/tango");
  }

  lemma StarsParamHalves()
    ensures STARS_PARAM_TOKENS == [Literal("/"), Wildcard, Literal("/alfa/")] + [Wildcard, Literal("/"), Param("param"), Literal("/tango")]
    ensures STARS_PARAM == "/*/alfa/" + "*/{param}/tango"
  {
  }

  lemma StarsParamHead()
    ensures Unparse([Literal("/"), Wildcard, Literal("/alfa/")]) == "/*/alfa/"
  {
    UnparseThree(Literal("/"), Wildcard, Literal("/alfa/"));
  }

  lemma StarsParamTail()
    ensures Unparse([Wildcard, Literal("/"), Param("param"), Literal("/tango")]) == "*/{param}/tango"
  {
    UnparseFour(Wildcard, Literal("/"), Param("param"), Literal("/tango"));
  }

  lemma StarsParamColonFree()
    ensures ':' !in STARS_PARAM
  {
  }

  lemma StarTwoParamsStarParses()
    ensures WellFormed(STAR_TWO_PARAMS_STAR) && NewPath(STAR_TWO_PARAMS_STAR) == Ok(STAR_TWO_PARAMS_STAR_PATH)
  {
    StarTwoParamsStarCanonical();
    StarTwoParamsStarUnparses();
    StarTwoParamsStarColonFree();
    Parses(STAR_TWO_PARAMS_STAR, STAR_TWO_PARAMS_STAR_TOKENS);
  }

  lemma StarTwoParamsStarCanonical()
    ensures Canonical(STAR_TWO_PARAMS_STAR_TOKENS)
  {
  }

  lemma StarTwoParamsStarUnparses()
    ensures Unparse(STAR_TWO_PARAMS_STAR_TOKENS) == STAR_TWO_PARAMS_STAR
  {
    StarTwoParamsStarHead();
    StarTwoParamsStarTail();
    StarTwoParamsStarHalves();
    UnparseJoin(STAR_TWO_PARAMS_STAR_TOKENS, [Literal("/alfa/"), Wildcard, Literal("/"), Param("param")],
                [Literal("/tango/"), Param("arg"), Literal("/"), Wildcard], STAR_TWO_PARAMS_STAR, "/alfa/*/{param}", "/tango/{arg}/*");
  }

  lemma StarTwoParamsStarHalves()
    ensures STAR_TWO_PARAMS_STAR_TOKENS == [Literal("/alfa/"), Wildcard, Literal("/"), Param("param")] + [Literal("/tango/"), Param("arg"), Literal("/"), Wildcard]
    ensures STAR_TWO_PARAMS_STAR == "/alfa/*/{param}" + "/tango/{arg}/*"
  {
  }

  lemma StarTwoParamsStarHead()
    ensures Unparse([Literal("/alfa/"), Wildcard, Literal("/"), Param("param")]) == "/alfa/*/{param}"
  {
    UnparseFour(Literal("/alfa/"), Wildcard, Literal("/"), Param("param"));
  }

  lemma StarTwoParamsStarTail()
    ensures Unparse([Literal("/tango/"), Param("arg"), Literal("/"), Wildcard]) == "/tango/{arg}/*"
  {
    UnparseFour(Literal("/tango/"), Param("arg"), Literal("/"), Wildcard);
  }

  lemma StarTwoParamsStarColonFree()
    ensures ':' !in STAR_TWO_PARAMS_STAR
  {
  }

  lemma TwoSegmentParamsParses()
    ensures WellFormed(TWO_SEGMENT_PARAMS) && NewPath(TWO_SEGMENT_PARAMS) == Ok(TWO_SEGMENT_PARAMS_PATH)
  {
    TwoSegmentParamsCanonical();
    TwoSegmentParamsUnparses();
    TwoSegmentParamsColonFree();
    Parses(TWO_SEGMENT_PARAMS, TWO_SEGMENT_PARAMS_TOKENS);
  }

  lemma TwoSegmentParamsCanonical()
    ensures Canonical(TWO_SEGMENT_PARAMS_TOKENS)
  {
  }

  lemma TwoSegmentParamsUnparses()
    ensures Unparse(TWO_SEGMENT_PARAMS_TOKENS) == TWO_SEGMENT_PARAMS
  {
    UnparseFour(Literal("/alfa/"), Param("p1"), Literal("/beta/"), Param("p2"));
  }

  lemma TwoSegmentParamsColonFree()
    ensures ':' !in TWO_SEGMENT_PARAMS
  {
  }

  lemma ThreeSegmentParamsParses()
    ensures WellFormed(THREE_SEGMENT_PARAMS) && NewPath(THREE_SEGMENT_PARAMS) == Ok(THREE_SEGMENT_PARAMS_PATH)
  {
    ThreeSegmentParamsCanonical();
    ThreeSegmentParamsUnparses();
    ThreeSegmentParamsColonFree();
    Parses(THREE_SEGMENT_PARAMS, THREE_SEGMENT_PARAMS_TOKENS);
  }

  lemma ThreeSegmentParamsCanonical()
    ensures Canonical(THREE_SEGMENT_PARAMS_TOKENS)
  {
  }

  lemma ThreeSegmentParamsUnparses()
    ensures Unparse(THREE_SEGMENT_PARAMS_TOKENS) == THREE_SEGMENT_PARAMS
  {
    ThreeSegmentParamsHead();
    ThreeSegmentParamsTail();
    ThreeSegmentParamsHalves();
    UnparseJoin(THREE_SEGMENT_PARAMS_TOKENS, [Literal("/"), Param("p0"), Literal("/alfa/")],
                [Param("p1"), Literal("/beta/"), Param("p2")], THREE_SEGMENT_PARAMS, "/{p0}/alfa/", "{p1}/beta/{p2}");
  }

  lemma ThreeSegmentParamsHalves()
    ensures THREE_SEGMENT_PARAMS_TOKENS == [Literal("/"), Param("p0"), Literal("/alfa/")] + [Param("p1"), Literal("/beta/"), Param("p2")]
    ensures THREE_SEGMENT_PARAMS == "/{p0}/alfa/" + "{p1}/beta/{p2}"
  {
  }

  lemma ThreeSegmentParamsHead()
    ensures Unparse([Literal("/"), Param("p0"), Literal("/alfa/")]) == "/{p0}/alfa/"
  {
    UnparseThree(Literal("/"), Param("p0"), Literal("/alfa/"));
  }

  lemma ThreeSegmentParamsTail()
    ensures Unparse([Param("p1"), Literal("/beta/"), Param("p2")]) == "{p1}/beta/{p2}"
  {
    UnparseThree(Param("p1"), Literal("/beta/"), Param("p2"));
  }

  lemma ThreeSegmentParamsColonFree()
    ensures ':' !in THREE_SEGMENT_PARAMS
  {
  }

  lemma OneSegmentParamParses()
    ensures WellFormed(ONE_SEGMENT_PARAM) && NewPath(ONE_SEGMENT_PARAM) == Ok(ONE_SEGMENT_PARAM_PATH)
  {
    OneSegmentParamCanonical();
    OneSegmentParamUnparses();
    OneSegmentParamColonFree();
    Parses(ONE_SEGMENT_PARAM, ONE_SEGMENT_PARAM_TOKENS);
  }

  lemma OneSegmentParamCanonical()
    ensures Canonical(ONE_SEGMENT_PARAM_TOKENS)
  {
  }

  lemma OneSegmentParamUnparses()
    ensures Unparse(ONE_SEGMENT_PARAM_TOKENS) == ONE_SEGMENT_PARAM
  {
    UnparseThree(Literal("/alfa/"), Param("p1"), Literal("/beta"));
  }

  lemma OneSegmentParamColonFree()
    ensures ':' !in ONE_SEGMENT_PARAM
  {
  }

  lemma OneParamHasNoStar()
    ensures '*' !in ONE_PARAM
  {
  }

  lemma TwoParamsHasNoStar()
    ensures '*' !in TWO_PARAMS
  {
  }
}
