/**
 * Properties of Path as a whole: what a plain-text path does, how the flags
 * and the parameter index agree, that matching never skips a prefix of the
 * URL, and how `create` relates to `matches` and `extractParameters`.
 */
module PathProperties {
  import opened PathSyntax
  import opened PathCompile
  import opened PathMatching
  import opened Paths

  /** A path without `{name}` and `*` has no regex, no groups, and matches only itself. */
  lemma PlainPath(p: Path)
    requires p.Valid() && !p.HasParameters() && !p.HasWildcards()
    ensures p.Regex().None? && p.ParameterIndex() == [] && p.Segments() == [p.path]
    ensures forall u :: p.Matches(u) <==> u == p.path
    ensures p.ExtractParameters(p.path) == Ok(map[])
  {
    NoGroupsWhenPlain(p);
    SegmentsWithoutParams(p.tokens);
    forall u
      ensures p.Matches(u) <==> u == p.path
    {
      MatchWithoutGroups(p.tokens, u);
      MatchIffDenotes(p.tokens, u);
    }
  }

  /**
   * A matched URL starts with the literal text that opens the path (at
   * least its `/`): the match is never found further into the URL.
   */
  lemma MatchedUrlKeepsLeadingText(p: Path, u: string)
    requires p.Valid()
    ensures p.tokens != [] && p.tokens[0].Literal? && p.tokens[0].text[0] == '/'
    ensures p.Matches(u) ==> p.tokens[0].text <= u && |u| > 0 && u[0] == '/'
  {
    var toks := p.tokens;
    var s := toks[0].text;
    assert Unparse(toks) == s + Unparse(toks[1..]);
    if p.Matches(u) {
      var caps :| |caps| == |Groups(toks)| && Fits(toks, caps) && Fill(toks, caps) == u;
      assert u == s + Fill(toks[1..], caps);
    }
  }

  /** A matched URL ends with the literal text that closes the path, when one does. */
  lemma MatchedUrlKeepsTrailingText(p: Path, u: string)
    requires p.Valid() && |p.tokens| > 0 && p.tokens[|p.tokens| - 1].Literal?
    ensures p.Matches(u) ==>
      var s := p.tokens[|p.tokens| - 1].text; |s| <= |u| && u[|u| - |s|..] == s
  {
    if p.Matches(u) {
      MatchIffDenotes(p.tokens, u);
      FillEndsWithLastLiteral(p.tokens, MatchFrom(p.tokens, u).value);
    }
  }

  /** A matched URL holds all the literal text of the path and at least one character per parameter. */
  lemma MatchedUrlLength(p: Path, u: string)
    requires p.Valid()
    ensures p.Matches(u) ==> |u| >= MinimalUrlLength(p.tokens)
  {
    if p.Matches(u) {
      MatchIffDenotes(p.tokens, u);
      FillLongEnough(p.tokens, MatchFrom(p.tokens, u).value);
    }
  }

  lemma {:induction false} GroupsEmptyIff(toks: seq<Token>)
    ensures |Groups(toks)| == 0 <==> ParamCount(toks) == 0 && Wildcard !in toks
  {
    if toks != [] {
      GroupsEmptyIff(toks[1..]);
      assert toks == [toks[0]] + toks[1..];
    }
  }

  lemma {:induction false} WildcardInGroups(toks: seq<Token>)
    ensures Wildcard in Groups(toks) <==> Wildcard in toks
  {
    if toks != [] {
      WildcardInGroups(toks[1..]);
      assert toks == [toks[0]] + toks[1..];
    }
  }

  /**
   * `hasWildcards` holds exactly when the parameter index has an empty name,
   * `hasParameters` exactly when it has a non-empty one, and the regex is
   * absent exactly when the index is empty.
   */
  lemma FlagsAgreeWithParameterIndex(p: Path)
    requires p.Valid()
    ensures p.HasWildcards() <==> "" in p.ParameterIndex()
    ensures p.HasParameters() <==> exists i :: 0 <= i < |p.ParameterIndex()| && p.ParameterIndex()[i] != ""
    ensures p.Regex().None? <==> p.ParameterIndex() == []
  {
    var toks := p.tokens;
    var pi := p.ParameterIndex();
    StarIffWildcard(toks);
    ParameterIndexNames(toks);
    WildcardInGroups(toks);
    HasNamedGroupIffParam(toks);
    GroupsEmptyIff(toks);
    var g := Groups(toks);
    if Wildcard in toks {
      var i :| 0 <= i < |g| && g[i] == Wildcard;
      assert pi[i] == "";
    }
    if "" in pi {
      var i :| 0 <= i < |pi| && pi[i] == "";
      assert g[i] == Wildcard;
    }
  }

  /**
   * The regex text is the path text with each `{name}` rewritten to
   * `(.+?)` and each `*` to `(.*?)`, everything else kept, and `$` appended.
   */
  lemma RegexRewritesPath(p: Path)
    requires p.Valid() && p.Regex().Some?
    ensures p.Regex().value == RewritePlaceholders(p.path) + "$"
  {
    RegexIsRewrittenPath(p.path);
  }

  lemma {:induction false} FitsAt(toks: seq<Token>, caps: seq<string>, i: nat)
    requires |caps| == |Groups(toks)| && Fits(toks, caps) && i < |caps|
    ensures FitsGroup(Groups(toks)[i], caps[i])
  {
    if toks[0].Literal? {
      FitsAt(toks[1..], caps, i);
    } else if i > 0 {
      FitsAt(toks[1..], caps[1..], i - 1);
    }
  }

  /** Every extracted value is one or more characters, none of them a line terminator. */
  lemma ExtractedValuesNotEmpty(p: Path, u: string)
    requires p.Valid() && p.ExtractParameters(u).Ok?
    ensures forall n :: n in p.ExtractParameters(u).value ==>
      |p.ExtractParameters(u).value[n]| >= 1 && AllDot(p.ExtractParameters(u).value[n])
  {
    var m := p.ExtractParameters(u).value;
    var names := p.ParameterIndex();
    var caps := MatchFrom(p.tokens, u).value;
    ParameterIndexNames(p.tokens);
    forall n | n in m
      ensures |m[n]| >= 1 && AllDot(m[n])
    {
      var i := LastIndexOf(names, n);
      FitsAt(p.tokens, caps, i);
    }
  }

  /** The last position of `n` in `names`. */
  function LastIndexOf(names: seq<string>, n: string): (i: nat)
    requires n in names
    ensures i < |names| && names[i] == n && n !in names[i + 1..]
  {
    var k := |names| - 1;
    if names[k] == n then k
    else
      assert n in names[..k] by { assert names == names[..k] + [names[k]]; }
      var i := LastIndexOf(names[..k], n);
      assert names[i + 1..] == names[..k][i + 1..] + [names[k]];
      i
  }

  lemma {:induction false} ParamValuesAreIndexed(toks: seq<Token>, values: map<string, string>)
    requires HasAllValues(toks, values) && Wildcard !in toks
    ensures |ParamValues(toks, values)| == |PathCompile.ParameterIndex(toks)|
    ensures forall i :: 0 <= i < |ParamValues(toks, values)| ==>
      PathCompile.ParameterIndex(toks)[i] in values &&
      ParamValues(toks, values)[i] == values[PathCompile.ParameterIndex(toks)[i]]
  {
    if toks != [] {
      var rest := toks[1..];
      assert Wildcard !in rest;
      ParamValuesAreIndexed(rest, values);
      if toks[0].Param? {
        var vs := ParamValues(toks, values);
        var pi := PathCompile.ParameterIndex(toks);
        assert forall i :: 1 <= i < |vs| ==>
          vs[i] == ParamValues(rest, values)[i - 1] && pi[i] == PathCompile.ParameterIndex(rest)[i - 1];
      }
    }
  }

  /** The parameters of the path have values that `(.+?)` can capture. */
  predicate CapturableValues(p: Path, values: map<string, string>) {
    forall n :: n in p.ParameterIndex() ==> n in values && |values[n]| >= 1 && AllDot(values[n])
  }

  lemma {:induction false} ParamValuesFit(toks: seq<Token>, values: map<string, string>)
    requires HasAllValues(toks, values) && Wildcard !in toks
    requires forall i :: 0 <= i < |toks| && toks[i].Param? ==>
      |values[toks[i].name]| >= 1 && AllDot(values[toks[i].name])
    ensures |Groups(toks)| == |ParamValues(toks, values)|
    ensures Fits(toks, ParamValues(toks, values))
  {
    if toks != [] {
      var rest := toks[1..];
      assert Wildcard !in rest;
      assert forall i :: 0 <= i < |rest| ==> rest[i] == toks[i + 1];
      ParamValuesFit(rest, values);
      if toks[0].Param? {
        assert ParamValues(toks, values)[1..] == ParamValues(rest, values);
      }
    }
  }

  /** A path without wildcards creates a URL whenever every parameter has a value. */
  lemma CreateSucceeds(p: Path, values: map<string, string>)
    requires p.Valid() && !p.HasWildcards() && HasAllValues(p.tokens, values)
    ensures p.Create(values) == Ok(Interleave(p.Segments(), ParamValues(p.tokens, values)))
  {
    NoWildcardToken(p);
    MissingIffUnnamed(p.tokens, values);
  }

  lemma CreateIsFill(p: Path, values: map<string, string>)
    requires p.Valid() && p.Create(values).Ok?
    ensures Wildcard !in p.tokens && |Groups(p.tokens)| == |ParamValues(p.tokens, values)|
    ensures p.Create(values).value == Fill(p.tokens, ParamValues(p.tokens, values))
  {
    NoWildcardToken(p);
    SubstituteFillsSegments(p.tokens, values);
    SubstituteIsFill(p.tokens, values);
  }

  lemma ParamNamesIndexed(p: Path)
    requires p.Valid() && !p.HasWildcards()
    ensures forall i :: 0 <= i < |p.tokens| && p.tokens[i].Param? ==> p.tokens[i].name in p.ParameterIndex()
  {
    NoWildcardToken(p);
    ParamNamesIndexedFrom(p.tokens);
  }

  lemma {:induction false} ParamNamesIndexedFrom(toks: seq<Token>)
    ensures forall i :: 0 <= i < |toks| && toks[i].Param? ==> toks[i].name in PathCompile.ParameterIndex(toks)
  {
    if toks != [] {
      var rest := toks[1..];
      ParamNamesIndexedFrom(rest);
      assert forall i :: 0 < i < |toks| ==> toks[i] == rest[i - 1];
    }
  }

  /** A URL built by `create` from capturable values is matched by its path. */
  lemma CreatedUrlMatches(p: Path, values: map<string, string>)
    requires p.Valid() && p.Create(values).Ok? && CapturableValues(p, values)
    ensures p.Matches(p.Create(values).value)
  {
    CreateIsFill(p, values);
    ParamNamesIndexed(p);
    ParamValuesFit(p.tokens, values);
    MatchComplete(p.tokens, p.Create(values).value, ParamValues(p.tokens, values));
    MatchIffDenotes(p.tokens, p.Create(values).value);
  }

  /** The parameters of the path have values that hold no `/`. */
  predicate SlashFreeValues(p: Path, values: map<string, string>) {
    forall n :: n in p.ParameterIndex() ==> n in values && '/' !in values[n]
  }

  /** The value of every non-empty name of `names` that has one. */
  function KnownValues(names: seq<string>, values: map<string, string>): map<string, string> {
    map n | n in names && n != "" && n in values :: values[n]
  }

  /** Adding a name at the end adds its value, if it has one. */
  lemma KnownValuesSnoc(names: seq<string>, x: string, values: map<string, string>)
    ensures KnownValues(names + [x], values) ==
      if x == "" || x !in values then KnownValues(names, values)
      else KnownValues(names, values)[x := values[x]]
  {
    assert forall n :: n in names + [x] <==> n in names || n == x;
  }

  /** When every named capture is the value of its name, binding gives exactly those values. */
  lemma {:induction false} BindConsistent(names: seq<string>, caps: seq<string>, values: map<string, string>)
    requires |names| == |caps|
    requires forall i :: 0 <= i < |names| && names[i] != "" ==> names[i] in values && caps[i] == values[names[i]]
    ensures Bind(names, caps) == KnownValues(names, values)
  {
    if names != [] {
      var k := |names| - 1;
      BindConsistent(names[..k], caps[..k], values);
      assert names == names[..k] + [names[k]];
      KnownValuesSnoc(names[..k], names[k], values);
    }
  }

  /**
   * When every parameter is followed by a `/` or ends the path and no value
   * holds a `/`, matching the created URL captures exactly the values, in
   * the order of the parameters.
   */
  lemma CreatedUrlCaptures(p: Path, values: map<string, string>)
    requires p.Valid() && p.Create(values).Ok?
    requires SlashDelimited(p.tokens)
    requires CapturableValues(p, values) && SlashFreeValues(p, values)
    ensures HasAllValues(p.tokens, values)
    ensures "" !in p.ParameterIndex()
    ensures MatchFrom(p.tokens, p.Create(values).value) == Some(ParamValues(p.tokens, values))
  {
    var toks := p.tokens;
    var vs := ParamValues(toks, values);
    var names := p.ParameterIndex();
    CreateIsFill(p, values);
    ParamNamesIndexed(p);
    ParamValuesFit(toks, values);
    ParamValuesAreIndexed(toks, values);
    NoWildcardToken(p);
    ParameterIndexNames(toks);
    assert "" !in names by {
      FlagsAgreeWithParameterIndex(p);
    }
    assert NoSlash(vs) by {
      forall i | 0 <= i < |vs|
        ensures '/' !in vs[i]
      {
        assert names[i] in names;
      }
    }
    MatchFillSlashDelimited(toks, vs);
  }

  /**
   * Under the same conditions, extracting from the created URL gives back
   * the values of the path's parameters.
   */
  lemma ExtractAfterCreate(p: Path, values: map<string, string>)
    requires p.Valid() && p.Create(values).Ok?
    requires SlashDelimited(p.tokens)
    requires CapturableValues(p, values) && SlashFreeValues(p, values)
    ensures p.ExtractParameters(p.Create(values).value)
         == Ok(map n | n in p.ParameterIndex() && n in values :: values[n])
  {
    CreatedUrlCaptures(p, values);
    BindValues(p, values);
    CreatedUrlMatches(p, values);
    if p.Regex().None? {
      NoGroupsWhenPlain(p);
      assert p.ParameterIndex() == [];
    }
  }

  /** Binding the parameter index to the values in parameter order gives the values of the indexed names. */
  lemma BindValues(p: Path, values: map<string, string>)
    requires p.Valid() && !p.HasWildcards() && HasAllValues(p.tokens, values)
    ensures |p.ParameterIndex()| == |ParamValues(p.tokens, values)|
    ensures Bind(p.ParameterIndex(), ParamValues(p.tokens, values))
         == map n | n in p.ParameterIndex() && n in values :: values[n]
  {
    var names := p.ParameterIndex();
    NoWildcardToken(p);
    ParamValuesAreIndexed(p.tokens, values);
    BindConsistent(names, ParamValues(p.tokens, values), values);
    assert "" !in names by {
      ParameterIndexNames(p.tokens);
      FlagsAgreeWithParameterIndex(p);
    }
    assert KnownValues(names, values) == (map n | n in names && n in values :: values[n]);
  }

  /** A canonical token list written out as `s` is how NewPath splits `s`. */
  lemma Parses(s: string, toks: seq<Token>)
    requires Canonical(toks) && Unparse(toks) == s
    requires |s| > 0 && s[0] == '/' && ':' !in s
    ensures WellFormed(s) && NewPath(s) == Ok(Path(s, toks))
  {
    TokenizeUnparse(toks);
  }
}
