/**
 * A route path of com.hexagonkt.http: an immutable value built once from its
 * text, exposing `regex`, `parameterIndex`, `segments`, the two flags
 * `hasParameters` / `hasWildcards`, and the queries `matches`,
 * `extractParameters` and `create`.
 */
module Paths {
  import opened PathSyntax
  import opened PathCompile
  import opened PathMatching

  /** Why constructing or querying a path fails. */
  datatype Failure =
    | MissingLeadingSlash(text: string)
    | ColonInPath(text: string)
    | UrlDoesNotMatch(url: string)
    | WildcardsCannotCreate
    | MissingValue(name: string)

  /** The exception class a failure is thrown as. */
  datatype ExceptionKind = IllegalArgument | IllegalState

  function Kind(f: Failure): ExceptionKind {
    if f.WildcardsCannotCreate? then IllegalState else IllegalArgument
  }

  datatype Result<T> = Ok(value: T) | Err(failure: Failure)

  /** A route path: its text and the tokens it was split into. */
  datatype Path = Path(path: string, tokens: seq<Token>) {

    /** What every constructed path satisfies. */
    predicate Valid() {
      && WellFormed(path)
      && tokens == Tokenize(path)
      && Canonical(tokens) && Unparse(tokens) == path
      && |path| > 0 && path[0] == '/'
      && ':' !in path
    }

    function HasWildcards(): bool {
      '*' in path
    }

    function HasParameters(): bool {
      ParamCount(tokens) > 0
    }

    /** The regular-expression text, absent for a path of plain text. */
    function Regex(): Option<string> {
      if HasParameters() || HasWildcards() then Some(RegexPattern(tokens)) else None
    }

    function ParameterIndex(): seq<string> {
      PathCompile.ParameterIndex(tokens)
    }

    function Segments(): seq<string> {
      PathCompile.Segments(tokens)
    }

    /**
     * Plain text is compared for equality, anything else is matched against
     * the regular expression over the whole URL: either way, `url` matches
     * exactly when some captures rebuild it from the path.
     */
    function Matches(url: string): (r: bool)
      requires Valid()
      ensures r <==> Denotes(tokens, url)
    {
      NoGroupsWhenPlain(this);
      MatchIffDenotes(tokens, url);
      if Regex().None? then
        MatchWithoutGroups(tokens, url);
        url == path
      else MatchFrom(tokens, url).Some?
    }

    /**
     * The value of each named group in the match of `url`; wildcard groups
     * are left out and a name used twice takes its last capture. A URL the
     * path does not match is refused.
     */
    function ExtractParameters(url: string): (r: Result<map<string, string>>)
      requires Valid()
      ensures r.Err? <==> !Matches(url)
      ensures r.Err? ==> r.failure == UrlDoesNotMatch(url) && Kind(r.failure) == IllegalArgument
      ensures r.Ok? ==> MatchFrom(tokens, url).Some?
      ensures r.Ok? ==> forall n :: n in r.value <==> n != "" && n in ParameterIndex()
      ensures r.Ok? ==>
        var names := ParameterIndex();
        var caps := MatchFrom(tokens, url).value;
        forall i :: 0 <= i < |names| && names[i] != "" && names[i] !in names[i + 1..] ==>
          r.value[names[i]] == caps[i]
    {
      if !Matches(url) then Err(UrlDoesNotMatch(url))
      else if Regex().None? then
        NoGroupsWhenPlain(this);
        MatchWithoutGroups(tokens, url);
        Ok(map[])
      else Ok(Bind(ParameterIndex(), MatchFrom(tokens, url).value))
    }

    /**
     * The URL with each `{name}` replaced by its value and all other text
     * kept. Refused for a path with wildcards, whatever the values, and when
     * a parameter has no value.
     */
    function Create(values: map<string, string>): (r: Result<string>)
      requires Valid()
      ensures HasWildcards() ==> r == Err(WildcardsCannotCreate) && Kind(r.failure) == IllegalState
      ensures !HasWildcards() ==>
        (r.Err? <==> exists i :: 0 <= i < |ParameterIndex()| && ParameterIndex()[i] !in values)
      ensures r.Err? && !HasWildcards() ==> r.failure.MissingValue? && r.failure.name !in values
      ensures r.Ok? ==> HasAllValues(tokens, values)
      ensures r.Ok? ==> r.value == Interleave(Segments(), ParamValues(tokens, values))
    {
      if HasWildcards() then Err(WildcardsCannotCreate)
      else
        NoWildcardToken(this);
        MissingIffUnnamed(tokens, values);
        assert ParameterIndex() == PathCompile.ParameterIndex(tokens);
        match FirstMissing(tokens, values)
        case Some(n) => Err(MissingValue(n))
        case None =>
          SubstituteFillsSegments(tokens, values);
          Ok(Substitute(tokens, values))
    }
  }

  /** Builds a path from its text, refusing one without a leading `/` or with a `:`. */
  function NewPath(s: string): (r: Result<Path>)
    requires WellFormed(s)
    ensures r.Ok? <==> |s| > 0 && s[0] == '/' && ':' !in s
    ensures r.Ok? ==> r.value.path == s && r.value.Valid()
    ensures r.Err? ==> Kind(r.failure) == IllegalArgument
    ensures r.Err? ==> (r.failure.MissingLeadingSlash? <==> |s| == 0 || s[0] != '/')
  {
    if |s| == 0 || s[0] != '/' then Err(MissingLeadingSlash(s))
    else if ':' in s then Err(ColonInPath(s))
    else
      TokenizeSpec(s);
      Ok(Path(s, Tokenize(s)))
  }

  /**
   * Binds each non-empty name to the capture at the same position; a later
   * occurrence of a name overrides an earlier one.
   */
  function Bind(names: seq<string>, caps: seq<string>): (m: map<string, string>)
    requires |names| == |caps|
    ensures forall n :: n in m <==> n != "" && n in names
    ensures forall i :: 0 <= i < |names| && names[i] != "" && names[i] !in names[i + 1..] ==>
      m[names[i]] == caps[i]
    decreases |names|
  {
    if names == [] then map[]
    else
      var k := |names| - 1;
      var m := Bind(names[..k], caps[..k]);
      var m' := if names[k] == "" then m else m[names[k] := caps[k]];
      BindStep(names, caps, m, m');
      m'
  }

  /** Adding the last name to the binding of the others keeps the last-wins reading. */
  lemma BindStep(names: seq<string>, caps: seq<string>, m: map<string, string>, m': map<string, string>)
    requires |names| == |caps| > 0
    requires var k := |names| - 1;
      && (forall n :: n in m <==> n != "" && n in names[..k])
      && (forall i :: 0 <= i < k && names[i] != "" && names[i] !in names[..k][i + 1..] ==> m[names[i]] == caps[i])
      && m' == if names[k] == "" then m else m[names[k] := caps[k]]
    ensures forall n :: n in m' <==> n != "" && n in names
    ensures forall i :: 0 <= i < |names| && names[i] != "" && names[i] !in names[i + 1..] ==>
      m'[names[i]] == caps[i]
  {
    var k := |names| - 1;
    assert names == names[..k] + [names[k]];
    forall i | 0 <= i < k && names[i] != "" && names[i] !in names[i + 1..]
      ensures m'[names[i]] == caps[i]
    {
      assert names[i + 1..] == names[..k][i + 1..] + [names[k]];
      assert names[i] != names[k];
    }
  }

  /** Every parameter of the path has a value. */
  predicate HasAllValues(toks: seq<Token>, values: map<string, string>) {
    forall i :: 0 <= i < |toks| && toks[i].Param? ==> toks[i].name in values
  }

  /** The value of each parameter, in order. */
  function ParamValues(toks: seq<Token>, values: map<string, string>): (vs: seq<string>)
    requires HasAllValues(toks, values)
    ensures |vs| == ParamCount(toks)
  {
    if toks == [] then []
    else if toks[0].Param? then [values[toks[0].name]] + ParamValues(toks[1..], values)
    else ParamValues(toks[1..], values)
  }

  /** The leftmost parameter without a value, if any. */
  function FirstMissing(toks: seq<Token>, values: map<string, string>): (r: Option<string>)
    ensures r.None? <==> HasAllValues(toks, values)
    ensures r.Some? ==> r.value !in values && exists i :: 0 <= i < |toks| && toks[i] == Param(r.value)
    ensures r.Some? ==>
      exists i :: 0 <= i < |toks| && toks[i] == Param(r.value) &&
        forall j :: 0 <= j < i && toks[j].Param? ==> toks[j].name in values
  {
    if toks == [] then None
    else if toks[0].Param? && toks[0].name !in values then Some(toks[0].name)
    else
      var r := FirstMissing(toks[1..], values);
      assert r.Some? ==> toks[1..][0..] == toks[1..];
      assert forall i :: 0 < i < |toks| ==> toks[i] == toks[1..][i - 1];
      r
  }

  /** The path text with each parameter replaced by its value. */
  function Substitute(toks: seq<Token>, values: map<string, string>): string
    requires HasAllValues(toks, values)
  {
    if toks == [] then ""
    else
      var t := toks[0];
      (if t.Param? then values[t.name] else TokenText(t)) + Substitute(toks[1..], values)
  }

  /** Without wildcards, substitution puts the values between the untouched segments. */
  lemma {:induction false} SubstituteFillsSegments(toks: seq<Token>, values: map<string, string>)
    requires HasAllValues(toks, values) && Wildcard !in toks
    ensures Substitute(toks, values) == Interleave(PathCompile.Segments(toks), ParamValues(toks, values))
  {
    if toks != [] {
      var rest := toks[1..];
      assert Wildcard !in rest;
      SubstituteFillsSegments(rest, values);
      var r := PathCompile.Segments(rest);
      var vs := ParamValues(rest, values);
      match toks[0]
      case Param(n) =>
        assert PathCompile.Segments(toks)[1..] == r;
      case Literal(s) =>
        InterleaveConsHead(s, r, vs);
    }
  }

  /** Without wildcards, substitution is the URL rebuilt with the values as captures. */
  lemma {:induction false} SubstituteIsFill(toks: seq<Token>, values: map<string, string>)
    requires HasAllValues(toks, values) && Wildcard !in toks
    ensures |Groups(toks)| == ParamCount(toks)
    ensures Substitute(toks, values) == Fill(toks, ParamValues(toks, values))
  {
    if toks != [] {
      var rest := toks[1..];
      assert Wildcard !in rest;
      SubstituteIsFill(rest, values);
      if toks[0].Param? {
        assert ParamValues(toks, values)[1..] == ParamValues(rest, values);
      }
    }
  }

  lemma {:induction false} MissingIffUnnamed(toks: seq<Token>, values: map<string, string>)
    requires Canonical(toks) && Wildcard !in toks
    ensures !HasAllValues(toks, values) <==>
      exists i :: 0 <= i < |PathCompile.ParameterIndex(toks)| && PathCompile.ParameterIndex(toks)[i] !in values
  {
    if toks != [] {
      var rest := toks[1..];
      assert Wildcard !in rest;
      MissingIffUnnamed(rest, values);
      var pi := PathCompile.ParameterIndex(toks);
      var pr := PathCompile.ParameterIndex(rest);
      assert forall i :: 0 < i < |toks| ==> toks[i] == rest[i - 1];
      assert HasAllValues(toks, values) <==>
        (toks[0].Param? ==> toks[0].name in values) && HasAllValues(rest, values);
      if toks[0].Param? {
        assert pi == [toks[0].name] + pr;
        assert forall i :: 0 <= i < |pr| ==> pr[i] == pi[i + 1];
        assert forall i :: 0 < i < |pi| ==> pi[i] == pr[i - 1];
        if toks[0].name !in values {
          assert pi[0] !in values;
        }
      }
    }
  }

  lemma {:induction false} GroupsOfPlainTokens(toks: seq<Token>)
    requires ParamCount(toks) == 0 && Wildcard !in toks
    ensures |Groups(toks)| == 0
  {
    if toks != [] {
      assert Wildcard !in toks[1..];
      GroupsOfPlainTokens(toks[1..]);
    }
  }

  lemma NoWildcardToken(p: Path)
    requires p.Valid() && !p.HasWildcards()
    ensures Wildcard !in p.tokens && Canonical(p.tokens)
  {
    StarIffWildcard(p.tokens);
  }

  /** A path of plain text compiles to no groups at all. */
  lemma NoGroupsWhenPlain(p: Path)
    requires p.Valid()
    ensures p.Regex().None? ==> |Groups(p.tokens)| == 0 && Unparse(p.tokens) == p.path
  {
    if p.Regex().None? {
      NoWildcardToken(p);
      GroupsOfPlainTokens(p.tokens);
    }
  }
}
