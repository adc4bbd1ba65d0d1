# Route paths of com.hexagonkt.http, modelled in Dafny

A route path of the hexagon web toolkit is an immutable value built once from its text,
for example `/alfa/{param}/tango/{arg}/*`:

- the text must start with `/` and may not hold `:`;
- `{name}` is a named parameter and `*` a wildcard;
- the path exposes its `regex` text, which is absent for plain text;
- it exposes its `parameterIndex`, one name per capturing group, with `""` for a wildcard;
- it exposes its `segments`, the literal text between `{name}` placeholders;
- it exposes the flags `hasParameters` and `hasWildcards`;
- `matches(url)` tells whether a URL matches the path;
- `extractParameters(url)` gives the value of each parameter;
- `create(values)` builds a URL from parameter values.

The class itself is not part of this model: its behaviour is taken from its test,
`hexagon_core/src/test/kotlin/com/hexagonkt/http/PathTest.kt`. That file is the only source
every row below cites.

The model is pure, like the class: a `datatype Path` with functions and lemmas.

- `PathSyntax` splits the text into tokens `Literal(text) | Param(name) | Wildcard` and
  writes them back.
- `PathCompile` derives the regular-expression text, the parameter index and the segments.
- `PathMatching` replaces the regular-expression engine with a backtracking search over the
  tokens, `MatchFrom`. Each group tries the shortest capture first, `{name}` one or more
  characters and `*` zero or more, and the whole URL must be consumed. `.` matches any
  character but a line terminator, as in java.util.regex.
  - The search is proved sound and complete against `Denotes`, the language of the
    regular expression.
  - It is also proved to return the least captures in shortest-first order, which is what
    reluctant groups give under a full match.
- `Paths` holds the `Path` value, its queries and its failures. Each failure carries the
  exception class it is thrown as: `IllegalArgument` or `IllegalState`.
- `PathProperties` states the general properties.
- `PathExamplePaths` and `PathExamples` hold every assertion of the test, each proved as a
  lemma.

Create-then-extract is not an inverse in general. Captures are reluctant and `.` crosses
`/`, so a value that holds `/tango/` is split at its first occurrence:

- `PathExamples.CreateThenExtractCanDiffer` exhibits such a URL;
- `PathProperties.ExtractAfterCreate` proves the round trip where it does hold: every
  parameter is closed by a `/` or ends the path, and every value is non-empty, free of line
  terminators and free of `/`.

Matching is whole-string. Lines 46-49 of the test require `zulu/alfa/abc/tango` not to
match `/alfa/{param}/tango`, so the model does not allow a match to begin further into the
URL.

## Model

| member | source | states |
|---|---|---|
| Paths.NewPath | hexagon_core/src/test/kotlin/com/hexagonkt/http/PathTest.kt:27-37 | a path is built exactly when its text starts with `/` and holds no `:`; the built path keeps the text and is valid; a refusal is an IllegalArgument failure, and it reports the missing `/` exactly when the `/` is missing |
| Paths.Path.Matches | hexagon_core/src/test/kotlin/com/hexagonkt/http/PathTest.kt:20-22 | equality for plain text, the token search otherwise; either way a URL matches exactly when some captures that fit their groups rebuild it |
| Paths.Path.ExtractParameters | hexagon_core/src/test/kotlin/com/hexagonkt/http/PathTest.kt:39-50 | fails with an IllegalArgument failure exactly when the URL does not match; on success it binds exactly the non-empty names of the parameter index, each name to the capture of its last occurrence |
| Paths.Path.Create | hexagon_core/src/test/kotlin/com/hexagonkt/http/PathTest.kt:109-122 | a path with wildcards is refused with an IllegalState failure whatever the values; otherwise it fails exactly when some indexed name has no value, naming a missing one; on success it gives the segments interleaved with the parameter values |
| Paths.Path.Regex | hexagon_core/src/test/kotlin/com/hexagonkt/http/PathTest.kt:57-59 | present exactly when the path has a parameter or a wildcard; then it is the path text with `{name}` rewritten to `(.+?)` and `*` to `(.*?)`, then `$`. Stated by PathProperties.RegexRewritesPath and PathProperties.FlagsAgreeWithParameterIndex |
| Paths.Path.HasParameters | hexagon_core/src/test/kotlin/com/hexagonkt/http/PathTest.kt:57 | holds exactly when the parameter index has a non-empty name, that is when the path has a `{name}`. Stated by PathProperties.FlagsAgreeWithParameterIndex and PathCompile.HasNamedGroupIffParam |
| Paths.Path.HasWildcards | hexagon_core/src/test/kotlin/com/hexagonkt/http/PathTest.kt:58 | holds exactly when the path text holds `*`, exactly when its tokens hold a wildcard, and exactly when the parameter index has an empty name. Stated by PathSyntax.StarIffWildcard and PathProperties.FlagsAgreeWithParameterIndex |
| Paths.Path.ParameterIndex | hexagon_core/src/test/kotlin/com/hexagonkt/http/PathTest.kt:60 | one entry per capturing group, left to right: the parameter name, or `""` for a wildcard. Stated by PathCompile.ParameterIndex and PathCompile.ParameterIndexNames |
| Paths.Path.Segments | hexagon_core/src/test/kotlin/com/hexagonkt/http/PathTest.kt:124-133 | one more segment than there are parameters; putting the placeholders back between them restores the path text, and no segment holds a brace. Stated by PathCompile.Segments, PathCompile.SegmentsSplitPath and PathCompile.SegmentsBraceFree |
| PathSyntax.Tokenize | hexagon_core/src/test/kotlin/com/hexagonkt/http/PathTest.kt:13-14 | the split of a path into literal runs, parameters and wildcards: canonical tokens that write back to the text, and the only canonical tokens that do. Stated by PathSyntax.TokenizeSpec and PathSyntax.TokenizeUnparse |
| Paths.Bind | hexagon_core/src/test/kotlin/com/hexagonkt/http/PathTest.kt:68-78 | the keys are exactly the non-empty names; each name is bound to the capture at its last position |
| Paths.FirstMissing | hexagon_core/src/test/kotlin/com/hexagonkt/http/PathTest.kt:109-116 | absent exactly when every parameter has a value; otherwise it names a parameter of the path that has no value, and every parameter before its first occurrence has one |
| Paths.ParamValues | hexagon_core/src/test/kotlin/com/hexagonkt/http/PathTest.kt:109-116 | one value per `{name}` placeholder |
| Paths.SubstituteFillsSegments | hexagon_core/src/test/kotlin/com/hexagonkt/http/PathTest.kt:109-116 | without wildcards, replacing each `{name}` by its value leaves the segments untouched and puts the values between them |
| Paths.SubstituteIsFill | hexagon_core/src/test/kotlin/com/hexagonkt/http/PathTest.kt:109-116 | the substituted text is the URL rebuilt with the values as the captures of the groups |
| Paths.MissingIffUnnamed | hexagon_core/src/test/kotlin/com/hexagonkt/http/PathTest.kt:109-116 | without wildcards, some parameter lacks a value exactly when some name of the parameter index lacks one |
| Paths.NoGroupsWhenPlain | hexagon_core/src/test/kotlin/com/hexagonkt/http/PathTest.kt:12-25 | a path with no regex has no capturing groups, and its tokens write back to its text |
| Paths.NoWildcardToken | hexagon_core/src/test/kotlin/com/hexagonkt/http/PathTest.kt:118-122 | a path whose text holds no `*` has no wildcard token |
| PathSyntax.TokenizeSpec | hexagon_core/src/test/kotlin/com/hexagonkt/http/PathTest.kt:13-14 | splitting a path gives canonical tokens that write back to the same text (the `path` field keeps the text); no tokens only for empty text; the first token is a literal exactly when the text does not start with a placeholder |
| PathSyntax.TokenizeUnparse | hexagon_core/src/test/kotlin/com/hexagonkt/http/PathTest.kt:13-14 | writing canonical tokens out and splitting the text again gives the same tokens: the inverse direction of TokenizeSpec |
| PathSyntax.UnparseAppend | hexagon_core/src/test/kotlin/com/hexagonkt/http/PathTest.kt:13-14 | writing out two token lists in a row writes out their concatenation |
| PathSyntax.StarIffWildcard | hexagon_core/src/test/kotlin/com/hexagonkt/http/PathTest.kt:57-58 | the text holds `*` exactly when its tokens hold a wildcard |
| PathSyntax.LiteralLength | hexagon_core/src/test/kotlin/com/hexagonkt/http/PathTest.kt:13-14 | the longest prefix free of `{` and `*`: nothing in it starts a placeholder, and the next character does |
| PathSyntax.CloseIndex | hexagon_core/src/test/kotlin/com/hexagonkt/http/PathTest.kt:55-56 | the position of the first `}`, or the end when there is none |
| PathSyntax.UnparseStartsWithPlaceholder | hexagon_core/src/test/kotlin/com/hexagonkt/http/PathTest.kt:13-14 | a step of TokenizeUnparse: canonical tokens that do not start with a literal write out to text that starts with `{` or `*`, so splitting it again does not begin with a literal |
| PathCompile.Groups | hexagon_core/src/test/kotlin/com/hexagonkt/http/PathTest.kt:59-60 | the capturing groups are placeholders only, at most one per token |
| PathCompile.ParameterIndex | hexagon_core/src/test/kotlin/com/hexagonkt/http/PathTest.kt:59-60 | one entry per capturing group |
| PathCompile.ParameterIndexNames | hexagon_core/src/test/kotlin/com/hexagonkt/http/PathTest.kt:81-106 | the entry of a group is empty exactly when the group is a wildcard, and is the parameter's name otherwise |
| PathCompile.HasNamedGroupIffParam | hexagon_core/src/test/kotlin/com/hexagonkt/http/PathTest.kt:81-106 | the parameter index has a non-empty name exactly when the path has a `{name}` |
| PathCompile.RegexIsRewrittenPath | hexagon_core/src/test/kotlin/com/hexagonkt/http/PathTest.kt:55-60 | the regular expression built from the tokens is the path text rewritten character by character: `*` to `(.*?)`, `{name}` to `(.+?)`, anything else kept |
| PathCompile.RegexBodyAppend | hexagon_core/src/test/kotlin/com/hexagonkt/http/PathTest.kt:81-106 | the regular expression of two token lists in a row is their two regular expressions in a row |
| PathCompile.RewriteLiteralRun | hexagon_core/src/test/kotlin/com/hexagonkt/http/PathTest.kt:55-60 | rewriting keeps literal text verbatim |
| PathCompile.Segments | hexagon_core/src/test/kotlin/com/hexagonkt/http/PathTest.kt:124-133 | always one segment more than there are parameters |
| PathCompile.Placeholders | hexagon_core/src/test/kotlin/com/hexagonkt/http/PathTest.kt:124-133 | one placeholder text per parameter |
| PathCompile.SegmentsSplitPath | hexagon_core/src/test/kotlin/com/hexagonkt/http/PathTest.kt:124-133 | putting the `{name}` placeholders back between the segments restores the path text: the segments are the text cut at the placeholders |
| PathCompile.SegmentsBraceFree | hexagon_core/src/test/kotlin/com/hexagonkt/http/PathTest.kt:124-133 | no segment holds a brace, so each placeholder is cut out whole |
| PathCompile.SegmentsWithoutParams | hexagon_core/src/test/kotlin/com/hexagonkt/http/PathTest.kt:12-25 | without parameters the only segment is the whole path text |
| PathMatching.MatchFrom | hexagon_core/src/test/kotlin/com/hexagonkt/http/PathTest.kt:52-79 | a match gives one capture per group; the captures fit their groups and rebuild the whole URL |
| PathMatching.TryCapture | hexagon_core/src/test/kotlin/com/hexagonkt/http/PathTest.kt:62-66 | a reluctant group's capture fits the group, and the capture followed by a match of the remaining tokens rebuilds the URL |
| PathMatching.TryCaptureShortest | hexagon_core/src/test/kotlin/com/hexagonkt/http/PathTest.kt:62-66 | the capture a reluctant group takes is the shortest one from which the rest matches; no capture at all means no split of the URL works |
| PathMatching.MatchComplete | hexagon_core/src/test/kotlin/com/hexagonkt/http/PathTest.kt:62-66 | whenever captures that fit their groups rebuild the URL, the search finds a match |
| PathMatching.MatchIffDenotes | hexagon_core/src/test/kotlin/com/hexagonkt/http/PathTest.kt:62-66 | the search succeeds exactly on the URLs the regular expression denotes |
| PathMatching.MatchShortestFirst | hexagon_core/src/test/kotlin/com/hexagonkt/http/PathTest.kt:68-69 | of all the captures that rebuild the URL, the search returns the least in shortest-first order |
| PathMatching.MatchWithoutGroups | hexagon_core/src/test/kotlin/com/hexagonkt/http/PathTest.kt:20-22 | tokens without groups match their own text and nothing else |
| PathMatching.MatchFillSlashDelimited | hexagon_core/src/test/kotlin/com/hexagonkt/http/PathTest.kt:77-78 | when each group is closed by `/` or ends the path and no capture holds `/`, matching the rebuilt URL gives back exactly those captures |
| PathMatching.NoSplitInsideCapture | hexagon_core/src/test/kotlin/com/hexagonkt/http/PathTest.kt:77-78 | a step of MatchFillSlashDelimited, which gives the captures `abc` and `def`: tokens that are empty or open with `/` cannot match from inside a slash-free capture, so a group cannot stop early |
| PathMatching.FillLongEnough | hexagon_core/src/test/kotlin/com/hexagonkt/http/PathTest.kt:64-65 | a rebuilt URL is never shorter than the literal text plus one character per parameter |
| PathMatching.FillEndsWithLastLiteral | hexagon_core/src/test/kotlin/com/hexagonkt/http/PathTest.kt:53 | a rebuilt URL ends with the literal text that ends the path |
| PathProperties.PlainPath | hexagon_core/src/test/kotlin/com/hexagonkt/http/PathTest.kt:12-25 | a path without `{name}` and `*` has no regex, an empty parameter index and its text as its only segment; it matches exactly its own text; extracting from it gives the empty map |
| PathProperties.MatchedUrlKeepsLeadingText | hexagon_core/src/test/kotlin/com/hexagonkt/http/PathTest.kt:46-49 | every path opens with literal text starting with `/`, and every URL it matches starts with that text: no start drift |
| PathProperties.MatchedUrlKeepsTrailingText | hexagon_core/src/test/kotlin/com/hexagonkt/http/PathTest.kt:53 | a URL matched by a path that ends in literal text ends with that text, so nothing may follow it |
| PathProperties.MatchedUrlLength | hexagon_core/src/test/kotlin/com/hexagonkt/http/PathTest.kt:64-65 | a matched URL is at least as long as the literal text of the path plus one character per parameter |
| PathProperties.GroupsEmptyIff | hexagon_core/src/test/kotlin/com/hexagonkt/http/PathTest.kt:15-18 | there are no groups exactly when there is no parameter and no wildcard |
| PathProperties.WildcardInGroups | hexagon_core/src/test/kotlin/com/hexagonkt/http/PathTest.kt:57-58 | a wildcard is a group exactly when the path has one |
| PathProperties.FlagsAgreeWithParameterIndex | hexagon_core/src/test/kotlin/com/hexagonkt/http/PathTest.kt:81-106 | `hasWildcards` holds exactly when the parameter index has an empty name; `hasParameters` exactly when it has a non-empty one; the regex is absent exactly when the index is empty |
| PathProperties.RegexRewritesPath | hexagon_core/src/test/kotlin/com/hexagonkt/http/PathTest.kt:55-60 | the regex text of a path is its text with `{name}` rewritten to `(.+?)` and `*` to `(.*?)`, everything else kept, then `$` |
| PathProperties.FitsAt | hexagon_core/src/test/kotlin/com/hexagonkt/http/PathTest.kt:62-66 | captures that fit their tokens fit each group at its own position |
| PathProperties.ExtractedValuesNotEmpty | hexagon_core/src/test/kotlin/com/hexagonkt/http/PathTest.kt:64 | every extracted value is one or more characters, none a line terminator |
| PathProperties.LastIndexOf | hexagon_core/src/test/kotlin/com/hexagonkt/http/PathTest.kt:77-78 | a step of ExtractedValuesNotEmpty: the last position of a name in the parameter index, whose capture is the extracted value |
| PathProperties.ParamValuesAreIndexed | hexagon_core/src/test/kotlin/com/hexagonkt/http/PathTest.kt:109-116 | without wildcards, the parameter values in order are the values of the names of the parameter index |
| PathProperties.ParamValuesFit | hexagon_core/src/test/kotlin/com/hexagonkt/http/PathTest.kt:109-116 | non-empty values free of line terminators fit the parameter groups |
| PathProperties.CreateSucceeds | hexagon_core/src/test/kotlin/com/hexagonkt/http/PathTest.kt:109-116 | a path without wildcards creates a URL whenever every parameter has a value |
| PathProperties.CreateIsFill | hexagon_core/src/test/kotlin/com/hexagonkt/http/PathTest.kt:109-116 | a created URL is the path rebuilt with the parameter values as captures |
| PathProperties.ParamNamesIndexed | hexagon_core/src/test/kotlin/com/hexagonkt/http/PathTest.kt:109-116 | every parameter name of a path is in its parameter index |
| PathProperties.CreatedUrlMatches | hexagon_core/src/test/kotlin/com/hexagonkt/http/PathTest.kt:109-116 | a path matches the URL it creates from non-empty values free of line terminators |
| PathProperties.KnownValuesSnoc | hexagon_core/src/test/kotlin/com/hexagonkt/http/PathTest.kt:77-78 | a step of BindConsistent, which gives the map `{param: abc, arg: def}` from consistent captures: adding a name at the end adds its value, when it has one and is not empty |
| PathProperties.BindConsistent | hexagon_core/src/test/kotlin/com/hexagonkt/http/PathTest.kt:77-78 | when every named capture is the value of its name, binding gives exactly the values of those names |
| PathProperties.BindValues | hexagon_core/src/test/kotlin/com/hexagonkt/http/PathTest.kt:77-78 | binding the parameter index to the values in parameter order gives the value of every indexed name |
| PathProperties.CreatedUrlCaptures | hexagon_core/src/test/kotlin/com/hexagonkt/http/PathTest.kt:109-116 | when every parameter is closed by `/` or ends the path and every value is non-empty, free of line terminators and free of `/`, matching the created URL captures exactly the values in parameter order |
| PathProperties.ExtractAfterCreate | hexagon_core/src/test/kotlin/com/hexagonkt/http/PathTest.kt:109-116 | when every parameter is closed by `/` or ends the path and every value is non-empty, free of line terminators and free of `/`, extracting from the created URL gives back the value of every parameter of the path |
| PathProperties.Parses | hexagon_core/src/test/kotlin/com/hexagonkt/http/PathTest.kt:13-14 | a canonical token list written out to a rooted, colon-free text is the path built from that text |
| PathExamplePaths.PlainParses | hexagon_core/src/test/kotlin/com/hexagonkt/http/PathTest.kt:13-14 | `/alfa/bravo/tango` is built and split into one literal |
| PathExamplePaths.OneParamParses | hexagon_core/src/test/kotlin/com/hexagonkt/http/PathTest.kt:46 | `/alfa/{param}/tango` is built and split into literal, parameter, literal |
| PathExamplePaths.OneParamStarParses | hexagon_core/src/test/kotlin/com/hexagonkt/http/PathTest.kt:55-56 | `/alfa/{param}/tango*` is built with its four tokens |
| PathExamplePaths.TwoParamsParses | hexagon_core/src/test/kotlin/com/hexagonkt/http/PathTest.kt:71-72 | `/alfa/{param}/tango/{arg}` is built with its four tokens |
| PathExamplePaths.StarParamParses | hexagon_core/src/test/kotlin/com/hexagonkt/http/PathTest.kt:82-83 | `/alfa/*/{param}/tango` is built with its five tokens |
| PathExamplePaths.TwoParamsStarParses | hexagon_core/src/test/kotlin/com/hexagonkt/http/PathTest.kt:88-89 | `/alfa/{param}/tango/{arg}/*` is built with its six tokens |
| PathExamplePaths.StarsParamParses | hexagon_core/src/test/kotlin/com/hexagonkt/http/PathTest.kt:96-97 | `/*/alfa/*/{param}/tango` is built with its seven tokens |
| PathExamplePaths.StarTwoParamsStarParses | hexagon_core/src/test/kotlin/com/hexagonkt/http/PathTest.kt:102-103 | `/alfa/*/{param}/tango/{arg}/*` is built with its eight tokens |
| PathExamplePaths.TwoSegmentParamsParses | hexagon_core/src/test/kotlin/com/hexagonkt/http/PathTest.kt:125 | `/alfa/{p1}/beta/{p2}` is built with its four tokens |
| PathExamplePaths.ThreeSegmentParamsParses | hexagon_core/src/test/kotlin/com/hexagonkt/http/PathTest.kt:128 | `/{p0}/alfa/{p1}/beta/{p2}` is built with its six tokens |
| PathExamplePaths.OneSegmentParamParses | hexagon_core/src/test/kotlin/com/hexagonkt/http/PathTest.kt:131 | `/alfa/{p1}/beta` is built with its three tokens |
| PathExamples.PlainPathHasNoRegex | hexagon_core/src/test/kotlin/com/hexagonkt/http/PathTest.kt:13-18 | the plain path keeps its text, has neither flag, no regex and an empty parameter index |
| PathExamples.PlainPathMatchesItself | hexagon_core/src/test/kotlin/com/hexagonkt/http/PathTest.kt:20-24 | the plain path matches its own text, not a longer URL and not a URL with a prefix, and extracts the empty map from its text |
| PathExamples.MissingSlashRefused | hexagon_core/src/test/kotlin/com/hexagonkt/http/PathTest.kt:28-31 | `alfa/bravo` is refused for its missing `/`, as an IllegalArgument failure |
| PathExamples.MissingSlashWithColonRefused | hexagon_core/src/test/kotlin/com/hexagonkt/http/PathTest.kt:33-36 | `alfa/bravo/:id` is refused, as an IllegalArgument failure; the missing `/` is checked first |
| PathExamples.ColonRefused | hexagon_core/src/test/kotlin/com/hexagonkt/http/PathTest.kt:33 | `/alfa/bravo/:id`, with its `/`, is refused for its `:` as an IllegalArgument failure |
| PathExamples.ExtractFromLongerUrlFails | hexagon_core/src/test/kotlin/com/hexagonkt/http/PathTest.kt:40-44 | extracting `/alfa/bravo/tango/zulu` from the plain path fails as an IllegalArgument failure |
| PathExamples.ExtractFromUnrootedUrlFails | hexagon_core/src/test/kotlin/com/hexagonkt/http/PathTest.kt:46-49 | extracting `zulu/alfa/abc/tango` from `/alfa/{param}/tango` fails: no start drift |
| PathExamples.OneParamRejectsLongerUrl | hexagon_core/src/test/kotlin/com/hexagonkt/http/PathTest.kt:53 | `/alfa/{param}/tango` does not match `/alfa/a/tango/zulu` |
| PathExamples.OneParamStarFlags | hexagon_core/src/test/kotlin/com/hexagonkt/http/PathTest.kt:55-60 | `/alfa/{param}/tango*` keeps its text, has both flags and the index `["param", ""]` |
| PathExamples.OneParamStarRegex | hexagon_core/src/test/kotlin/com/hexagonkt/http/PathTest.kt:59 | its regex is `/alfa/(.+?)/tango(.*?)$` |
| PathExamples.OneParamStarFill | hexagon_core/src/test/kotlin/com/hexagonkt/http/PathTest.kt:62-66 | its URLs are `/alfa/`, a parameter value, `/tango`, then anything; the parameter needs a character and the wildcard does not |
| PathExamples.OneParamStarMatchesA | hexagon_core/src/test/kotlin/com/hexagonkt/http/PathTest.kt:62 | it matches `/alfa/a/tango` |
| PathExamples.OneParamStarMatchesAbc | hexagon_core/src/test/kotlin/com/hexagonkt/http/PathTest.kt:63 | it matches `/alfa/abc/tango` |
| PathExamples.OneParamStarRejectsEmptyParam | hexagon_core/src/test/kotlin/com/hexagonkt/http/PathTest.kt:64-65 | it matches neither `/alfa//tango` nor `/alfa/tango` |
| PathExamples.OneParamStarMatchesAZulu | hexagon_core/src/test/kotlin/com/hexagonkt/http/PathTest.kt:66 | it matches `/alfa/a/tango/zulu`, the wildcard taking `/zulu` |
| PathExamples.OneParamStarExtracts | hexagon_core/src/test/kotlin/com/hexagonkt/http/PathTest.kt:68-69 | extracting from `/alfa/abc/tango` gives `{param: abc}`, the wildcard left out |
| PathExamples.TwoParamsFlags | hexagon_core/src/test/kotlin/com/hexagonkt/http/PathTest.kt:71-75 | `/alfa/{param}/tango/{arg}` keeps its text, has parameters and the index `["param", "arg"]` |
| PathExamples.TwoParamsRegex | hexagon_core/src/test/kotlin/com/hexagonkt/http/PathTest.kt:74 | its regex is `/alfa/(.+?)/tango/(.+?)$` |
| PathExamples.TwoParamsFill | hexagon_core/src/test/kotlin/com/hexagonkt/http/PathTest.kt:77-78 | its URLs are `/alfa/`, a value, `/tango/`, a value, with both values non-empty |
| PathExamples.TwoParamsExtracts | hexagon_core/src/test/kotlin/com/hexagonkt/http/PathTest.kt:77-78 | extracting from `/alfa/abc/tango/def` gives `{param: abc, arg: def}` |
| PathExamples.StarParamFlags | hexagon_core/src/test/kotlin/com/hexagonkt/http/PathTest.kt:82-86 | `/alfa/*/{param}/tango` keeps its text, has both flags and the index `["", "param"]` |
| PathExamples.StarParamRegex | hexagon_core/src/test/kotlin/com/hexagonkt/http/PathTest.kt:85 | its regex is `/alfa/(.*?)/(.+?)/tango$` |
| PathExamples.TwoParamsStarFlags | hexagon_core/src/test/kotlin/com/hexagonkt/http/PathTest.kt:88-92 | `/alfa/{param}/tango/{arg}/*` keeps its text, has both flags and the index `["param", "arg", ""]` |
| PathExamples.TwoParamsStarRegex | hexagon_core/src/test/kotlin/com/hexagonkt/http/PathTest.kt:91 | its regex is `/alfa/(.+?)/tango/(.+?)/(.*?)$` |
| PathExamples.StarsParamFlags | hexagon_core/src/test/kotlin/com/hexagonkt/http/PathTest.kt:96-100 | `/*/alfa/*/{param}/tango` keeps its text, has both flags and the index `["", "", "param"]` |
| PathExamples.StarsParamRegex | hexagon_core/src/test/kotlin/com/hexagonkt/http/PathTest.kt:99 | its regex is `/(.*?)/alfa/(.*?)/(.+?)/tango$` |
| PathExamples.StarTwoParamsStarFlags | hexagon_core/src/test/kotlin/com/hexagonkt/http/PathTest.kt:102-106 | `/alfa/*/{param}/tango/{arg}/*` keeps its text, has both flags and the index `["", "param", "arg", ""]` |
| PathExamples.StarTwoParamsStarRegex | hexagon_core/src/test/kotlin/com/hexagonkt/http/PathTest.kt:105 | its regex is `/alfa/(.*?)/(.+?)/tango/(.+?)/(.*?)$` |
| PathExamples.CreateOneParam | hexagon_core/src/test/kotlin/com/hexagonkt/http/PathTest.kt:110-111 | `/alfa/{param}/tango` with `param := bravo` creates `/alfa/bravo/tango` |
| PathExamples.CreateTwoParams | hexagon_core/src/test/kotlin/com/hexagonkt/http/PathTest.kt:113-115 | `/alfa/{param}/tango/{arg}` with `bravo` and `zulu` creates `/alfa/bravo/tango/zulu` |
| PathExamples.CreateWithWildcardFails | hexagon_core/src/test/kotlin/com/hexagonkt/http/PathTest.kt:118-122 | `/alfa/*/{param}/tango` refuses to create, as an IllegalState failure, although `param` has a value |
| PathExamples.SegmentsOfTwoParams | hexagon_core/src/test/kotlin/com/hexagonkt/http/PathTest.kt:125-126 | the segments of `/alfa/{p1}/beta/{p2}` are `["/alfa/", "/beta/", ""]` |
| PathExamples.SegmentsOfThreeParams | hexagon_core/src/test/kotlin/com/hexagonkt/http/PathTest.kt:128-129 | the segments of `/{p0}/alfa/{p1}/beta/{p2}` are `["/", "/alfa/", "/beta/", ""]` |
| PathExamples.SegmentsOfOneParam | hexagon_core/src/test/kotlin/com/hexagonkt/http/PathTest.kt:131-132 | the segments of `/alfa/{p1}/beta` are `["/alfa/", "/beta"]` |
| PathExamples.ValueWithTangoCreated | hexagon_core/src/test/kotlin/com/hexagonkt/http/PathTest.kt:113-115 | `param := x/tango/y` and `arg := z` create `/alfa/x/tango/y/tango/z` |
| PathExamples.ValueWithTangoSplitsEarly | hexagon_core/src/test/kotlin/com/hexagonkt/http/PathTest.kt:77-78 | matching that URL gives `param` a capture of at most one character, because the shortest capture is tried first |
| PathExamples.ValueWithTangoExtracted | hexagon_core/src/test/kotlin/com/hexagonkt/http/PathTest.kt:77-78 | extracting from that URL gives `{param: x, arg: y/tango/z}` |
| PathExamples.CreateThenExtractCanDiffer | hexagon_core/src/test/kotlin/com/hexagonkt/http/PathTest.kt:109-116 | some path and values create a URL from which extraction does not give back the values |

## Left out

- The `Path` class source is not part of this model. Its behaviour is taken from its test,
  and the test never shows the exception messages. Failures are modelled by kind only:
  IllegalArgument or IllegalState. Each failure keeps the text it is about (the path, the
  URL or the missing name), except the refusal to create from a path with wildcards.
- Escaping of regular-expression metacharacters in literal text is left out. The regex
  text keeps literal text verbatim, and literal text is matched as itself. No test path holds
  a metacharacter.
- A general regular-expression engine is left out. Matching is the token search
  `PathMatching.MatchFrom`, which covers the two group shapes a path produces.
- Paths.NewPath: takes well-formed braces as a precondition. Every `{` must close over a
  non-empty name without `{`, `}`, `/` or `*`, and no `}` may stand alone. The test never
  builds a path with malformed braces, so the model invents no behaviour for them.
- Paths.NewPath: checks the leading `/` before the `:`, so `alfa/bravo/:id` reports the
  missing `/`. The test only asks for an IllegalArgument failure there, which both checks
  give.
- Paths.Path.Create: a parameter without a value fails with `MissingValue` as an
  IllegalArgument. The test does not exercise it. Values for names the path does not have
  are ignored.
- Paths.Path.Create: takes its values as a map, where the class takes `name to value`
  pairs. A name given twice is not modelled.
- Paths.Path.ExtractParameters: when a parameter name appears twice in a path, the later
  capture wins. The test never repeats a name.
- A match that begins further into the URL is not modelled: lines 46-49 of the test require
  the whole URL to match.
- The general create-then-extract round trip is not stated, because it does not hold
  (`PathExamples.CreateThenExtractCanDiffer`). `PathProperties.ExtractAfterCreate` states it
  for slash-delimited parameters whose values are non-empty, free of line terminators and
  free of `/`.
- Request handling in `port_http_server/.../Call.kt` is not part of this model: it only
  updates an external response and reads unseen headers.
- The MongoDB mapper in `store_mongodb/.../MongoDbMapper.kt` is not part of this model:
  it is reflection and serialization.
- The Ratpack wrapper in `src/main/kotlin/co/there4/hexagon/ratpack/RatpackPackage.kt` is not
  part of this model: it only starts a server.
