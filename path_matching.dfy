/**
 * Matching a URL against a compiled path.
 *
 * The compiled regular expression is a chain of literal text and reluctant
 * groups `(.+?)` / `(.*?)` anchored with `$`, matched against the whole URL.
 * A backtracking engine tries, for the leftmost group first, the shortest
 * capture that lets the rest of the chain match, and gives the next length
 * a try only when every continuation failed. MatchFrom is that search over
 * the tokens. Denotes is the declarative reading (some choice of captures
 * rebuilds the URL), and the lemmas show the search finds a match exactly
 * when one exists, and that the captures it returns are the shortest-first
 * ones.
 */
module PathMatching {
  import opened PathSyntax
  import opened PathCompile

  datatype Option<T> = None | Some(value: T)

  /**
   * The characters `.` matches in java.util.regex without DOTALL: all but the
   * line terminators.
   */
  predicate IsDot(c: char) {
    c != '\n' && c != '\r' && c != '\U{0085}' && c != '\U{2028}' && c != '\U{2029}'
  }

  predicate AllDot(s: string) {
    forall i :: 0 <= i < |s| ==> IsDot(s[i])
  }

  /** Fewest characters a group captures: one for `{name}`, none for `*`. */
  function MinLength(t: Token): nat {
    if t.Param? then 1 else 0
  }

  /** `c` is a capture the group of `t` can make. */
  predicate FitsGroup(t: Token, c: string) {
    MinLength(t) <= |c| && AllDot(c)
  }

  /** The URL obtained by putting the captures in place of the groups. */
  function Fill(toks: seq<Token>, caps: seq<string>): string
    requires |caps| == |Groups(toks)|
  {
    if toks == [] then ""
    else if toks[0].Literal? then toks[0].text + Fill(toks[1..], caps)
    else caps[0] + Fill(toks[1..], caps[1..])
  }

  /** The length of the shortest URL the tokens can match. */
  function MinimalUrlLength(toks: seq<Token>): nat {
    if toks == [] then 0
    else (if toks[0].Literal? then |toks[0].text| else MinLength(toks[0])) + MinimalUrlLength(toks[1..])
  }

  /** Every capture fits its group. */
  predicate Fits(toks: seq<Token>, caps: seq<string>)
    requires |caps| == |Groups(toks)|
  {
    if toks == [] then true
    else if toks[0].Literal? then Fits(toks[1..], caps)
    else FitsGroup(toks[0], caps[0]) && Fits(toks[1..], caps[1..])
  }

  /** Some captures that fit their groups rebuild `u`: the language of the regular expression. */
  ghost predicate Denotes(toks: seq<Token>, u: string) {
    exists caps :: |caps| == |Groups(toks)| && Fits(toks, caps) && Fill(toks, caps) == u
  }

  /**
   * Matches the whole of `u`; on success gives one capture per group, left
   * to right.
   */
  function MatchFrom(toks: seq<Token>, u: string): (r: Option<seq<string>>)
    ensures r.Some? ==> |r.value| == |Groups(toks)| && Fits(toks, r.value) && Fill(toks, r.value) == u
    decreases |toks|, 1, 0
  {
    if toks == [] then
      if u == [] then Some([]) else None
    else if toks[0].Literal? then
      var s := toks[0].text;
      if s <= u then
        assert u == s + u[|s|..];
        MatchFrom(toks[1..], u[|s|..])
      else None
    else
      TryCapture(toks[0], toks[1..], u, MinLength(toks[0]))
  }

  /**
   * The group `t` captures `u[..k]`, then `u[..k + 1]`, and so on, until the
   * rest of the tokens match what is left; a capture stops growing at the
   * first character `.` does not match.
   */
  function TryCapture(t: Token, rest: seq<Token>, u: string, k: nat): (r: Option<seq<string>>)
    requires !t.Literal? && MinLength(t) <= k
    ensures r.Some? ==>
      && |r.value| == |Groups(rest)| + 1
      && FitsGroup(t, r.value[0])
      && Fits(rest, r.value[1..])
      && r.value[0] + Fill(rest, r.value[1..]) == u
    decreases |rest| + 1, 0, |u| - k
  {
    if k > |u| || !AllDot(u[..k]) then None
    else
      match MatchFrom(rest, u[k..])
      case Some(caps) =>
        assert u == u[..k] + u[k..];
        assert ([u[..k]] + caps)[1..] == caps;
        Some([u[..k]] + caps)
      case None => TryCapture(t, rest, u, k + 1)
  }

  /** A group may take `u[..j]` and leave the rest to `rest`. */
  ghost predicate CanSplit(rest: seq<Token>, u: string, j: nat) {
    j <= |u| && AllDot(u[..j]) && MatchFrom(rest, u[j..]).Some?
  }

  /** TryCapture returns the shortest capture from `k` on that lets the rest match. */
  lemma {:induction false} TryCaptureShortest(t: Token, rest: seq<Token>, u: string, k: nat)
    requires !t.Literal? && MinLength(t) <= k
    ensures var r := TryCapture(t, rest, u, k);
      r.Some? ==>
        var j := |r.value[0]|;
        && k <= j <= |u|
        && r.value[0] == u[..j]
        && CanSplit(rest, u, j)
        && MatchFrom(rest, u[j..]) == Some(r.value[1..])
        && forall i :: k <= i < j ==> !CanSplit(rest, u, i)
    ensures TryCapture(t, rest, u, k).None? ==> forall i :: k <= i <= |u| ==> !CanSplit(rest, u, i)
    decreases |u| - k
  {
    if k > |u| {
    } else if !AllDot(u[..k]) {
      NotAllDotExtends(u, k);
    } else if MatchFrom(rest, u[k..]).Some? {
      TryCaptureHit(t, rest, u, k);
    } else {
      TryCaptureMiss(t, rest, u, k);
      TryCaptureShortest(t, rest, u, k + 1);
    }
  }

  /** When the rest matches after `u[..k]`, the group captures exactly that. */
  lemma TryCaptureHit(t: Token, rest: seq<Token>, u: string, k: nat)
    requires !t.Literal? && MinLength(t) <= k <= |u| && AllDot(u[..k])
    requires MatchFrom(rest, u[k..]).Some?
    ensures TryCapture(t, rest, u, k) == Some([u[..k]] + MatchFrom(rest, u[k..]).value)
    ensures CanSplit(rest, u, k)
  {
  }

  /** When the rest does not match after `u[..k]`, the group tries one more character. */
  lemma TryCaptureMiss(t: Token, rest: seq<Token>, u: string, k: nat)
    requires !t.Literal? && MinLength(t) <= k <= |u| && AllDot(u[..k])
    requires MatchFrom(rest, u[k..]).None?
    ensures TryCapture(t, rest, u, k) == TryCapture(t, rest, u, k + 1)
    ensures !CanSplit(rest, u, k)
  {
  }

  /** A prefix holding a character `.` does not match spoils every longer prefix. */
  lemma NotAllDotExtends(u: string, k: nat)
    requires k <= |u| && !AllDot(u[..k])
    ensures forall i :: k <= i <= |u| ==> !AllDot(u[..i])
  {
    forall i | k <= i <= |u|
      ensures !AllDot(u[..i])
    {
      assert u[..k] == u[..i][..k];
    }
  }

  /** Whenever captures rebuild `u`, the search finds a match. */
  lemma {:induction false} MatchComplete(toks: seq<Token>, u: string, caps: seq<string>)
    requires |caps| == |Groups(toks)| && Fits(toks, caps) && Fill(toks, caps) == u
    ensures MatchFrom(toks, u).Some?
  {
    if toks != [] {
      var rest := toks[1..];
      if toks[0].Literal? {
        var s := toks[0].text;
        assert u == s + Fill(rest, caps);
        assert u[|s|..] == Fill(rest, caps);
        MatchComplete(rest, u[|s|..], caps);
      } else {
        var c := caps[0];
        var v := Fill(rest, caps[1..]);
        assert u == c + v;
        assert u[..|c|] == c && u[|c|..] == v;
        MatchComplete(rest, v, caps[1..]);
        assert CanSplit(rest, u, |c|);
        TryCaptureShortest(toks[0], rest, u, MinLength(toks[0]));
      }
    }
  }

  /** The search succeeds exactly on the URLs the regular expression denotes. */
  lemma MatchIffDenotes(toks: seq<Token>, u: string)
    ensures MatchFrom(toks, u).Some? <==> Denotes(toks, u)
  {
    if Denotes(toks, u) {
      var caps :| |caps| == |Groups(toks)| && Fits(toks, caps) && Fill(toks, caps) == u;
      MatchComplete(toks, u, caps);
    }
  }

  /**
   * `a` comes before `b` when the first capture where their lengths differ
   * is shorter in `a`: the order in which reluctant groups are tried.
   */
  predicate ShorterFirst(a: seq<string>, b: seq<string>)
    requires |a| == |b|
  {
    a == [] || |a[0]| < |b[0]| || (|a[0]| == |b[0]| && ShorterFirst(a[1..], b[1..]))
  }

  /**
   * Of all the captures that rebuild `u`, the search returns the least in
   * shortest-first order: each group captures as little as it can given
   * the groups to its left.
   */
  lemma {:induction false} MatchShortestFirst(toks: seq<Token>, u: string, caps: seq<string>)
    requires |caps| == |Groups(toks)| && Fits(toks, caps) && Fill(toks, caps) == u
    ensures MatchFrom(toks, u).Some?
    ensures ShorterFirst(MatchFrom(toks, u).value, caps)
  {
    MatchComplete(toks, u, caps);
    var m := MatchFrom(toks, u).value;
    if toks != [] {
      var rest := toks[1..];
      if toks[0].Literal? {
        var s := toks[0].text;
        assert u == s + Fill(rest, caps);
        assert u[|s|..] == Fill(rest, caps);
        MatchShortestFirst(rest, u[|s|..], caps);
      } else {
        var c := caps[0];
        var v := Fill(rest, caps[1..]);
        assert u == c + v;
        assert u[..|c|] == c && u[|c|..] == v;
        MatchComplete(rest, v, caps[1..]);
        assert CanSplit(rest, u, |c|);
        TryCaptureShortest(toks[0], rest, u, MinLength(toks[0]));
        if |m[0]| == |c| {
          MatchShortestFirst(rest, v, caps[1..]);
        }
      }
    }
  }

  /** A path without groups matches its own text and nothing else. */
  lemma {:induction false} MatchWithoutGroups(toks: seq<Token>, u: string)
    requires |Groups(toks)| == 0
    ensures MatchFrom(toks, u).Some? <==> u == Unparse(toks)
  {
    FillWithoutGroups(toks);
    if u == Unparse(toks) {
      MatchComplete(toks, u, []);
    }
  }

  lemma {:induction false} FillWithoutGroups(toks: seq<Token>)
    requires |Groups(toks)| == 0
    ensures Fits(toks, []) && Fill(toks, []) == Unparse(toks)
  {
    if toks != [] {
      FillWithoutGroups(toks[1..]);
    }
  }

  /** Every group is at the end or followed by literal text that starts with `/`. */
  predicate SlashDelimited(toks: seq<Token>) {
    toks == [] ||
    (&& (!toks[0].Literal? && |toks| > 1 ==>
          toks[1].Literal? && |toks[1].text| > 0 && toks[1].text[0] == '/')
     && SlashDelimited(toks[1..]))
  }

  predicate NoSlash(caps: seq<string>) {
    forall i :: 0 <= i < |caps| ==> '/' !in caps[i]
  }

  /**
   * When each group is closed by a `/` (or ends the path) and no capture
   * holds a `/`, matching the rebuilt URL gives back exactly those captures.
   */
  lemma {:induction false} MatchFillSlashDelimited(toks: seq<Token>, caps: seq<string>)
    requires |caps| == |Groups(toks)| && Fits(toks, caps)
    requires SlashDelimited(toks) && NoSlash(caps)
    ensures MatchFrom(toks, Fill(toks, caps)) == Some(caps)
  {
    if toks != [] {
      var rest := toks[1..];
      var u := Fill(toks, caps);
      if toks[0].Literal? {
        var s := toks[0].text;
        assert u[|s|..] == Fill(rest, caps);
        MatchFillSlashDelimited(rest, caps);
      } else {
        var c := caps[0];
        var tail := caps[1..];
        assert NoSlash(tail) by {
          assert forall i :: 0 <= i < |tail| ==> tail[i] == caps[i + 1];
        }
        var v := Fill(rest, tail);
        assert u == c + v;
        assert u[..|c|] == c && u[|c|..] == v;
        MatchFillSlashDelimited(rest, tail);
        assert CanSplit(rest, u, |c|);
        var k := MinLength(toks[0]);
        NoSplitInsideCapture(rest, u, c, v);
        TryCaptureShortest(toks[0], rest, u, k);
        var r := TryCapture(toks[0], rest, u, k);
        assert r.Some?;
        assert |r.value[0]| == |c|;
        assert r.value == [r.value[0]] + r.value[1..];
        assert caps == [c] + tail;
        assert MatchFrom(toks, u) == r;
      }
    }
  }

  /** The rest, which is empty or starts with `/`, cannot match from inside a slash-free capture. */
  lemma NoSplitInsideCapture(rest: seq<Token>, u: string, c: string, v: string)
    requires u == c + v && '/' !in c
    requires rest != [] ==> rest[0].Literal? && |rest[0].text| > 0 && rest[0].text[0] == '/'
    ensures forall i :: 0 <= i < |c| ==> !CanSplit(rest, u, i)
  {
    forall i | 0 <= i < |c|
      ensures !CanSplit(rest, u, i)
    {
      assert u[i..][0] == c[i];
    }
  }

  /** Captures that fit their groups never rebuild a URL shorter than the literal text plus one character per parameter. */
  lemma {:induction false} FillLongEnough(toks: seq<Token>, caps: seq<string>)
    requires |caps| == |Groups(toks)| && Fits(toks, caps)
    ensures |Fill(toks, caps)| >= MinimalUrlLength(toks)
  {
    if toks != [] {
      if toks[0].Literal? {
        FillLongEnough(toks[1..], caps);
      } else {
        FillLongEnough(toks[1..], caps[1..]);
      }
    }
  }

  /** A rebuilt URL ends with the literal text that ends the tokens. */
  lemma {:induction false} FillEndsWithLastLiteral(toks: seq<Token>, caps: seq<string>)
    requires |caps| == |Groups(toks)| && |toks| > 0 && toks[|toks| - 1].Literal?
    ensures var s := toks[|toks| - 1].text; var u := Fill(toks, caps);
      |s| <= |u| && u[|u| - |s|..] == s
  {
    var rest := toks[1..];
    if |toks| > 1 {
      assert rest[|rest| - 1] == toks[|toks| - 1];
      if toks[0].Literal? {
        FillEndsWithLastLiteral(rest, caps);
      } else {
        FillEndsWithLastLiteral(rest, caps[1..]);
      }
    }
  }
}
