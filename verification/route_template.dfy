/** Path templates such as `/product/:id/` and what the compiled regular
    expression `^<base><template>$` accepts.

    `addRoute` rewrites every `:\w+` run into the group `([^/]+)` and
    escapes `/`. A template is therefore a sequence of tokens: a literal
    character, or a parameter that captures a non-empty run of characters
    other than `/`. */
module RouteTemplate {
  import opened Wrappers

  datatype Token = Lit(c: char) | Param(name: string)

  /** The ASCII word characters of `\w`. */
  predicate IsWordChar(c: char) {
    ('a' <= c <= 'z') || ('A' <= c <= 'Z') || ('0' <= c <= '9') || c == '_'
  }

  predicate AllWord(s: string) {
    forall i :: 0 <= i < |s| ==> IsWordChar(s[i])
  }

  /** Length of the longest prefix of `s` made of word characters
      (the greedy `\w+`). */
  function WordRun(s: string): (n: nat)
    ensures n <= |s| && AllWord(s[..n])
    ensures n < |s| ==> !IsWordChar(s[n])
  {
    if |s| > 0 && IsWordChar(s[0]) then
      var n := 1 + WordRun(s[1..]);
      assert s[..n] == [s[0]] + s[1..][..n - 1];
      n
    else 0
  }

  /** The scan `path.replace(/:\w+/g, …)` performs: each `:` followed by
      at least one word character starts a parameter whose name is the
      whole word run; every other character stays literal. */
  function Compile(t: string): (toks: seq<Token>)
    decreases |t|
  {
    if |t| == 0 then []
    else if t[0] == ':' && WordRun(t[1..]) > 0 then
      var n := WordRun(t[1..]);
      [Param(t[1..1 + n])] + Compile(t[1 + n..])
    else
      [Lit(t[0])] + Compile(t[1..])
  }

  /** The template text a token sequence stands for. */
  function Render(toks: seq<Token>): string {
    if |toks| == 0 then ""
    else match toks[0]
      case Lit(c) => [c] + Render(toks[1..])
      case Param(n) => ":" + n + Render(toks[1..])
  }

  /** The parameter names in left-to-right order (`paramNames`). */
  function ParamNames(toks: seq<Token>): (names: seq<string>)
    ensures |names| <= |toks|
  {
    if |toks| == 0 then []
    else match toks[0]
      case Lit(_) => ParamNames(toks[1..])
      case Param(n) => [n] + ParamNames(toks[1..])
  }

  /** One literal token per character: how `baseUrl` enters the regex. */
  function Literal(s: string): (toks: seq<Token>)
    ensures |toks| == |s|
    ensures forall i :: 0 <= i < |s| ==> toks[i] == Lit(s[i])
  {
    if |s| == 0 then [] else [Lit(s[0])] + Literal(s[1..])
  }

  predicate StartsWithWordLit(toks: seq<Token>) {
    |toks| > 0 && toks[0].Lit? && IsWordChar(toks[0].c)
  }

  predicate HeadWellTokenized(toks: seq<Token>)
    requires |toks| > 0
  {
    match toks[0]
    case Param(n) => |n| > 0 && AllWord(n) && !StartsWithWordLit(toks[1..])
    case Lit(c) => c == ':' ==> !StartsWithWordLit(toks[1..])
  }

  /** The token sequences `Compile` produces: parameter names are maximal
      non-empty word runs, and a literal `:` is never followed by a word
      character (that would have started a parameter). */
  predicate WellTokenized(toks: seq<Token>) {
    |toks| == 0 ||
    (HeadWellTokenized(toks) && WellTokenized(toks[1..]))
  }

  lemma {:induction false} WordRunPrefix(n: string, rest: string)
    requires AllWord(n)
    requires |rest| == 0 || !IsWordChar(rest[0])
    ensures WordRun(n + rest) == |n|
    decreases |n|
  {
    if |n| > 0 {
      assert (n + rest)[1..] == n[1..] + rest;
      WordRunPrefix(n[1..], rest);
    }
  }

  lemma {:induction false} RenderStartsWithWord(toks: seq<Token>)
    ensures |Render(toks)| > 0 && IsWordChar(Render(toks)[0]) <==> StartsWithWordLit(toks)
  {
  }

  /** Compiling then printing gives back the template. */
  lemma {:induction false} RenderCompile(t: string)
    ensures Render(Compile(t)) == t
    ensures WellTokenized(Compile(t))
    decreases |t|
  {
    if |t| > 0 {
      if t[0] == ':' && WordRun(t[1..]) > 0 {
        var n := WordRun(t[1..]);
        RenderCompile(t[1 + n..]);
        RenderCompileParam(t, n);
      } else {
        RenderCompile(t[1..]);
        RenderCompileLit(t);
      }
    }
  }

  /** `RenderCompile` for a template starting with a parameter. */
  lemma RenderCompileParam(t: string, n: nat)
    requires |t| > 0 && t[0] == ':' && n == WordRun(t[1..]) && n > 0
    requires Render(Compile(t[1 + n..])) == t[1 + n..] && WellTokenized(Compile(t[1 + n..]))
    ensures Render(Compile(t)) == t && WellTokenized(Compile(t))
  {
    ParamPieces(t, n);
    var toks := Compile(t);
    assert toks[1..] == Compile(t[1 + n..]);
    RenderStartsWithWord(Compile(t[1 + n..]));
    assert HeadWellTokenized(toks);
  }

  /** How a template starting with `:word` splits. */
  lemma ParamPieces(t: string, n: nat)
    requires |t| > 0 && t[0] == ':' && n == WordRun(t[1..]) && n > 0
    ensures Compile(t) == [Param(t[1..1 + n])] + Compile(t[1 + n..])
    ensures t == ":" + t[1..1 + n] + t[1 + n..]
    ensures AllWord(t[1..1 + n])
    ensures |t[1 + n..]| > 0 ==> !IsWordChar(t[1 + n..][0])
  {
    assert t[1..1 + n] == t[1..][..n];
    assert t[1..][n..] == t[1 + n..];
  }

  /** `RenderCompile` for a template starting with a literal character. */
  lemma RenderCompileLit(t: string)
    requires |t| > 0 && !(t[0] == ':' && WordRun(t[1..]) > 0)
    requires Render(Compile(t[1..])) == t[1..] && WellTokenized(Compile(t[1..]))
    ensures Render(Compile(t)) == t && WellTokenized(Compile(t))
  {
    var toks := Compile(t);
    assert toks == [Lit(t[0])] + Compile(t[1..]);
    assert toks[1..] == Compile(t[1..]);
    assert t == [t[0]] + t[1..];
    if t[0] == ':' {
      RenderStartsWithWord(Compile(t[1..]));
    }
    assert HeadWellTokenized(toks);
  }

  /** Printing then compiling gives back any well-tokenised sequence, so
      `Compile` is a bijection between strings and such sequences. */
  lemma {:induction false} CompileRender(toks: seq<Token>)
    requires WellTokenized(toks)
    ensures Compile(Render(toks)) == toks
  {
    if |toks| > 0 {
      CompileRender(toks[1..]);
      RenderStartsWithWord(toks[1..]);
      match toks[0]
      case Param(n) => CompileRenderParam(n, toks[1..]);
      case Lit(c) => CompileRenderLit(c, toks[1..]);
    }
  }

  lemma CompileRenderParam(n: string, rest: seq<Token>)
    requires |n| > 0 && AllWord(n) && !StartsWithWordLit(rest)
    requires Compile(Render(rest)) == rest
    requires |Render(rest)| > 0 && IsWordChar(Render(rest)[0]) <==> StartsWithWordLit(rest)
    ensures Compile(":" + n + Render(rest)) == [Param(n)] + rest
  {
    var r := Render(rest);
    var t := ":" + n + r;
    assert t[1..] == n + r;
    WordRunPrefix(n, r);
    assert t[1..1 + |n|] == n;
    assert t[1 + |n|..] == r;
  }

  lemma CompileRenderLit(c: char, rest: seq<Token>)
    requires c == ':' ==> !StartsWithWordLit(rest)
    requires Compile(Render(rest)) == rest
    requires |Render(rest)| > 0 && IsWordChar(Render(rest)[0]) <==> StartsWithWordLit(rest)
    ensures Compile([c] + Render(rest)) == [Lit(c)] + rest
  {
    var t := [c] + Render(rest);
    assert t[1..] == Render(rest);
    if c == ':' {
      assert WordRun(Render(rest)) == 0;
    }
  }

  /** Characters before the first `:` compile to literals. */
  lemma {:induction false} CompileLiteralPrefix(s: string, rest: string)
    requires ':' !in s
    ensures Compile(s + rest) == Literal(s) + Compile(rest)
  {
    if |s| > 0 {
      var t := s + rest;
      assert t[0] == s[0] && t[1..] == s[1..] + rest;
      CompileLiteralPrefix(s[1..], rest);
      assert Literal(s) == [Lit(s[0])] + Literal(s[1..]);
    } else {
      assert s + rest == rest;
    }
  }

  /** The names `addRoute` pushes are the word runs of the template's
      `:word` tokens, in order. */
  lemma ParamNamesAreWords(t: string)
    ensures forall i :: 0 <= i < |ParamNames(Compile(t))| ==>
              |ParamNames(Compile(t))[i]| > 0 && AllWord(ParamNames(Compile(t))[i])
  {
    RenderCompile(t);
    WellTokenizedNames(Compile(t));
  }

  lemma {:induction false} WellTokenizedNames(toks: seq<Token>)
    requires WellTokenized(toks)
    ensures forall i :: 0 <= i < |ParamNames(toks)| ==>
              |ParamNames(toks)[i]| > 0 && AllWord(ParamNames(toks)[i])
  {
    if |toks| > 0 {
      WellTokenizedNames(toks[1..]);
    }
  }

  // ---------------------------------------------------------------------
  // What the compiled regex accepts.

  function ParamCount(toks: seq<Token>): nat {
    |ParamNames(toks)|
  }

  /** A capture of `([^/]+)`. */
  predicate Segment(s: string) {
    |s| > 0 && '/' !in s
  }

  predicate Segments(caps: seq<string>) {
    forall i :: 0 <= i < |caps| ==> Segment(caps[i])
  }

  /** The string the regex spells out when its groups capture `caps`. */
  function Instantiate(toks: seq<Token>, caps: seq<string>): string
    requires |caps| == ParamCount(toks)
  {
    if |toks| == 0 then ""
    else match toks[0]
      case Lit(c) => [c] + Instantiate(toks[1..], caps)
      case Param(_) => caps[0] + Instantiate(toks[1..], caps[1..])
  }

  lemma {:induction false} InstantiateLiteral(s: string, toks: seq<Token>, caps: seq<string>)
    requires |caps| == ParamCount(toks)
    ensures ParamNames(Literal(s) + toks) == ParamNames(toks)
    ensures Instantiate(Literal(s) + toks, caps) == s + Instantiate(toks, caps)
  {
    var x := Literal(s) + toks;
    if |s| > 0 {
      assert x[0] == Lit(s[0]);
      assert Literal(s)[1..] == Literal(s[1..]);
      assert x[1..] == Literal(s[1..]) + toks;
      InstantiateLiteral(s[1..], toks, caps);
      assert ParamNames(x) == ParamNames(x[1..]);
      assert s == [s[0]] + s[1..];
    } else {
      assert x == toks;
    }
  }

  /** The anchored regex built from `toks` matches `s` with captures `caps`. */
  predicate Accepts(toks: seq<Token>, s: string, caps: seq<string>) {
    |caps| == ParamCount(toks) && Segments(caps) && Instantiate(toks, caps) == s
  }

  /** Every parameter fills a whole path segment: it is followed by a
      literal `/` or ends the template. Then the first capture the matcher
      tries is the only one that can succeed, and the captures are unique. */
  predicate SegmentParams(toks: seq<Token>) {
    forall i :: 0 <= i < |toks| && toks[i].Param? ==> i + 1 == |toks| || toks[i + 1] == Lit('/')
  }

  /** Length of the longest `/`-free prefix of `s`. */
  function SegmentRun(s: string): (n: nat)
    ensures n <= |s| && '/' !in s[..n]
    ensures n < |s| ==> s[n] == '/'
  {
    if |s| > 0 && s[0] != '/' then
      var n := 1 + SegmentRun(s[1..]);
      assert s[..n] == [s[0]] + s[1..][..n - 1];
      n
    else 0
  }

  /** The anchored regex run on `s`, as a backtracking engine runs it:
      literals must match in turn, and a parameter's `([^/]+)` first takes
      the whole run of non-`/` characters in front of it, then gives back
      one character at a time until the rest matches. `None` is `null`. */
  function MatchTokens(toks: seq<Token>, s: string): Option<seq<string>>
    decreases |toks|, 0, 0
  {
    if |toks| == 0 then (if |s| == 0 then Some([]) else None)
    else match toks[0]
      case Lit(c) =>
        if |s| > 0 && s[0] == c then MatchTokens(toks[1..], s[1..]) else None
      case Param(_) => TryCapture(toks[1..], s, SegmentRun(s))
  }

  /** A parameter followed by `rest` tries the captures `s[..n]`,
      `s[..n - 1]`, …, `s[..1]`, longest first. */
  function TryCapture(rest: seq<Token>, s: string, n: nat): Option<seq<string>>
    requires n <= |s|
    decreases |rest|, 1, n
  {
    if n == 0 then None
    else match MatchTokens(rest, s[n..])
      case Some(caps) => Some([s[..n]] + caps)
      case None => TryCapture(rest, s, n - 1)
  }

  /** What `TryCapture` returns is some capture it tried, followed by the
      rest's match. */
  lemma {:induction false} TryCaptureSplit(rest: seq<Token>, s: string, n: nat)
    requires n <= |s|
    ensures TryCapture(rest, s, n).Some? ==>
              exists k :: 0 < k <= n && MatchTokens(rest, s[k..]).Some?
                          && TryCapture(rest, s, n).value == [s[..k]] + MatchTokens(rest, s[k..]).value
    decreases n
  {
    if n > 0 && MatchTokens(rest, s[n..]).None? {
      TryCaptureSplit(rest, s, n - 1);
    }
  }

  /** Whatever `MatchTokens` returns is a genuine match of the regex. */
  lemma {:induction false} MatchTokensSound(toks: seq<Token>, s: string)
    ensures MatchTokens(toks, s).Some? ==> Accepts(toks, s, MatchTokens(toks, s).value)
  {
    if |toks| > 0 {
      match toks[0]
      case Lit(c) =>
        if |s| > 0 && s[0] == c {
          MatchTokensSound(toks[1..], s[1..]);
          assert s == [c] + s[1..];
        }
      case Param(_) =>
        var n := SegmentRun(s);
        TryCaptureSplit(toks[1..], s, n);
        if TryCapture(toks[1..], s, n).Some? {
          var k :| 0 < k <= n && MatchTokens(toks[1..], s[k..]).Some?
                   && TryCapture(toks[1..], s, n).value == [s[..k]] + MatchTokens(toks[1..], s[k..]).value;
          MatchTokensSound(toks[1..], s[k..]);
          assert s == s[..k] + s[k..];
          assert s[..k] == s[..n][..k];
          var caps := [s[..k]] + MatchTokens(toks[1..], s[k..]).value;
          assert caps[1..] == MatchTokens(toks[1..], s[k..]).value;
          assert Segment(caps[0]);
        }
    }
  }

  /** Backtracking is exhaustive: if the rest matches after some capture
      of length `k` no longer than `n`, some capture is found. */
  lemma {:induction false} TryCaptureFinds(rest: seq<Token>, s: string, n: nat, k: nat)
    requires 0 < k <= n <= |s|
    requires MatchTokens(rest, s[k..]).Some?
    ensures TryCapture(rest, s, n).Some?
    decreases n
  {
    if n > k && MatchTokens(rest, s[n..]).None? {
      TryCaptureFinds(rest, s, n - 1, k);
    }
  }

  /** A `/`-free prefix lies inside the run `SegmentRun` measures. */
  lemma {:induction false} SegmentRunCovers(a: string, b: string)
    requires '/' !in a
    ensures SegmentRun(a + b) >= |a|
    decreases |a|
  {
    if |a| > 0 {
      assert (a + b)[1..] == a[1..] + b;
      assert a == [a[0]] + a[1..];
      SegmentRunCovers(a[1..], b);
    }
  }

  /** Whenever the regex accepts `s` with some captures, `MatchTokens`
      finds a match. */
  lemma {:induction false} MatchTokensFinds(toks: seq<Token>, s: string, caps: seq<string>)
    requires Accepts(toks, s, caps)
    ensures MatchTokens(toks, s).Some?
  {
    if |toks| > 0 {
      match toks[0]
      case Lit(c) =>
        MatchTokensFinds(toks[1..], s[1..], caps);
      case Param(_) =>
        var tail := Instantiate(toks[1..], caps[1..]);
        assert Segment(caps[0]);
        assert s == caps[0] + tail;
        SegmentRunCovers(caps[0], tail);
        assert s[|caps[0]|..] == tail;
        assert Segments(caps[1..]) by {
          forall i | 0 <= i < |caps[1..]| ensures Segment(caps[1..][i]) {
            assert caps[1..][i] == caps[i + 1];
          }
        }
        MatchTokensFinds(toks[1..], tail, caps[1..]);
        TryCaptureFinds(toks[1..], s, SegmentRun(s), |caps[0]|);
    }
  }

  lemma {:induction false} SegmentRunSplit(a: string, b: string)
    requires '/' !in a
    requires |b| == 0 || b[0] == '/'
    ensures SegmentRun(a + b) == |a|
    decreases |a|
  {
    if |a| > 0 {
      assert (a + b)[1..] == a[1..] + b;
      assert a == [a[0]] + a[1..];
      SegmentRunSplit(a[1..], b);
    }
  }

  lemma {:induction false} InstantiateHead(toks: seq<Token>, caps: seq<string>)
    requires |caps| == ParamCount(toks)
    requires |toks| > 0 && toks[0] == Lit('/')
    ensures |Instantiate(toks, caps)| > 0 && Instantiate(toks, caps)[0] == '/'
  {
  }

  lemma {:induction false} SegmentParamsTail(toks: seq<Token>)
    requires |toks| > 0 && SegmentParams(toks)
    ensures SegmentParams(toks[1..])
  {
    forall i | 0 <= i < |toks[1..]| && toks[1..][i].Param?
      ensures i + 1 == |toks[1..]| || toks[1..][i + 1] == Lit('/')
    {
      assert toks[i + 1].Param?;
    }
  }

  /** For whole-segment templates every match of the regex is the one
      `MatchTokens` finds: captures are unique, so the pairing of names
      with groups does not depend on how the regex engine backtracks. */
  lemma {:induction false} MatchTokensComplete(toks: seq<Token>, s: string, caps: seq<string>)
    requires SegmentParams(toks)
    requires Accepts(toks, s, caps)
    ensures MatchTokens(toks, s) == Some(caps)
  {
    if |toks| > 0 {
      SegmentParamsTail(toks);
      match toks[0]
      case Lit(c) =>
        MatchTokensComplete(toks[1..], s[1..], caps);
      case Param(_) =>
        var tail := Instantiate(toks[1..], caps[1..]);
        assert Segment(caps[0]);
        if |toks| > 1 {
          assert toks[1] == Lit('/');
          InstantiateHead(toks[1..], caps[1..]);
        }
        SegmentRunSplit(caps[0], tail);
        assert s == caps[0] + tail;
        assert s[..|caps[0]|] == caps[0];
        assert s[|caps[0]|..] == tail;
        assert Segments(caps[1..]) by {
          forall i | 0 <= i < |caps[1..]| ensures Segment(caps[1..][i]) {
            assert caps[1..][i] == caps[i + 1];
          }
        }
        MatchTokensComplete(toks[1..], tail, caps[1..]);
        assert TryCapture(toks[1..], s, |caps[0]|) == Some([caps[0]] + caps[1..]);
        assert caps == [caps[0]] + caps[1..];
    }
  }

  /** The regex accepts `s` exactly when `MatchTokens` finds a match. */
  lemma MatchTokensIff(toks: seq<Token>, s: string)
    ensures MatchTokens(toks, s).Some? <==> exists caps :: Accepts(toks, s, caps)
  {
    MatchTokensSound(toks, s);
    if exists caps :: Accepts(toks, s, caps) {
      var caps :| Accepts(toks, s, caps);
      MatchTokensFinds(toks, s, caps);
    }
  }
}
