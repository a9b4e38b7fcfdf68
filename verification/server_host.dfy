/** The two pure helpers of the React package's Express host:
    `normalizeUrl`, which cuts the deployment base off a request URL, and
    `renderSSR`'s splice of the render result into the HTML template. */
module ServerHost {
  import opened Strings

  /** `normalizeUrl(url, base)` */
  function NormalizeUrl(url: string, base: string): (r: string)
    ensures StartsWith(r, "/")
    ensures base == "" ==> r == if StartsWith(url, "/") then url else "/" + url
    ensures !StartsWith(url, base) && StartsWith(url, "/") ==> r == url
  {
    var cut := if base != "" && StartsWith(url, base) then url[|base| - 1..] else url;
    if StartsWith(cut, "/") then cut else "/" + cut
  }

  /** With a base that ends in `/` (as the deployed one does), a URL under
      the base becomes the rest of it, rooted at `/`. */
  lemma NormalizeUnderBase(base: string, rest: string)
    requires |base| > 0 && base[|base| - 1] == '/'
    ensures NormalizeUrl(base + rest, base) == "/" + rest
  {
    var url := base + rest;
    assert url[..|base|] == base;
    assert url[|base| - 1..] == "/" + rest;
  }

  /** A base without the trailing `/` cuts one character too many:
      `normalizeUrl("/app/x", "/app")` is `"/p/x"`. */
  lemma NormalizeBaseWithoutSlash()
    ensures NormalizeUrl("/app/x", "/app") == "/p/x"
  {
    var url, base := "/app/x", "/app";
    assert StartsWith(url, base);
    var cut := url[|base| - 1..];
    assert cut == "p/x";
    assert cut[..1] != "/" by { assert cut[..1][0] == 'p'; }
    assert "/" + cut == "/p/x";
  }

  const HeadMarker: string := "<!--app-head-->"
  const HtmlMarker: string := "<!--app-html-->"
  const HeadClose: string := "</head>"

  /** `renderSSR`: the first head marker becomes the head, then the first
      html marker the html, then the first `</head>` gets the script in
      front of it. */
  function RenderSsr(template: string, head: string, html: string, script: string): (r: string)
    ensures !Contains(template, HeadMarker) && !Contains(template, HtmlMarker) && !Contains(template, HeadClose) ==>
              r == template
  {
    ReplaceFirst(ReplaceFirst(ReplaceFirst(template, HeadMarker, head), HtmlMarker, html), HeadClose, script + HeadClose)
  }

  /** `replace` on a string whose first occurrence of the pattern is known. */
  lemma ReplaceAt(pre: string, pat: string, post: string, rep: string)
    requires FirstOccurrence(pre + pat + post, pat, |pre|)
    ensures ReplaceFirst(pre + pat + post, pat, rep) == pre + rep + post
  {
    var s := pre + pat + post;
    assert s[..|pre|] == pre;
    assert s[|pre| + |pat|..] == post;
  }

  lemma FirstStep(a: string, p: string, b: string, m: string, rest: string, rep: string)
    requires FirstOccurrence(a + p + (b + m + rest), p, |a|)
    ensures ReplaceFirst(a + p + b + m + rest, p, rep) == (a + rep + b) + m + rest
  {
    var tail := b + m + rest;
    assert a + p + b + m + rest == a + p + tail;
    ReplaceAt(a, p, tail, rep);
    assert a + rep + tail == (a + rep + b) + m + rest;
  }

  lemma SecondStep(x: string, m: string, c: string, e: string, d: string, rep: string)
    requires FirstOccurrence(x + m + (c + e + d), m, |x|)
    ensures ReplaceFirst(x + m + (c + e + d), m, rep) == (x + rep + c) + e + d
  {
    ReplaceAt(x, m, c + e + d, rep);
    assert x + rep + (c + e + d) == (x + rep + c) + e + d;
  }

  /** On a template `a <!--app-head--> b <!--app-html--> c </head> d`
      whose markers are each the first of their kind at the moment their
      step runs, the result is the template with the head, the html and
      the script in place. */
  lemma RenderSsrSplices(a: string, b: string, c: string, d: string, head: string, html: string, script: string)
    requires FirstOccurrence(a + HeadMarker + (b + HtmlMarker + (c + HeadClose + d)), HeadMarker, |a|)
    requires FirstOccurrence((a + head + b) + HtmlMarker + (c + HeadClose + d), HtmlMarker, |a + head + b|)
    requires FirstOccurrence((a + head + b + html + c) + HeadClose + d, HeadClose, |a + head + b + html + c|)
    ensures RenderSsr(a + HeadMarker + b + HtmlMarker + (c + HeadClose + d), head, html, script)
            == (a + head + b + html + c) + (script + HeadClose) + d
  {
    FirstStep(a, HeadMarker, b, HtmlMarker, c + HeadClose + d, head);
    SecondStep(a + head + b, HtmlMarker, c, HeadClose, d, html);
    ReplaceAt(a + head + b + html + c, HeadClose, d, script + HeadClose);
  }

  /** The page's own order: the head marker and `</head>` sit in the
      `<head>`, the html marker later in the `<body>`. On
      `a <!--app-head--> b </head> c <!--app-html--> d`, with each marker
      the first of its kind when its step runs, the script still lands just
      before `</head>` and the html in the body. */
  lemma RenderSsrSplicesPage(a: string, b: string, c: string, d: string, head: string, html: string, script: string)
    requires FirstOccurrence(a + HeadMarker + (b + HeadClose + (c + HtmlMarker + d)), HeadMarker, |a|)
    requires FirstOccurrence((a + head + b + HeadClose + c) + HtmlMarker + d, HtmlMarker, |a + head + b + HeadClose + c|)
    requires FirstOccurrence((a + head + b) + HeadClose + (c + html + d), HeadClose, |a + head + b|)
    ensures RenderSsr(a + HeadMarker + b + HeadClose + (c + HtmlMarker + d), head, html, script)
            == (a + head + b) + (script + HeadClose) + (c + html + d)
  {
    var y := a + head + b;
    FirstStep(a, HeadMarker, b, HeadClose, c + HtmlMarker + d, head);
    PageSecondStep(y, c, d, html);
    ReplaceAt(y, HeadClose, c + html + d, script + HeadClose);
  }

  lemma PageSecondStep(y: string, c: string, d: string, html: string)
    requires FirstOccurrence((y + HeadClose + c) + HtmlMarker + d, HtmlMarker, |y + HeadClose + c|)
    ensures ReplaceFirst(y + HeadClose + (c + HtmlMarker + d), HtmlMarker, html) == y + HeadClose + (c + html + d)
  {
    Regroup(y, HeadClose, c, HtmlMarker, d);
    ReplaceAt(y + HeadClose + c, HtmlMarker, d, html);
    Regroup(y, HeadClose, c, html, d);
  }

  lemma Regroup(p: string, q: string, r: string, m: string, t: string)
    ensures p + q + (r + m + t) == (p + q + r) + m + t
  {
  }
}
