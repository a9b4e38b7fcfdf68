/** The static-site generator: the page list (home, then one page per
    item) and the loop that renders and writes each page, skipping the
    ones whose render fails. */
module StaticSite {
  import opened Wrappers
  import opened Strings
  import opened ItemSort
  import opened Catalog
  import opened RouteTemplate
  import opened ServerRouter
  import opened AppRoutes
  import opened Store
  import opened ServerHost
  import ReactServer

  datatype PageSpec = PageSpec(url: string, outputPath: string)

  const HomeOutput: string := "../../dist/react/index.html"

  function ProductOutput(id: string): string {
    "../../dist/react/product/" + id + "/index.html"
  }

  /** One page per item, in item order. */
  function ProductPages(items: seq<Item>): (ps: seq<PageSpec>)
    ensures |ps| == |items|
    ensures forall i :: 0 <= i < |items| ==>
              ps[i] == PageSpec(ProductUrl(items[i].productId), ProductOutput(items[i].productId))
  {
    if |items| == 0 then []
    else [PageSpec(ProductUrl(items[0].productId), ProductOutput(items[0].productId))] + ProductPages(items[1..])
  }

  /** `pages`: the home page first, then the product pages. */
  function Pages(items: seq<Item>): (ps: seq<PageSpec>)
    ensures |ps| == 1 + |items|
    ensures ps[0] == PageSpec(HomeTemplate, HomeOutput)
    ensures forall i :: 0 <= i < |items| ==>
              ps[i + 1] == PageSpec(ProductUrl(items[i].productId), ProductOutput(items[i].productId))
  {
    [PageSpec(HomeTemplate, HomeOutput)] + ProductPages(items)
  }

  lemma PathOfPlain(url: string)
    requires '?' !in url
    ensures PathOf(url) == url
  {
    assert forall k :: 0 <= k < |url| ==> url[k] != '?';
  }

  /** The first generated page renders the home page. */
  lemma FirstPageRendersHome(items: seq<Item>, init: State, s: ReactServer.Server)
    ensures ReactServer.Render(items, init, s, Pages(items)[0].url, Some([])).out.view.page == HomePage
  {
    assert PathOf(HomeTemplate) == HomeTemplate by { PathOfPlain(HomeTemplate); }
    ReactServer.RenderHome(items, init, s, HomeTemplate, Some([]));
  }

  /** Every product page, whose id comes from an item and so is always
      found, renders the detail page (for ids that are a single path
      segment without `?`): no generated product page is a 404. */
  lemma ProductPageRendersDetail(items: seq<Item>, init: State, s: ReactServer.Server, i: nat)
    requires i < |items|
    requires Segment(items[i].productId) && '?' !in items[i].productId
    ensures ReactServer.Render(items, init, s, Pages(items)[i + 1].url, Some([])).out.view.page == ProductDetailPage
  {
    var id := items[i].productId;
    var url := ProductUrl(id);
    assert Pages(items)[i + 1].url == url;
    ProductUrlPath(id);
    assert MockGetProduct(items, id).Some?;
    ReactServer.RenderProductFound(items, init, s, url, Some([]), id);
  }

  /** What `render(page.url, {})` gave: a result, or a thrown error. */
  datatype Attempt = Failed | Rendered(head: string, html: string, initialDataScript: string)

  /** The loop: each page that renders is spliced into the template and
      written to its output path; a failure is logged and the loop goes
      on. The result lists the writes in order. */
  function Generate(template: string, render: string -> Attempt, pages: seq<PageSpec>): (written: seq<(string, string)>)
    ensures |written| <= |pages|
    ensures forall k :: 0 <= k < |written| ==>
              exists i :: 0 <= i < |pages| && render(pages[i].url).Rendered? && written[k].0 == pages[i].outputPath
  {
    if |pages| == 0 then []
    else
      var rest := Generate(template, render, pages[1..]);
      match render(pages[0].url)
      case Failed => rest
      case Rendered(head, html, script) =>
        [(pages[0].outputPath, RenderSsr(template, head, html, script))] + rest
  }

  /** Pages are independent: the writes for a list are those of its parts,
      in order, so a failing page never stops the pages after it. */
  lemma {:induction false} GenerateAppend(template: string, render: string -> Attempt, p: seq<PageSpec>, p': seq<PageSpec>)
    ensures Generate(template, render, p + p') == Generate(template, render, p) + Generate(template, render, p')
  {
    if |p| > 0 {
      assert (p + p')[0] == p[0];
      assert (p + p')[1..] == p[1..] + p';
      GenerateAppend(template, render, p[1..], p');
    } else {
      assert p + p' == p';
    }
  }

  /** Every page that renders is written, with the spliced template. */
  lemma {:induction false} GenerateWritesRendered(template: string, render: string -> Attempt, pages: seq<PageSpec>, i: nat)
    requires i < |pages| && render(pages[i].url).Rendered?
    ensures var a := render(pages[i].url);
            (pages[i].outputPath, RenderSsr(template, a.head, a.html, a.initialDataScript)) in Generate(template, render, pages)
  {
    GenerateCons(template, render, pages);
    if i > 0 {
      GenerateWritesRendered(template, render, pages[1..], i - 1);
    }
  }

  /** The first page's write (if any) comes before the rest. */
  lemma GenerateCons(template: string, render: string -> Attempt, pages: seq<PageSpec>)
    requires |pages| > 0
    ensures var a := render(pages[0].url);
            Generate(template, render, pages)
            == (if a.Rendered? then [(pages[0].outputPath, RenderSsr(template, a.head, a.html, a.initialDataScript))] else [])
               + Generate(template, render, pages[1..])
  {
    if render(pages[0].url).Failed? {
      assert [] + Generate(template, render, pages[1..]) == Generate(template, render, pages[1..]);
    }
  }
}
