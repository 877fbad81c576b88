/** The `POST /api/generate-meta` route. It rejects a request without a title
    and a description, fills in defaults, may fetch the page and ask a text
    generator for a better title or description, and answers with a fixed
    meta-tag template. The fetched text and the generator's answer never
    reach the template, so the answer depends on the four request fields
    alone. */
module MetaRoute {
  import opened Wrappers
  import opened Text
  import Html
  import PageText

  /** The request fields; a missing or `null` field is the empty string
      (every use of a field tests its truthiness first). */
  datatype MetaRequest = MetaRequest(title: string, description: string, keywords: string, url: string)

  /** What fetching the page produced: it threw, or it answered with an
      ok flag and a body. */
  datatype FetchResult = FetchThrew | Fetched(ok: bool, html: string)

  /** The JSON response: `{ metaTags }` with status 200, or `{ error }`. */
  datatype MetaResponse = MetaTagsJson(metaTags: string) | ErrorJson(status: nat, error: string)

  const MissingFieldsMessage := "Title or description is required"
  const FailureMessage := "Failed to generate meta tags"
  const DefaultTitle := "SEO Optimized Page Title"
  const DefaultDescription := "SEO optimized meta description" + " for better search rankings"
  const DefaultKeywords := "SEO, optimization, meta tags"
  const DefaultContent := "Website content"

  /** JavaScript `value || fallback` on strings. */
  function OrDefault(value: string, fallback: string): (r: string)
    ensures fallback != "" ==> r != ""
    ensures value != "" ==> r == value
  {
    if value != "" then value else fallback
  }

  /** The lines of the template, in order; a field-dependent line that is
      switched off is an empty line, as the template's `""` branches leave
      it. The template falls into four groups: the basic tags, the Open
      Graph tags, the Twitter card tags and the additional tags. */
  function MetaLines(title: string, description: string, keywords: string, url: string): (lines: seq<string>)
    ensures |lines| == 19
  {
    BasicLines(title, description, keywords, url) + OpenGraphLines(title, description, url)
    + TwitterLines(title, description) + AdditionalLines()
  }

  function BasicLines(title: string, description: string, keywords: string, url: string): (lines: seq<string>)
    ensures |lines| == 4
  {
    [ Html.TitleElement(title),
      Html.MetaName("description", description),
      if keywords != "" then Html.MetaName("keywords", keywords) else "",
      if url != "" then Html.CanonicalLink(url) else "" ]
  }

  function OpenGraphLines(title: string, description: string, url: string): (lines: seq<string>)
    ensures |lines| == 6
  {
    [ "",
      "<!-- Open Graph Tags -->",
      Html.MetaProperty("og:title", title),
      Html.MetaProperty("og:description", description),
      if url != "" then Html.MetaProperty("og:url", url) else "",
      Html.MetaProperty("og:type", "website") ]
  }

  function TwitterLines(title: string, description: string): (lines: seq<string>)
    ensures |lines| == 5
  {
    [ "",
      "<!-- Twitter Card Tags -->",
      Html.MetaName("twitter:card", "summary"),
      Html.MetaName("twitter:title", title),
      Html.MetaName("twitter:description", description) ]
  }

  function AdditionalLines(): (lines: seq<string>)
    ensures |lines| == 4
  {
    [ "",
      "<!-- Additional Meta Tags -->",
      Html.MetaName("robots", "index, follow"),
      Html.MetaName("viewport", "width=device-width, initial-scale=1.0") ]
  }

  /** The lines for a request, after the defaults are filled in. */
  function RequestLines(req: MetaRequest): seq<string> {
    MetaLines(OrDefault(req.title, DefaultTitle), OrDefault(req.description, DefaultDescription),
              OrDefault(req.keywords, DefaultKeywords), req.url)
  }

  /** The `metaTags` string of a request. */
  function MetaTags(req: MetaRequest): string {
    Join(RequestLines(req), "\n")
  }

  /** The route's answer for a parsed body, or for a body that is not JSON
      (`None`), which the catch-all turns into a 500. */
  function Respond(body: Option<MetaRequest>): (r: MetaResponse)
    ensures body.None? ==> r == ErrorJson(500, FailureMessage)
    ensures body.Some? && body.value.title == "" && body.value.description == ""
            ==> r == ErrorJson(400, MissingFieldsMessage)
    ensures body.Some? && (body.value.title != "" || body.value.description != "")
            ==> r == MetaTagsJson(MetaTags(body.value))
  {
    match body
    case None => ErrorJson(500, FailureMessage)
    case Some(req) =>
      if req.title == "" && req.description == "" then ErrorJson(400, MissingFieldsMessage)
      else MetaTagsJson(MetaTags(req))
  }

  /** The handler, step by step: validation, the page fetch when a URL is
      given, the defaults, and the template. `generated` is what the text
      generator answered, `None` when the key is missing or the call threw;
      the route reads it into a variable and never uses it, so the answer is
      `Respond(body)` whatever the fetch and the generator produced. The
      extracted page text, which feeds only the generator's prompt, is
      returned as well. */
  method Post(body: Option<MetaRequest>, fetched: FetchResult, generated: Option<string>)
    returns (resp: MetaResponse, websiteContent: string)
    ensures resp == Respond(body)
    ensures |websiteContent| <= PageText.MaxContent
    ensures websiteContent == (
      if body.Some? && (body.value.title != "" || body.value.description != "") && body.value.url != ""
         && fetched.Fetched? && fetched.ok
      then PageText.ExtractText(fetched.html) else "")
  {
    websiteContent := "";
    if body.None? {
      resp := ErrorJson(500, FailureMessage);
      return;
    }
    var req := body.value;
    if req.title == "" && req.description == "" {
      resp := ErrorJson(400, MissingFieldsMessage);
      return;
    }
    if req.url != "" {
      match fetched
      case FetchThrew =>
      case Fetched(ok, html) =>
        if ok {
          websiteContent := PageText.ExtractText(html);
        }
    }
    var contentToAnalyze := OrDefault(websiteContent, DefaultContent);
    var generatedTitle := OrDefault(req.title, DefaultTitle);
    var generatedDescription := OrDefault(req.description, DefaultDescription);
    var generatedKeywords := OrDefault(req.keywords, DefaultKeywords);
    // `generated` would be read here; both of its branches are empty.
    resp := MetaTagsJson(Join(MetaLines(generatedTitle, generatedDescription, generatedKeywords, req.url), "\n"));
  }

  /** A request is refused exactly when it has neither a title nor a
      description; one of the two is enough. */
  lemma AcceptsIff(req: MetaRequest)
    ensures Respond(Some(req)).MetaTagsJson? <==> req.title != "" || req.description != ""
  {
  }

  /** An empty field is replaced by its default, a non-empty one kept. */
  lemma DefaultsFilled(req: MetaRequest)
    requires req.title != "" || req.description != ""
    ensures var lines := RequestLines(req);
            && (req.title == "" ==> lines[0] == Html.TitleElement(DefaultTitle))
            && (req.description == "" ==> lines[1] == Html.MetaName("description", DefaultDescription))
            && (req.keywords == "" ==> lines[2] == Html.MetaName("keywords", DefaultKeywords))
            && (req.title != "" ==> lines[0] == Html.TitleElement(req.title))
            && (req.description != "" ==> lines[1] == Html.MetaName("description", req.description))
            && (req.keywords != "" ==> lines[2] == Html.MetaName("keywords", req.keywords))
  {
  }

  /** The keywords line is always there: the defaulted keywords are never
      empty, so its `""` branch is dead. */
  lemma KeywordsLineAlwaysPresent(req: MetaRequest)
    ensures Html.MetaName("keywords", OrDefault(req.keywords, DefaultKeywords)) in RequestLines(req)
    ensures RequestLines(req)[2] != ""
  {
    assert RequestLines(req)[2] == Html.MetaName("keywords", OrDefault(req.keywords, DefaultKeywords));
  }

  /** The title is shown in `<title>`, `og:title` and `twitter:title`, and the
      description in the description, `og:description` and
      `twitter:description` tags. */
  lemma TitleAndDescriptionEverywhere(req: MetaRequest)
    ensures var t, d, lines := OrDefault(req.title, DefaultTitle), OrDefault(req.description, DefaultDescription), RequestLines(req);
            && Html.TitleElement(t) in lines
            && Html.MetaProperty("og:title", t) in lines
            && Html.MetaName("twitter:title", t) in lines
            && Html.MetaName("description", d) in lines
            && Html.MetaProperty("og:description", d) in lines
            && Html.MetaName("twitter:description", d) in lines
  {
    var lines := RequestLines(req);
    assert lines[0] == Html.TitleElement(OrDefault(req.title, DefaultTitle));
    assert lines[6] == Html.MetaProperty("og:title", OrDefault(req.title, DefaultTitle));
    assert lines[13] == Html.MetaName("twitter:title", OrDefault(req.title, DefaultTitle));
    assert lines[1] == Html.MetaName("description", OrDefault(req.description, DefaultDescription));
    assert lines[7] == Html.MetaProperty("og:description", OrDefault(req.description, DefaultDescription));
    assert lines[14] == Html.MetaName("twitter:description", OrDefault(req.description, DefaultDescription));
  }

  /** Without a URL, the empty-URL link and `og:url` tags differ from every
      other kind of line: `<title>`, `<meta name>`, `<meta property>` with
      another property, and the comments. */
  lemma NotAUrlLine(line: string)
    requires || line == ""
             || (|line| >= 2 && (line[1] == 't' || line[1] == '!'))
             || (|line| >= 7 && line[1] == 'm' && line[6] == 'n')
             || (|line| >= 20 && line[1] == 'm' && line[6] == 'p' && line[19] != 'u')
    ensures line != Html.CanonicalLink("") && line != Html.MetaProperty("og:url", "")
  {
    Html.ElementHeads("", "", "og:url", "");
    var og := Html.MetaProperty("og:url", "");
    assert og[19] == "og:url"[3];
  }

  /** The empty-URL link and `og:url` tags are in no group of a template
      built without a URL. */
  lemma NoUrlLineInGroups(title: string, description: string, keywords: string)
    ensures var link, og := Html.CanonicalLink(""), Html.MetaProperty("og:url", "");
            && link !in BasicLines(title, description, keywords, "") && og !in BasicLines(title, description, keywords, "")
            && link !in OpenGraphLines(title, description, "") && og !in OpenGraphLines(title, description, "")
            && link !in TwitterLines(title, description) && og !in TwitterLines(title, description)
            && link !in AdditionalLines() && og !in AdditionalLines()
  {
    NoUrlLineInBasic(title, description, keywords);
    NoUrlLineInOpenGraph(title, description);
    NoUrlLineInTwitter(title, description);
    NoUrlLineInAdditional();
  }

  lemma NoUrlLineInBasic(title: string, description: string, keywords: string)
    ensures var lines := BasicLines(title, description, keywords, "");
            Html.CanonicalLink("") !in lines && Html.MetaProperty("og:url", "") !in lines
  {
    var basic := BasicLines(title, description, keywords, "");
    Html.ElementHeads(title, "description", "og:title", description);
    Html.ElementHeads(title, "keywords", "og:description", keywords);
    NotAUrlLine(basic[0]);
    NotAUrlLine(basic[1]);
    NotAUrlLine(basic[2]);
    NotAUrlLine(basic[3]);
  }

  lemma NoUrlLineInOpenGraph(title: string, description: string)
    ensures var lines := OpenGraphLines(title, description, "");
            Html.CanonicalLink("") !in lines && Html.MetaProperty("og:url", "") !in lines
  {
    var og := OpenGraphLines(title, description, "");
    Html.ElementHeads(title, "description", "og:title", description);
    Html.ElementHeads(title, "keywords", "og:description", description);
    Html.ElementHeads(title, "description", "og:type", "website");
    NotAUrlLine(og[0]);
    NotAUrlLine(og[1]);
    NotAUrlLine(og[2]);
    NotAUrlLine(og[3]);
    NotAUrlLine(og[4]);
    NotAUrlLine(og[5]);
  }

  lemma NoUrlLineInTwitter(title: string, description: string)
    ensures var lines := TwitterLines(title, description);
            Html.CanonicalLink("") !in lines && Html.MetaProperty("og:url", "") !in lines
  {
    var twitter := TwitterLines(title, description);
    Html.ElementHeads(title, "twitter:card", "og:type", "summary");
    Html.ElementHeads(title, "twitter:title", "og:type", title);
    Html.ElementHeads(title, "twitter:description", "og:type", description);
    NotAUrlLine(twitter[0]);
    NotAUrlLine(twitter[1]);
    NotAUrlLine(twitter[2]);
    NotAUrlLine(twitter[3]);
    NotAUrlLine(twitter[4]);
  }

  lemma NoUrlLineInAdditional()
    ensures var lines := AdditionalLines();
            Html.CanonicalLink("") !in lines && Html.MetaProperty("og:url", "") !in lines
  {
    var additional := AdditionalLines();
    Html.ElementHeads("", "robots", "og:type", "index, follow");
    Html.ElementHeads("", "viewport", "og:type", "width=device-width, initial-scale=1.0");
    NotAUrlLine(additional[0]);
    NotAUrlLine(additional[1]);
    NotAUrlLine(additional[2]);
    NotAUrlLine(additional[3]);
  }

  /** The canonical line and the `og:url` line are in the template exactly
      when the request has a URL. */
  lemma UrlLinesIff(title: string, description: string, keywords: string, url: string)
    ensures Html.CanonicalLink(url) in MetaLines(title, description, keywords, url) <==> url != ""
    ensures Html.MetaProperty("og:url", url) in MetaLines(title, description, keywords, url) <==> url != ""
  {
    var lines := MetaLines(title, description, keywords, url);
    if url != "" {
      assert lines[3] == Html.CanonicalLink(url);
      assert lines[8] == Html.MetaProperty("og:url", url);
    } else {
      NoUrlLineInGroups(title, description, keywords);
    }
  }

  lemma BasicSingle(title: string, description: string, keywords: string, url: string)
    requires '\n' !in title && '\n' !in description && '\n' !in keywords && '\n' !in url
    ensures var lines := BasicLines(title, description, keywords, url); forall i :: 0 <= i < |lines| ==> '\n' !in lines[i]
  {
    Html.ElementsSingleLine(title, "");
    Html.ElementsSingleLine("description", description);
    Html.ElementsSingleLine("keywords", keywords);
    Html.ElementsSingleLine(url, "");
    var lines := BasicLines(title, description, keywords, url);
    assert '\n' !in lines[0] && '\n' !in lines[1] && '\n' !in lines[2] && '\n' !in lines[3];
  }

  lemma OpenGraphSingle(title: string, description: string, url: string)
    requires '\n' !in title && '\n' !in description && '\n' !in url
    ensures var lines := OpenGraphLines(title, description, url); forall i :: 0 <= i < |lines| ==> '\n' !in lines[i]
  {
    Html.ElementsSingleLine("og:title", title);
    Html.ElementsSingleLine("og:description", description);
    Html.ElementsSingleLine("og:url", url);
    Html.ElementsSingleLine("og:type", "website");
    var lines := OpenGraphLines(title, description, url);
    assert '\n' !in lines[0] && '\n' !in lines[1] && '\n' !in lines[2];
    assert '\n' !in lines[3] && '\n' !in lines[4] && '\n' !in lines[5];
  }

  lemma TwitterSingle(title: string, description: string)
    requires '\n' !in title && '\n' !in description
    ensures var lines := TwitterLines(title, description); forall i :: 0 <= i < |lines| ==> '\n' !in lines[i]
  {
    Html.ElementsSingleLine("twitter:card", "summary");
    Html.ElementsSingleLine("twitter:title", title);
    Html.ElementsSingleLine("twitter:description", description);
    var lines := TwitterLines(title, description);
    assert '\n' !in lines[0] && '\n' !in lines[1] && '\n' !in lines[2];
    assert '\n' !in lines[3] && '\n' !in lines[4];
  }

  lemma AdditionalSingle()
    ensures var lines := AdditionalLines(); forall i :: 0 <= i < |lines| ==> '\n' !in lines[i]
  {
    RobotsSingle();
    ViewportSingle();
    var lines := AdditionalLines();
    assert '\n' !in lines[1];
  }

  lemma RobotsSingle()
    ensures '\n' !in Html.MetaName("robots", "index, follow")
  {
    Html.ElementsSingleLine("robots", "index, follow");
  }

  lemma ViewportSingle()
    ensures '\n' !in Html.MetaName("viewport", "width=device-width, initial-scale=1.0")
  {
    assert '\n' !in "width=device-width," && '\n' !in " initial-scale=1.0";
    assert "width=device-width, initial-scale=1.0" == "width=device-width," + " initial-scale=1.0";
    Html.ElementsSingleLine("viewport", "width=device-width, initial-scale=1.0");
  }

  /** Every line of the template is a single line when the fields are. */
  lemma MetaLinesSingle(title: string, description: string, keywords: string, url: string)
    requires '\n' !in title && '\n' !in description && '\n' !in keywords && '\n' !in url
    ensures var lines := MetaLines(title, description, keywords, url); forall i :: 0 <= i < |lines| ==> '\n' !in lines[i]
  {
    BasicSingle(title, description, keywords, url);
    OpenGraphSingle(title, description, url);
    TwitterSingle(title, description);
    AdditionalSingle();
    var b, o, t, a := BasicLines(title, description, keywords, url), OpenGraphLines(title, description, url),
                      TwitterLines(title, description), AdditionalLines();
    var lines := MetaLines(title, description, keywords, url);
    forall i | 0 <= i < |lines|
      ensures '\n' !in lines[i]
    {
      if i < 4 {
        assert lines[i] == b[i];
      } else if i < 10 {
        assert lines[i] == o[i - 4];
      } else if i < 15 {
        assert lines[i] == t[i - 10];
      } else {
        assert lines[i] == a[i - 15];
      }
    }
  }

  /** No line of the template holds a newline when no field does, so the
      `metaTags` string splits back into exactly the template's lines. */
  lemma MetaTagsSplitsIntoLines(req: MetaRequest)
    requires NoChar(req.title, '\n') && NoChar(req.description, '\n')
    requires NoChar(req.keywords, '\n') && NoChar(req.url, '\n')
    ensures Split(MetaTags(req), '\n') == RequestLines(req)
  {
    var t, d, kw := OrDefault(req.title, DefaultTitle), OrDefault(req.description, DefaultDescription), OrDefault(req.keywords, DefaultKeywords);
    NoCharIffNotIn(t, '\n');
    NoCharIffNotIn(d, '\n');
    NoCharIffNotIn(kw, '\n');
    NoCharIffNotIn(req.url, '\n');
    MetaLinesSingle(t, d, kw, req.url);
    var lines := RequestLines(req);
    forall line | line in lines
      ensures NoChar(line, '\n')
    {
      NoCharIffNotIn(line, '\n');
    }
    SplitJoin(lines, '\n');
  }
}
