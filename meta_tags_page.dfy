/** The meta-tag generator page. It sends the four fields to the meta-tag
    route and shows the answer; when the request fails in any way it builds
    a shorter template of its own from the same fields. */
module MetaTagsPage {
  import opened Wrappers
  import opened Text
  import Html
  import MetaRoute

  const TitleLimit := 60
  const DescriptionLimit := 160
  const MissingFieldsAlert := "Please enter at least a title and description"
  const CopiedAlert := "Meta tags copied to clipboard!"
  const CopyFailedAlert := "Failed to copy to clipboard"

  /** The page's own guard, which needs both fields. */
  predicate PageAccepts(title: string, description: string) {
    title != "" && description != ""
  }

  /** Every request the page lets through is accepted by the route, but not
      the other way round: the route needs only one of the two fields. */
  lemma PageGuardStricter(req: MetaRoute.MetaRequest)
    ensures PageAccepts(req.title, req.description) ==> MetaRoute.Respond(Some(req)).MetaTagsJson?
    ensures var titleOnly := MetaRoute.MetaRequest("t", "", "", "");
            !PageAccepts(titleOnly.title, titleOnly.description) && MetaRoute.Respond(Some(titleOnly)).MetaTagsJson?
  {
    MetaRoute.AcceptsIff(req);
  }

  /** The fallback template, line by line: the route's basic tags followed
      by its Open Graph tags without the blank line and the comment. There
      are no Twitter or additional tags, and no defaults. */
  function FallbackLines(title: string, description: string, keywords: string, url: string): (lines: seq<string>)
    ensures |lines| == 8
  {
    MetaRoute.BasicLines(title, description, keywords, url) + MetaRoute.OpenGraphLines(title, description, url)[2..]
  }

  /** The fallback `metaTags` string: its lines joined by line breaks. */
  function FallbackTags(req: MetaRoute.MetaRequest): string {
    Join(FallbackLines(req.title, req.description, req.keywords, req.url), "\n")
  }

  /** For fields without a line break, the fallback string splits on line
      breaks back into exactly the eight fallback lines. */
  lemma FallbackTagsSplitsIntoLines(req: MetaRoute.MetaRequest)
    requires NoChar(req.title, '\n') && NoChar(req.description, '\n')
    requires NoChar(req.keywords, '\n') && NoChar(req.url, '\n')
    ensures Split(FallbackTags(req), '\n') == FallbackLines(req.title, req.description, req.keywords, req.url)
  {
    NoCharIffNotIn(req.title, '\n');
    NoCharIffNotIn(req.description, '\n');
    NoCharIffNotIn(req.keywords, '\n');
    NoCharIffNotIn(req.url, '\n');
    MetaRoute.BasicSingle(req.title, req.description, req.keywords, req.url);
    MetaRoute.OpenGraphSingle(req.title, req.description, req.url);
    var b := MetaRoute.BasicLines(req.title, req.description, req.keywords, req.url);
    var o := MetaRoute.OpenGraphLines(req.title, req.description, req.url);
    var lines := FallbackLines(req.title, req.description, req.keywords, req.url);
    forall i | 0 <= i < |lines|
      ensures NoChar(lines[i], '\n')
    {
      if i < 4 {
        assert lines[i] == b[i];
      } else {
        assert lines[i] == o[i - 2];
      }
      NoCharIffNotIn(lines[i], '\n');
    }
    SplitJoin(lines, '\n');
  }

  /** How the request ended: `fetch` threw (or `response.json()` did), or a
      response came back with its ok flag and its `metaTags` field. */
  datatype Outcome = Threw | Answered(ok: bool, metaTags: string)

  /** What a route's answer looks like to the page: a 200 with the tags,
      or an error whose status decides `response.ok`. */
  function OutcomeOf(resp: MetaRoute.MetaResponse): (o: Outcome)
    ensures o.Answered?
    ensures o.ok <==> resp.MetaTagsJson? || 200 <= resp.status < 300
    ensures resp.MetaTagsJson? ==> o.metaTags == resp.metaTags
  {
    match resp
    case MetaTagsJson(tags) => Answered(true, tags)
    case ErrorJson(status, _) => Answered(200 <= status < 300, "")
  }

  /** The tags shown once the request `req` ends with `outcome`. */
  function NextTags(req: MetaRoute.MetaRequest, outcome: Outcome): string {
    match outcome
    case Answered(true, tags) => tags
    case _ => FallbackTags(req)
  }

  /** A response that is not ok is handled exactly like a thrown error, and
      an ok response is shown as it came. */
  lemma NotOkLikeThrow(req: MetaRoute.MetaRequest, tags: string)
    ensures NextTags(req, Answered(false, tags)) == NextTags(req, Threw) == FallbackTags(req)
    ensures NextTags(req, Answered(true, tags)) == tags
  {
  }

  /** Against the route itself the fallback is never used: every request
      the page sends is answered with the route's tags. */
  lemma ServerAnswerShown(req: MetaRoute.MetaRequest)
    requires PageAccepts(req.title, req.description)
    ensures NextTags(req, OutcomeOf(MetaRoute.Respond(Some(req)))) == MetaRoute.MetaTags(req)
  {
  }

  /** Without keywords the empty keywords tag is none of the other kinds of
      line. */
  lemma NotAKeywordsLine(line: string)
    requires || line == ""
             || (|line| >= 2 && (line[1] == 't' || line[1] == 'l'))
             || (|line| >= 7 && line[1] == 'm' && line[6] == 'p')
             || (|line| >= 13 && line[1] == 'm' && line[6] == 'n' && line[12] != 'k')
    ensures line != Html.MetaName("keywords", "")
  {
    Html.ElementHeads("", "keywords", "", "");
  }

  /** The keywords tag is in the fallback exactly when keywords were typed
      (the route, which fills in default keywords, always has it). */
  lemma FallbackKeywordsIff(title: string, description: string, keywords: string, url: string)
    ensures Html.MetaName("keywords", keywords) in FallbackLines(title, description, keywords, url) <==> keywords != ""
  {
    var lines := FallbackLines(title, description, keywords, url);
    if keywords != "" {
      assert lines[2] == Html.MetaName("keywords", keywords);
    } else {
      Html.ElementHeads(title, "description", "og:title", description);
      Html.ElementHeads(url, "description", "og:description", description);
      Html.ElementHeads(url, "description", "og:url", url);
      Html.ElementHeads(url, "description", "og:type", "website");
      NotAKeywordsLine(lines[0]);
      NotAKeywordsLine(lines[1]);
      NotAKeywordsLine(lines[2]);
      NotAKeywordsLine(lines[3]);
      NotAKeywordsLine(lines[4]);
      NotAKeywordsLine(lines[5]);
      NotAKeywordsLine(lines[6]);
      NotAKeywordsLine(lines[7]);
    }
  }

  /** The canonical tag and the `og:url` tag are in the fallback exactly
      when a URL was typed. */
  lemma FallbackUrlLinesIff(title: string, description: string, keywords: string, url: string)
    ensures Html.CanonicalLink(url) in FallbackLines(title, description, keywords, url) <==> url != ""
    ensures Html.MetaProperty("og:url", url) in FallbackLines(title, description, keywords, url) <==> url != ""
  {
    var lines := FallbackLines(title, description, keywords, url);
    if url != "" {
      assert lines[3] == Html.CanonicalLink(url);
      assert lines[6] == Html.MetaProperty("og:url", url);
    } else {
      MetaRoute.NoUrlLineInGroups(title, description, keywords);
      var og := MetaRoute.OpenGraphLines(title, description, "");
      assert forall line | line in og[2..] :: line in og;
    }
  }

  /** For a request the page sends, every fallback line is also a line of
      the route's template: the fallback is a part of the route's answer. */
  lemma FallbackWithinServer(req: MetaRoute.MetaRequest)
    requires PageAccepts(req.title, req.description)
    ensures forall line | line in FallbackLines(req.title, req.description, req.keywords, req.url)
              :: line in MetaRoute.RequestLines(req)
  {
    var fallback := FallbackLines(req.title, req.description, req.keywords, req.url);
    var server := MetaRoute.RequestLines(req);
    assert fallback[0] == server[0] && fallback[1] == server[1];
    assert fallback[2] == server[2] || fallback[2] == server[4];
    assert fallback[3] == server[3];
    assert fallback[4] == server[6] && fallback[5] == server[7];
    assert fallback[6] == server[8] && fallback[7] == server[9];
  }

  /** The character counter under a field, `length/limit characters`. */
  function Counter(text: string, limit: nat): string {
    NatToString(|text|) + "/" + NatToString(limit) + " characters"
  }

  /** The counter starts with the field's length, which can be read back
      from the digits before the slash. */
  lemma CounterShowsLength(text: string, limit: nat)
    ensures var c, k := Counter(text, limit), |NatToString(|text|)|;
            && k < |c| && c[k] == '/'
            && IsDigits(c[..k]) && ParseNat(c[..k]) == |text|
  {
    var c, k := Counter(text, limit), |NatToString(|text|)|;
    assert c[..k] == NatToString(|text|);
    ParseNatToString(|text|);
  }

  /** The page's state. `inFlight` is the request sent by the last click,
      held until it ends; the fallback is built from these values, which
      are the ones the click saw. */
  class MetaTagsForm {
    var title: string
    var description: string
    var keywords: string
    var url: string
    var generatedTags: string
    var isGenerating: bool
    var inFlight: Option<MetaRoute.MetaRequest>

    /** The field limits hold, a request is in flight exactly while
        generating, and it is one the page guard let through. */
    predicate Valid()
      reads this
    {
      && |title| <= TitleLimit && |description| <= DescriptionLimit
      && (isGenerating <==> inFlight.Some?)
      && (inFlight.Some? ==> PageAccepts(inFlight.value.title, inFlight.value.description))
    }

    constructor ()
      ensures Valid()
      ensures title == "" && description == "" && keywords == "" && url == ""
      ensures generatedTags == "" && !isGenerating
    {
      title := "";
      description := "";
      keywords := "";
      url := "";
      generatedTags := "";
      isGenerating := false;
      inFlight := None;
    }

    /** The title input; `maxLength` keeps at most 60 characters. */
    method SetTitle(value: string)
      requires Valid()
      modifies this`title
      ensures Valid()
      ensures title == Take(value, TitleLimit)
    {
      title := Take(value, TitleLimit);
    }

    /** The description input; `maxLength` keeps at most 160 characters. */
    method SetDescription(value: string)
      requires Valid()
      modifies this`description
      ensures Valid()
      ensures description == Take(value, DescriptionLimit)
    {
      description := Take(value, DescriptionLimit);
    }

    method SetKeywords(value: string)
      requires Valid()
      modifies this`keywords
      ensures Valid() && keywords == value
    {
      keywords := value;
    }

    method SetUrl(value: string)
      requires Valid()
      modifies this`url
      ensures Valid() && url == value
    {
      url := value;
    }

    /** The "Generate Meta Tags" button, up to the request being sent. The
        button is disabled while generating. Without a title or a
        description it only raises an alert. */
    method Generate() returns (alert: Option<string>)
      requires Valid() && !isGenerating
      modifies this`isGenerating, this`inFlight
      ensures Valid()
      ensures !PageAccepts(title, description) ==> alert == Some(MissingFieldsAlert) && !isGenerating && inFlight == None
      ensures PageAccepts(title, description) ==>
                alert == None && isGenerating && inFlight == Some(MetaRoute.MetaRequest(title, description, keywords, url))
    {
      if title == "" || description == "" {
        alert := Some(MissingFieldsAlert);
        return;
      }
      isGenerating := true;
      inFlight := Some(MetaRoute.MetaRequest(title, description, keywords, url));
      alert := None;
    }

    /** The request ends: the route's tags on an ok response, the fallback
        template otherwise, and generating is over on every path. */
    method Settle(outcome: Outcome)
      requires Valid() && isGenerating
      modifies this`generatedTags, this`isGenerating, this`inFlight
      ensures Valid() && !isGenerating && inFlight == None
      ensures generatedTags == NextTags(old(inFlight).value, outcome)
    {
      var req := inFlight.value;
      if outcome.Answered? && outcome.ok {
        generatedTags := outcome.metaTags;
      } else {
        generatedTags := Join(FallbackLines(req.title, req.description, req.keywords, req.url), "\n");
      }
      isGenerating := false;
      inFlight := None;
    }

    /** The title counter. */
    method TitleCounter() returns (text: string)
      ensures text == Counter(title, TitleLimit)
    {
      text := NatToString(|title|) + "/60 characters";
    }

    /** The description counter. */
    method DescriptionCounter() returns (text: string)
      ensures text == Counter(description, DescriptionLimit)
    {
      text := NatToString(|description|) + "/160 characters";
    }

    /** The "Copy" button. */
    method CopyToClipboard(clipboardAccepts: bool) returns (written: Option<string>, alert: string)
      ensures written == (if clipboardAccepts then Some(generatedTags) else None)
      ensures alert == (if clipboardAccepts then CopiedAlert else CopyFailedAlert)
    {
      if clipboardAccepts {
        written := Some(generatedTags);
        alert := CopiedAlert;
      } else {
        written := None;
        alert := CopyFailedAlert;
      }
    }
  }
}
