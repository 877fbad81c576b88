/** The alt-text generator page. It sends the image URL and the context to
    the alt-text route and shows the answer, falling back to a sentence of
    its own when the request fails in any way; it also shows an `<img>`
    snippet with the alt text filled in. */
module AltTagsPage {
  import opened Wrappers
  import opened Text
  import Html
  import AltTextRoute

  const MissingUrlAlert := "Please enter an image URL"
  const CopiedAlert := "Alt text copied to clipboard!"
  const CopyFailedAlert := "Failed to copy to clipboard"
  const FallbackOpen := "Image showing "
  const FallbackClose := " - please add descriptive alt text"
  const FallbackDefault := "content"

  /** The two fields the page sends. */
  datatype AltRequest = AltRequest(imageUrl: string, context: string)

  /** The JSON body the route receives: both fields are strings. */
  function Body(req: AltRequest): AltTextRoute.AltBody {
    AltTextRoute.AltBody(Some(req.imageUrl), Some(req.context))
  }

  /** The page's own sentence, with `content` for an empty context. */
  function FallbackAlt(context: string): (r: string)
    ensures StartsWith(r, FallbackOpen) && EndsWith(r, FallbackClose)
    ensures |r| == |FallbackOpen| + |if context == "" then FallbackDefault else context| + |FallbackClose|
  {
    FallbackOpen + (if context == "" then FallbackDefault else context) + FallbackClose
  }

  /** The context the fallback was built from, read back out of it. */
  function FallbackSubject(alt: string): Option<string> {
    if |FallbackOpen| + |FallbackClose| <= |alt| && StartsWith(alt, FallbackOpen) && EndsWith(alt, FallbackClose)
    then Some(alt[|FallbackOpen|..|alt| - |FallbackClose|])
    else None
  }

  /** The fallback names the context it was built from, or `content`. */
  lemma FallbackNamesContext(context: string)
    ensures FallbackSubject(FallbackAlt(context)) == Some(if context == "" then FallbackDefault else context)
  {
    var r := FallbackAlt(context);
    assert r[|FallbackOpen|..|r| - |FallbackClose|] == if context == "" then FallbackDefault else context;
  }

  /** The fallback is never a sentence of the route: it ends in `t`, and no
      sentence of the route does. */
  lemma FallbackNotFromRoute(c1: string, c2: string)
    ensures FallbackAlt(c1) != AltTextRoute.AltText(c2)
  {
    var r := FallbackAlt(c1);
    assert r[|r| - 1] == FallbackClose[|FallbackClose| - 1];
    AltTextRoute.AltTextLastChar(c2);
  }

  /** How the request ended: it threw, or a response came back with its ok
      flag and its `altText` field. */
  datatype Outcome = Threw | Answered(ok: bool, altText: string)

  /** What a route's answer looks like to the page. */
  function OutcomeOf(resp: AltTextRoute.AltResponse): (o: Outcome)
    ensures o.Answered?
    ensures o.ok <==> resp.AltTextJson? || 200 <= resp.status < 300
    ensures resp.AltTextJson? ==> o.altText == resp.altText
  {
    match resp
    case AltTextJson(text) => Answered(true, text)
    case ErrorJson(status, _) => Answered(200 <= status < 300, "")
  }

  /** The alt text shown once the request `req` ends with `outcome`. */
  function NextAlt(req: AltRequest, outcome: Outcome): string {
    match outcome
    case Answered(true, text) => text
    case _ => FallbackAlt(req.context)
  }

  /** A response that is not ok is handled like a thrown error, and an ok
      response is shown as it came. */
  lemma NotOkLikeThrow(req: AltRequest, text: string)
    ensures NextAlt(req, Answered(false, text)) == NextAlt(req, Threw) == FallbackAlt(req.context)
    ensures NextAlt(req, Answered(true, text)) == text
  {
  }

  /** Against the route itself every request is answered, and the page then
      shows the route's sentence for the context, never an empty one. */
  lemma ServerAnswerShown(req: AltRequest)
    ensures var shown := NextAlt(req, OutcomeOf(AltTextRoute.Respond(Some(Body(req)))));
            shown == AltTextRoute.AltText(req.context) && shown != ""
  {
  }

  /** The page state. `inFlight` is the request sent by the last click,
      held until it ends. */
  class AltTagsForm {
    var imageUrl: string
    var context: string
    var altText: string
    var isGenerating: bool
    var inFlight: Option<AltRequest>

    /** A request is in flight exactly while generating, and it has an
        image URL. */
    predicate Valid()
      reads this
    {
      && (isGenerating <==> inFlight.Some?)
      && (inFlight.Some? ==> inFlight.value.imageUrl != "")
    }

    constructor ()
      ensures Valid()
      ensures imageUrl == "" && context == "" && altText == "" && !isGenerating
    {
      imageUrl := "";
      context := "";
      altText := "";
      isGenerating := false;
      inFlight := None;
    }

    method SetImageUrl(value: string)
      requires Valid()
      modifies this`imageUrl
      ensures Valid() && imageUrl == value
    {
      imageUrl := value;
    }

    method SetContext(value: string)
      requires Valid()
      modifies this`context
      ensures Valid() && context == value
    {
      context := value;
    }

    /** The "Generate Alt Text" button, up to the request being sent; it is
        disabled while generating. Without an image URL it only raises an
        alert, and the alt text stays as it was. */
    method Generate() returns (alert: Option<string>)
      requires Valid() && !isGenerating
      modifies this`isGenerating, this`inFlight
      ensures Valid()
      ensures imageUrl == "" ==> alert == Some(MissingUrlAlert) && !isGenerating && inFlight == None
      ensures imageUrl != "" ==> alert == None && isGenerating && inFlight == Some(AltRequest(imageUrl, context))
    {
      if imageUrl == "" {
        alert := Some(MissingUrlAlert);
        return;
      }
      isGenerating := true;
      inFlight := Some(AltRequest(imageUrl, context));
      alert := None;
    }

    /** The request ends: the route's sentence on an ok response, the
        fallback otherwise, and generating is over on every path. */
    method Settle(outcome: Outcome)
      requires Valid() && isGenerating
      modifies this`altText, this`isGenerating, this`inFlight
      ensures Valid() && !isGenerating && inFlight == None
      ensures altText == NextAlt(old(inFlight).value, outcome)
    {
      var req := inFlight.value;
      if outcome.Answered? && outcome.ok {
        altText := outcome.altText;
      } else {
        var subject := if req.context != "" then req.context else FallbackDefault;
        altText := FallbackOpen + subject + FallbackClose;
      }
      isGenerating := false;
      inFlight := None;
    }

    /** The `<img>` snippet, shown once there is an alt text. It uses the
        image URL as it is in the input now. When that URL holds no double
        quote, both attributes can be read back out of the snippet. */
    method Snippet() returns (snippet: Option<string>)
      ensures snippet.Some? <==> altText != ""
      ensures snippet.Some? ==> snippet.value == Html.ImgElement(imageUrl, altText)
      ensures snippet.Some? && NoChar(imageUrl, '"') ==>
                Html.ImgAttributes(snippet.value) == Some((imageUrl, altText))
    {
      if altText == "" {
        snippet := None;
      } else {
        if NoChar(imageUrl, '"') {
          Html.ImgAttributesOfElement(imageUrl, altText);
        }
        snippet := Some(Html.ImgElement(imageUrl, altText));
      }
    }

    /** The "Copy" button. */
    method CopyToClipboard(clipboardAccepts: bool) returns (written: Option<string>, alert: string)
      ensures written == (if clipboardAccepts then Some(altText) else None)
      ensures alert == (if clipboardAccepts then CopiedAlert else CopyFailedAlert)
    {
      if clipboardAccepts {
        written := Some(altText);
        alert := CopiedAlert;
      } else {
        written := None;
        alert := CopyFailedAlert;
      }
    }
  }
}
