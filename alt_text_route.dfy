/** The `POST /api/generate-alt-text` route. It picks one of four sentence
    templates by ordered, case-insensitive substring tests on the request's
    `context`; the `imageUrl` it receives is never read. */
module AltTextRoute {
  import opened Wrappers
  import opened Text

  /** The case-insensitive keyword test `context.toLowerCase().includes(k)`. */
  predicate Mentions(context: string, keyword: string) {
    Contains(ToLower(context), keyword)
  }

  predicate MentionsToy(context: string) {
    Mentions(context, "wooden") || Mentions(context, "toy")
  }

  predicate MentionsHomeware(context: string) {
    Mentions(context, "homeware") || Mentions(context, "bowl") || Mentions(context, "cutting")
  }

  predicate MentionsWorkshop(context: string) {
    Mentions(context, "workshop") || Mentions(context, "craft")
  }

  /** The noun of the toy sentence. */
  datatype Noun = Car | Puzzle | Item

  /** Which of the four sentences the route writes. */
  datatype Template = Toy(noun: Noun) | Homeware | Workshop | Plain

  /** The branch the route takes: the toy keywords are checked first, then the
      homeware keywords, then the workshop keywords. */
  function Classify(context: string): (t: Template)
    ensures t.Toy? <==> MentionsToy(context)
    ensures t.Homeware? <==> !MentionsToy(context) && MentionsHomeware(context)
    ensures t.Workshop? <==> !MentionsToy(context) && !MentionsHomeware(context) && MentionsWorkshop(context)
    ensures t.Plain? <==> !MentionsToy(context) && !MentionsHomeware(context) && !MentionsWorkshop(context)
  {
    if MentionsToy(context) then
      Toy(if Mentions(context, "car") then Car else if Mentions(context, "puzzle") then Puzzle else Item)
    else if MentionsHomeware(context) then Homeware
    else if MentionsWorkshop(context) then Workshop
    else Plain
  }

  function NounWord(n: Noun): string {
    match n
    case Car => "car"
    case Puzzle => "puzzle"
    case Item => "item"
  }

  const HomewareSentence := "Custom wooden homeware piece crafted from native"
    + " New Zealand wood with natural grain pattern" + " and food-safe finish"
  const WorkshopSentence := "Artisan workshop scene showing traditional"
    + " woodworking tools and handcrafted wooden items" + " in various stages of completion"
  const PlainSuffix := " - handmade with attention to detail" + " and quality craftsmanship"
  const PlainDefault := "Wooden crafted item"

  function ToySentence(n: Noun): string {
    "Handcrafted wooden toy " + NounWord(n) + " made from sustainable New Zealand timber"
    + " with smooth finish" + " and child-safe design"
  }

  /** The alt text for a context. It is never empty; in the last branch it
      is the context in its original case (or a default for an empty
      context) followed by a fixed suffix. */
  function AltText(context: string): (r: string)
    ensures r != ""
    ensures Classify(context).Plain? ==> EndsWith(r, PlainSuffix)
    ensures Classify(context).Plain? ==> StartsWith(r, if context == "" then PlainDefault else context)
  {
    match Classify(context)
    case Toy(n) => ToySentence(n)
    case Homeware => HomewareSentence
    case Workshop => WorkshopSentence
    case Plain => (if context == "" then PlainDefault else context) + PlainSuffix
  }

  /** No sentence the route writes ends in `t`. */
  lemma AltTextLastChar(context: string)
    ensures var r := AltText(context);
            r[|r| - 1] != 't'
  {
    var r := AltText(context);
    match Classify(context)
    case Toy(n) =>
      assert r[|r| - 1] == " and child-safe design"[21];
    case Homeware =>
      assert r[|r| - 1] == " and food-safe finish"[20];
    case Workshop =>
      assert r[|r| - 1] == " in various stages of completion"[31];
    case Plain =>
      assert r[|r| - 1] == " and quality craftsmanship"[25];
  }

  /** In the last branch the context, or the default for an empty context,
      can be read back from the sentence before its suffix. */
  lemma PlainKeepsContext(context: string)
    requires Classify(context).Plain?
    ensures var r := AltText(context);
            |PlainSuffix| <= |r| && r[..|r| - |PlainSuffix|] == if context == "" then PlainDefault else context
  {
  }

  /** Without a toy keyword, a homeware keyword selects the homeware
      sentence, whatever workshop keywords there are. */
  lemma HomewareSentenceChosen(context: string)
    requires !MentionsToy(context) && MentionsHomeware(context)
    ensures AltText(context) == HomewareSentence
  {
  }

  /** With neither a toy nor a homeware keyword, a workshop keyword selects
      the workshop sentence. */
  lemma WorkshopSentenceChosen(context: string)
    requires !MentionsToy(context) && !MentionsHomeware(context) && MentionsWorkshop(context)
    ensures AltText(context) == WorkshopSentence
  {
  }

  /** The four branches write four different kinds of sentence, so the
      branch can be told from the sentence. */
  lemma TemplatesDistinct(a: string, b: string)
    requires !Classify(a).Plain? && !Classify(b).Plain?
    requires AltText(a) == AltText(b)
    ensures Classify(a) == Classify(b)
  {
    // The five fixed sentences have five different lengths.
    assert |HomewareSentence| == 113 && |WorkshopSentence| == 121;
    assert |ToySentence(Car)| == 108 && |ToySentence(Puzzle)| == 111 && |ToySentence(Item)| == 109;
  }

  /** An upper- or mixed-case keyword is found as well. */
  lemma MentionsIgnoresCase(context: string, word: string)
    requires Contains(context, word)
    ensures Mentions(context, ToLower(word))
  {
    ToLowerKeepsContains(context, word);
  }

  /** For instance, a context that says `WOODEN` selects the toy sentence. */
  lemma UpperCaseToyKeyword(context: string)
    requires Contains(context, "WOODEN")
    ensures Classify(context).Toy?
  {
    MentionsIgnoresCase(context, "WOODEN");
    assert ToLower("WOODEN") == "wooden";
  }

  /** The branch depends on the context only through its lower-case form. */
  lemma ClassifyCaseInsensitive(a: string, b: string)
    requires ToLower(a) == ToLower(b)
    ensures Classify(a) == Classify(b)
  {
  }

  /** A toy keyword wins over every homeware and workshop keyword. */
  lemma ToyTakesPrecedence(context: string)
    requires MentionsToy(context)
    ensures Classify(context).Toy?
    ensures AltText(context) == ToySentence(Classify(context).noun)
  {
  }

  /** Inside the toy sentence `car` wins over `puzzle`, and `item` is used
      when neither occurs. */
  lemma ToyNounPrecedence(context: string)
    requires MentionsToy(context)
    ensures Mentions(context, "car") ==> Classify(context).noun == Car
    ensures !Mentions(context, "car") && Mentions(context, "puzzle") ==> Classify(context).noun == Puzzle
    ensures !Mentions(context, "car") && !Mentions(context, "puzzle") ==> Classify(context).noun == Item
  {
  }

  /** The keywords are plain substrings, not words: `cardboard` contains
      `car`, so a wooden cardboard puzzle is described as a toy car. */
  lemma KeywordsAreSubstrings(context: string)
    requires MentionsToy(context) && Contains(context, "cardboard")
    ensures Classify(context) == Toy(Car)
  {
    var i: nat :| i <= |context| && OccursAt(context, "cardboard", i);
    assert OccursAt(context, "car", i) by {
      assert context[i..i + 3] == context[i..i + 9][..3];
    }
    ToLowerKeepsOccurrence(context, "car", i);
    assert ToLower("car") == "car";
    ContainsAtWitness(ToLower(context), "car", i);
  }

  /** The parsed JSON body. `None` in a field stands for a missing value or
      a value that is not a string. */
  datatype AltBody = AltBody(imageUrl: Option<string>, context: Option<string>)

  /** The JSON response: `{ altText }` with status 200, or `{ error }`. */
  datatype AltResponse = AltTextJson(altText: string) | ErrorJson(status: nat, error: string)

  const FailureMessage := "Failed to generate alt text"

  /** The route. A body that is not a JSON object, or a `context` that is not
      a string, makes `toLowerCase` throw, and the catch-all answers 500. */
  function Respond(body: Option<AltBody>): (r: AltResponse)
    ensures r.AltTextJson? <==> body.Some? && body.value.context.Some?
    ensures r.AltTextJson? ==> r.altText == AltText(body.value.context.value) && r.altText != ""
    ensures r.ErrorJson? ==> r.status == 500 && r.error == FailureMessage
  {
    match body
    case None => ErrorJson(500, FailureMessage)
    case Some(AltBody(_, context)) =>
      match context
      case None => ErrorJson(500, FailureMessage)
      case Some(c) => AltTextJson(AltText(c))
  }

  /** The answer does not depend on the image URL at all. */
  lemma ImageUrlIgnored(u1: Option<string>, u2: Option<string>, context: Option<string>)
    ensures Respond(Some(AltBody(u1, context))) == Respond(Some(AltBody(u2, context)))
  {
  }
}
