# CanoniCraft SEO tools in Dafny

This project models the deterministic core of a small Next.js SEO tool
set and proves properties of it. The core consists of:

- the **canonical-tag generator** page, which normalises a URL to an
  absolute `http(s)` URL and wraps it in a `<link rel="canonical">`
  element (the `canonical` link relation of RFC 6596);
- the **alt-text route** `POST /api/generate-alt-text`, which picks one of
  four sentences by ordered, case-insensitive keyword tests on the context;
- the **meta-tag route** `POST /api/generate-meta`, which validates the
  request, fills in defaults, extracts the text of the page at `url`
  (script and style removed, tags stripped, whitespace collapsed, trimmed,
  cut to 2000 characters) and answers with a fixed meta-tag template;
- the **meta-tags page** and the **alt-tags page**, which guard, send and
  settle a request, and fall back to a template of their own on failure;
- the **SEO analyzer** page, with its score, issue and priority banding,
  its simulated analysis, its copy buttons and their "Copied!" marks.

Modules follow the source files: `CanonicalTags`, `AltTextRoute`,
`MetaRoute` with `PageText` for its text extraction, `MetaTagsPage`,
`AltTagsPage` and `SeoAnalyzer`. `Html` holds the HTML fragments that
several files build, `Text` the string operations of JavaScript they use
(`startsWith`, `includes`, `toLowerCase`, `join`, `split`, number
formatting), and `Wrappers` an `Option` type.

Pure code is modelled as functions and lemmas. React component state is
modelled as a class per page whose fields are the `useState` variables.
Each asynchronous handler is split at its `await` into two methods:

- `Generate` or `Analyze` runs the guard and sends the request. It keeps
  the request in an `inFlight` (or `pendingUrl`) field. This request holds
  the values that the handler's closure captured at the click.
- `Settle` or `AnalysisDone` consumes that request when it ends. Its
  outcome is a parameter: thrown, or answered with an ok flag and a body.

The generate buttons are disabled while a request is in flight, so
`Generate` requires that none is. Alerts and clipboard writes are returned
as values.

## Model

| member | source | states |
|---|---|---|
| Html.CanonicalLink | app/canonical-tags/page.tsx:26 | The canonical element starts with `<link rel="canonical" href="`, ends with `" />`, and has exactly the URL in between (by length). |
| Html.CanonicalHrefOfLink | app/canonical-tags/page.tsx:26 | The `href` read back from a canonical element is the URL it was built from, for every URL. |
| Html.CanonicalLinkInjective | app/canonical-tags/page.tsx:26 | Different URLs give different canonical elements. |
| Html.ImgElement | app/alt-tags/page.tsx:125 | The snippet is `<img src="`, the image URL, `" alt="`, the alt text and `" />`, in that order: its length is the sum of the five parts and each part is stated at its position. |
| Html.ImgAttributesOfElement | app/alt-tags/page.tsx:125 | When the image URL holds no double quote, `src` and `alt` are read back from the snippet unchanged. |
| Html.ImgAttributesQuotedSrc | app/alt-tags/page.tsx:125 | A double quote in the image URL breaks the snippet: the `src` read back is not the URL. |
| Html.TitleElement | app/api/generate-meta/route.ts:110 | `<title>` around the text; its layout is stated by `TitleElementLayout`. |
| Html.TitleElementLayout | app/api/generate-meta/route.ts:110 | The element starts with `<title>`, ends with `</title>`, is exactly that much longer than the text, and holds the text right after the opening tag. |
| Html.MetaName | app/api/generate-meta/route.ts:111-112 | The `<meta name>` element; its layout is stated by `MetaNameLayout`. |
| Html.MetaNameLayout | app/api/generate-meta/route.ts:111-112 | The element is `<meta name="`, the name, `" content="`, the content and `" />`, with its length the sum of the five and each part at its position. |
| Html.MetaProperty | app/api/generate-meta/route.ts:116-119 | The Open Graph `<meta property>` element; its layout is stated by `MetaPropertyLayout`. |
| Html.MetaPropertyLayout | app/api/generate-meta/route.ts:116-119 | The element is `<meta property="`, the property, `" content="`, the content and `" />`, with its length the sum of the five and each part at its position. |
| CanonicalTags.Normalize | app/canonical-tags/page.tsx:21-24 | The result always has an `http://` or `https://` scheme and ends with the typed URL. A URL with a scheme is kept verbatim; any other gets exactly `https://` in front. |
| CanonicalTags.NormalizeIdempotent | app/canonical-tags/page.tsx:21-24 | Normalising a normalised URL changes nothing. |
| CanonicalTags.NormalizeRecoversUrl | app/canonical-tags/page.tsx:21-24 | The typed URL is the normalised one, or the normalised one without its added `https://`. |
| CanonicalTags.NormalizeUpperCaseScheme | app/canonical-tags/page.tsx:22 | The scheme test is case-sensitive: `HTTPS://x` becomes `https://HTTPS://x`. |
| CanonicalTags.CanonicalTag | app/canonical-tags/page.tsx:21-26 | The `href` of the generated tag is the normalised URL. |
| CanonicalTags.CanonicalTagIsAbsolute | app/canonical-tags/page.tsx:21-26 | Every generated tag has an absolute `http(s)` `href`. |
| CanonicalTags.CanonicalTagsForm.constructor | app/canonical-tags/page.tsx:12-13 | Both state fields start empty. |
| CanonicalTags.CanonicalTagsForm.SetUrl | app/canonical-tags/page.tsx:73 | The input sets the URL. |
| CanonicalTags.CanonicalTagsForm.Generate | app/canonical-tags/page.tsx:15-28 | An empty URL raises `Please enter a URL` and leaves the tag unchanged. Otherwise there is no alert and the tag becomes `CanonicalTag(url)`. |
| CanonicalTags.CanonicalTagsForm.CopyToClipboard | app/canonical-tags/page.tsx:30-37 | The tag is written when the clipboard accepts it, with the success alert; otherwise nothing is written and the failure alert is shown. |
| AltTextRoute.Classify | app/api/generate-alt-text/route.ts:13-25 | Toy when `wooden` or `toy` occurs. Homeware when no toy keyword occurs but `homeware`, `bowl` or `cutting` does. Workshop when neither group occurs but `workshop` or `craft` does. Plain otherwise. Each is an if-and-only-if. |
| AltTextRoute.AltText | app/api/generate-alt-text/route.ts:11-25 | The alt text is never empty. In the last branch it starts with the context (or `Wooden crafted item` for an empty one) and ends with ` - handmade with attention to detail and quality craftsmanship`. The sentence of each other branch is stated by the lemmas below. |
| AltTextRoute.AltTextLastChar | app/api/generate-alt-text/route.ts:14-24 | No sentence of the route ends in `t`. |
| AltTextRoute.PlainKeepsContext | app/api/generate-alt-text/route.ts:23-24 | In the last branch, dropping the suffix leaves the context in its original case, or `Wooden crafted item` for an empty context. |
| AltTextRoute.HomewareSentenceChosen | app/api/generate-alt-text/route.ts:15-20 | With no toy keyword, a homeware keyword (`homeware`, `bowl`, `cutting`) selects the homeware sentence, even when workshop keywords occur too. |
| AltTextRoute.WorkshopSentenceChosen | app/api/generate-alt-text/route.ts:21-22 | With no toy or homeware keyword, a workshop keyword (`workshop`, `craft`) selects the workshop sentence. |
| AltTextRoute.TemplatesDistinct | app/api/generate-alt-text/route.ts:13-22 | Outside the last branch, equal sentences mean the same branch and the same noun. |
| AltTextRoute.MentionsIgnoresCase | app/api/generate-alt-text/route.ts:13-22 | A keyword in any case is found by the lower-case test. |
| AltTextRoute.UpperCaseToyKeyword | app/api/generate-alt-text/route.ts:13 | A context containing `WOODEN` selects the toy sentence. |
| AltTextRoute.ClassifyCaseInsensitive | app/api/generate-alt-text/route.ts:13-22 | Two contexts with the same lower-case form take the same branch. |
| AltTextRoute.ToyTakesPrecedence | app/api/generate-alt-text/route.ts:13-14 | A toy keyword selects the toy sentence, whatever homeware or workshop keywords occur too. |
| AltTextRoute.ToyNounPrecedence | app/api/generate-alt-text/route.ts:14 | In the toy sentence `car` wins over `puzzle`, and `item` is used when neither occurs. |
| AltTextRoute.KeywordsAreSubstrings | app/api/generate-alt-text/route.ts:14 | The keywords are substrings, not words: a toy context that contains `cardboard` is described as a toy car. |
| AltTextRoute.Respond | app/api/generate-alt-text/route.ts:3-31 | The answer is `{ altText }` exactly when the body is an object with a string context, and the text is then `AltText(context)`, which is non-empty. Every other answer is 500 `Failed to generate alt text`. |
| AltTextRoute.ImageUrlIgnored | app/api/generate-alt-text/route.ts:5-27 | The answer does not depend on `imageUrl`. |
| PageText.FindIgnoreCase | app/api/generate-meta/route.ts:33-34 | The index returned is either the length or a place where the lower-case word occurs, ignoring case. |
| PageText.RemoveElements | app/api/generate-meta/route.ts:33-34 | Removing script or style elements never makes the text longer. |
| PageText.StripTags | app/api/generate-meta/route.ts:35 | No tag is left. A text without `>` is unchanged. |
| PageText.TrimStart | app/api/generate-meta/route.ts:36 | Skipping a whitespace run leaves a suffix of the input. Everything dropped is whitespace, the rest does not start with whitespace, and a run that is there is always dropped. |
| PageText.Trim | app/api/generate-meta/route.ts:37 | The result is the piece of the input that starts at its first non-whitespace character. There is only whitespace before and after it, and it neither starts nor ends with whitespace. |
| PageText.TrimmedUnique | app/api/generate-meta/route.ts:37 | At most one piece of a string has only whitespace around it and none at its ends, so the trimmed text is determined by the input. |
| PageText.Collapse | app/api/generate-meta/route.ts:36 | Only plain single spaces are left as whitespace, and no two are adjacent. The result is empty only for empty input, and starts with a space exactly when the input starts with whitespace. |
| PageText.SqueezeRun | app/api/generate-meta/route.ts:36 | A run of spaces that ends before a non-space or at the end of the text squeezes to one space. |
| PageText.CollapseIsSqueezed | app/api/generate-meta/route.ts:36 | The collapsed text equals the two-pass reference: turn every whitespace character into a space, then drop each space that follows a space. So each whitespace run becomes one space and every other character stays in place. |
| PageText.TrimKeepsCollapsed | app/api/generate-meta/route.ts:36-37 | Trimming a collapsed text keeps it collapsed. |
| PageText.Stripped | app/api/generate-meta/route.ts:32-35 | Script and style elements removed, then tags. What it feeds is stated by `CleanedIsTrimmedSqueeze`: the cleaned text is this text squeezed and trimmed. |
| PageText.Cleaned | app/api/generate-meta/route.ts:32-37 | The cleaned text is collapsed and has no whitespace at either end. |
| PageText.CleanedIsTrimmedSqueeze | app/api/generate-meta/route.ts:32-37 | The cleaned text is the tag-stripped text, passed through the two-pass whitespace reference and then trimmed. |
| PageText.ExtractText | app/api/generate-meta/route.ts:32-39 | The extracted text is the first 2000 characters of the cleaned text, or all of it when it is shorter. It is collapsed and has no leading whitespace. |
| Text.Take | app/api/generate-meta/route.ts:39 | `substring(0, n)`: the first `n` characters, or the whole text when it is shorter. |
| Text.ToLower | app/api/generate-alt-text/route.ts:13 | `toLowerCase` keeps the length and maps each character, and its result is lower case. |
| Text.Join | app/seo-analyzer/page.tsx:317 | `join`. A one-element list joins to its element, and `SplitJoin` shows that splitting gives the pieces back. |
| Text.SplitJoin | app/seo-analyzer/page.tsx:317 | Splitting a non-empty list of newline-free pieces joined by newlines gives the list back. |
| Text.NatToString | app/seo-analyzer/page.tsx:213 | The decimal form of a number is a non-empty run of digits. `ParseNatToString` reads it back, so different numbers have different forms. |
| Text.ParseNatToString | app/seo-analyzer/page.tsx:213 | The decimal form of a number reads back as that number. |
| MetaRoute.OrDefault | app/api/generate-meta/route.ts:46-51 | A non-empty value is kept. With a non-empty fallback the result is never empty. |
| MetaRoute.MetaLines | app/api/generate-meta/route.ts:110-128 | The template has 19 lines. |
| MetaRoute.BasicLines | app/api/generate-meta/route.ts:110-113 | The basic group has four lines: title, description, keywords and canonical. |
| MetaRoute.OpenGraphLines | app/api/generate-meta/route.ts:114-119 | The Open Graph group has six lines, counting the blank line and the comment. |
| MetaRoute.TwitterLines | app/api/generate-meta/route.ts:120-124 | The Twitter card group has five lines, counting the blank line and the comment. |
| MetaRoute.AdditionalLines | app/api/generate-meta/route.ts:125-128 | The additional group has four lines, counting the blank line and the comment. |
| MetaRoute.RequestLines | app/api/generate-meta/route.ts:49-51 | The template lines after the defaults are filled in; `DefaultsFilled` states which value each of the first three lines shows. |
| MetaRoute.MetaTags | app/api/generate-meta/route.ts:110-128 | The `metaTags` string. `MetaTagsSplitsIntoLines` shows that for newline-free fields it splits back into exactly the template's lines. |
| MetaRoute.Respond | app/api/generate-meta/route.ts:11-133 | A body that does not parse gives 500 `Failed to generate meta tags`. No title and no description give 400 `Title or description is required`. Any other request gives `{ metaTags }` with the template for its fields. |
| MetaRoute.Post | app/api/generate-meta/route.ts:11-133 | The handler's step-by-step answer equals `Respond(body)` whatever the fetch and the text generator produced. The page text it extracts is at most 2000 characters and is exactly the extracted text of an ok fetch of an accepted request with a URL, else empty. |
| MetaRoute.AcceptsIff | app/api/generate-meta/route.ts:14-16 | A request is answered with tags exactly when it has a title or a description. |
| MetaRoute.DefaultsFilled | app/api/generate-meta/route.ts:49-51 | An empty title, description or keywords field shows its default in its tag; a non-empty one shows itself. |
| MetaRoute.KeywordsLineAlwaysPresent | app/api/generate-meta/route.ts:51-112 | The keywords tag is always in the template, because the defaulted keywords are never empty. |
| MetaRoute.TitleAndDescriptionEverywhere | app/api/generate-meta/route.ts:110-124 | The generated title is in `<title>`, `og:title` and `twitter:title`. The generated description is in the description, `og:description` and `twitter:description` tags. |
| MetaRoute.NoUrlLineInGroups | app/api/generate-meta/route.ts:110-128 | Without a URL, no line of any of the four groups is the empty-URL canonical or `og:url` tag. |
| MetaRoute.UrlLinesIff | app/api/generate-meta/route.ts:113-118 | The canonical tag and the `og:url` tag are in the template exactly when the URL is non-empty. |
| MetaRoute.MetaLinesSingle | app/api/generate-meta/route.ts:110-128 | No line of the template holds a newline when no field does. |
| MetaRoute.MetaTagsSplitsIntoLines | app/api/generate-meta/route.ts:110-128 | For newline-free fields, the `metaTags` string splits on newlines back into exactly the template's lines. |
| MetaTagsPage.PageGuardStricter | app/meta-tags/page.tsx:21-24 | Every request the page sends is accepted by the route. A title-only request is refused by the page but accepted by the route. |
| MetaTagsPage.FallbackLines | app/meta-tags/page.tsx:46-53 | The fallback template has eight lines. |
| MetaTagsPage.FallbackTags | app/meta-tags/page.tsx:46-53 | The fallback `metaTags` string; `FallbackTagsSplitsIntoLines` ties it to its eight lines. |
| MetaTagsPage.FallbackTagsSplitsIntoLines | app/meta-tags/page.tsx:46-53 | For newline-free fields, the fallback string splits on newlines back into exactly the eight fallback lines. |
| MetaTagsPage.OutcomeOf | app/meta-tags/page.tsx:37-42 | A route answer is ok exactly when it is the tags or a 2xx status, and an ok one carries the route's tags. |
| MetaTagsPage.NextTags | app/meta-tags/page.tsx:37-54 | The tags shown when a request ends. `NotOkLikeThrow` states it: the response's tags when ok, the fallback for a non-ok response and for a thrown error alike. |
| MetaTagsPage.NotOkLikeThrow | app/meta-tags/page.tsx:37-54 | A non-ok response shows the same fallback as a thrown error. An ok one shows its tags. |
| MetaTagsPage.ServerAnswerShown | app/meta-tags/page.tsx:29-42 | Against the route, every request the page sends ends showing the route's `metaTags`. |
| MetaTagsPage.FallbackKeywordsIff | app/meta-tags/page.tsx:48 | The fallback has the keywords tag exactly when keywords are non-empty. |
| MetaTagsPage.FallbackUrlLinesIff | app/meta-tags/page.tsx:49-52 | The fallback has the canonical and `og:url` tags exactly when the URL is non-empty. |
| MetaTagsPage.FallbackWithinServer | app/meta-tags/page.tsx:46-53 | For a request the page sends, every fallback line is a line of the route's template. |
| MetaTagsPage.Counter | app/meta-tags/page.tsx:104-117 | `length/limit characters`; `CounterShowsLength` states that the length reads back from the digits before the slash. |
| MetaTagsPage.CounterShowsLength | app/meta-tags/page.tsx:104 | A counter begins with the field's length in digits followed by `/`, and that length reads back. |
| MetaTagsPage.MetaTagsForm.constructor | app/meta-tags/page.tsx:13-18 | Every field starts empty and nothing is generating. |
| MetaTagsPage.MetaTagsForm.SetTitle | app/meta-tags/page.tsx:101-102 | The title keeps at most 60 characters of the input. |
| MetaTagsPage.MetaTagsForm.SetDescription | app/meta-tags/page.tsx:113-114 | The description keeps at most 160 characters of the input. |
| MetaTagsPage.MetaTagsForm.SetKeywords | app/meta-tags/page.tsx:126 | The input sets the keywords. |
| MetaTagsPage.MetaTagsForm.SetUrl | app/meta-tags/page.tsx:136 | The input sets the URL. |
| MetaTagsPage.MetaTagsForm.Generate | app/meta-tags/page.tsx:20-26 | Without a title or a description there is the alert `Please enter at least a title and description`, no request and no change. Otherwise a request with the four current fields is in flight and `isGenerating` is set. |
| MetaTagsPage.MetaTagsForm.Settle | app/meta-tags/page.tsx:37-57 | The generated tags become `NextTags` of the request in flight: the response's tags when ok, the fallback otherwise. `isGenerating` is false afterwards on every path. |
| MetaTagsPage.MetaTagsForm.TitleCounter | app/meta-tags/page.tsx:104 | The counter is `length/60 characters`. |
| MetaTagsPage.MetaTagsForm.DescriptionCounter | app/meta-tags/page.tsx:117 | The counter is `length/160 characters`. |
| MetaTagsPage.MetaTagsForm.CopyToClipboard | app/meta-tags/page.tsx:60-67 | The tags are written when the clipboard accepts them, with the matching alert. |
| AltTagsPage.FallbackAlt | app/alt-tags/page.tsx:44 | The fallback starts with `Image showing ` and ends with ` - please add descriptive alt text`, with the context (or `content`) in between (by length). |
| AltTagsPage.FallbackNamesContext | app/alt-tags/page.tsx:44 | The context, or `content` for an empty one, is read back from the fallback. |
| AltTagsPage.FallbackNotFromRoute | app/alt-tags/page.tsx:44 | No fallback sentence equals any sentence the route writes. |
| AltTagsPage.OutcomeOf | app/alt-tags/page.tsx:35-40 | A route answer is ok exactly when it is the alt text or a 2xx status, and an ok one carries the route's text. |
| AltTagsPage.NextAlt | app/alt-tags/page.tsx:35-45 | The alt text shown when a request ends. `NotOkLikeThrow` states it: the response's text when ok, the fallback for a non-ok response and for a thrown error alike. |
| AltTagsPage.NotOkLikeThrow | app/alt-tags/page.tsx:35-45 | A non-ok response shows the same fallback as a thrown error. An ok one shows its text. |
| AltTagsPage.ServerAnswerShown | app/alt-tags/page.tsx:27-40 | Against the route, every request ends showing `AltText(context)`, which is non-empty. |
| AltTagsPage.AltTagsForm.constructor | app/alt-tags/page.tsx:13-16 | Every field starts empty and nothing is generating. |
| AltTagsPage.AltTagsForm.SetImageUrl | app/alt-tags/page.tsx:92 | The input sets the image URL. |
| AltTagsPage.AltTagsForm.SetContext | app/alt-tags/page.tsx:102 | The input sets the context. |
| AltTagsPage.AltTagsForm.Generate | app/alt-tags/page.tsx:18-24 | An empty image URL raises `Please enter an image URL`, sends nothing and leaves the alt text unchanged. Otherwise a request with both fields is in flight. |
| AltTagsPage.AltTagsForm.Settle | app/alt-tags/page.tsx:35-48 | The alt text becomes the response's text when ok, the fallback for the request's context otherwise. `isGenerating` is false afterwards on every path. |
| AltTagsPage.AltTagsForm.Snippet | app/alt-tags/page.tsx:112-125 | The snippet is shown exactly when there is an alt text, and it is the `<img>` element of the current URL and alt text. Both attributes read back from it when the URL holds no quote. |
| AltTagsPage.AltTagsForm.CopyToClipboard | app/alt-tags/page.tsx:51-58 | The alt text is written when the clipboard accepts it, with the matching alert. |
| SeoAnalyzer.ScoreBand | app/seo-analyzer/page.tsx:98-102 | Good exactly at 80 and above, fair exactly from 60 up to 79, poor exactly below 60. |
| SeoAnalyzer.BandColor | app/seo-analyzer/page.tsx:99-101 | The colour class of a band; `BandColorInjective` states that the three differ. |
| SeoAnalyzer.ScoreColor | app/seo-analyzer/page.tsx:98-102 | The colour is the colour of the score's band. |
| SeoAnalyzer.ScoreBandMonotone | app/seo-analyzer/page.tsx:98-102 | A higher score never gets a worse band. |
| SeoAnalyzer.BandColorInjective | app/seo-analyzer/page.tsx:99-101 | The three bands have three different colours. |
| SeoAnalyzer.ScoreColorBoundaries | app/seo-analyzer/page.tsx:99-100 | 80 is green and 79 yellow; 60 is yellow and 59 red. |
| SeoAnalyzer.IssueIcon | app/seo-analyzer/page.tsx:104-115 | A cross exactly for `error`, a check exactly for `success`, and a triangle for everything else. The grey tone is used exactly for types other than the three named ones. |
| SeoAnalyzer.IssueToneTellsType | app/seo-analyzer/page.tsx:104-115 | Equal icon tones mean equal types, or two unnamed types. |
| SeoAnalyzer.BadgeVariant | app/seo-analyzer/page.tsx:259-265 | `destructive` exactly for `high`, `secondary` exactly for `medium`, `outline` for everything else. |
| SeoAnalyzer.SampleResults | app/seo-analyzer/page.tsx:37-79 | The simulated results carry the analysed URL and score 78, equal to the SEO metric, with four issues and five recommendations. |
| SeoAnalyzer.SampleDisplay | app/seo-analyzer/page.tsx:37-79 | The four sample issues get a red cross, a yellow triangle, a green check and a yellow triangle. Their badges are destructive, secondary, outline and destructive. The score is in the fair band. |
| SeoAnalyzer.ReportLines | app/seo-analyzer/page.tsx:213 | The report has six lines. |
| SeoAnalyzer.Report | app/seo-analyzer/page.tsx:213 | The exported report, its six lines joined by newlines; `ReportRoundTrip` reads it back. |
| SeoAnalyzer.ReportRoundTrip | app/seo-analyzer/page.tsx:213 | For a newline-free URL, the URL, the score and the four metrics read back from the exported report. |
| SeoAnalyzer.IssueCopyText | app/seo-analyzer/page.tsx:275 | The copied issue text is the title, `: ` and the description: it starts with the title, has `: ` right after it, ends with the description, and is two characters longer than both together. |
| SeoAnalyzer.IssueCopyTextSplits | app/seo-analyzer/page.tsx:275 | When the title holds no colon, the first colon of the copied text ends the title, `: ` follows, and the rest is the description. |
| SeoAnalyzer.CopyAllText | app/seo-analyzer/page.tsx:317 | `recommendations.join("\n")`; `CopyAllSplits` and `CopyAllEmpty` state what splitting it gives back. |
| SeoAnalyzer.CopyAllSplits | app/seo-analyzer/page.tsx:317 | Splitting the copied recommendations on newlines gives back the list, when it is non-empty and newline-free. |
| SeoAnalyzer.CopyAllEmpty | app/seo-analyzer/page.tsx:317 | With no recommendations the copied text is empty and splits into one empty line. |
| SeoAnalyzer.ItemKey | app/seo-analyzer/page.tsx:159-317 | The `copiedItem` key of a button; `ItemKeyInjective` states that different buttons have different keys. |
| SeoAnalyzer.ItemKeyInjective | app/seo-analyzer/page.tsx:161-317 | Different copy buttons set different `copiedItem` keys. |
| SeoAnalyzer.CopyText | app/seo-analyzer/page.tsx:159-317 | A button copies nothing exactly when it is an issue or recommendation button whose index is out of range; every other button copies its text. |
| SeoAnalyzer.OneMarkAtATime | app/seo-analyzer/page.tsx:166-319 | At most one button shows its "Copied!" mark at a time. |
| SeoAnalyzer.Analyzer.constructor | app/seo-analyzer/page.tsx:25-28 | An empty URL, no analysis, no results and no mark. |
| SeoAnalyzer.Analyzer.SetUrl | app/seo-analyzer/page.tsx:138 | The input sets the URL. |
| SeoAnalyzer.Analyzer.Analyze | app/seo-analyzer/page.tsx:30-33 | With an empty URL nothing changes. Otherwise an analysis of the current URL is pending and `isAnalyzing` is set, while the results on show stay. |
| SeoAnalyzer.Analyzer.AnalysisDone | app/seo-analyzer/page.tsx:36-81 | The sample results for the URL of the click are shown, and `isAnalyzing` is false. |
| SeoAnalyzer.Analyzer.Copy | app/seo-analyzer/page.tsx:84-92 | On a clipboard that accepts, the button's text is written, its key is marked, and one more reset timer is pending. On one that refuses, nothing changes. |
| SeoAnalyzer.Analyzer.ResetFires | app/seo-analyzer/page.tsx:88 | A reset timer clears the mark, even one set by a later copy. |
| SeoAnalyzer.Analyzer.ShowsCopied | app/seo-analyzer/page.tsx:166-319 | A button shows its mark exactly when `copiedItem` is its key. |

## Left out

- Rendering: all JSX, layout, tabs and icons beyond the glyph and colour they stand for. The navigation and info pages are not part of this model, and neither is `app/page.tsx`, whose badge bands repeat the 80/60 thresholds.
- Browser and network effects:
  - `alert` and the clipboard are returned as values. A clipboard failure is a boolean parameter.
  - `fetch` on the pages is the `Outcome` parameter of `Settle`. The route's own `fetch` of the target page is a `FetchResult` parameter.
  - `window.open` and the calendar URL, which depends on the clock, are left out.
- The text generator call in the meta-tag route, and its prompt: `Post` takes the generator's answer as a parameter (`None` when the key is missing or the call threw), and its answer does not depend on it, as the route never uses the text.
- Timing: the route's two-second wait, the three-second analysis timer and the two-second reset timer are events without a clock. Timers that have not fired when the page is left are not modelled.
- `toLowerCase` and the `i` flag of the regular expressions are modelled for the letters A to Z only; other case mappings are not part of this model.
- Strings are sequences of characters, not of UTF-16 code units, so the 2000-character cut and `maxLength` count characters.
- `maxLength` is modelled as keeping the first 60 or 160 characters of a new value. How the browser handles typing past the limit is not modelled.
- JSON values that are not strings: a missing or `null` field of the meta-tag request is the empty string, and a number, object or array there, which the template would print, is not modelled. The alt-text route's `context` is `None` when it is missing or not a string; the source then throws on `toLowerCase`, and the model answers 500 as its catch-all does. Which non-string value it was is not distinguished.
- PageText.RemoveElements: only the length bound is stated. The model follows the regular expression's matching step by step, but no lemma proves that every element is removed.
- PageText.FindIgnoreCase: the contract does not say that the index is the first occurrence, only that a match starts there.
- PageText.ExtractText: does not promise that there is no trailing space after the 2000-character cut. The cut can end on a space, as in the source, so that property holds only when the cleaned text fits.
- SeoAnalyzer.ScoreColor: scores are integers. A JavaScript `number` can also be fractional, which is compared the same way, or `NaN`, which would get red; neither is modelled. The page declares `getScoreColor` but never calls it.
- An ok response without the expected `metaTags` or `altText` field is not modelled; `Outcome` always carries a string.
- The mock routes `/api/analyze-seo` and `/api/fix-seo-issues`, the search-console pages and their sample data are not part of this model.
