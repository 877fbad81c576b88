/** The SEO analyzer page: a simulated analysis that, after a delay, shows a
    fixed set of results for the URL typed; the banding of scores, issues
    and priorities into colours, icons and badges; and the copy buttons with
    the texts they copy and the "Copied!" marks they show. */
module SeoAnalyzer {
  import opened Wrappers
  import opened Text

  /** The three colour bands of a score, from worst to best. */
  datatype Band = Poor | Fair | Good

  function BandRank(b: Band): nat {
    match b
    case Poor => 0
    case Fair => 1
    case Good => 2
  }

  /** The band of a score: 80 and above is good, 60 up to 80 is fair, and
      anything below 60 is poor; both thresholds belong to the upper band. */
  function ScoreBand(score: int): (b: Band)
    ensures b == Good <==> score >= 80
    ensures b == Fair <==> 60 <= score < 80
    ensures b == Poor <==> score < 60
  {
    if score >= 80 then Good else if score >= 60 then Fair else Poor
  }

  function BandColor(b: Band): string {
    match b
    case Good => "text-green-600"
    case Fair => "text-yellow-600"
    case Poor => "text-red-600"
  }

  /** `getScoreColor`. */
  function ScoreColor(score: int): (color: string)
    ensures color == BandColor(ScoreBand(score))
  {
    if score >= 80 then "text-green-600"
    else if score >= 60 then "text-yellow-600"
    else "text-red-600"
  }

  /** A higher score never gets a worse band. */
  lemma ScoreBandMonotone(low: int, high: int)
    requires low <= high
    ensures BandRank(ScoreBand(low)) <= BandRank(ScoreBand(high))
  {
  }

  /** The three colours are different, so the colour tells the band. */
  lemma BandColorInjective(a: Band, b: Band)
    requires BandColor(a) == BandColor(b)
    ensures a == b
  {
    assert BandColor(Good)[5] == 'g' && BandColor(Fair)[5] == 'y' && BandColor(Poor)[5] == 'r';
  }

  /** The colours at and around the two thresholds. */
  lemma ScoreColorBoundaries()
    ensures ScoreColor(80) == "text-green-600" && ScoreColor(79) == "text-yellow-600"
    ensures ScoreColor(60) == "text-yellow-600" && ScoreColor(59) == "text-red-600"
  {
  }

  /** The icons an issue can get. */
  datatype Glyph = XCircle | AlertTriangle | CheckCircle

  /** An icon with its colour class. */
  datatype Icon = Icon(glyph: Glyph, tone: string)

  /** `getIssueIcon`: a red cross for an error, a yellow triangle for a
      warning, a green check for a success, and a grey triangle for any
      other type. */
  function IssueIcon(issueType: string): (icon: Icon)
    ensures icon.glyph == XCircle <==> issueType == "error"
    ensures icon.glyph == CheckCircle <==> issueType == "success"
    ensures icon.glyph == AlertTriangle <==> issueType != "error" && issueType != "success"
    ensures icon.tone == "text-gray-500" <==> issueType !in {"error", "warning", "success"}
  {
    if issueType == "error" then Icon(XCircle, "text-red-500")
    else if issueType == "warning" then Icon(AlertTriangle, "text-yellow-500")
    else if issueType == "success" then Icon(CheckCircle, "text-green-500")
    else Icon(AlertTriangle, "text-gray-500")
  }

  /** The tones of the four icons are different. */
  lemma IssueToneTellsType(a: string, b: string)
    requires IssueIcon(a).tone == IssueIcon(b).tone
    ensures a == b || (a !in {"error", "warning", "success"} && b !in {"error", "warning", "success"})
  {
    assert "text-red-500"[5] == 'r' && "text-yellow-500"[5] == 'y';
    assert "text-green-500"[5] == 'g' && "text-gray-500"[7] == 'a' && "text-green-500"[7] == 'e';
  }

  /** The badge variant of a priority: `destructive` for high, `secondary`
      for medium and `outline` for anything else. */
  function BadgeVariant(priority: string): (variant: string)
    ensures variant == "destructive" <==> priority == "high"
    ensures variant == "secondary" <==> priority == "medium"
    ensures variant == "outline" <==> priority != "high" && priority != "medium"
  {
    if priority == "high" then "destructive"
    else if priority == "medium" then "secondary"
    else "outline"
  }

  datatype Issue = Issue(issueType: string, title: string, description: string, priority: string)

  datatype Metrics = Metrics(performance: nat, accessibility: nat, bestPractices: nat, seo: nat)

  datatype Results = Results(score: nat, url: string, issues: seq<Issue>, metrics: Metrics, recommendations: seq<string>)

  /** The results the simulated analysis shows, the same for every URL
      except for the URL itself. */
  function SampleResults(url: string): (r: Results)
    ensures r.url == url && r.score == 78 && r.score == r.metrics.seo
    ensures |r.issues| == 4 && |r.recommendations| == 5
  {
    Results(
      78, url,
      [ Issue("error", "Missing meta description", "Add meta descriptions to improve click-through rates", "high"),
        Issue("warning", "Large images detected", "Optimize images to improve page load speed", "medium"),
        Issue("success", "Mobile-friendly design", "Your site works well on mobile devices", "low"),
        Issue("warning", "Missing alt text", "5 images are missing alt text for accessibility", "high") ],
      Metrics(85, 72, 90, 78),
      [ "Add meta descriptions to all pages",
        "Optimize image sizes and formats",
        "Improve page loading speed",
        "Add alt text to all images",
        "Implement structured data markup" ])
  }

  /** How the sample issues are shown: a red cross and a destructive badge,
      a yellow triangle and a secondary badge, a green check and an outline
      badge, and a yellow triangle and a destructive badge; the score is in
      the fair band. */
  lemma SampleDisplay(url: string)
    ensures var r := SampleResults(url);
            && IssueIcon(r.issues[0].issueType) == Icon(XCircle, "text-red-500")
            && IssueIcon(r.issues[1].issueType) == Icon(AlertTriangle, "text-yellow-500")
            && IssueIcon(r.issues[2].issueType) == Icon(CheckCircle, "text-green-500")
            && IssueIcon(r.issues[3].issueType) == Icon(AlertTriangle, "text-yellow-500")
            && BadgeVariant(r.issues[0].priority) == "destructive"
            && BadgeVariant(r.issues[1].priority) == "secondary"
            && BadgeVariant(r.issues[2].priority) == "outline"
            && BadgeVariant(r.issues[3].priority) == "destructive"
            && ScoreBand(r.score) == Fair
  {
  }

  const ReportHeader := "SEO Analysis Report for "
  const ScoreLabel := "Score: "
  const ScoreClose := "/100"
  const PerformanceLabel := "Performance: "
  const AccessibilityLabel := "Accessibility: "
  const BestPracticesLabel := "Best Practices: "
  const SeoLabel := "SEO: "

  /** The lines of the exported report. */
  function ReportLines(r: Results): (lines: seq<string>)
    ensures |lines| == 6
  {
    [ ReportHeader + r.url,
      ScoreLabel + NatToString(r.score) + ScoreClose,
      PerformanceLabel + NatToString(r.metrics.performance),
      AccessibilityLabel + NatToString(r.metrics.accessibility),
      BestPracticesLabel + NatToString(r.metrics.bestPractices),
      SeoLabel + NatToString(r.metrics.seo) ]
  }

  /** The "Export Report" text: the six lines joined by newlines. */
  function Report(r: Results): string {
    Join(ReportLines(r), "\n")
  }

  /** What can be read back out of a report. */
  datatype Summary = Summary(url: string, score: nat, metrics: Metrics)

  /** The number between `open` and `close` in `line`, when that is all
      digits. */
  function NumberBetween(line: string, open: string, close: string): Option<nat> {
    if |open| + |close| <= |line| && StartsWith(line, open) && EndsWith(line, close)
       && IsDigits(line[|open|..|line| - |close|])
    then Some(ParseNat(line[|open|..|line| - |close|]))
    else None
  }

  lemma NumberBetweenOf(open: string, n: nat, close: string)
    ensures NumberBetween(open + NatToString(n) + close, open, close) == Some(n)
  {
    var line := open + NatToString(n) + close;
    assert line[|open|..|line| - |close|] == NatToString(n);
    ParseNatToString(n);
  }

  /** A report read back line by line. */
  function ReadReport(text: string): Option<Summary> {
    var lines := Split(text, '\n');
    if |lines| != 6 || !StartsWith(lines[0], ReportHeader) then None
    else
      var score := NumberBetween(lines[1], ScoreLabel, ScoreClose);
      var performance := NumberBetween(lines[2], PerformanceLabel, "");
      var accessibility := NumberBetween(lines[3], AccessibilityLabel, "");
      var bestPractices := NumberBetween(lines[4], BestPracticesLabel, "");
      var seo := NumberBetween(lines[5], SeoLabel, "");
      if score.Some? && performance.Some? && accessibility.Some? && bestPractices.Some? && seo.Some?
      then Some(Summary(lines[0][|ReportHeader|..], score.value,
                        Metrics(performance.value, accessibility.value, bestPractices.value, seo.value)))
      else None
  }

  /** Every report line but the first is free of newlines. */
  lemma ReportLinesSingle(r: Results)
    requires NoChar(r.url, '\n')
    ensures forall line | line in ReportLines(r) :: NoChar(line, '\n')
  {
    var lines := ReportLines(r);
    NoCharIffNotIn(r.url, '\n');
    forall i | 0 <= i < 6
      ensures NoChar(lines[i], '\n')
    {
      NoCharIffNotIn(lines[i], '\n');
    }
  }

  /** The report gives back the URL, the score and the four metrics, as
      long as the URL holds no newline. */
  lemma ReportRoundTrip(r: Results)
    requires NoChar(r.url, '\n')
    ensures ReadReport(Report(r)) == Some(Summary(r.url, r.score, r.metrics))
  {
    var lines := ReportLines(r);
    ReportLinesSingle(r);
    SplitJoin(lines, '\n');
    assert lines[0][|ReportHeader|..] == r.url;
    NumberBetweenOf(ScoreLabel, r.score, ScoreClose);
    NumberBetweenOf(PerformanceLabel, r.metrics.performance, "");
    NumberBetweenOf(AccessibilityLabel, r.metrics.accessibility, "");
    NumberBetweenOf(BestPracticesLabel, r.metrics.bestPractices, "");
    NumberBetweenOf(SeoLabel, r.metrics.seo, "");
    assert lines[2] == PerformanceLabel + NatToString(r.metrics.performance) + "";
    assert lines[3] == AccessibilityLabel + NatToString(r.metrics.accessibility) + "";
    assert lines[4] == BestPracticesLabel + NatToString(r.metrics.bestPractices) + "";
    assert lines[5] == SeoLabel + NatToString(r.metrics.seo) + "";
  }

  /** The "Copy Issue" text. */
  function IssueCopyText(issue: Issue): (text: string)
    ensures |text| == |issue.title| + 2 + |issue.description|
    ensures StartsWith(text, issue.title) && EndsWith(text, issue.description)
    ensures text[|issue.title|..|issue.title| + 2] == ": "
  {
    issue.title + ": " + issue.description
  }

  /** When the title holds no colon, the title and the description can be
      read back from the copied text. */
  lemma IssueCopyTextSplits(issue: Issue)
    requires NoChar(issue.title, ':')
    ensures var text := IssueCopyText(issue);
            var k := IndexOf(text, ':');
            && k == |issue.title| && text[..k] == issue.title
            && text[k..k + 2] == ": " && text[k + 2..] == issue.description
  {
    var text := IssueCopyText(issue);
    assert text == issue.title + [':'] + (" " + issue.description);
    IndexOfAfterPiece(issue.title, ':', " " + issue.description);
  }

  /** The "Copy All Recommendations" text. */
  function CopyAllText(recommendations: seq<string>): string {
    Join(recommendations, "\n")
  }

  /** The copied text splits back into the recommendations when there is
      at least one and none holds a newline. */
  lemma CopyAllSplits(recommendations: seq<string>)
    requires |recommendations| >= 1
    requires forall rec | rec in recommendations :: NoChar(rec, '\n')
    ensures Split(CopyAllText(recommendations), '\n') == recommendations
  {
    SplitJoin(recommendations, '\n');
  }

  /** With no recommendations the copied text is empty, and splitting it
      gives one empty line rather than the empty list. */
  lemma CopyAllEmpty()
    ensures CopyAllText([]) == "" && Split(CopyAllText([]), '\n') == [""]
  {
  }

  const TipsText := "SEO Analysis Tips: Check meta tags, optimize images,"
    + " improve loading speed, ensure mobile-friendliness"

  /** The copy buttons of the page. */
  datatype CopyButton = Tips | ExportReport | CopyIssue(index: nat) | CopyRecommendation(index: nat) | CopyAll

  /** The `copiedItem` key each button sets, and tests to show its mark. */
  function ItemKey(b: CopyButton): string {
    match b
    case Tips => "tips"
    case ExportReport => "report"
    case CopyIssue(i) => "issue-" + NatToString(i)
    case CopyRecommendation(i) => "rec-" + NatToString(i)
    case CopyAll => "all-recommendations"
  }

  /** Different buttons set different keys, so a copy marks exactly the
      button that was pressed. */
  lemma ItemKeyInjective(a: CopyButton, b: CopyButton)
    requires ItemKey(a) == ItemKey(b)
    ensures a == b
  {
    var ka, kb := ItemKey(a), ItemKey(b);
    assert ka[0] == kb[0];
    assert |ka| >= 4 && |kb| >= 4;
    assert ka[2] == kb[2];
    if a.CopyIssue? && b.CopyIssue? {
      assert ka[6..] == NatToString(a.index) && kb[6..] == NatToString(b.index);
      NatToStringInjective(a.index, b.index);
    } else if a.CopyRecommendation? && b.CopyRecommendation? {
      assert ka[4..] == NatToString(a.index) && kb[4..] == NatToString(b.index);
      NatToStringInjective(a.index, b.index);
    }
  }

  /** The text a button copies from the results on show; an issue or a
      recommendation button exists only for an index in range. */
  function CopyText(b: CopyButton, r: Results): (t: Option<string>)
    ensures t.None? <==> || (b.CopyIssue? && b.index >= |r.issues|)
                         || (b.CopyRecommendation? && b.index >= |r.recommendations|)
  {
    match b
    case Tips => Some(TipsText)
    case ExportReport => Some(Report(r))
    case CopyIssue(i) => if i < |r.issues| then Some(IssueCopyText(r.issues[i])) else None
    case CopyRecommendation(i) => if i < |r.recommendations| then Some(r.recommendations[i]) else None
    case CopyAll => Some(CopyAllText(r.recommendations))
  }

  /** The page state. `pendingUrl` is the URL of an analysis whose timer
      has not fired yet; `pendingResets` counts the two-second timers that
      will clear the copied mark. */
  class Analyzer {
    var url: string
    var isAnalyzing: bool
    var results: Option<Results>
    var copiedItem: Option<string>
    var pendingUrl: Option<string>
    var pendingResets: nat

    /** An analysis is pending exactly while analyzing, and it is for a
        non-empty URL. */
    predicate Valid()
      reads this
    {
      && (isAnalyzing <==> pendingUrl.Some?)
      && (pendingUrl.Some? ==> pendingUrl.value != "")
    }

    constructor ()
      ensures Valid()
      ensures url == "" && !isAnalyzing && results == None && copiedItem == None && pendingResets == 0
    {
      url := "";
      isAnalyzing := false;
      results := None;
      copiedItem := None;
      pendingUrl := None;
      pendingResets := 0;
    }

    method SetUrl(value: string)
      requires Valid()
      modifies this`url
      ensures Valid() && url == value
    {
      url := value;
    }

    /** The "Analyze" button, disabled while analyzing. With an empty URL
        nothing changes; otherwise the analysis starts and the results on
        show, if any, stay until it ends. */
    method Analyze()
      requires Valid() && !isAnalyzing
      modifies this`isAnalyzing, this`pendingUrl
      ensures Valid()
      ensures url == "" ==> !isAnalyzing && pendingUrl == None
      ensures url != "" ==> isAnalyzing && pendingUrl == Some(url)
    {
      if url == "" {
        return;
      }
      isAnalyzing := true;
      pendingUrl := Some(url);
    }

    /** The three-second timer of an analysis fires: the sample results for
        the URL of the click are shown, whatever the input holds now. */
    method AnalysisDone()
      requires Valid() && isAnalyzing
      modifies this`isAnalyzing, this`pendingUrl, this`results
      ensures Valid() && !isAnalyzing && pendingUrl == None
      ensures results == Some(SampleResults(old(pendingUrl).value))
    {
      results := Some(SampleResults(pendingUrl.value));
      isAnalyzing := false;
      pendingUrl := None;
    }

    /** A copy button is pressed. When the clipboard accepts the text, the
        button's key is marked and a reset timer is started; when it does
        not, nothing changes. */
    method Copy(b: CopyButton, clipboardAccepts: bool) returns (written: Option<string>)
      requires Valid()
      requires b.Tips? || results.Some?
      requires b.CopyIssue? ==> b.index < |results.value.issues|
      requires b.CopyRecommendation? ==> b.index < |results.value.recommendations|
      modifies this`copiedItem, this`pendingResets
      ensures Valid()
      ensures !clipboardAccepts ==> written == None && copiedItem == old(copiedItem) && pendingResets == old(pendingResets)
      ensures clipboardAccepts ==> written.Some? && copiedItem == Some(ItemKey(b)) && pendingResets == old(pendingResets) + 1
      ensures clipboardAccepts && b.Tips? ==> written == Some(TipsText)
      ensures clipboardAccepts && !b.Tips? ==> written == CopyText(b, results.value)
    {
      if !clipboardAccepts {
        written := None;
        return;
      }
      var text: string;
      match b {
        case Tips => text := TipsText;
        case ExportReport => text := Report(results.value);
        case CopyIssue(i) => text := IssueCopyText(results.value.issues[i]);
        case CopyRecommendation(i) => text := results.value.recommendations[i];
        case CopyAll => text := CopyAllText(results.value.recommendations);
      }
      written := Some(text);
      copiedItem := Some(ItemKey(b));
      pendingResets := pendingResets + 1;
    }

    /** One reset timer fires and clears the mark, even when a later copy
        set it and that copy's own timer is still pending. */
    method ResetFires()
      requires Valid() && pendingResets > 0
      modifies this`copiedItem, this`pendingResets
      ensures Valid() && copiedItem == None && pendingResets == old(pendingResets) - 1
    {
      copiedItem := None;
      pendingResets := pendingResets - 1;
    }

    /** Whether button `b` shows its "Copied!" mark. */
    method ShowsCopied(b: CopyButton) returns (marked: bool)
      ensures marked <==> copiedItem == Some(ItemKey(b))
    {
      marked := copiedItem == Some(ItemKey(b));
    }
  }

  /** At most one button shows its mark at a time. */
  lemma OneMarkAtATime(copiedItem: Option<string>, a: CopyButton, b: CopyButton)
    requires copiedItem == Some(ItemKey(a)) && copiedItem == Some(ItemKey(b))
    ensures a == b
  {
    ItemKeyInjective(a, b);
  }
}
