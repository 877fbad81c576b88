/** The text the meta-tag route extracts from a fetched page: `<script>` and
    `<style>` elements removed, every remaining tag replaced by a space,
    whitespace runs collapsed to one space, the ends trimmed, and the result
    cut to 2000 characters. */
module PageText {
  import opened Text

  const MaxContent := 2000

  /** A character matched by `\s` in a JavaScript regular expression, and
      removed by `String.prototype.trim`. */
  predicate IsSpace(c: char) {
    c == ' ' || c == '\t' || c == '\n' || c == '\r' || c == '\U{B}' || c == '\U{C}'
    || c == '\U{A0}' || c == '\U{1680}' || ('\U{2000}' <= c <= '\U{200A}')
    || c == '\U{2028}' || c == '\U{2029}' || c == '\U{202F}' || c == '\U{205F}'
    || c == '\U{3000}' || c == '\U{FEFF}'
  }

  /** The first index at which `w` occurs in `s`, ignoring the case of ASCII
      letters in `s` (`w` itself is lower case), or `|s|` when it does not. */
  function FindIgnoreCase(s: string, w: string): (k: nat)
    ensures k <= |s|
    ensures k < |s| ==> k + |w| <= |s| && ToLower(s[k..k + |w|]) == w
  {
    FindFrom(s, w, 0)
  }

  /** The search above, from index `i` on. */
  function FindFrom(s: string, w: string, i: nat): (k: nat)
    requires i <= |s|
    ensures i <= k <= |s|
    ensures k < |s| ==> k + |w| <= |s| && ToLower(s[k..k + |w|]) == w
    decreases |s| - i
  {
    if |s| - i < |w| || i == |s| then |s|
    else if ToLower(s[i..i + |w|]) == w then i
    else FindFrom(s, w, i + 1)
  }

  /** `s.replace(/<name[^>]*>[\s\S]*?<\/name>/gi, "")`: from an opening
      `<name` to the first `>` after it and on to the first closing
      `</name>` after that, each element is removed. An opening without a
      later `>` or a later closing tag is kept as text. */
  function RemoveElements(s: string, name: string): (r: string)
    ensures |r| <= |s|
    decreases |s|
  {
    if |s| == 0 then []
    else
      var open := "<" + name;
      var close := "</" + name + ">";
      var gt := IndexOf(s, '>');
      if |open| <= |s| && ToLower(s[..|open|]) == open && gt < |s| then
        var after := s[gt + 1..];
        var j := FindIgnoreCase(after, close);
        if j < |after| then RemoveElements(after[j + |close|..], name)
        else [s[0]] + RemoveElements(s[1..], name)
      else [s[0]] + RemoveElements(s[1..], name)
  }

  /** No `<` is followed, anywhere later, by a `>`: no tag is left. */
  predicate NoTag(s: string) {
    forall i, j :: 0 <= i < j < |s| && s[i] == '<' ==> s[j] != '>'
  }

  /** `s.replace(/<[^>]*>/g, " ")`: every tag becomes one space. */
  function StripTags(s: string): (r: string)
    ensures NoChar(s, '>') ==> r == s
    ensures NoTag(r)
    decreases |s|
  {
    if |s| == 0 then []
    else if s[0] == '<' && IndexOf(s, '>') < |s| then " " + StripTags(s[IndexOf(s, '>') + 1..])
    else [s[0]] + StripTags(s[1..])
  }

  /** The first index from `i` on that does not hold whitespace, or `|s|`. */
  function SpaceRunEnd(s: string, i: nat): (k: nat)
    requires i <= |s|
    ensures i <= k <= |s|
    ensures forall j :: i <= j < k ==> IsSpace(s[j])
    ensures k == |s| || !IsSpace(s[k])
    decreases |s| - i
  {
    if i == |s| || !IsSpace(s[i]) then i else SpaceRunEnd(s, i + 1)
  }

  /** The index just after the last character before `i` that is not
      whitespace, or 0. */
  function SpaceRunStart(s: string, i: nat): (k: nat)
    requires i <= |s|
    ensures k <= i
    ensures forall j :: k <= j < i ==> IsSpace(s[j])
    ensures k == 0 || !IsSpace(s[k - 1])
  {
    if i == 0 || !IsSpace(s[i - 1]) then i else SpaceRunStart(s, i - 1)
  }

  /** `s` without its leading whitespace, the run that `\s+` matches at
      the start: only whitespace is dropped, and all of it up to the first
      other character. */
  function TrimStart(s: string): (r: string)
    ensures |r| <= |s| && r == s[|s| - |r|..]
    ensures forall i :: 0 <= i < |s| - |r| ==> IsSpace(s[i])
    ensures r == [] || !IsSpace(r[0])
    ensures |s| > 0 && IsSpace(s[0]) ==> |r| < |s|
  {
    s[SpaceRunEnd(s, 0)..]
  }

  /** `r` is the piece of `s` that starts at `k`, with only whitespace around
      it and no whitespace at either of its ends. */
  predicate TrimmedAt(s: string, r: string, k: nat) {
    && k + |r| <= |s| && r == s[k..k + |r|]
    && (forall i :: 0 <= i < k ==> IsSpace(s[i]))
    && (forall i :: k + |r| <= i < |s| ==> IsSpace(s[i]))
    && (r == [] || (!IsSpace(r[0]) && !IsSpace(r[|r| - 1])))
  }

  /** `s.trim()`: `s` without the whitespace at either end. */
  function Trim(s: string): (r: string)
    ensures TrimmedAt(s, r, SpaceRunEnd(s, 0))
  {
    var a, b := SpaceRunEnd(s, 0), SpaceRunStart(s, |s|);
    if a < |s| then
      assert !IsSpace(s[a]);
      s[a..b]
    else []
  }

  /** There is only one way to trim a string. */
  lemma TrimmedUnique(s: string, r1: string, k1: nat, r2: string, k2: nat)
    requires TrimmedAt(s, r1, k1) && TrimmedAt(s, r2, k2)
    ensures r1 == r2
  {
    if r1 != [] && r2 != [] {
      assert s[k1] == r1[0] && s[k2] == r2[0];
      assert k1 == k2;
      assert s[k1 + |r1| - 1] == r1[|r1| - 1] && s[k2 + |r2| - 1] == r2[|r2| - 1];
      assert |r1| == |r2|;
    }
  }

  /** Every whitespace character is a plain space and no two whitespace
      characters are adjacent. */
  ghost predicate Collapsed(s: string) {
    && (forall i :: 0 <= i < |s| && IsSpace(s[i]) ==> s[i] == ' ')
    && (forall i, j :: 0 <= i < j < |s| && j == i + 1 && IsSpace(s[i]) ==> !IsSpace(s[j]))
  }

  /** `s.replace(/\s+/g, " ")`. */
  function Collapse(s: string): (r: string)
    ensures Collapsed(r)
    ensures r == [] <==> s == []
    ensures r != [] ==> (IsSpace(r[0]) <==> IsSpace(s[0]))
    decreases |s|
  {
    if |s| == 0 then []
    else if IsSpace(s[0]) then
      var t := TrimStart(s);
      CollapsedCons(' ', Collapse(t));
      " " + Collapse(t)
    else
      CollapsedCons(s[0], Collapse(s[1..]));
      [s[0]] + Collapse(s[1..])
  }

  /** A character put in front of a collapsed text keeps it collapsed when
      it is a plain space followed by no whitespace, or not whitespace. */
  lemma CollapsedCons(c: char, t: string)
    requires Collapsed(t)
    requires IsSpace(c) ==> c == ' ' && (t == [] || !IsSpace(t[0]))
    ensures Collapsed([c] + t)
  {
    var u := [c] + t;
    forall i | 1 <= i < |u|
      ensures u[i] == t[i - 1]
    {
    }
  }

  /** Reference for `Collapse`, in two passes: every whitespace character
      becomes a plain space ... */
  function Spaced(s: string): (r: string)
    ensures |r| == |s|
    ensures forall i :: 0 <= i < |s| ==> r[i] == SpaceFor(s[i])
  {
    seq(|s|, i requires 0 <= i < |s| => SpaceFor(s[i]))
  }

  function SpaceFor(c: char): (r: char)
    ensures r == ' ' <==> IsSpace(c)
    ensures !IsSpace(c) ==> r == c
  {
    if IsSpace(c) then ' ' else c
  }

  /** ... and then every space that follows a space is dropped. */
  function Squeeze(t: string): string
    decreases |t|
  {
    if |t| <= 1 then t
    else if t[0] == ' ' && t[1] == ' ' then Squeeze(t[1..])
    else [t[0]] + Squeeze(t[1..])
  }

  /** A run of spaces ahead of something that is not a space squeezes to
      one space. */
  lemma {:induction false} SqueezeRun(t: string, n: nat)
    requires 1 <= n <= |t|
    requires forall i :: 0 <= i < n ==> t[i] == ' '
    requires n == |t| || t[n] != ' '
    ensures Squeeze(t) == " " + Squeeze(t[n..])
    decreases n
  {
    if n == 1 {
      if |t| > 1 {
        assert t[1..] == t[n..];
      }
    } else {
      assert t[1] == ' ';
      SqueezeRun(t[1..], n - 1);
      assert t[1..][n - 1..] == t[n..];
    }
  }

  /** `Collapse` replaces every whitespace run by a single space, and keeps
      everything else in place. */
  lemma {:induction false} CollapseIsSqueezed(s: string)
    ensures Collapse(s) == Squeeze(Spaced(s))
    decreases |s|
  {
    if |s| == 0 {
    } else if IsSpace(s[0]) {
      CollapseIsSqueezed(TrimStart(s));
      SqueezedSpaceStep(s);
    } else {
      CollapseIsSqueezed(s[1..]);
      SqueezedCharStep(s);
    }
  }

  /** The step of the proof above for a text that starts with whitespace. */
  lemma SqueezedSpaceStep(s: string)
    requires |s| > 0 && IsSpace(s[0])
    requires Collapse(TrimStart(s)) == Squeeze(Spaced(TrimStart(s)))
    ensures Collapse(s) == Squeeze(Spaced(s))
  {
    var t := TrimStart(s);
    SqueezeSpaceRun(s, |s| - |t|);
  }

  /** A text that starts with a run of `n` whitespace characters squeezes to
      one space followed by the squeezed rest. */
  lemma SqueezeSpaceRun(s: string, n: nat)
    requires 1 <= n <= |s|
    requires forall i :: 0 <= i < n ==> IsSpace(s[i])
    requires n == |s| || !IsSpace(s[n])
    ensures Squeeze(Spaced(s)) == " " + Squeeze(Spaced(s[n..]))
  {
    var u := Spaced(s);
    assert forall i :: 0 <= i < n ==> u[i] == ' ';
    SpacedSuffix(s, n);
    SqueezeRun(u, n);
  }

  /** `Spaced` works character by character, so it commutes with taking a
      suffix. */
  lemma SpacedSuffix(s: string, n: nat)
    requires n <= |s|
    ensures Spaced(s)[n..] == Spaced(s[n..])
  {
    var a, b := Spaced(s)[n..], Spaced(s[n..]);
    forall j | 0 <= j < |a|
      ensures a[j] == b[j]
    {
      assert a[j] == Spaced(s)[n + j] == SpaceFor(s[n + j]);
      assert b[j] == SpaceFor(s[n..][j]);
    }
  }

  /** The step of the proof above for a text that starts with anything
      else. */
  lemma SqueezedCharStep(s: string)
    requires |s| > 0 && !IsSpace(s[0])
    requires Collapse(s[1..]) == Squeeze(Spaced(s[1..]))
    ensures Collapse(s) == Squeeze(Spaced(s))
  {
    var u := Spaced(s);
    SpacedSuffix(s, 1);
    assert u == [u[0]] + u[1..];
    SqueezeCons(u[0], u[1..]);
  }

  /** A character that is not a space is kept in front of what follows. */
  lemma SqueezeCons(c: char, v: string)
    requires c != ' '
    ensures Squeeze([c] + v) == [c] + Squeeze(v)
  {
    if |v| > 0 {
      assert ([c] + v)[1..] == v;
    }
  }

  /** Any piece of a collapsed string is collapsed. */
  lemma CollapsedSlice(s: string, a: nat, b: nat)
    requires Collapsed(s) && a <= b <= |s|
    ensures Collapsed(s[a..b])
  {
    var t := s[a..b];
    forall i, j | 0 <= i && j == i + 1 && j < |t| && IsSpace(t[i])
      ensures !IsSpace(t[j])
    {
      assert t[i] == s[a + i] && t[j] == s[a + j];
    }
  }

  /** Trimming keeps a string collapsed. */
  lemma TrimKeepsCollapsed(s: string)
    requires Collapsed(s)
    ensures Collapsed(Trim(s))
  {
    var r := Trim(s);
    CollapsedSlice(s, SpaceRunEnd(s, 0), SpaceRunEnd(s, 0) + |r|);
  }

  /** The page's text with scripts, styles and tags taken out, before any
      whitespace is touched. */
  function Stripped(html: string): string {
    StripTags(RemoveElements(RemoveElements(html, "script"), "style"))
  }

  /** The text before truncation. */
  function Cleaned(html: string): (r: string)
    ensures Collapsed(r)
    ensures r == [] || (!IsSpace(r[0]) && !IsSpace(r[|r| - 1]))
  {
    var c := Collapse(Stripped(html));
    TrimKeepsCollapsed(c);
    Trim(c)
  }

  /** The cleaned text is the stripped text with its whitespace runs
      squeezed to single spaces, and then trimmed. */
  lemma CleanedIsTrimmedSqueeze(html: string)
    ensures var c := Squeeze(Spaced(Stripped(html)));
            TrimmedAt(c, Cleaned(html), SpaceRunEnd(c, 0))
  {
    CollapseIsSqueezed(Stripped(html));
  }

  /** The extracted page text: the first 2000 characters of the cleaned
      text, all of it when it fits. It is collapsed and has no leading
      whitespace; a cut can end on a space. */
  function ExtractText(html: string): (r: string)
    ensures |r| == if |Cleaned(html)| <= MaxContent then |Cleaned(html)| else MaxContent
    ensures r == Cleaned(html)[..|r|]
    ensures Collapsed(r)
    ensures r == [] || !IsSpace(r[0])
  {
    var c := Cleaned(html);
    CollapsedSlice(c, 0, |Take(c, MaxContent)|);
    Take(c, MaxContent)
  }
}
