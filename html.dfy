/** The HTML fragments the tools emit. Each is built in exactly one place and
    shared by the canonical-tag page, the meta-tag route and page, and the
    alt-text page. The attribute values are inserted verbatim: nothing is
    escaped, as in the template literals of the application. */
module Html {
  import opened Wrappers
  import opened Text

  const CanonicalOpen := "<link rel=\"canonical\" href=\""
  const VoidClose := "\" />"

  /** `<link rel="canonical" href="…" />`, the element of RFC 6596. */
  function CanonicalLink(href: string): (r: string)
    ensures StartsWith(r, CanonicalOpen) && EndsWith(r, VoidClose)
    ensures |r| == |CanonicalOpen| + |href| + |VoidClose|
  {
    CanonicalOpen + href + VoidClose
  }

  /** Reads the `href` back out of a canonical link element. */
  function CanonicalHref(tag: string): Option<string> {
    if |CanonicalOpen| + |VoidClose| <= |tag| && StartsWith(tag, CanonicalOpen) && EndsWith(tag, VoidClose)
    then Some(tag[|CanonicalOpen|..|tag| - |VoidClose|])
    else None
  }

  /** The canonical element always gives back the URL it was built from,
      whatever that URL contains. */
  lemma CanonicalHrefOfLink(href: string)
    ensures CanonicalHref(CanonicalLink(href)) == Some(href)
  {
    var tag := CanonicalLink(href);
    assert tag[|CanonicalOpen|..|tag| - |VoidClose|] == href;
  }

  lemma CanonicalLinkInjective(a: string, b: string)
    requires CanonicalLink(a) == CanonicalLink(b)
    ensures a == b
  {
    CanonicalHrefOfLink(a);
    CanonicalHrefOfLink(b);
  }

  const TitleOpen := "<title>"
  const TitleClose := "</title>"
  const MetaNameOpen := "<meta name=\""
  const MetaPropertyOpen := "<meta property=\""
  const ContentOpen := "\" content=\""

  /** `<title>…</title>`. */
  function TitleElement(text: string): string {
    TitleOpen + text + TitleClose
  }

  /** `<meta name="…" content="…" />`. */
  function MetaName(name: string, content: string): string {
    MetaNameOpen + name + ContentOpen + content + VoidClose
  }

  /** `<meta property="…" content="…" />`, the Open Graph form. */
  function MetaProperty(property: string, content: string): string {
    MetaPropertyOpen + property + ContentOpen + content + VoidClose
  }

  /** The text sits between the two title tags. The layout is stated in
      lemmas rather than on the functions, whose every use would otherwise
      carry it. */
  lemma TitleElementLayout(text: string)
    ensures var r := TitleElement(text);
            && |r| == |TitleOpen| + |text| + |TitleClose|
            && StartsWith(r, TitleOpen) && EndsWith(r, TitleClose)
            && r[|TitleOpen|..|TitleOpen| + |text|] == text
  {
  }

  /** The name fills the first attribute slot, the content the second. */
  lemma MetaNameLayout(name: string, content: string)
    ensures var r := MetaName(name, content);
            && |r| == |MetaNameOpen| + |name| + |ContentOpen| + |content| + |VoidClose|
            && StartsWith(r, MetaNameOpen) && EndsWith(r, VoidClose)
            && r[|MetaNameOpen|..|MetaNameOpen| + |name|] == name
            && r[|MetaNameOpen| + |name|..|MetaNameOpen| + |name| + |ContentOpen|] == ContentOpen
            && r[|MetaNameOpen| + |name| + |ContentOpen|..|r| - |VoidClose|] == content
  {
  }

  /** The same layout for the Open Graph form. */
  lemma MetaPropertyLayout(property: string, content: string)
    ensures var r := MetaProperty(property, content);
            && |r| == |MetaPropertyOpen| + |property| + |ContentOpen| + |content| + |VoidClose|
            && StartsWith(r, MetaPropertyOpen) && EndsWith(r, VoidClose)
            && r[|MetaPropertyOpen|..|MetaPropertyOpen| + |property|] == property
            && r[|MetaPropertyOpen| + |property|..|MetaPropertyOpen| + |property| + |ContentOpen|] == ContentOpen
            && r[|MetaPropertyOpen| + |property| + |ContentOpen|..|r| - |VoidClose|] == content
  {
  }

  /** The first characters of each element, which tell the kinds apart. */
  lemma ElementHeads(text: string, name: string, property: string, content: string)
    ensures |TitleElement(text)| >= 15 && TitleElement(text)[1] == 't'
    ensures |CanonicalLink(text)| >= 2 && CanonicalLink(text)[1] == 'l'
    ensures var m := MetaName(name, content);
            |m| >= 16 + |name| && m[1] == 'm' && m[6] == 'n'
            && forall i :: 0 <= i < |name| ==> m[12 + i] == name[i]
    ensures var m := MetaProperty(property, content);
            |m| >= 16 + |property| && m[1] == 'm' && m[6] == 'p'
            && forall i :: 0 <= i < |property| ==> m[16 + i] == property[i]
  {
  }

  /** The fixed parts of the elements hold no line break, so an element is
      a single line when the values put into it are. */
  lemma ElementsSingleLine(a: string, b: string)
    requires '\n' !in a && '\n' !in b
    ensures '\n' !in TitleElement(a) && '\n' !in CanonicalLink(a)
    ensures '\n' !in MetaName(a, b) && '\n' !in MetaProperty(a, b)
  {
  }

  const ImgOpen := "<img src=\""
  const AltOpen := "\" alt=\""

  /** `<img src="…" alt="…" />`, the snippet the alt-text page shows. */
  function ImgElement(src: string, alt: string): (r: string)
    ensures |r| == |ImgOpen| + |src| + |AltOpen| + |alt| + |VoidClose|
    ensures StartsWith(r, ImgOpen) && EndsWith(r, VoidClose)
    ensures r[|ImgOpen|..|ImgOpen| + |src|] == src
    ensures r[|ImgOpen| + |src|..|ImgOpen| + |src| + |AltOpen|] == AltOpen
    ensures r[|ImgOpen| + |src| + |AltOpen|..|r| - |VoidClose|] == alt
  {
    ImgOpen + src + AltOpen + alt + VoidClose
  }

  /** Reads `src` and `alt` back out of an image element: `src` runs to the
      first quote after `<img src="`, `alt` from there to the closing `" />`. */
  function ImgAttributes(tag: string): Option<(string, string)> {
    if StartsWith(tag, ImgOpen) then
      var rest := tag[|ImgOpen|..];
      var q := IndexOf(rest, '"');
      var tail := rest[q..];
      if |AltOpen| + |VoidClose| <= |tail| && StartsWith(tail, AltOpen) && EndsWith(tail, VoidClose)
      then Some((rest[..q], tail[|AltOpen|..|tail| - |VoidClose|]))
      else None
    else None
  }

  /** The snippet gives back both attributes, as long as the image URL holds
      no double quote (one would end the `src` value early). */
  lemma ImgAttributesOfElement(src: string, alt: string)
    requires NoChar(src, '"')
    ensures ImgAttributes(ImgElement(src, alt)) == Some((src, alt))
  {
    var tag := ImgElement(src, alt);
    var rest := tag[|ImgOpen|..];
    assert rest == src + ['"'] + (AltOpen[1..] + alt + VoidClose);
    IndexOfAfterPiece(src, '"', AltOpen[1..] + alt + VoidClose);
    var tail := rest[|src|..];
    assert tail == AltOpen + alt + VoidClose;
    assert rest[..|src|] == src;
    assert tail[|AltOpen|..|tail| - |VoidClose|] == alt;
  }

  /** A quote in the image URL does break the snippet apart: the `src`
      read back stops at the quote. */
  lemma ImgAttributesQuotedSrc()
    ensures ImgAttributes(ImgElement("a\"b", "c")) != Some(("a\"b", "c"))
  {
    var tag := ImgElement("a\"b", "c");
    var rest := tag[|ImgOpen|..];
    assert rest[1] == '"' && rest[0] != '"';
    assert IndexOf(rest, '"') == 1;
  }
}
