/** The canonical-tag generator page: it turns the URL typed by the user into
    an absolute URL and wraps it in a `<link rel="canonical">` element. */
module CanonicalTags {
  import opened Wrappers
  import opened Text
  import Html

  /** The scheme test of the page; it is case-sensitive. */
  predicate HasScheme(url: string) {
    StartsWith(url, "http://") || StartsWith(url, "https://")
  }

  /** The URL written into the tag: used as it is when it already starts
      with `http://` or `https://`, otherwise with `https://` in front. */
  function Normalize(url: string): (r: string)
    ensures HasScheme(r)
    ensures EndsWith(r, url)
    ensures HasScheme(url) ==> r == url
    ensures !HasScheme(url) ==> r == "https://" + url
  {
    if HasScheme(url) then url else "https://" + url
  }

  /** Normalising an already normalised URL changes nothing. */
  lemma NormalizeIdempotent(url: string)
    ensures Normalize(Normalize(url)) == Normalize(url)
  {
  }

  /** Normalisation loses nothing: the typed URL can be read back by
      dropping at most the added scheme. */
  lemma NormalizeRecoversUrl(url: string)
    ensures var n := Normalize(url);
            url == n || url == n[|"https://"|..]
  {
    var n := Normalize(url);
    if !HasScheme(url) {
      assert n[|"https://"|..] == url;
    }
  }

  /** The scheme test does not ignore case, so an upper-case scheme is
      treated as a bare host name and gets a second scheme in front. */
  lemma NormalizeUpperCaseScheme(rest: string)
    ensures Normalize("HTTPS://" + rest) == "https://HTTPS://" + rest
  {
    var u := "HTTPS://" + rest;
    assert u[0] == 'H';
    assert !StartsWith(u, "http://") && !StartsWith(u, "https://");
  }

  /** The tag the page shows for a URL. */
  function CanonicalTag(url: string): (r: string)
    ensures Html.CanonicalHref(r) == Some(Normalize(url))
  {
    Html.CanonicalHrefOfLink(Normalize(url));
    Html.CanonicalLink(Normalize(url))
  }

  /** The `href` of every generated tag is an absolute http(s) URL. */
  lemma CanonicalTagIsAbsolute(url: string)
    ensures var href := Html.CanonicalHref(CanonicalTag(url));
            href.Some? && HasScheme(href.value)
  {
  }

  const EmptyUrlAlert := "Please enter a URL"

  /** The page's state: the URL input and the generated tag. */
  class CanonicalTagsForm {
    var url: string
    var canonicalTag: string

    constructor ()
      ensures url == "" && canonicalTag == ""
    {
      url := "";
      canonicalTag := "";
    }

    /** The input's change handler. */
    method SetUrl(value: string)
      modifies this`url
      ensures url == value
    {
      url := value;
    }

    /** The "Generate Canonical Tag" button. An empty URL raises an alert and
        leaves the previous tag in place. */
    method Generate() returns (alert: Option<string>)
      modifies this`canonicalTag
      ensures url == "" ==> alert == Some(EmptyUrlAlert) && canonicalTag == old(canonicalTag)
      ensures url != "" ==> alert == None && canonicalTag == CanonicalTag(url)
    {
      if url == "" {
        alert := Some(EmptyUrlAlert);
        return;
      }
      var formattedUrl := url;
      if !StartsWith(url, "http://") && !StartsWith(url, "https://") {
        formattedUrl := "https://" + url;
      }
      canonicalTag := Html.CanonicalLink(formattedUrl);
      alert := None;
    }

    /** The "Copy" button: the tag goes to the clipboard when the browser
        accepts the write, and an alert reports either outcome. */
    method CopyToClipboard(clipboardAccepts: bool) returns (written: Option<string>, alert: string)
      ensures written == (if clipboardAccepts then Some(canonicalTag) else None)
      ensures alert == (if clipboardAccepts then "Canonical tag copied to clipboard!" else "Failed to copy to clipboard")
    {
      if clipboardAccepts {
        written := Some(canonicalTag);
        alert := "Canonical tag copied to clipboard!";
      } else {
        written := None;
        alert := "Failed to copy to clipboard";
      }
    }
  }
}
