/**
 * The search button's click handler in the two page scripts: the emptiness
 * check and the URL candidate handed to the browser's URL parser. The parser
 * itself is the parameter `parses`: whether `new URL(candidate)` succeeds.
 */
module Search {
  import opened Text

  /** How a click on the search button ends. */
  datatype Outcome =
    | EmptyInput          // "Please enter a website URL"
    | InvalidUrl          // "Please enter a valid URL"
    | StartScan(url: string)
    | Placeholder         // the site script's "will be implemented next" alert

  const HttpPrefix := "http"

  /**
   * The text given to the URL parser: the input itself when it starts with
   * `http`, and the input behind `https://` otherwise. Either way it starts
   * with `http`.
   */
  function Candidate(url: string): (c: string)
    ensures StartsWith(c, HttpPrefix)
    ensures c == url <==> StartsWith(url, HttpPrefix)
    ensures c != url ==> c == HttpsScheme + url
  {
    if StartsWith(url, HttpPrefix) then url
    else
      assert (HttpsScheme + url)[..|HttpPrefix|] == HttpPrefix;
      HttpsScheme + url
  }

  /**
   * The frontend's handler: the input is trimmed first, an empty result is
   * refused, and a candidate the parser rejects is refused; otherwise the
   * scan starts with the trimmed input itself, not the candidate.
   */
  function FrontendSearch(value: string, parses: string -> bool): (o: Outcome)
    ensures o == EmptyInput <==> forall k :: 0 <= k < |value| ==> JsSpace(value[k])
    ensures o.StartScan? <==> o != EmptyInput && parses(Candidate(Trim(value, JsSpace)))
    ensures o.StartScan? ==> o.url == Trim(value, JsSpace) && o.url != ""
    ensures !o.Placeholder?
  {
    var url := Trim(value, JsSpace);
    if url == "" then EmptyInput
    else if !parses(Candidate(url)) then InvalidUrl
    else StartScan(url)
  }

  /**
   * The site script's handler: the input is not trimmed, so only the empty
   * string is refused as empty; a candidate the parser accepts ends in the
   * placeholder alert.
   */
  function SiteSearch(value: string, parses: string -> bool): (o: Outcome)
    ensures o == EmptyInput <==> value == ""
    ensures o == Placeholder <==> value != "" && parses(Candidate(value))
    ensures !o.StartScan?
  {
    if value == "" then EmptyInput
    else if !parses(Candidate(value)) then InvalidUrl
    else Placeholder
  }

  /**
   * Input made only of spaces is refused as empty by the frontend, but passes
   * the site script's emptiness check and reaches the URL parser as
   * `https://` followed by the spaces.
   */
  lemma BlankInput(value: string, parses: string -> bool)
    requires value != "" && forall k :: 0 <= k < |value| ==> JsSpace(value[k])
    ensures FrontendSearch(value, parses) == EmptyInput
    ensures SiteSearch(value, parses) != EmptyInput
    ensures Candidate(value) == HttpsScheme + value
  {
    assert !JsSpace('h');
    assert value[0] != HttpPrefix[0];
  }

  /**
   * The `http` test does not look for a scheme: a host whose name begins
   * with `http` is handed to the parser without one.
   */
  lemma HostNamedHttp(rest: string)
    ensures Candidate(HttpPrefix + rest) == HttpPrefix + rest
  {
    assert (HttpPrefix + rest)[..|HttpPrefix|] == HttpPrefix;
  }
}
