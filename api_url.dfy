/**
 The address of the bookmark collection API (`getBookmarkApiUrl`) and the
 form action the menu posts to. A `URLSearchParams` value is modelled by the
 string it serialises to; the percent-encoding of a single value is the
 parameter `encode`, about which nothing is assumed.
 */
module ApiUrl {
  import opened BookmarkTypes

  const Base: string := "/api/v1/plus/collection/"

  /**
   The URL for optional parameters `params` (given by their serialised
   query string): the base path alone when there are none or they
   serialise to nothing, otherwise the base path, `?` and the query string.
   */
  function BookmarkApiUrl(params: Option<string>): (url: string)
    ensures Base <= url
    ensures url == Base <==> params.None? || params.value == ""
    ensures url != Base ==> url == Base + "?" + params.value
  {
    if params.Some? && params.value != "" then Base + "?" + params.value else Base
  }

  /** `getBookmarkApiUrl` as the source writes it, reassigning a local `url`. */
  method GetBookmarkApiUrl(params: Option<string>) returns (url: string)
    ensures url == BookmarkApiUrl(params)
  {
    url := Base;
    if params.Some? {
      var querystring := params.value;
      if querystring != "" {
        url := url + "?" + querystring;
      }
    }
  }

  /** The query string a URL of this API carries, if it carries one: the inverse of `BookmarkApiUrl`. */
  function QueryOf(url: string): Option<string> {
    if |url| > |Base| + 1 && url[..|Base| + 1] == Base + "?" then Some(url[|Base| + 1..]) else None
  }

  /** What `BookmarkApiUrl` can tell apart: a missing and an empty query string look the same. */
  function NonEmptyQuery(params: Option<string>): Option<string> {
    if params.Some? && params.value != "" then params else None
  }

  /** Reading the query string back from a built URL gives the non-empty query string it was built from. */
  lemma QueryOfApiUrl(params: Option<string>)
    ensures QueryOf(BookmarkApiUrl(params)) == NonEmptyQuery(params)
  {
  }

  /** Two parameter sets give the same URL exactly when they serialise to the same non-empty query string (or both to none). */
  lemma {:induction false} ApiUrlInjective(p: Option<string>, q: Option<string>)
    ensures BookmarkApiUrl(p) == BookmarkApiUrl(q) <==> NonEmptyQuery(p) == NonEmptyQuery(q)
  {
    QueryOfApiUrl(p);
    QueryOfApiUrl(q);
  }

  /** The article the form acts on: the first non-empty of `doc.mdn_url`, `data.bookmarked.url` and `""`. */
  function TargetUrl(p: Props): (u: string)
    ensures DocUrl(p.doc) != "" ==> u == DocUrl(p.doc)
    ensures DocUrl(p.doc) == "" ==> u == RecordUrl(p.data)
  {
    Or(Or(DocUrl(p.doc), RecordUrl(p.data)), "")
  }

  /**
   The form's `action` (`apiURL`): the API URL for the single parameter
   `url`. Its query string `url=...` is never empty, so the action always
   names the article, even when the target is the empty string.
   */
  function FormAction(p: Props, encode: string -> string): (action: string)
    ensures action == Base + "?url=" + encode(TargetUrl(p))
    ensures QueryOf(action) == Some("url=" + encode(TargetUrl(p)))
  {
    QueryOfApiUrl(Some("url=" + encode(TargetUrl(p))));
    BookmarkApiUrl(Some("url=" + encode(TargetUrl(p))))
  }
}
