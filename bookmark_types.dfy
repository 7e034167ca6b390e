/**
 The values the bookmark menu receives from its caller: the article being
 viewed, the server's view of the user's bookmark for it, and the two flags
 (a revalidation in flight, the browser being offline) that gate its actions.
 Optional props (`doc?`, `data?`, `data.bookmarked?`) are `Option`s; an
 absent string read through `?.` is JavaScript's `undefined`, which the code
 only ever combines with `||`, so it is modelled as the empty string.
 */
module BookmarkTypes {

  datatype Option<+T> = None | Some(value: T)

  /** The article the menu is shown on (`Doc`), reduced to the fields the menu reads. */
  datatype Doc = Doc(title: string, mdnUrl: string)

  /** A bookmark as stored by the server. */
  datatype BookmarkRecord = BookmarkRecord(url: string, title: string, notes: string)

  /** The fetched collection state for the article (`BookmarkedData`). */
  datatype BookmarkedData = BookmarkedData(bookmarked: Option<BookmarkRecord>, subscriptionLimitReached: bool)

  /**
   The inputs of one render: the component's props (`doc`, `data`,
   `isValidating`) and the `isOffline` flag of the online-status hook.
   */
  datatype Props = Props(doc: Option<Doc>, data: Option<BookmarkedData>, isValidating: bool, isOffline: bool)

  /**
   The two call shapes the props type admits: a `doc` with optional `data`
   (adding an article), or no `doc` and loaded `data` (editing a saved one).
   */
  predicate WellShaped(p: Props) {
    p.doc.Some? || p.data.Some?
  }

  /** JavaScript's `a || b` on strings: the first operand unless it is empty. */
  function Or(a: string, b: string): (r: string)
    ensures a != "" ==> r == a
    ensures a == "" ==> r == b
  {
    if a != "" then a else b
  }

  /** `data?.bookmarked` */
  function Record(data: Option<BookmarkedData>): Option<BookmarkRecord> {
    if data.Some? then data.value.bookmarked else None
  }

  /** `data?.bookmarked?.title`, with `undefined` read as the empty string */
  function RecordTitle(data: Option<BookmarkedData>): string {
    if Record(data).Some? then Record(data).value.title else ""
  }

  /** `data?.bookmarked?.url`, with `undefined` read as the empty string */
  function RecordUrl(data: Option<BookmarkedData>): string {
    if Record(data).Some? then Record(data).value.url else ""
  }

  /** `doc?.title`, with `undefined` read as the empty string */
  function DocTitle(doc: Option<Doc>): string {
    if doc.Some? then doc.value.title else ""
  }

  /** `doc?.mdn_url`, with `undefined` read as the empty string */
  function DocUrl(doc: Option<Doc>): string {
    if doc.Some? then doc.value.mdnUrl else ""
  }
}
