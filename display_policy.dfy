/**
 What the menu shows, derived from the props of one render: the toggle's
 icon and whether it is enabled, whether the editable form or the upgrade
 prompt fills the menu, and which secondary button the form offers.
 */
module DisplayPolicy {
  import opened BookmarkTypes

  const FilledIcon: string := "bookmark-filled"
  const SaveIconName: string := "bookmark"
  const PadlockIcon: string := "padlock"
  const EditIcon: string := "edit"

  /** `saved`: the article already has a bookmark record. */
  predicate IsSaved(data: Option<BookmarkedData>) {
    Record(data).Some?
  }

  /** `canSaveMore`: the subscription limit is not known to be reached (true while `data` is absent). */
  predicate CanSaveMore(data: Option<BookmarkedData>) {
    !(data.Some? && data.value.subscriptionLimitReached)
  }

  /** `saveIcon`, in priority order: saved, then room for more, then locked. */
  function SaveIcon(data: Option<BookmarkedData>): (icon: string)
    ensures IsSaved(data) ==> icon == FilledIcon
    ensures !IsSaved(data) && CanSaveMore(data) ==> icon == SaveIconName
    ensures !IsSaved(data) && !CanSaveMore(data) ==> icon == PadlockIcon
  {
    if IsSaved(data) then FilledIcon else if CanSaveMore(data) then SaveIconName else PadlockIcon
  }

  /** What fills the drop-down: the upgrade dialog or the bookmark form. */
  datatype Panel = UpgradePrompt | BookmarkForm

  function MenuPanel(data: Option<BookmarkedData>): (panel: Panel)
    ensures panel == UpgradePrompt <==>
              data.Some? && data.value.subscriptionLimitReached && data.value.bookmarked.None?
  {
    if !CanSaveMore(data) && !IsSaved(data) then UpgradePrompt else BookmarkForm
  }

  /** `saveIcon` is the padlock exactly when the upgrade prompt replaces the form. */
  lemma PadlockIffUpgrade(data: Option<BookmarkedData>)
    ensures SaveIcon(data) == PadlockIcon <==> MenuPanel(data) == UpgradePrompt
  {
  }

  /**
   The toggle is disabled offline; when a `doc` is given it is also
   disabled until `data` has loaded, while in edit mode (no `doc`) being
   offline is the only reason.
   */
  function ToggleDisabled(p: Props): (disabled: bool)
    ensures p.doc.Some? ==> (disabled <==> p.isOffline || p.data.None?)
    ensures p.doc.None? ==> (disabled <==> p.isOffline)
  {
    if p.doc.Some? then p.isOffline || p.data.None? else p.isOffline
  }

  /** The toggle's icon: the save icon beside an article, the edit icon in edit mode. */
  function ToggleIcon(p: Props): (icon: string)
    ensures p.doc.Some? ==> icon == SaveIcon(p.data)
    ensures p.doc.None? ==> icon == EditIcon
  {
    if p.doc.Some? then SaveIcon(p.data) else EditIcon
  }

  /**
   Beside an article the toggle shows the padlock exactly when the upgrade
   prompt is shown; in edit mode the toggle always shows the edit icon, even
   when the prompt is shown.
   */
  lemma ToggleShowsPadlockIffUpgrade(p: Props)
    requires p.doc.Some?
    ensures ToggleIcon(p) == PadlockIcon <==> MenuPanel(p.data) == UpgradePrompt
  {
  }

  /** The second button of the form's button row. */
  datatype Secondary = DeleteButton | CancelButton

  function SecondaryButton(p: Props): (b: Secondary)
    ensures b == DeleteButton <==> p.doc.Some? && Record(p.data).Some?
  {
    if p.doc.Some? && Record(p.data).Some? then DeleteButton else CancelButton
  }

  /** The Save and Delete submit buttons are disabled exactly while a revalidation is in flight. */
  predicate SubmitDisabled(p: Props) {
    p.isValidating
  }

  /** Delete is offered only beside a saved article: the toggle shows the filled icon and the form is shown. */
  lemma DeleteOnlyWhenSaved(p: Props)
    requires SecondaryButton(p) == DeleteButton
    ensures ToggleIcon(p) == FilledIcon
    ensures MenuPanel(p.data) == BookmarkForm
    ensures !ToggleDisabled(p) <==> !p.isOffline
  {
  }
}
