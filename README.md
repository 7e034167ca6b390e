# Bookmark menu model

A Dafny model of the bookmark menu on an MDN article page. The toggle button opens a drop-down. The drop-down holds either an upgrade prompt or a small form. The form has a bookmark name, notes, Save, and Delete or Cancel. Submitting the form posts to the bookmark collection API at `/api/v1/plus/collection/?url=...`. The model covers:

- `ApiUrl`: `getBookmarkApiUrl` and the form's action URL.
- `DisplayPolicy`: the toggle's icon and disabled state, upgrade prompt versus form, and Delete versus Cancel.
- `DraftState`: the menu's local state (`show`, `name`, `notes`) and, as functions, every transition its handlers make. Here "draft" means the unsaved name and notes in the form. A draft is *clean* when it equals the values the server confirms.
- `SaveFlow`: the request body, and what submitting does for each kind of server answer. The HTTP exchange is an input (`Response`). What the handler does (request sent, `mutate` calls, toast, thrown error) is an output (`Effects`).
- `Menu`: the component as a class. Its fields are the three state cells and its methods are the handlers. Each method changes the fields in place and is proved to perform the matching transition function.

## Model

| member | source | states |
|---|---|---|
| `ApiUrl.BookmarkApiUrl` | client/src/ui/organisms/article-actions/bookmark-menu/menu.tsx:14-23 | The result always starts with the base path. It equals the base path exactly when no parameters are given or they serialise to the empty string; otherwise it is base + `?` + query string |
| `ApiUrl.GetBookmarkApiUrl` | client/src/ui/organisms/article-actions/bookmark-menu/menu.tsx:14-23 | The version that reassigns a local `url` returns the URL specified above |
| `ApiUrl.QueryOfApiUrl` | client/src/ui/organisms/article-actions/bookmark-menu/menu.tsx:14-23 | Reading the query string back from the built URL gives the non-empty query string it was built from, or none |
| `ApiUrl.ApiUrlInjective` | client/src/ui/organisms/article-actions/bookmark-menu/menu.tsx:14-23 | Two inputs give the same URL if and only if their non-empty query strings agree |
| `ApiUrl.TargetUrl` | client/src/ui/organisms/article-actions/bookmark-menu/menu.tsx:44 | The article URL is `doc.mdn_url` when non-empty; otherwise it is the record's URL (or `""`) |
| `ApiUrl.FormAction` | client/src/ui/organisms/article-actions/bookmark-menu/menu.tsx:43-45 | The form action is always base + `?url=` + the encoded target. It never lacks a query string |
| `DisplayPolicy.SaveIcon` | client/src/ui/organisms/article-actions/bookmark-menu/menu.tsx:117-123 | The icons in priority order: a record gives `bookmark-filled`; otherwise `bookmark` while under the limit (or data absent); otherwise `padlock` |
| `DisplayPolicy.MenuPanel` | client/src/ui/organisms/article-actions/bookmark-menu/menu.tsx:154-158 | The upgrade prompt replaces the form exactly when data is loaded, the limit is reached and there is no record |
| `DisplayPolicy.PadlockIffUpgrade` | client/src/ui/organisms/article-actions/bookmark-menu/menu.tsx:117-157 | `saveIcon` is the padlock if and only if the upgrade prompt replaces the form |
| `DisplayPolicy.ToggleShowsPadlockIffUpgrade` | client/src/ui/organisms/article-actions/bookmark-menu/menu.tsx:127-157 | Beside an article the toggle shows the padlock if and only if the upgrade prompt shows. In edit mode the toggle shows `edit` even while the prompt shows |
| `DisplayPolicy.ToggleDisabled` | client/src/ui/organisms/article-actions/bookmark-menu/menu.tsx:127-149 | With a `doc`, the toggle is disabled exactly when offline or data is absent. In edit mode it is disabled exactly when offline |
| `DisplayPolicy.ToggleIcon` | client/src/ui/organisms/article-actions/bookmark-menu/menu.tsx:127-145 | The toggle shows the save icon beside an article and `edit` in edit mode |
| `DisplayPolicy.SecondaryButton` | client/src/ui/organisms/article-actions/bookmark-menu/menu.tsx:210-224 | Delete is offered if and only if `doc` and a record are both present; otherwise Cancel is offered |
| `DisplayPolicy.DeleteOnlyWhenSaved` | client/src/ui/organisms/article-actions/bookmark-menu/menu.tsx:210-219 | When Delete is offered, the toggle shows the filled icon, the form (not the upgrade prompt) is shown, and the toggle is disabled only when offline |
| `DraftState.InitialDraft` | client/src/ui/organisms/article-actions/bookmark-menu/menu.tsx:48-52 | Initially the menu is closed and notes are empty. The name is the record's title if non-empty, else the article's title (or `""`) |
| `DraftState.Resynced` | client/src/ui/organisms/article-actions/bookmark-menu/menu.tsx:54-59 | A new record overwrites name and notes with its title and notes. Without a record nothing changes. `show` is never touched |
| `DraftState.Toggled` | client/src/ui/organisms/article-actions/bookmark-menu/menu.tsx:133-135 | The toggle flips `show` and nothing else |
| `DraftState.Cancelled` | client/src/ui/organisms/article-actions/bookmark-menu/menu.tsx:61-71 | Cancel closes the menu. It sets name and notes to the record's title and notes, or to the article title (or `""`) and `""` |
| `DraftState.WithName` | client/src/ui/organisms/article-actions/bookmark-menu/menu.tsx:190 | Typing in the name input replaces only the name |
| `DraftState.WithNotes` | client/src/ui/organisms/article-actions/bookmark-menu/menu.tsx:202 | Typing in the notes input replaces only the notes |
| `DraftState.CancelDiscardsEdits` | client/src/ui/organisms/article-actions/bookmark-menu/menu.tsx:61-71 | After any sequence of edits and toggles, Cancel leaves exactly the closed menu with the confirmed values |
| `DraftState.CancelIdempotent` | client/src/ui/organisms/article-actions/bookmark-menu/menu.tsx:61-71 | Cancelling twice equals cancelling once |
| `DraftState.ToggleInvolution` | client/src/ui/organisms/article-actions/bookmark-menu/menu.tsx:133-135 | Toggling twice restores the state |
| `DraftState.CleanPreserved` | client/src/ui/organisms/article-actions/bookmark-menu/menu.tsx:61-71 | Toggles and cancels keep a clean draft clean; only input edits make it dirty |
| `DraftState.EditsKeepShow` | client/src/ui/organisms/article-actions/bookmark-menu/menu.tsx:184-204 | No sequence of edits opens or closes the menu |
| `DraftState.MountedIsClean` | client/src/ui/organisms/article-actions/bookmark-menu/menu.tsx:48-59 | After the first render (initialisers, then the effect's first run) the menu is closed and clean, and a first Cancel changes nothing. The initialisers alone are not clean when the record has notes, or has an empty title beside a titled article |
| `DraftState.StaleDraftAfterRecordRemoved` | client/src/ui/organisms/article-actions/bookmark-menu/menu.tsx:54-59 | When new data has no record, the effect keeps the old record's notes. The draft is then no longer clean |
| `SaveFlow.FormBody` | client/src/ui/organisms/article-actions/bookmark-menu/menu.tsx:79-89 | The body is `name`, then `notes`. A third pair, the submitter's name and value, appears if and only if a submit event names a submitter |
| `SaveFlow.FormBodyFields` | client/src/ui/organisms/article-actions/bookmark-menu/menu.tsx:79-92 | A reader of the body finds exactly the draft's name and notes, whichever button submitted |
| `SaveFlow.DeleteMarkerIff` | client/src/ui/organisms/article-actions/bookmark-menu/menu.tsx:79-89 | The body holds `delete=true` if and only if the Delete button submitted it |
| `SaveFlow.DeleteOnlyWhenOffered` | client/src/ui/organisms/article-actions/bookmark-menu/menu.tsx:207-219 | A body with the delete marker, from a submission the form can produce, implies `doc` and a record are present |
| `SaveFlow.DisabledSubmitIsBlocked` | client/src/ui/organisms/article-actions/bookmark-menu/menu.tsx:207-216 | The Save and Delete buttons are disabled (`isValidating`) only when the handler would return at once anyway, so disabling them never withholds a save |
| `SaveFlow.EditModeBlockedOnlyByValidation` | client/src/ui/organisms/article-actions/bookmark-menu/menu.tsx:37-42 | In edit mode (no `doc`, so `data` is required) a save is blocked exactly while validating |
| `SaveFlow.SaveStep` | client/src/ui/organisms/article-actions/bookmark-menu/menu.tsx:73-108 | Blocked (validating or no data): nothing at all happens. Otherwise one POST of the form body goes to the form action, and name and notes never change. Success: `mutate` is called exactly once and the menu closes. `max_subscriptions`: only the fixed non-important toast, `show` unchanged. Other failures: throws the status (or the JSON parse error), no `mutate`, `show` unchanged. A rejected `fetch`: its rejection propagates, no `mutate`, no toast, `show` unchanged |
| `SaveFlow.EnterStep` | client/src/ui/organisms/article-actions/bookmark-menu/menu.tsx:110-115 | A key other than Enter does nothing. Enter submits a body of just name and notes |
| `SaveFlow.SavedThenRefetched` | client/src/ui/organisms/article-actions/bookmark-menu/menu.tsx:106-107 | A successful save, followed by the refetch that `mutate` triggers, leaves the menu closed and clean against the refetched record |
| `Menu.BookmarkMenu.constructor` | client/src/ui/organisms/article-actions/bookmark-menu/menu.tsx:48-52 | The fields start as `InitialDraft` |
| `Menu.BookmarkMenu.DataChanged` | client/src/ui/organisms/article-actions/bookmark-menu/menu.tsx:54-59 | Updates the fields to `Resynced` of the old state |
| `Menu.BookmarkMenu.Toggle` | client/src/ui/organisms/article-actions/bookmark-menu/menu.tsx:133-135 | Updates the fields to `Toggled` of the old state |
| `Menu.BookmarkMenu.EditName` | client/src/ui/organisms/article-actions/bookmark-menu/menu.tsx:190 | Updates the fields to `WithName` of the old state |
| `Menu.BookmarkMenu.EditNotes` | client/src/ui/organisms/article-actions/bookmark-menu/menu.tsx:202 | Updates the fields to `WithNotes` of the old state |
| `Menu.BookmarkMenu.Cancel` | client/src/ui/organisms/article-actions/bookmark-menu/menu.tsx:61-71 | Updates the fields to `Cancelled` of the old state |
| `Menu.BookmarkMenu.Save` | client/src/ui/organisms/article-actions/bookmark-menu/menu.tsx:73-108 | The new fields and the returned effects are exactly `SaveStep` of the old state |
| `Menu.BookmarkMenu.KeyDown` | client/src/ui/organisms/article-actions/bookmark-menu/menu.tsx:110-115 | The new fields and the returned effects are exactly `EnterStep` of the old state |
| `Menu.Mount` | client/src/ui/organisms/article-actions/bookmark-menu/menu.tsx:48-59 | A freshly rendered menu is closed and clean |
| `Menu.EditCancelSave` | client/src/ui/organisms/article-actions/bookmark-menu/menu.tsx:61-115 | Open, edit both fields, Cancel, reopen, then Enter: this posts exactly the confirmed name and notes, and a successful answer calls `mutate` once |

Observations the model makes precise:

- The name initialiser uses `||`, so an empty record title falls back to the article title. Cancel and the effect take the record's title as it is. The effect also runs after the first render, so it overwrites the initialiser at once. After mounting, the draft always equals what Cancel restores (`MountedIsClean`).
- The effect only acts on a present record. When a delete succeeds and the refetch comes back without a record, the form keeps the deleted bookmark's notes until Cancel (`StaleDraftAfterRecordRemoved`).
- The handler appends the submitter's pair whenever a submit event names a submitter. The Save button has no name, so it contributes the pair `("", "")`.

## Left out

- Rendering: JSX, CSS classes, labels, headings ("Saved"/"Save", "Edit Collection"/"Add to Collection") and ARIA attributes.
- `fetch`, `response.json()` and the async/await plumbing. The server's answer is the `Response` input, and the JSON body is already parsed into `ErrorBody`. A `fetch` that rejects is the `NoResponse` answer. The kind of network error it carries is not modelled.
- Interleaving while a save is in flight. Each save runs from submission to completion in one step. Edits made while awaiting the response are not modelled.
- `URLSearchParams` and `FormData` encoding. Percent-escaping is the opaque `encode` parameter. The form's `action` is the attribute value, not the absolute URL the browser resolves it to.
- Collaborators: `useUIStatus`, `useOnlineStatus`, `DropdownMenuWrapper`, `Button` and `ManageOrUpgradeDialogCollections`. The model keeps only what they contribute: the toast (an effect), `isOffline` (a prop) and the disabled flags. The `setShow` that the wrapper and the upgrade dialog receive is not modelled. Neither is the disabled button's suppression of clicks: `Toggle` is the click handler itself, and `ToggleDisabled` states when the button is disabled.
- `e.preventDefault()`, and the fallback to `e.target` when an Enter key's input has no form. The inputs always sit inside the form.
- The `Doc` and `BookmarkedData` type definitions are imported from files that are not part of this model. Only the fields the menu reads are modelled.
- client/src/ui/atoms/subscribe-link/index.tsx: a presentational link whose only logic appends `#subscribe` to a URL from a hook that is not part of this model.
