/**
 The menu's local state — whether it is open (`show`) and the draft `name`
 and `notes` of the bookmark form — and the transitions its handlers make
 on it, as functions of the old state and the current props. The class in
 module Menu performs these transitions in place.
 */
module DraftState {
  import opened BookmarkTypes

  datatype Draft = Draft(show: bool, name: string, notes: string)

  /** The name the server confirms: the record's title, else the article's title (or `""`). */
  function ConfirmedName(p: Props): string {
    if Record(p.data).Some? then Record(p.data).value.title else DocTitle(p.doc)
  }

  /** The notes the server confirms: the record's notes, else none. */
  function ConfirmedNotes(p: Props): string {
    if Record(p.data).Some? then Record(p.data).value.notes else ""
  }

  /** The draft holds no local edits: it shows what the server confirms. */
  predicate Clean(d: Draft, p: Props) {
    d.name == ConfirmedName(p) && d.notes == ConfirmedNotes(p)
  }

  /**
   The `useState` initialisers: closed, no notes, and as name the first
   non-empty of the record's title, the article's title and `""` (so an
   empty record title falls back to the article's title).
   */
  function InitialDraft(p: Props): (d: Draft)
    ensures !d.show && d.notes == ""
    ensures RecordTitle(p.data) != "" ==> d.name == RecordTitle(p.data)
    ensures RecordTitle(p.data) == "" ==> d.name == DocTitle(p.doc)
  {
    Draft(false, Or(Or(RecordTitle(p.data), DocTitle(p.doc)), ""), "")
  }

  /**
   The effect that runs whenever `data` changes (and once after the first
   render): a record overwrites the draft with its title and notes; without
   one the draft stays as it is.
   */
  function Resynced(d: Draft, data: Option<BookmarkedData>): (r: Draft)
    ensures r.show == d.show
    ensures Record(data).Some? ==> r.name == Record(data).value.title && r.notes == Record(data).value.notes
    ensures Record(data).None? ==> r == d
  {
    match Record(data)
    case Some(b) => d.(name := b.title, notes := b.notes)
    case None => d
  }

  /** The toggle's click handler: flips `show` and nothing else. */
  function Toggled(d: Draft): (r: Draft)
    ensures r.show == !d.show
    ensures r.name == d.name && r.notes == d.notes
  {
    d.(show := !d.show)
  }

  /** `cancelHandler`: closes the menu and reverts the draft to what the server confirms. */
  function Cancelled(d: Draft, p: Props): (r: Draft)
    ensures !r.show && Clean(r, p)
    ensures Record(p.data).Some? ==> r.name == Record(p.data).value.title && r.notes == Record(p.data).value.notes
    ensures Record(p.data).None? ==> r.name == DocTitle(p.doc) && r.notes == ""
  {
    if Record(p.data).Some? then
      Draft(false, Record(p.data).value.title, Record(p.data).value.notes)
    else
      Draft(false, Or(DocTitle(p.doc), ""), "")
  }

  /** The `onChange` handlers of the two inputs. */
  function WithName(d: Draft, v: string): (r: Draft)
    ensures r.name == v && r.show == d.show && r.notes == d.notes
  {
    d.(name := v)
  }

  function WithNotes(d: Draft, v: string): (r: Draft)
    ensures r.notes == v && r.show == d.show && r.name == d.name
  {
    d.(notes := v)
  }

  /** The user events that change only local state, under fixed props. */
  datatype Event = EditName(value: string) | EditNotes(value: string) | Toggle | Cancel

  predicate IsEdit(e: Event) {
    e.EditName? || e.EditNotes?
  }

  function Apply(d: Draft, p: Props, e: Event): Draft {
    match e
    case EditName(v) => WithName(d, v)
    case EditNotes(v) => WithNotes(d, v)
    case Toggle => Toggled(d)
    case Cancel => Cancelled(d, p)
  }

  /** The state after the events `evs`, in order. */
  function Run(d: Draft, p: Props, evs: seq<Event>): Draft
    decreases |evs|
  {
    if evs == [] then d else Run(Apply(d, p, evs[0]), p, evs[1..])
  }

  lemma {:induction false} RunAppend(d: Draft, p: Props, a: seq<Event>, b: seq<Event>)
    ensures Run(d, p, a + b) == Run(Run(d, p, a), p, b)
    decreases |a|
  {
    if a == [] {
      assert a + b == b;
    } else {
      assert (a + b)[0] == a[0];
      assert (a + b)[1..] == a[1..] + b;
      RunAppend(Apply(d, p, a[0]), p, a[1..], b);
    }
  }

  /** Whatever was typed or toggled before, a Cancel closes the menu and leaves exactly the confirmed values. */
  lemma {:induction false} CancelDiscardsEdits(d: Draft, p: Props, evs: seq<Event>)
    ensures Run(d, p, evs + [Cancel]) == Draft(false, ConfirmedName(p), ConfirmedNotes(p))
  {
    RunAppend(d, p, evs, [Cancel]);
  }

  /** Cancelling twice is cancelling once. */
  lemma CancelIdempotent(d: Draft, p: Props)
    ensures Cancelled(Cancelled(d, p), p) == Cancelled(d, p)
  {
  }

  /** Toggling twice restores the state. */
  lemma ToggleInvolution(d: Draft)
    ensures Toggled(Toggled(d)) == d
  {
  }

  /** Only the inputs' edits make a draft dirty: toggles and cancels keep a clean draft clean. */
  lemma {:induction false} CleanPreserved(d: Draft, p: Props, evs: seq<Event>)
    requires Clean(d, p)
    requires forall i :: 0 <= i < |evs| ==> !IsEdit(evs[i])
    ensures Clean(Run(d, p, evs), p)
    decreases |evs|
  {
    if evs != [] {
      assert !IsEdit(evs[0]);
      CleanPreserved(Apply(d, p, evs[0]), p, evs[1..]);
    }
  }

  /** Editing never opens or closes the menu. */
  lemma {:induction false} EditsKeepShow(d: Draft, p: Props, evs: seq<Event>)
    requires forall i :: 0 <= i < |evs| ==> IsEdit(evs[i])
    ensures Run(d, p, evs).show == d.show
    decreases |evs|
  {
    if evs != [] {
      assert IsEdit(evs[0]);
      EditsKeepShow(Apply(d, p, evs[0]), p, evs[1..]);
    }
  }

  /** The state after the first render: the initialisers followed by the effect's first run. */
  function Mounted(p: Props): Draft {
    Resynced(InitialDraft(p), p.data)
  }

  /**
   After the first render the menu is closed and clean, so the first Cancel
   changes nothing. The initialisers alone are not clean when the record
   has notes, or has an empty title beside a titled article; the effect's
   first run repairs both.
   */
  lemma MountedIsClean(p: Props)
    ensures !Mounted(p).show && Clean(Mounted(p), p)
    ensures Cancelled(Mounted(p), p) == Mounted(p)
    ensures Record(p.data).Some? && Record(p.data).value.notes != "" ==> !Clean(InitialDraft(p), p)
    ensures Record(p.data).Some? && Record(p.data).value.title == "" && DocTitle(p.doc) != "" ==>
              !Clean(InitialDraft(p), p)
  {
  }

  /**
   When the record disappears (after a delete and the refetch it triggers)
   the effect leaves the draft alone, so a draft that showed the record keeps
   the record's notes although Cancel would now clear them.
   */
  lemma StaleDraftAfterRecordRemoved(d: Draft, p: Props, refetched: Option<BookmarkedData>)
    requires Clean(d, p) && Record(p.data).Some? && Record(p.data).value.notes != ""
    requires Record(refetched).None?
    ensures Resynced(d, refetched).notes == Record(p.data).value.notes
    ensures !Clean(Resynced(d, refetched), p.(data := refetched))
  {
  }
}
