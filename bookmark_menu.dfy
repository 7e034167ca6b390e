/**
 The `BookmarkMenu` component's state as an object: the three `useState`
 cells become fields, and each handler becomes a method that updates them
 in place. Each method is specified by the transition function of module
 DraftState or SaveFlow that it performs; the props of the render that
 installed the handler are passed to it.
 */
module Menu {
  import opened BookmarkTypes
  import opened ApiUrl
  import opened DraftState
  import opened SaveFlow

  class BookmarkMenu {
    var show: bool
    var name: string
    var notes: string

    /** The state as a value. */
    function State(): Draft
      reads this
    {
      Draft(show, name, notes)
    }

    /** The `useState` initialisers of the first render. */
    constructor (p: Props)
      ensures State() == InitialDraft(p)
    {
      show := false;
      name := Or(Or(RecordTitle(p.data), DocTitle(p.doc)), "");
      notes := "";
    }

    /** The `useEffect` on `data`: copy a record's title and notes into the draft. */
    method DataChanged(data: Option<BookmarkedData>)
      modifies this
      ensures State() == Resynced(old(State()), data)
    {
      if Record(data).Some? {
        name := Record(data).value.title;
        notes := Record(data).value.notes;
      }
    }

    /** The toggle's `onClickHandler`: `setShow(v => !v)`. */
    method Toggle()
      modifies this
      ensures State() == Toggled(old(State()))
    {
      show := !show;
    }

    /** The name input's `onChange`. */
    method EditName(v: string)
      modifies this
      ensures State() == WithName(old(State()), v)
    {
      name := v;
    }

    /** The notes input's `onChange`. */
    method EditNotes(v: string)
      modifies this
      ensures State() == WithNotes(old(State()), v)
    {
      notes := v;
    }

    /** `cancelHandler`. */
    method Cancel(p: Props)
      modifies this
      ensures State() == Cancelled(old(State()), p)
    {
      if Record(p.data).Some? {
        name := Record(p.data).value.title;
        notes := Record(p.data).value.notes;
      } else {
        name := Or(DocTitle(p.doc), "");
        notes := "";
      }
      show := false;
    }

    /** `saveHandler`, with the server's answer given as `response`. */
    method Save(p: Props, s: Submission, encode: string -> string, response: Response) returns (effects: Effects)
      modifies this
      ensures Step(State(), effects) == SaveStep(old(State()), p, s, encode, response)
    {
      if p.isValidating || p.data.None? {
        return NoEffects;
      }
      var body := [("name", name), ("notes", notes)];
      if s.SubmitEvent? && s.submitter.Some? {
        body := body + [(s.submitter.value.name, s.submitter.value.value)];
      }
      var action := GetBookmarkApiUrl(Some("url=" + encode(TargetUrl(p))));
      var request := Request(action, "post", body);
      if response.NoResponse? {
        return Effects(Some(request), 0, None, Some(FetchError));
      }
      if response.Failure? {
        if response.body.NotJson? {
          return Effects(Some(request), 0, None, Some(BodyParseError));
        }
        if response.body.error == Some(MaxSubscriptions) {
          return Effects(Some(request), 0, Some(Toast(MaxSubscriptionsText, false)), None);
        }
        return Effects(Some(request), 0, None, Some(StatusError(response.status)));
      }
      effects := Effects(Some(request), 1, None, None);
      show := false;
    }

    /** `enterHandler` on either input. */
    method KeyDown(p: Props, key: string, encode: string -> string, response: Response) returns (effects: Effects)
      modifies this
      ensures Step(State(), effects) == EnterStep(old(State()), p, key, encode, response)
    {
      if key == "Enter" {
        effects := Save(p, EnterKey, encode, response);
      } else {
        effects := NoEffects;
      }
    }
  }

  /** The first render: the initialisers followed by the effect's first run, which leave the menu closed and clean. */
  method Mount(p: Props) returns (m: BookmarkMenu)
    ensures fresh(m)
    ensures m.State() == Mounted(p)
    ensures !m.show && Clean(m.State(), p)
  {
    m := new BookmarkMenu(p);
    m.DataChanged(p.data);
    MountedIsClean(p);
  }

  /**
   A user session: open, edit both fields, Cancel, reopen and press Enter.
   The edits are discarded, so the post carries exactly the confirmed values.
   */
  method EditCancelSave(p: Props, v: string, encode: string -> string) returns (effects: Effects)
    requires !Blocked(p)
    ensures effects.request == Some(Request(FormAction(p, encode), "post",
                                            [("name", ConfirmedName(p)), ("notes", ConfirmedNotes(p))]))
    ensures effects.mutateCalls == 1
  {
    var m := Mount(p);
    m.Toggle();
    m.EditName(v);
    m.EditNotes(v);
    m.Cancel(p);
    m.Toggle();
    effects := m.KeyDown(p, "Enter", encode, Success);
  }
}
