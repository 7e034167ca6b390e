/**
 Submitting the bookmark form (`saveHandler`, and `enterHandler`, which
 submits from the Enter key). The HTTP exchange is given by its outcome,
 `Response`; what the handler does to the outside world is recorded as
 `Effects`: the request it sends, how often it calls `mutate`, the toast it
 raises and the error it throws.
 */
module SaveFlow {
  import opened BookmarkTypes
  import opened ApiUrl
  import opened DraftState
  import opened DisplayPolicy

  /** The `name`/`value` pair a submit button contributes. */
  datatype Submitter = Submitter(name: string, value: string)

  /** The Delete button (`name="delete" value="true"`). */
  const DeleteSubmitter: Submitter := Submitter("delete", "true")

  /** The Save button, rendered without a name or value. */
  const SaveSubmitter: Submitter := Submitter("", "")

  /**
   How the handler was reached: a form submit event, which may name the
   button that submitted it, or the Enter key in one of the inputs, which
   hands over the form itself and so names no submitter.
   */
  datatype Submission = SubmitEvent(submitter: Option<Submitter>) | EnterKey

  /**
   The request body: the form's two inputs in document order, then the
   submitter's pair when the submission came from a submit event that names one.
   */
  function FormBody(name: string, notes: string, s: Submission): (body: seq<(string, string)>)
    ensures |body| >= 2 && body[0] == ("name", name) && body[1] == ("notes", notes)
    ensures |body| == 3 <==> s.SubmitEvent? && s.submitter.Some?
    ensures |body| == 3 ==> body[2] == (s.submitter.value.name, s.submitter.value.value)
    ensures |body| <= 3
  {
    var fields := [("name", name), ("notes", notes)];
    if s.SubmitEvent? && s.submitter.Some? then fields + [(s.submitter.value.name, s.submitter.value.value)]
    else fields
  }

  /** The value of the first pair with key `key`, as a server reading the form would see it. */
  function Lookup(body: seq<(string, string)>, key: string): Option<string>
    decreases |body|
  {
    if body == [] then None
    else if body[0].0 == key then Some(body[0].1)
    else Lookup(body[1..], key)
  }

  /** The server reads back exactly the draft's name and notes, whatever button submitted. */
  lemma FormBodyFields(name: string, notes: string, s: Submission)
    ensures Lookup(FormBody(name, notes, s), "name") == Some(name)
    ensures Lookup(FormBody(name, notes, s), "notes") == Some(notes)
  {
  }

  /** The body carries the `delete=true` marker exactly when the Delete button submitted it. */
  lemma DeleteMarkerIff(name: string, notes: string, s: Submission)
    ensures ("delete", "true") in FormBody(name, notes, s) <==> s == SubmitEvent(Some(DeleteSubmitter))
  {
  }

  /** A submission that can arise from the rendered form: Enter, or one of the submit buttons on show. */
  predicate Offered(p: Props, s: Submission) {
    match s
    case EnterKey => true
    case SubmitEvent(b) =>
      b == Some(SaveSubmitter) || (b == Some(DeleteSubmitter) && p.doc.Some? && Record(p.data).Some?)
  }

  /** Of the submissions the form can produce, only one beside a saved article asks for deletion. */
  lemma DeleteOnlyWhenOffered(name: string, notes: string, p: Props, s: Submission)
    requires Offered(p, s)
    requires ("delete", "true") in FormBody(name, notes, s)
    ensures p.doc.Some? && Record(p.data).Some?
  {
  }

  /** The body of the server's error response, when it is not a success. */
  datatype ErrorBody = Json(error: Option<string>) | NotJson

  /**
   The outcome of the request: a success status, a failure status with its
   body, or no response at all (`fetch` itself rejects, as on a network failure).
   */
  datatype Response = Success | Failure(status: int, body: ErrorBody) | NoResponse

  /**
   What the handler throws: the rejection of `fetch`, an `Error` whose
   message is the status, or the JSON parse error of a non-JSON body.
   */
  datatype Raised = FetchError | StatusError(status: int) | BodyParseError

  datatype Toast = Toast(mainText: string, isImportant: bool)

  datatype Request = Request(action: string, httpMethod: string, body: seq<(string, string)>)

  datatype Effects = Effects(request: Option<Request>, mutateCalls: nat, toast: Option<Toast>, raised: Option<Raised>)

  const NoEffects: Effects := Effects(None, 0, None, None)

  const MaxSubscriptions: string := "max_subscriptions"

  const MaxSubscriptionsText: string := "Couldn't save article to collection - Max subscriptions reached!"

  /** The state and effects one handler call leaves behind. */
  datatype Step = Step(draft: Draft, effects: Effects)

  /** The handler returns at once while a revalidation is in flight or before the data has loaded. */
  predicate Blocked(p: Props) {
    p.isValidating || p.data.None?
  }

  /**
   The Save and Delete buttons are disabled only when the handler would
   return at once anyway, so disabling them never withholds a save.
   */
  lemma DisabledSubmitIsBlocked(p: Props)
    ensures SubmitDisabled(p) ==> Blocked(p)
  {
  }

  /** In edit mode the data is always loaded, so only a revalidation in flight blocks a save. */
  lemma EditModeBlockedOnlyByValidation(p: Props)
    requires WellShaped(p) && p.doc.None?
    ensures Blocked(p) <==> p.isValidating
  {
  }

  predicate IsMaxSubscriptions(response: Response) {
    response.Failure? && response.body == Json(Some(MaxSubscriptions))
  }

  /**
   `saveHandler` from the draft `d` under props `p`, when the server would
   answer `response`. Blocked, it does nothing. Otherwise it posts the form
   body to the form's action once; on success it calls `mutate` once and
   closes the menu; on the `max_subscriptions` error it raises the fixed
   non-important toast; on any other failure it throws (the status, or the
   parse error of a body that is not JSON); when `fetch` rejects, that
   rejection propagates. Only success touches the state,
   and only `show`; the draft fields are never changed by saving.
   */
  function SaveStep(d: Draft, p: Props, s: Submission, encode: string -> string, response: Response): (r: Step)
    ensures Blocked(p) ==> r == Step(d, NoEffects)
    ensures !Blocked(p) ==> r.effects.request == Some(Request(FormAction(p, encode), "post", FormBody(d.name, d.notes, s)))
    ensures r.draft.name == d.name && r.draft.notes == d.notes
    ensures r.effects.mutateCalls == (if !Blocked(p) && response.Success? then 1 else 0)
    ensures r.draft.show == (if !Blocked(p) && response.Success? then false else d.show)
    ensures r.effects.toast.Some? <==> !Blocked(p) && IsMaxSubscriptions(response)
    ensures r.effects.toast.Some? ==> r.effects.toast.value == Toast(MaxSubscriptionsText, false)
    ensures !Blocked(p) && response.Failure? && !IsMaxSubscriptions(response) ==>
              r.effects.raised == Some(if response.body.NotJson? then BodyParseError else StatusError(response.status))
    ensures !Blocked(p) && response.NoResponse? ==> r.effects.raised == Some(FetchError)
    ensures r.effects.raised.Some? <==> !Blocked(p) && !response.Success? && !IsMaxSubscriptions(response)
  {
    if Blocked(p) then Step(d, NoEffects)
    else
      var request := Some(Request(FormAction(p, encode), "post", FormBody(d.name, d.notes, s)));
      match response
      case Success => Step(d.(show := false), Effects(request, 1, None, None))
      case NoResponse => Step(d, Effects(request, 0, None, Some(FetchError)))
      case Failure(status, body) =>
        if body.NotJson? then Step(d, Effects(request, 0, None, Some(BodyParseError)))
        else if body.error == Some(MaxSubscriptions) then
          Step(d, Effects(request, 0, Some(Toast(MaxSubscriptionsText, false)), None))
        else Step(d, Effects(request, 0, None, Some(StatusError(status))))
  }

  /** `enterHandler`: the Enter key submits the form without a submitter; any other key does nothing. */
  function EnterStep(d: Draft, p: Props, key: string, encode: string -> string, response: Response): (r: Step)
    ensures key != "Enter" ==> r == Step(d, NoEffects)
    ensures key == "Enter" && !Blocked(p) ==>
              r.effects.request == Some(Request(FormAction(p, encode), "post", [("name", d.name), ("notes", d.notes)]))
  {
    if key == "Enter" then SaveStep(d, p, EnterKey, encode, response) else Step(d, NoEffects)
  }

  /**
   A successful save followed by the refetch that `mutate` triggers leaves
   the menu closed and showing the record the server now holds, if any.
   */
  lemma SavedThenRefetched(d: Draft, p: Props, s: Submission, encode: string -> string, refetched: Option<BookmarkedData>)
    requires !Blocked(p) && Record(refetched).Some?
    ensures !Resynced(SaveStep(d, p, s, encode, Success).draft, refetched).show
    ensures Clean(Resynced(SaveStep(d, p, s, encode, Success).draft, refetched), p.(data := refetched))
  {
  }
}
