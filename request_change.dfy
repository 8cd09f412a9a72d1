/**
 * The "Request change" dialog of the web client: the form starts from the
 * item's current values, and submitting sends as `proposed_patch` only the
 * fields the user changed.
 */
module RequestChange {
  import opened Wrappers
  import opened Json
  import opened Rbac
  import opened Store
  import Itinerary
  import ChangeRequests

  /** The dialog's five inputs. */
  datatype Form = Form(title: string, startTime: string, endTime: string, locationText: string, notes: string)

  /** `v ?? ''` for a column of the item: null shows as the empty input. */
  function Shown(v: Json): string {
    if v.JNull? then "" else ToJsString(v)
  }

  /** The inputs as the dialog opens (`item?.x ?? ''`); no item shows empty inputs. */
  function InitialForm(item: Option<Item>): Form {
    match item
    case None => Form("", "", "", "", "")
    case Some(it) => Form(Shown(it.title), Shown(it.startTime), Shown(it.endTime), Shown(it.locationText), Shown(it.notes))
  }

  /** `s || null`: a cleared input is sent as null. */
  function OrNull(s: string): Json {
    if s == "" then JNull else JStr(s)
  }

  /** The keys the dialog can ever send. */
  const FormKeys: set<string> := {"title", "startTime", "endTime", "locationText", "notes"}

  /**
   * `proposed_patch`: each input that differs from its initial value; the
   * title verbatim, the other inputs as text or, when cleared, null.
   */
  function ProposedPatch(item: Option<Item>, form: Form): (patch: map<string, Json>)
    ensures patch.Keys <= FormKeys
    ensures var init := InitialForm(item);
      && ("title" in patch <==> form.title != init.title)
      && ("startTime" in patch <==> form.startTime != init.startTime)
      && ("endTime" in patch <==> form.endTime != init.endTime)
      && ("locationText" in patch <==> form.locationText != init.locationText)
      && ("notes" in patch <==> form.notes != init.notes)
    ensures "title" in patch ==> patch["title"] == JStr(form.title)
    ensures "startTime" in patch ==> patch["startTime"] == OrNull(form.startTime)
    ensures "endTime" in patch ==> patch["endTime"] == OrNull(form.endTime)
    ensures "locationText" in patch ==> patch["locationText"] == OrNull(form.locationText)
    ensures "notes" in patch ==> patch["notes"] == OrNull(form.notes)
  {
    var init := InitialForm(item);
    var p0: map<string, Json> := map[];
    var p1 := if form.title != init.title then p0["title" := JStr(form.title)] else p0;
    var p2 := if form.startTime != init.startTime then p1["startTime" := OrNull(form.startTime)] else p1;
    var p3 := if form.endTime != init.endTime then p2["endTime" := OrNull(form.endTime)] else p2;
    var p4 := if form.locationText != init.locationText then p3["locationText" := OrNull(form.locationText)] else p3;
    if form.notes != init.notes then p4["notes" := OrNull(form.notes)] else p4
  }

  /** What submitting does: show an error and send nothing, or send the patch. */
  datatype Outcome = ShowError(message: string) | Send(patch: map<string, Json>)

  /** `handleSubmit`: fills `proposed_patch` one input at a time, then refuses an empty patch. */
  method HandleSubmit(item: Option<Item>, form: Form) returns (out: Outcome)
    ensures out.ShowError? <==> form == InitialForm(item)
    ensures out.ShowError? ==> out.message == "No changes to submit"
    ensures out.Send? ==> out.patch == ProposedPatch(item, form) && out.patch != map[]
  {
    var init := InitialForm(item);
    var patch: map<string, Json> := map[];
    if form.title != init.title {
      patch := patch["title" := JStr(form.title)];
    }
    if form.startTime != init.startTime {
      patch := patch["startTime" := OrNull(form.startTime)];
    }
    if form.endTime != init.endTime {
      patch := patch["endTime" := OrNull(form.endTime)];
    }
    if form.locationText != init.locationText {
      patch := patch["locationText" := OrNull(form.locationText)];
    }
    if form.notes != init.notes {
      patch := patch["notes" := OrNull(form.notes)];
    }
    if patch == map[] {
      assert "title" !in patch && "startTime" !in patch && "endTime" !in patch;
      assert "locationText" !in patch && "notes" !in patch;
      return ShowError("No changes to submit");
    }
    out := Send(patch);
  }

  /** Every patch the dialog sends passes the server's `proposed_patch` validation. */
  lemma SentPatchPassesServerCheck(item: Option<Item>, form: Form)
    ensures Itinerary.ProposedPatchOk(map["proposed_patch" := JObj(ProposedPatch(item, form))])
  {
    var patch := ProposedPatch(item, form);
    forall k | k in patch
      ensures k in AllowedPatchKeys
    {
      assert k in FormKeys;
    }
  }

  /**
   * Once an organizer approves the request, reopening the dialog on the
   * updated item shows exactly the inputs that were submitted.
   */
  lemma ApprovedPatchShowsSubmittedForm(it: Item, form: Form, approver: UserId)
    ensures var patch := ProposedPatch(Some(it), form);
      InitialForm(Some(UpdateItem(it, ChangeRequests.PatchData(patch), approver))) == form
  {
    var patch := ProposedPatch(Some(it), form);
    ColumnAfterApproval(patch, "title", it.title);
    ColumnAfterApproval(patch, "startTime", it.startTime);
    ColumnAfterApproval(patch, "endTime", it.endTime);
    ColumnAfterApproval(patch, "locationText", it.locationText);
    ColumnAfterApproval(patch, "notes", it.notes);
  }

  /** Approval writes a dialog field's column from the patch when the patch names it, and keeps it otherwise. */
  lemma ColumnAfterApproval(patch: map<string, Json>, k: string, current: Json)
    requires k in FormKeys
    ensures k != "externalLinks" && ItemData(ChangeRequests.PatchData(patch))
    ensures Column(ChangeRequests.PatchData(patch), k, current) == if k in patch then patch[k] else current
  {
    ChangeRequests.PatchDataKeys(patch);
    assert k in AllowedPatchKeys;
  }
}
