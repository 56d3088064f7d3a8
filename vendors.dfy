/**
 * The `Vendors` component (src/components/Vendors.js) as a state machine: the
 * vendor list, the error banner, the "Add Vendor" modal and its draft, and
 * the HTTP requests the handlers issue.
 *
 * The backend is not modelled. Each handler takes what the backend answered
 * (and what the user answered to `window.confirm`) as a parameter, and every
 * request is appended to the `requests` log, so that the contracts can say
 * which requests a handler issues.
 */
module Vendors {
  import opened Wrappers
  import QuestionList

  /** A vendor as the list endpoint returns it. */
  datatype Vendor = Vendor(id: string, name: string, details: string, website: string, logo: string)

  /** What the GET of the vendor list produced. */
  datatype FetchResult = Fetched(data: seq<Vendor>) | FetchFailed

  /** The fields of the "Add Vendor" form that the create request carries (the logo file aside). */
  datatype Draft = Draft(name: string, details: string, website: string, questions: seq<string>)

  /** The multipart body of the create request, with `questions` as a list of records. */
  datatype VendorForm = VendorForm(name: string, details: string, website: string,
                                   questions: seq<QuestionList.QuestionRecord>)

  /** An HTTP request issued by the component. */
  datatype Request =
    | GetVendors(url: string)
    | PostVendor(url: string, form: VendorForm, authorization: string)
    | DeleteVendor(url: string)

  const VendorsUrl: string := "http://localhost:5000/vendors"
  const AdminVendorsUrl: string := "http://localhost:5000/admin/vendors"
  const FetchError: string := "Failed to fetch vendors"
  const DeleteError: string := "Failed to delete vendor"

  /**
   * The `Authorization` header, `Bearer ${token}`. The template literal turns
   * a missing token (`null`) into the text "null"; the header is sent either way.
   */
  function Authorization(stored: Option<string>): (r: string)
    ensures |r| >= 7 && r[..7] == "Bearer "
    ensures stored.Some? ==> r[7..] == stored.value
    ensures stored.None? ==> r[7..] == "null"
  {
    "Bearer " + match stored case None => "null" case Some(t) => t
  }

  /** The header identifies the stored token, except that a missing token and the string "null" look alike. */
  lemma AuthorizationIdentifiesToken(s1: Option<string>, s2: Option<string>)
    ensures Authorization(s1) == Authorization(s2) <==>
      s1 == s2 || ({s1, s2} == {None, Some("null")})
  {
  }

  /**
   * The browser's `required` constraint on the form's text inputs: the name,
   * details and website, and every question, must be non-empty before the
   * form submits.
   */
  predicate PassesRequired(d: Draft)
  {
    d.name != "" && d.details != "" && d.website != "" &&
    forall k :: 0 <= k < |d.questions| ==> d.questions[k] != ""
  }

  /** The create request's body for a draft. */
  function Payload(d: Draft): (f: VendorForm)
    ensures f.name == d.name && f.details == d.details && f.website == d.website
    ensures |f.questions| == |d.questions|
    ensures forall k :: 0 <= k < |d.questions| ==> f.questions[k].question == d.questions[k]
  {
    VendorForm(d.name, d.details, d.website, QuestionList.Serialize(d.questions))
  }

  /** The request that deletes the vendor with identifier `id`. */
  function DeleteRequest(id: string): Request
  {
    DeleteVendor(VendorsUrl + "/" + id)
  }

  /** Each vendor's delete request targets its own URL: two identifiers give the same request only if they are equal. */
  lemma DeleteRequestIdentifiesVendor(id1: string, id2: string)
    ensures DeleteRequest(id1) == DeleteRequest(id2) <==> id1 == id2
  {
    if DeleteRequest(id1) == DeleteRequest(id2) {
      var n := |VendorsUrl + "/"|;
      assert id1 == DeleteRequest(id1).url[n..];
      assert id2 == DeleteRequest(id2).url[n..];
    }
  }

  class VendorsState {
    var vendors: seq<Vendor>
    var name: string
    var details: string
    var website: string
    var questions: seq<string>
    var error: string
    var isModalOpen: bool
    /** The HTTP requests issued so far, oldest first. */
    var requests: seq<Request>

    /** The question list is never empty. */
    ghost predicate Valid()
      reads this
    {
      |questions| >= 1
    }

    /** The draft fields of the modal form. */
    function CurrentDraft(): Draft
      reads this
    {
      Draft(name, details, website, questions)
    }

    /** The component's initial state, before its mount effect runs. */
    constructor ()
      ensures Valid()
      ensures vendors == [] && error == "" && !isModalOpen && requests == []
      ensures CurrentDraft() == Draft("", "", "", QuestionList.Initial)
    {
      vendors, name, details, website := [], "", "", "";
      questions := QuestionList.Initial;
      error, isModalOpen, requests := "", false, [];
    }

    /**
     * `fetchVendors`: one GET of the list. Success replaces the list and
     * leaves the error banner as it was; failure keeps the list and sets the banner.
     */
    method FetchVendors(result: FetchResult)
      requires Valid()
      modifies this
      ensures Valid()
      ensures requests == old(requests) + [GetVendors(VendorsUrl)]
      ensures result.Fetched? ==> vendors == result.data && error == old(error)
      ensures result.FetchFailed? ==> vendors == old(vendors) && error == FetchError
      ensures CurrentDraft() == old(CurrentDraft()) && isModalOpen == old(isModalOpen)
    {
      requests := requests + [GetVendors(VendorsUrl)];
      match result
      case Fetched(data) => vendors := data;
      case FetchFailed => error := FetchError;
    }

    /**
     * `handleAddVendor`: posts the draft with the bearer header. On success
     * it reloads the list and closes the modal; on failure only the request
     * was made and the modal stays open. The draft is kept in both cases.
     * The form that submits lives inside the open modal, and the browser
     * submits it only once every required text input is filled in.
     */
    method HandleAddVendor(stored: Option<string>, posted: bool, reload: FetchResult)
      requires Valid()
      requires isModalOpen && PassesRequired(CurrentDraft())
      modifies this
      ensures Valid()
      ensures CurrentDraft() == old(CurrentDraft())
      ensures var post := PostVendor(AdminVendorsUrl, Payload(old(CurrentDraft())), Authorization(stored));
        if posted then
          requests == old(requests) + [post, GetVendors(VendorsUrl)] && !isModalOpen &&
          (reload.Fetched? ==> vendors == reload.data && error == old(error)) &&
          (reload.FetchFailed? ==> vendors == old(vendors) && error == FetchError)
        else
          requests == old(requests) + [post] && isModalOpen &&
          vendors == old(vendors) && error == old(error)
    {
      var form := Payload(CurrentDraft());
      requests := requests + [PostVendor(AdminVendorsUrl, form, Authorization(stored))];
      if posted {
        FetchVendors(reload);
        isModalOpen := false;
      }
    }

    /**
     * `handleDeleteVendor`: nothing happens unless the user confirms. Then
     * one DELETE; success reloads the list, failure sets the error banner.
     */
    method HandleDeleteVendor(id: string, confirmed: bool, deleted: bool, reload: FetchResult)
      requires Valid()
      modifies this
      ensures Valid()
      ensures CurrentDraft() == old(CurrentDraft()) && isModalOpen == old(isModalOpen)
      ensures !confirmed ==> requests == old(requests) && vendors == old(vendors) && error == old(error)
      ensures confirmed && deleted ==>
        requests == old(requests) + [DeleteRequest(id), GetVendors(VendorsUrl)] &&
        (reload.Fetched? ==> vendors == reload.data && error == old(error)) &&
        (reload.FetchFailed? ==> vendors == old(vendors) && error == FetchError)
      ensures confirmed && !deleted ==>
        requests == old(requests) + [DeleteRequest(id)] && vendors == old(vendors) && error == DeleteError
    {
      if !confirmed {
        return;
      }
      requests := requests + [DeleteRequest(id)];
      if deleted {
        FetchVendors(reload);
      } else {
        error := DeleteError;
      }
    }

    /** The "Add Vendor" button opens the modal. */
    method OpenModal()
      requires Valid()
      modifies this
      ensures Valid()
      ensures isModalOpen
      ensures vendors == old(vendors) && error == old(error) && requests == old(requests)
      ensures CurrentDraft() == old(CurrentDraft())
    {
      isModalOpen := true;
    }

    /** The close button hides the modal; the draft stays as it was. */
    method CloseModal()
      requires Valid()
      modifies this
      ensures Valid()
      ensures !isModalOpen
      ensures vendors == old(vendors) && error == old(error) && requests == old(requests)
      ensures CurrentDraft() == old(CurrentDraft())
    {
      isModalOpen := false;
    }

    /** The name input stores what was typed. */
    method SetName(value: string)
      requires Valid()
      modifies this
      ensures Valid()
      ensures CurrentDraft() == old(CurrentDraft()).(name := value) && isModalOpen == old(isModalOpen)
      ensures vendors == old(vendors) && error == old(error) && requests == old(requests)
    {
      name := value;
    }

    /** The details input stores what was typed. */
    method SetDetails(value: string)
      requires Valid()
      modifies this
      ensures Valid()
      ensures CurrentDraft() == old(CurrentDraft()).(details := value) && isModalOpen == old(isModalOpen)
      ensures vendors == old(vendors) && error == old(error) && requests == old(requests)
    {
      details := value;
    }

    /** The website input stores what was typed. */
    method SetWebsite(value: string)
      requires Valid()
      modifies this
      ensures Valid()
      ensures CurrentDraft() == old(CurrentDraft()).(website := value) && isModalOpen == old(isModalOpen)
      ensures vendors == old(vendors) && error == old(error) && requests == old(requests)
    {
      website := value;
    }

    /** `addQuestion`: one more empty question at the end. */
    method AddQuestion()
      requires Valid()
      modifies this`questions
      ensures Valid()
      ensures questions == QuestionList.Step(old(questions), QuestionList.AddQuestion)
      ensures |questions| == |old(questions)| + 1
      ensures questions[..|old(questions)|] == old(questions) && questions[|old(questions)|] == ""
    {
      questions := questions + [""];
    }

    /** `handleQuestionChange`: a copy of the list with entry `index` replaced. */
    method HandleQuestionChange(index: int, value: string)
      requires Valid()
      requires 0 <= index < |questions|
      modifies this`questions
      ensures Valid()
      ensures questions == QuestionList.Step(old(questions), QuestionList.ChangeQuestion(index, value))
      ensures |questions| == |old(questions)| && questions[index] == value
      ensures forall k :: 0 <= k < |questions| && k != index ==> questions[k] == old(questions)[k]
    {
      var updated := questions;
      updated := updated[index := value];
      questions := updated;
    }

    /** `removeQuestion`: refused at length 1; otherwise the list filtered by position. */
    method RemoveQuestion(index: int)
      requires Valid()
      modifies this`questions
      ensures Valid()
      ensures questions == QuestionList.Step(old(questions), QuestionList.RemoveQuestion(index))
      ensures |old(questions)| == 1 ==> questions == old(questions)
      ensures |old(questions)| > 1 && 0 <= index < |old(questions)| ==>
        questions == old(questions)[..index] + old(questions)[index + 1..]
      ensures !(0 <= index < |old(questions)|) ==> questions == old(questions)
    {
      if |questions| > 1 {
        questions := QuestionList.Without(questions, index);
      }
    }
  }

  /** Mounting runs `fetchVendors` once; a failed first load leaves the list empty and shows the banner. */
  method MountWithFailedLoad() returns (v: VendorsState)
    ensures v.Valid()
    ensures v.vendors == [] && v.error == FetchError && v.requests == [GetVendors(VendorsUrl)]
  {
    v := new VendorsState();
    v.FetchVendors(FetchFailed);
  }

  /** A successful first load shows exactly the vendors the backend returned. */
  method MountWithLoad(data: seq<Vendor>) returns (v: VendorsState)
    ensures v.Valid()
    ensures v.vendors == data && v.error == "" && v.requests == [GetVendors(VendorsUrl)]
  {
    v := new VendorsState();
    v.FetchVendors(Fetched(data));
  }

  /**
   * Open the modal, fill in the fields, add a second question, fill both in
   * and submit successfully: one POST carrying the draft, one reload, the
   * modal closed.
   */
  method SubmitTwoQuestions(stored: Option<string>, name: string, details: string, website: string,
                            q0: string, q1: string, data: seq<Vendor>)
    returns (v: VendorsState)
    requires name != "" && details != "" && website != "" && q0 != "" && q1 != ""
    ensures v.Valid() && !v.isModalOpen && v.vendors == data
    ensures |v.requests| == 3 && v.requests[0] == GetVendors(VendorsUrl) && v.requests[2] == GetVendors(VendorsUrl)
    ensures v.requests[1].PostVendor? && v.requests[1].url == AdminVendorsUrl
    ensures v.requests[1].form ==
      VendorForm(name, details, website, [QuestionList.QuestionRecord(q0), QuestionList.QuestionRecord(q1)])
  {
    v := new VendorsState();
    v.FetchVendors(Fetched([]));
    v.OpenModal();
    v.SetName(name);
    v.SetDetails(details);
    v.SetWebsite(website);
    v.AddQuestion();
    v.HandleQuestionChange(0, q0);
    v.HandleQuestionChange(1, q1);
    v.HandleAddVendor(stored, true, Fetched(data));
  }
}
