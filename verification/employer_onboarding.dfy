/**
 * The employer onboarding wizard: three steps, an ID-card upload through a signed URL,
 * and a final registration that mirrors the company record into local storage.
 */
module EmployerOnboarding {
  import opened Common
  import opened Net
  import Wizard

  /** ID card, company details, LinkedIn profile. */
  const Steps := 3
  /** The MIME types the ID-card upload accepts. */
  const IdCardTypes := ["image/png", "image/jpeg", "application/pdf"]
  const StorageKey := "employerOnboarding"
  const LoginPage := "/login"

  /** The form record (`data`), including the upload URL kept after a successful upload. */
  datatype Company = Company(
    companyName: string,
    companyLocation: string,
    position: string,
    linkedin: string,
    idCardURL: string,
    uploadURL: string)

  const EmptyCompany := Company("", "", "", "", "", "")

  /** The text fields the inputs edit. */
  datatype Field = CompanyName | CompanyLocation | Position | Linkedin

  function FieldOf(c: Company, f: Field): string {
    match f
    case CompanyName => c.companyName
    case CompanyLocation => c.companyLocation
    case Position => c.position
    case Linkedin => c.linkedin
  }

  /** One input edit: the edited field takes the value, every other field keeps its own. */
  function WithField(c: Company, f: Field, v: string): (r: Company)
    ensures FieldOf(r, f) == v
    ensures forall g :: g != f ==> FieldOf(r, g) == FieldOf(c, g)
    ensures r.idCardURL == c.idCardURL && r.uploadURL == c.uploadURL
  {
    match f
    case CompanyName => c.(companyName := v)
    case CompanyLocation => c.(companyLocation := v)
    case Position => c.(position := v)
    case Linkedin => c.(linkedin := v)
  }

  /** The body of the `addDetailsRegister` request. */
  datatype Payload = Payload(
    id: string,
    idCardURL: string,
    linkedin: string,
    companyName: string,
    companyLocation: string,
    position: string)

  datatype Request =
    | SignIdCard(userId: string, fileType: string)      // POST getSignedURLIDCard
    | PutIdCard(url: string, contentType: string)       // PUT of the file to the signed URL
    | AddDetailsRegister(payload: Payload)              // POST addDetailsRegister (no token)

  /** The submitted payload: the user id and the record's fields, without `uploadURL`. */
  function PayloadOf(userId: string, c: Company): (p: Payload)
    ensures p.id == userId && p.idCardURL == c.idCardURL
    ensures p.linkedin == c.linkedin && p.companyName == c.companyName
    ensures p.companyLocation == c.companyLocation && p.position == c.position
  {
    Payload(userId, c.idCardURL, c.linkedin, c.companyName, c.companyLocation, c.position)
  }

  /** The payload carries every field but `uploadURL`: two records give the same payload iff they differ at most there. */
  lemma PayloadOmitsOnlyUploadURL(userId: string, c1: Company, c2: Company)
    ensures PayloadOf(userId, c1) == PayloadOf(userId, c2) <==> c1.(uploadURL := "") == c2.(uploadURL := "")
  {
    if PayloadOf(userId, c1) == PayloadOf(userId, c2) {
      assert c1.(uploadURL := "") == c2.(uploadURL := "");
    }
  }

  /** The commit after a successful upload: exactly `uploadURL` and `idCardURL` come from the target. */
  function Commit(prev: Company, t: Target): (r: Company)
    ensures r.uploadURL == t.uploadURL && r.idCardURL == t.readURL
    ensures r.(uploadURL := prev.uploadURL, idCardURL := prev.idCardURL) == prev
  {
    prev.(uploadURL := t.uploadURL, idCardURL := t.readURL)
  }

  /** The requests an accepted upload issues while `uploading` is set; both carry the file's own type. */
  function UploadRequests(userId: string, fileType: string, target: Option<Target>): seq<Sent<Request>> {
    [Sent(SignIdCard(userId, fileType), true)]
    + (if target.Some? then [Sent(PutIdCard(target.value.uploadURL, fileType), true)] else [])
  }

  /** The component's state cells, with local storage, navigation and the issued requests. */
  class Onboarding {
    const userId: string
    var currentStep: int
    var uploading: bool
    var saving: bool
    var data: Company
    /** Every request issued so far, in order. */
    var sent: seq<Sent<Request>>
    /** What this component wrote to local storage, by key. */
    var saved: map<string, Company>
    /** The last page navigated to. */
    var location: Option<string>

    /** The state between two events: the step is in range and no request is in flight. */
    ghost predicate Valid()
      reads this
    {
      1 <= currentStep <= Steps && !uploading && !saving
    }

    /** The Complete button is rendered on the last step and disabled while saving. */
    predicate CompleteEnabled()
      reads this
    {
      currentStep == Steps && !saving
    }

    constructor(userId: string)
      ensures Valid() && this.userId == userId
      ensures currentStep == 1 && data == EmptyCompany
      ensures sent == [] && saved == map[] && location == None
    {
      this.userId := userId;
      currentStep := 1;
      uploading, saving := false, false;
      data := EmptyCompany;
      sent, saved, location := [], map[], None;
    }

    /** The Next button, rendered only below the last step, advances exactly one step. */
    method HandleNext()
      requires Valid() && Wizard.Offered(Wizard.Next, currentStep, Steps)
      modifies this`currentStep
      ensures Valid()
      ensures currentStep == old(currentStep) + 1
      ensures currentStep == Wizard.Step(Wizard.Next, old(currentStep), Steps)
    {
      currentStep := currentStep + 1;
    }

    /** The Back button, rendered only above the first step, goes back exactly one step. */
    method HandleBack()
      requires Valid() && Wizard.Offered(Wizard.Back, currentStep, Steps)
      modifies this`currentStep
      ensures Valid()
      ensures currentStep == old(currentStep) - 1
    {
      currentStep := currentStep - 1;
    }

    /** An edit of one text field of the form. */
    method HandleEdit(f: Field, value: string)
      requires Valid()
      modifies this`data
      ensures Valid() && data == WithField(old(data), f, value)
    {
      data := WithField(data, f, value);
    }

    /**
     * `handleIDCardUpload`. A missing file or a type off the allow-list issues no request and
     * changes nothing. Otherwise the signed-URL request and (if it succeeded) the PUT go out with
     * the file's own type while `uploading` is set; only when both succeed are `uploadURL` and
     * `idCardURL` overwritten; `uploading` is cleared at the end whatever happened.
     */
    method HandleIdCardUpload(file: Option<File>, target: Option<Target>, putOk: bool)
      requires Valid()
      modifies this`uploading, this`data, this`sent
      ensures Valid()
      ensures !Accepts(file, IdCardTypes) ==> sent == old(sent) && data == old(data)
      ensures Accepts(file, IdCardTypes) ==>
        sent == old(sent) + UploadRequests(userId, file.value.mimeType, target)
      ensures data == if Accepts(file, IdCardTypes) && target.Some? && putOk
                      then Commit(old(data), target.value)
                      else old(data)
    {
      if file.None? {
        return;                                   // "Please select an image or PDF."
      }
      if file.value.mimeType !in IdCardTypes {
        return;                                   // "Only PNG, JPG, or PDF allowed."
      }
      uploading := true;
      var fileType := file.value.mimeType;
      sent := sent + [Sent(SignIdCard(userId, fileType), uploading)];
      if target.Some? {
        sent := sent + [Sent(PutIdCard(target.value.uploadURL, fileType), uploading)];
        if putOk {
          data := Commit(data, target.value);
        }
      }
      uploading := false;
    }

    /**
     * `handleComplete`: one POST of the payload while `saving` is set; status 200 or 201 stores
     * the whole record (with `uploadURL`) under "employerOnboarding" and navigates to the login
     * page, any other outcome writes nothing; `saving` ends false.
     */
    method HandleComplete(reply: Reply)
      requires Valid() && CompleteEnabled()
      modifies this`saving, this`sent, this`saved, this`location
      ensures Valid()
      ensures sent == old(sent) + [Sent(AddDetailsRegister(PayloadOf(userId, data)), true)]
      ensures Succeeded(reply) ==> saved == old(saved)[StorageKey := data] && location == Some(LoginPage)
      ensures !Succeeded(reply) ==> saved == old(saved) && location == old(location)
    {
      saving := true;
      var payload := PayloadOf(userId, data);
      sent := sent + [Sent(AddDetailsRegister(payload), saving)];
      if Succeeded(reply) {
        saved := saved[StorageKey := data];
        location := Some(LoginPage);
      }
      saving := false;
    }
  }
}
