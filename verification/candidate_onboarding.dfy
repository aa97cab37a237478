/**
 * The candidate onboarding wizard: five steps, a resume upload through a signed URL,
 * skill editing, and a final submission that mirrors the profile into local storage.
 */
module CandidateOnboarding {
  import opened Common
  import opened Net
  import Wizard
  import Text
  import Seqs

  /** Resume, links, title and experience, skills, auto-apply. */
  const Steps := 5
  const Pdf := "application/pdf"
  const ResumeTypes := [Pdf]
  /** The local-storage key the completed profile is written under. */
  const StorageKey := "onboarding"
  const LoginPage := "/login"

  /** The form record the wizard accumulates (`data`). */
  datatype Profile = Profile(
    title: string,
    skills: seq<string>,
    yoe: string,
    github: string,
    linkedin: string,
    portfolio: string,
    autoApply: bool,
    resumeURL: string)

  const EmptyProfile := Profile("", [], "", "", "", "", true, "")

  /** The text fields an input or select edits with `setData({ ...data, field: value })`. */
  datatype Field = Title | Yoe | Github | Linkedin | Portfolio

  function FieldOf(p: Profile, f: Field): string {
    match f
    case Title => p.title
    case Yoe => p.yoe
    case Github => p.github
    case Linkedin => p.linkedin
    case Portfolio => p.portfolio
  }

  /** One input edit: the edited field takes the value, every other field keeps its own. */
  function WithField(p: Profile, f: Field, v: string): (r: Profile)
    ensures FieldOf(r, f) == v
    ensures forall g :: g != f ==> FieldOf(r, g) == FieldOf(p, g)
    ensures r.skills == p.skills && r.autoApply == p.autoApply && r.resumeURL == p.resumeURL
  {
    match f
    case Title => p.(title := v)
    case Yoe => p.(yoe := v)
    case Github => p.(github := v)
    case Linkedin => p.(linkedin := v)
    case Portfolio => p.(portfolio := v)
  }

  /** The body of the `addDetails` request. */
  datatype Payload = Payload(
    id: string,
    resumeURL: string,
    title: string,
    yoe: string,
    skills: seq<string>,
    autoApply: bool,
    github: string,
    linkedin: string,
    portfolio: string)

  datatype Request =
    | SignResume(userId: string, fileType: string)      // POST getSignedUrlResume
    | PutResume(url: string, contentType: string)       // PUT of the file to the signed URL
    | AddDetails(payload: Payload, token: string)       // POST addDetails with a bearer token

  /**
   * The payload as written: its `resumeURL` entry reads a name that no enclosing scope
   * declares (the handler's own `resumeURL` is local to the upload handler), so building
   * it throws before the request is made.
   */
  function PayloadAsWritten(userId: string, data: Profile): (r: Result<Payload, JsError>)
    ensures r == Failure(ReferenceError("resumeURL"))
  {
    Failure(ReferenceError("resumeURL"))
  }

  /** The intended payload: the user id and every field of the profile, the resume URL included. */
  function PayloadOf(userId: string, data: Profile): (p: Payload)
    ensures p.id == userId && p.resumeURL == data.resumeURL
    ensures p.title == data.title && p.yoe == data.yoe && p.skills == data.skills
    ensures p.autoApply == data.autoApply
    ensures p.github == data.github && p.linkedin == data.linkedin && p.portfolio == data.portfolio
  {
    Payload(userId, data.resumeURL, data.title, data.yoe, data.skills, data.autoApply,
            data.github, data.linkedin, data.portfolio)
  }

  /** Nothing of the profile is lost in the intended payload: equal payloads come from equal profiles. */
  lemma PayloadDeterminesProfile(userId: string, d1: Profile, d2: Profile)
    ensures PayloadOf(userId, d1) == PayloadOf(userId, d2) <==> d1 == d2
  {
  }

  /**
   * The commit updater as written: `(prev) => ({ ...prev, resumeURL: publicURL })` reads
   * `publicURL`, which is not declared anywhere, so the updater always throws. React applies it
   * while rendering, after the handler's `try` has been left.
   */
  function CommitAsWritten(prev: Profile, t: Target): (r: Result<Profile, JsError>)
    ensures r == Failure(ReferenceError("publicURL"))
  {
    Failure(ReferenceError("publicURL"))
  }

  /** The intended commit: exactly `resumeURL` is overwritten, with the target's read URL. */
  function Commit(prev: Profile, t: Target): (r: Profile)
    ensures r.resumeURL == t.readURL
    ensures r.(resumeURL := prev.resumeURL) == prev
  {
    prev.(resumeURL := t.readURL)
  }

  /** The requests an accepted upload issues while `uploading` is set: the signed-URL request, then the PUT if a target came back. */
  function UploadRequests(userId: string, target: Option<Target>): seq<Sent<Request>> {
    [Sent(SignResume(userId, Pdf), true)]
    + (if target.Some? then [Sent(PutResume(target.value.uploadURL, Pdf), true)] else [])
  }

  /** The component's state cells, with local storage, navigation and the issued requests. */
  class Onboarding {
    const userId: string
    const token: string
    var currentStep: int
    var uploading: bool
    var saving: bool
    var skillInput: string
    var data: Profile
    /** Every request issued so far, in order. */
    var sent: seq<Sent<Request>>
    /** What this component wrote to local storage, by key. */
    var saved: map<string, Profile>
    /** The last page navigated to. */
    var location: Option<string>
    /**
     * Whether rendering threw, so that the route shows the router's default error page in place
     * of the wizard (the route has no error element). The wizard's state is then gone and no
     * handler of it can run again.
     */
    var errorPage: bool

    /** The state between two events: the step is in range and no request is in flight. */
    ghost predicate Valid()
      reads this
    {
      1 <= currentStep <= Steps && !uploading && !saving
    }

    constructor(userId: string, token: string)
      ensures Valid() && this.userId == userId && this.token == token
      ensures currentStep == 1 && data == EmptyProfile && skillInput == ""
      ensures sent == [] && saved == map[] && location == None && !errorPage
    {
      this.userId := userId;
      this.token := token;
      currentStep := 1;
      uploading, saving := false, false;
      skillInput := "";
      data := EmptyProfile;
      sent, saved, location := [], map[], None;
      errorPage := false;
    }

    /** `handleNext`: `Math.min(s + 1, steps.length)`, so the step never passes the last one. */
    method HandleNext()
      requires Valid() && !errorPage
      modifies this`currentStep
      ensures Valid()
      ensures currentStep == Min(old(currentStep) + 1, Steps)
      ensures currentStep == Wizard.Step(Wizard.Next, old(currentStep), Steps)
    {
      currentStep := Min(currentStep + 1, Steps);
    }

    /** The Back button, rendered only above the first step, goes back exactly one step. */
    method HandleBack()
      requires Valid() && !errorPage && Wizard.Offered(Wizard.Back, currentStep, Steps)
      modifies this`currentStep
      ensures Valid()
      ensures currentStep == old(currentStep) - 1
    {
      currentStep := currentStep - 1;
    }

    /** Typing in the skill input. */
    method HandleSkillInput(text: string)
      requires Valid() && !errorPage
      modifies this`skillInput
      ensures Valid() && skillInput == text
    {
      skillInput := text;
    }

    /** An edit of one text field of the form. */
    method HandleEdit(f: Field, value: string)
      requires Valid() && !errorPage
      modifies this`data
      ensures Valid() && data == WithField(old(data), f, value)
    {
      data := WithField(data, f, value);
    }

    /** The auto-apply checkbox. */
    method HandleAutoApply(checked: bool)
      requires Valid() && !errorPage
      modifies this`data
      ensures Valid() && data == old(data).(autoApply := checked)
    {
      data := data.(autoApply := checked);
    }

    /** `handleAddSkill`: appends the trimmed input and clears it, if the trimmed input is not empty. */
    method HandleAddSkill()
      requires Valid() && !errorPage
      modifies this`data, this`skillInput
      ensures Valid()
      ensures !Text.IsBlank(old(skillInput)) ==>
        data == old(data).(skills := old(data.skills) + [Text.Trim(old(skillInput))]) && skillInput == ""
      ensures Text.IsBlank(old(skillInput)) ==> data == old(data) && skillInput == old(skillInput)
    {
      if Text.Trim(skillInput) != "" {
        data := data.(skills := data.skills + [Text.Trim(skillInput)]);
        skillInput := "";
      }
    }

    /** `handleRemoveSkill(i)`: drops the skill at position `i`, keeping the others in order. */
    method HandleRemoveSkill(i: int)
      requires Valid() && !errorPage
      modifies this`data
      ensures Valid()
      ensures 0 <= i < |old(data.skills)| ==>
        data == old(data).(skills := old(data.skills)[..i] + old(data.skills)[i + 1..])
      ensures !(0 <= i < |old(data.skills)|) ==> data == old(data)
    {
      data := data.(skills := Seqs.RemoveIndex(data.skills, i));
    }

    /**
     * The requests of `handleResumeUpload`: check the file, set `uploading`, request a signed
     * target, PUT the file, and clear `uploading` whatever happened. `done` tells whether both
     * requests succeeded, which is when the handler goes on to commit the resume URL.
     */
    method Transfer(file: Option<File>, target: Option<Target>, putOk: bool) returns (done: bool)
      requires Valid()
      modifies this`uploading, this`sent
      ensures Valid()
      ensures sent == old(sent) + (if Accepts(file, ResumeTypes) then UploadRequests(userId, target) else [])
      ensures done <==> Accepts(file, ResumeTypes) && target.Some? && putOk
    {
      done := false;
      if file.None? {
        return;                                   // "Please select a PDF."
      }
      if file.value.mimeType != Pdf {
        return;                                   // "Only PDF allowed."
      }
      uploading := true;
      sent := sent + [Sent(SignResume(userId, Pdf), uploading)];
      if target.Some? {
        sent := sent + [Sent(PutResume(target.value.uploadURL, Pdf), uploading)];
        done := putOk;
      }
      uploading := false;
    }

    /**
     * `handleResumeUpload` as written. A missing or non-PDF file issues no request; otherwise the
     * signed-URL request and (if it succeeded) the PUT go out while `uploading` is set, and
     * `uploading` is cleared at the end. When both succeed, the queued commit throws as React
     * renders it, and the wizard gives way to the error page; the form record never changes.
     */
    method HandleResumeUpload(file: Option<File>, target: Option<Target>, putOk: bool)
      requires Valid() && !errorPage
      modifies this`uploading, this`sent, this`errorPage
      ensures Valid() && data == old(data)
      ensures !Accepts(file, ResumeTypes) ==> sent == old(sent)
      ensures Accepts(file, ResumeTypes) ==> sent == old(sent) + UploadRequests(userId, target)
      ensures errorPage <==> Accepts(file, ResumeTypes) && target.Some? && putOk
    {
      var done := Transfer(file, target, putOk);
      if done {
        errorPage := CommitAsWritten(data, target.value).Failure?;
      }
    }

    /**
     * `handleResumeUpload` as intended: the same requests, and the resume URL is committed
     * exactly when the file was accepted and both requests succeeded.
     */
    method HandleResumeUploadFixed(file: Option<File>, target: Option<Target>, putOk: bool)
      requires Valid() && !errorPage
      modifies this`uploading, this`data, this`sent
      ensures Valid() && !errorPage
      ensures !Accepts(file, ResumeTypes) ==> sent == old(sent)
      ensures Accepts(file, ResumeTypes) ==> sent == old(sent) + UploadRequests(userId, target)
      ensures data == if Accepts(file, ResumeTypes) && target.Some? && putOk
                      then Commit(old(data), target.value)
                      else old(data)
    {
      var done := Transfer(file, target, putOk);
      if done {
        data := Commit(data, target.value);
      }
    }

    /**
     * The part of `handleComplete` after the payload is built: POST it, and on status 200 or 201
     * write the profile to local storage and go to the login page. A payload that threw sends nothing.
     */
    method Submit(payload: Result<Payload, JsError>, reply: Reply)
      modifies this`sent, this`saved, this`location
      ensures payload.Failure? ==> sent == old(sent) && saved == old(saved) && location == old(location)
      ensures payload.Success? ==> sent == old(sent) + [Sent(AddDetails(payload.value, token), saving)]
      ensures payload.Success? && Succeeded(reply) ==>
        saved == old(saved)[StorageKey := data] && location == Some(LoginPage)
      ensures payload.Success? && !Succeeded(reply) ==> saved == old(saved) && location == old(location)
    {
      match payload {
        case Failure(_) =>                         // caught: "Error saving details."
        case Success(p) =>
          sent := sent + [Sent(AddDetails(p, token), saving)];
          if Succeeded(reply) {
            saved := saved[StorageKey := data];
            location := Some(LoginPage);
          }
      }
    }

    /**
     * `handleComplete` as written, offered only on the last step: building the payload throws,
     * so no request goes out, storage and navigation are untouched, and `saving` ends false.
     */
    method HandleComplete(reply: Reply)
      requires Valid() && !errorPage && currentStep == Steps
      modifies this`saving, this`sent, this`saved, this`location
      ensures Valid()
      ensures sent == old(sent) && saved == old(saved) && location == old(location)
    {
      saving := true;
      var payload := PayloadAsWritten(userId, data);
      Submit(payload, reply);
      saving := false;
    }

    /**
     * `handleComplete` as intended: one POST of the whole profile while `saving` is set; status
     * 200 or 201 stores the profile under "onboarding" and navigates to the login page, any other
     * outcome writes nothing.
     */
    method HandleCompleteFixed(reply: Reply)
      requires Valid() && !errorPage && currentStep == Steps
      modifies this`saving, this`sent, this`saved, this`location
      ensures Valid()
      ensures sent == old(sent) + [Sent(AddDetails(PayloadOf(userId, data), token), true)]
      ensures Succeeded(reply) ==> saved == old(saved)[StorageKey := data] && location == Some(LoginPage)
      ensures !Succeeded(reply) ==> saved == old(saved) && location == old(location)
    {
      saving := true;
      Submit(Success(PayloadOf(userId, data)), reply);
      saving := false;
    }
  }

  const ScenarioTarget := Target("https://store/x", "https://cdn/x")

  /**
   * An upload as written: a PDF is chosen and both requests succeed. The wizard is replaced by the
   * error page, the resume URL was never stored, and only the two upload requests went out.
   */
  method ScenarioAsWritten() returns (errorPage: bool, resumeURL: string, stored: bool, requests: nat)
    ensures errorPage && resumeURL == "" && !stored
    ensures requests == 2
  {
    var w := new Onboarding("u1", "t1");
    w.HandleResumeUpload(Some(File(Pdf)), Some(ScenarioTarget), true);
    errorPage := w.errorPage;
    resumeURL := w.data.resumeURL;
    stored := StorageKey in w.saved;
    requests := |w.sent|;
  }

  /**
   * Completing as written, without an upload: the title is filled in, the user walks to the last
   * step and clicks Complete with a server that would answer 201. No request goes out, nothing is
   * stored and the wizard stays on its last step.
   */
  method ScenarioCompleteAsWritten() returns (step: int, requests: nat, stored: bool, location: Option<string>)
    ensures step == Steps && requests == 0 && !stored && location == None
  {
    var w := new Onboarding("u1", "t1");
    w.HandleEdit(Title, "Backend Developer");
    w.HandleNext();
    w.HandleNext();
    w.HandleNext();
    w.HandleNext();
    w.HandleComplete(Status(201));
    step := w.currentStep;
    requests := |w.sent|;
    stored := StorageKey in w.saved;
    location := w.location;
  }

  /**
   * The same run with the intended handlers: the submitted payload carries the read URL and the
   * title, the whole profile is stored under "onboarding" and the wizard navigates to the login page.
   */
  method Scenario() returns (submitted: Request, stored: Option<Profile>, location: Option<string>)
    ensures submitted.AddDetails? && submitted.payload.resumeURL == "https://cdn/x"
    ensures submitted.payload.title == "Backend Developer"
    ensures stored == Some(EmptyProfile.(title := "Backend Developer", resumeURL := "https://cdn/x"))
    ensures location == Some(LoginPage)
  {
    var w := new Onboarding("u1", "t1");
    w.HandleResumeUploadFixed(Some(File(Pdf)), Some(ScenarioTarget), true);
    w.HandleEdit(Title, "Backend Developer");
    w.HandleNext();
    w.HandleNext();
    w.HandleNext();
    w.HandleNext();
    w.HandleCompleteFixed(Status(201));
    submitted := w.sent[|w.sent| - 1].request;
    stored := if StorageKey in w.saved then Some(w.saved[StorageKey]) else None;
    location := w.location;
  }
}
