/** The employer's job board: a form that posts new jobs to the front of the list. */
module PostJob {
  import Decimal
  import Text
  import Seqs

  datatype Job = Job(
    id: string,
    title: string,
    experience: string,
    skills: seq<string>,
    location: string,
    description: string,
    postedDate: string,
    applicants: int)

  /** The form being filled in (`formData`). */
  datatype JobForm = JobForm(
    title: string,
    experience: string,
    skills: seq<string>,
    location: string,
    description: string)

  const EmptyForm := JobForm("", "", [], "", "")

  /** The job the board starts with. */
  const SeedJob := Job("1", "Senior Backend Engineer", "5-10 years", ["Python", "PostgreSQL", "AWS"],
                       "San Francisco, CA", "Build scalable backend systems...", "2025-11-03", 12)

  /** The text fields the inputs edit. */
  datatype Field = Title | Experience | Location | Description

  function FieldOf(f: JobForm, x: Field): string {
    match x
    case Title => f.title
    case Experience => f.experience
    case Location => f.location
    case Description => f.description
  }

  /** One input edit: the edited field takes the value, every other field keeps its own. */
  function WithField(f: JobForm, x: Field, v: string): (r: JobForm)
    ensures FieldOf(r, x) == v
    ensures forall y :: y != x ==> FieldOf(r, y) == FieldOf(f, y)
    ensures r.skills == f.skills
  {
    match x
    case Title => f.(title := v)
    case Experience => f.(experience := v)
    case Location => f.(location := v)
    case Description => f.(description := v)
  }

  /** The fields marked `required`, which the browser insists on before it submits the form. */
  predicate FormComplete(f: JobForm) {
    f.title != "" && f.experience != "" && f.location != "" && f.description != ""
  }

  /**
   * The job `handleSubmit` builds: id `String(jobs.length + 1)`, the form's fields, the given
   * posting date and no applicants yet.
   */
  function NewJob(jobs: seq<Job>, form: JobForm, postedDate: string): (j: Job)
    ensures j.id == Decimal.Show(|jobs| + 1) && j.applicants == 0 && j.postedDate == postedDate
    ensures JobForm(j.title, j.experience, j.skills, j.location, j.description) == form
  {
    Job(Decimal.Show(|jobs| + 1), form.title, form.experience, form.skills, form.location,
        form.description, postedDate, 0)
  }

  /** The board's ids read n, n-1, ..., 1 from the front: each post puts the next number in front. */
  ghost predicate IdsCountDown(jobs: seq<Job>) {
    forall k :: 0 <= k < |jobs| ==> jobs[k].id == Decimal.Show(|jobs| - k)
  }

  /** `[newJob, ...jobs]`: the new job in front, the others after it in their order, and the id numbering kept. */
  function Posted(jobs: seq<Job>, form: JobForm, postedDate: string): (r: seq<Job>)
    ensures |r| == |jobs| + 1 && r[0] == NewJob(jobs, form, postedDate) && r[1..] == jobs
    ensures IdsCountDown(jobs) ==> IdsCountDown(r)
  {
    [NewJob(jobs, form, postedDate)] + jobs
  }

  /** On a board numbered n..1, every id is different. */
  lemma IdsDistinct(jobs: seq<Job>)
    requires IdsCountDown(jobs)
    ensures forall i, j :: 0 <= i < j < |jobs| ==> jobs[i].id != jobs[j].id
  {
    forall i, j | 0 <= i < j < |jobs| ensures jobs[i].id != jobs[j].id {
      Decimal.ShowInjective(|jobs| - i, |jobs| - j);
    }
  }

  /** On a board numbered n..1, the new job's id is not yet taken. */
  lemma NewJobIdIsFresh(jobs: seq<Job>, form: JobForm, postedDate: string)
    requires IdsCountDown(jobs)
    ensures forall k :: 0 <= k < |jobs| ==> jobs[k].id != NewJob(jobs, form, postedDate).id
  {
    forall k | 0 <= k < |jobs| ensures jobs[k].id != NewJob(jobs, form, postedDate).id {
      Decimal.ShowInjective(|jobs| - k, |jobs| + 1);
    }
  }

  /** The component's state cells. */
  class Board {
    var jobs: seq<Job>
    var showForm: bool
    var formData: JobForm
    var skillInput: string

    ghost predicate Valid()
      reads this
    {
      IdsCountDown(jobs)
    }

    constructor()
      ensures Valid() && jobs == [SeedJob] && !showForm && formData == EmptyForm && skillInput == ""
    {
      jobs := [SeedJob];
      showForm := false;
      formData := EmptyForm;
      skillInput := "";
    }

    /** The header button shows or hides the form. */
    method ToggleForm()
      requires Valid()
      modifies this`showForm
      ensures Valid() && showForm == !old(showForm)
    {
      showForm := !showForm;
    }

    /** Typing in the skill input. */
    method HandleSkillInput(text: string)
      requires Valid()
      modifies this`skillInput
      ensures Valid() && skillInput == text
    {
      skillInput := text;
    }

    /** An edit of one text field of the form. */
    method HandleEdit(x: Field, value: string)
      requires Valid()
      modifies this`formData
      ensures Valid() && formData == WithField(old(formData), x, value)
    {
      formData := WithField(formData, x, value);
    }

    /** `handleAddSkill`: appends the input as typed (untrimmed) and clears it, if its trim is not empty. */
    method HandleAddSkill()
      requires Valid()
      modifies this`formData, this`skillInput
      ensures Valid()
      ensures !Text.IsBlank(old(skillInput)) ==>
        formData == old(formData).(skills := old(formData.skills) + [old(skillInput)]) && skillInput == ""
      ensures Text.IsBlank(old(skillInput)) ==> formData == old(formData) && skillInput == old(skillInput)
    {
      if Text.Trim(skillInput) != "" {
        formData := formData.(skills := formData.skills + [skillInput]);
        skillInput := "";
      }
    }

    /** `handleRemoveSkill(index)`: drops the skill at `index`, keeping the others in order. */
    method HandleRemoveSkill(index: int)
      requires Valid()
      modifies this`formData
      ensures Valid()
      ensures 0 <= index < |old(formData.skills)| ==>
        formData == old(formData).(skills := old(formData.skills)[..index] + old(formData.skills)[index + 1..])
      ensures !(0 <= index < |old(formData.skills)|) ==> formData == old(formData)
    {
      formData := formData.(skills := Seqs.RemoveIndex(formData.skills, index));
    }

    /**
     * `handleSubmit`, reachable when the form is shown and its required fields are filled:
     * the new job goes in front, the form is reset and hidden. `today` is the date the clock gives.
     */
    method HandleSubmit(today: string)
      requires Valid() && showForm && FormComplete(formData)
      modifies this`jobs, this`formData, this`showForm
      ensures Valid()
      ensures jobs == Posted(old(jobs), old(formData), today)
      ensures formData == EmptyForm && !showForm
    {
      var newJob := NewJob(jobs, formData, today);
      jobs := [newJob] + jobs;
      formData := EmptyForm;
      showForm := false;
    }
  }
}
