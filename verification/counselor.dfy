/**
 * The peer-volunteer application form of the college counselor page: an
 * application is pushed onto the stored list under
 * `volunteer-applications`, then the form closes and is emptied.
 */
module Counselor {
  import opened Storage

  const ApplicationsKey := "volunteer-applications"

  /** The five form fields. */
  datatype VolunteerForm = VolunteerForm(name: string, course: string, year: string, specialization: string, motivation: string)

  const EmptyForm := VolunteerForm("", "", "", "", "")

  /** `JSON.parse(getItem('volunteer-applications') || '[]')`. */
  function StoredApplications(items: Items): (apps: seq<Application>)
    ensures ApplicationsKey !in items ==> apps == []
  {
    if Has(items, ApplicationsKey) && items[ApplicationsKey].Applications? then items[ApplicationsKey].applications else []
  }

  /** The record pushed for a form: the five fields plus the id and the time of applying. */
  function NewApplication(id: string, f: VolunteerForm, appliedAt: string): Application {
    Application(id, f.name, f.course, f.year, f.specialization, f.motivation, appliedAt)
  }

  /** The volunteer part of the page. */
  class CollegeCounselor {
    var showVolunteerForm: bool
    var form: VolunteerForm
    const storage: BrowserStorage

    constructor(storage: BrowserStorage)
      ensures this.storage == storage && !showVolunteerForm && form == EmptyForm
    {
      this.storage := storage;
      showVolunteerForm, form := false, EmptyForm;
    }

    /**
     * `handleVolunteerApply`: load the list, push the application, store the
     * list, close and empty the form. The handler has no guard of its own.
     */
    method HandleVolunteerApply(id: string, appliedAt: string)
      modifies this`showVolunteerForm, this`form, storage
      ensures StoredApplications(storage.items) ==
        StoredApplications(old(storage.items)) + [NewApplication(id, old(form), appliedAt)]
      ensures storage.items == old(storage.items)[ApplicationsKey := Applications(StoredApplications(storage.items))]
      ensures !showVolunteerForm && form == EmptyForm
    {
      var applications := StoredApplications(storage.items);
      applications := applications + [NewApplication(id, form, appliedAt)];
      storage.SetItem(ApplicationsKey, Applications(applications));
      showVolunteerForm := false;
      form := EmptyForm;
    }

    /** The Submit button is disabled while the name or the course is empty. */
    function SubmitDisabled(): (disabled: bool)
      reads this
      ensures !disabled ==> |form.name| > 0 && |form.course| > 0
      ensures |form.name| > 0 && |form.course| > 0 ==> !disabled
    {
      form.name == "" || form.course == ""
    }
  }

  /** Two applications in a row keep both, in the order they were made. */
  lemma TwoApplicationsKeepOrder(items: Items, a: Application, b: Application)
    ensures var once := items[ApplicationsKey := Applications(StoredApplications(items) + [a])];
      var twice := once[ApplicationsKey := Applications(StoredApplications(once) + [b])];
      StoredApplications(twice) == StoredApplications(items) + [a, b]
  {
    var once := items[ApplicationsKey := Applications(StoredApplications(items) + [a])];
    assert Has(once, ApplicationsKey);
  }
}
