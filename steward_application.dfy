/** `POST /api/steward-application`: the form a client sends to become a
    steward, checked for its required fields and its two consents. */
module StewardApplication {
  import opened Common

  /** The form fields; `None` for a field the form does not carry. */
  datatype ApplicationForm = ApplicationForm(
    skills: seq<string>,
    experience: Option<string>,
    availability: Option<string>,
    bio: Option<string>,
    terms: Option<string>,
    backgroundCheck: Option<string>)

  datatype StewardProfile = StewardProfile(
    id: string,
    skills: seq<string>,
    experience: string,
    availability: string,
    hourlyRate: int)

  datatype ApplicationResponse =
    | MissingFields      // 400 'Missing required fields'
    | ConsentRequired    // 400 'You must accept the terms and consent to a background check'
    | Submitted(profile: StewardProfile, redirect: string)

  const MockStewardId := "mock-steward-id"
  const ConfirmationPage := "/become-steward/confirmation"

  predicate HasRequiredFields(f: ApplicationForm) {
    |f.skills| > 0 && Truthy(f.experience) && Truthy(f.availability) && Truthy(f.bio)
  }

  predicate HasConsents(f: ApplicationForm) {
    f.terms == Some("on") && f.backgroundCheck == Some("on")
  }

  function Apply(f: ApplicationForm): (r: ApplicationResponse)
    ensures !HasRequiredFields(f) ==> r == MissingFields
    ensures HasRequiredFields(f) && !HasConsents(f) ==> r == ConsentRequired
    ensures r.Submitted? <==> HasRequiredFields(f) && HasConsents(f)
    ensures r.Submitted? ==>
      && r.profile.skills == f.skills
      && Some(r.profile.experience) == f.experience
      && Some(r.profile.availability) == f.availability
      && r.profile.id == MockStewardId && r.profile.hourlyRate == 0
      && r.redirect == ConfirmationPage
  {
    if !HasRequiredFields(f) then MissingFields
    else if !HasConsents(f) then ConsentRequired
    else Submitted(StewardProfile(MockStewardId, f.skills, OrElse(f.experience, ""),
                                  OrElse(f.availability, ""), 0), ConfirmationPage)
  }

  /** The bio is required but not echoed: any other non-empty bio gives the
      same response. */
  lemma BioIsNotEchoed(f: ApplicationForm, bio: string)
    requires Apply(f).Submitted? && bio != ""
    ensures Apply(f.(bio := Some(bio))) == Apply(f)
  {
  }
}
