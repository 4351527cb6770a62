/**
 * The builder's client-side state container: four form slices, the job
 * description and the generated portfolio, each replaced by a setter. The
 * slice setters merge a partial record into the slice (`{ ...slice, ...partial }`):
 * every key present in the partial overwrites, every other key is kept.
 *
 * A `Partial<T>` is a record of `Option` fields, `None` standing for a key
 * the partial does not carry.
 */
module Store {
  import opened Wrappers

  // ---------------------------------------------------------------------------
  // Slices and their partials
  // ---------------------------------------------------------------------------

  datatype PersonalInfo = PersonalInfo(
    name: string, email: string, phone: string, linkedIn: string,
    github: string, location: string, profileImage: string)

  datatype PersonalPatch = PersonalPatch(
    name: Option<string>, email: Option<string>, phone: Option<string>, linkedIn: Option<string>,
    github: Option<string>, location: Option<string>, profileImage: Option<string>)

  datatype ProfessionalInfo = ProfessionalInfo(
    skills: string, experienceYears: string, summary: string, domain: string)

  datatype ProfessionalPatch = ProfessionalPatch(
    skills: Option<string>, experienceYears: Option<string>, summary: Option<string>, domain: Option<string>)

  datatype ProjectsInfo = ProjectsInfo(project1: string, project2: string)
  datatype ProjectsPatch = ProjectsPatch(project1: Option<string>, project2: Option<string>)

  datatype ExperienceInfo = ExperienceInfo(exp1: string, exp2: string)
  datatype ExperiencePatch = ExperiencePatch(exp1: Option<string>, exp2: Option<string>)

  /** One entry of the generated work history. */
  datatype ExperienceItem = ExperienceItem(company: string, role: string, duration: string, points: seq<string>)

  /** One entry of the generated project list. */
  datatype ProjectItem = ProjectItem(name: string, tech: seq<string>, description: string)

  /** The generated portfolio; every key is optional, so it is its own partial. */
  datatype AIPortfolio = AIPortfolio(
    summary: Option<string>, skills: Option<seq<string>>,
    experience: Option<seq<ExperienceItem>>, projects: Option<seq<ProjectItem>>)

  /** The value a spread keeps for one key: the partial's when it has the key, the old one otherwise. */
  function Pick<T>(patch: Option<T>, current: T): T {
    if patch.Some? then patch.value else current
  }

  // The keys of each slice, so that merge contracts can speak of every key at once.

  datatype PersonalKey = Name | Email | Phone | LinkedIn | Github | Location | ProfileImage
  datatype ProfessionalKey = Skills | ExperienceYears | Summary | Domain
  datatype ProjectsKey = Project1 | Project2
  datatype ExperienceKey = Exp1 | Exp2
  datatype PortfolioKey = PortfolioSummary | PortfolioSkills | PortfolioExperience | PortfolioProjects

  function PersonalField(p: PersonalInfo, k: PersonalKey): string {
    match k
    case Name => p.name
    case Email => p.email
    case Phone => p.phone
    case LinkedIn => p.linkedIn
    case Github => p.github
    case Location => p.location
    case ProfileImage => p.profileImage
  }

  function PersonalPatchField(d: PersonalPatch, k: PersonalKey): Option<string> {
    match k
    case Name => d.name
    case Email => d.email
    case Phone => d.phone
    case LinkedIn => d.linkedIn
    case Github => d.github
    case Location => d.location
    case ProfileImage => d.profileImage
  }

  function ProfessionalField(p: ProfessionalInfo, k: ProfessionalKey): string {
    match k
    case Skills => p.skills
    case ExperienceYears => p.experienceYears
    case Summary => p.summary
    case Domain => p.domain
  }

  function ProfessionalPatchField(d: ProfessionalPatch, k: ProfessionalKey): Option<string> {
    match k
    case Skills => d.skills
    case ExperienceYears => d.experienceYears
    case Summary => d.summary
    case Domain => d.domain
  }

  function ProjectsField(p: ProjectsInfo, k: ProjectsKey): string {
    match k
    case Project1 => p.project1
    case Project2 => p.project2
  }

  function ProjectsPatchField(d: ProjectsPatch, k: ProjectsKey): Option<string> {
    match k
    case Project1 => d.project1
    case Project2 => d.project2
  }

  function ExperienceField(p: ExperienceInfo, k: ExperienceKey): string {
    match k
    case Exp1 => p.exp1
    case Exp2 => p.exp2
  }

  function ExperiencePatchField(d: ExperiencePatch, k: ExperienceKey): Option<string> {
    match k
    case Exp1 => d.exp1
    case Exp2 => d.exp2
  }

  /** Whether the portfolio carries a key. */
  function PortfolioHas(a: AIPortfolio, k: PortfolioKey): bool {
    match k
    case PortfolioSummary => a.summary.Some?
    case PortfolioSkills => a.skills.Some?
    case PortfolioExperience => a.experience.Some?
    case PortfolioProjects => a.projects.Some?
  }

  // ---------------------------------------------------------------------------
  // Merges: `{ ...current, ...partial }`
  // ---------------------------------------------------------------------------

  function MergePersonal(p: PersonalInfo, d: PersonalPatch): (r: PersonalInfo)
    ensures forall k :: PersonalPatchField(d, k).Some? ==> PersonalField(r, k) == PersonalPatchField(d, k).value
    ensures forall k :: PersonalPatchField(d, k).None? ==> PersonalField(r, k) == PersonalField(p, k)
  {
    PersonalInfo(
      Pick(d.name, p.name), Pick(d.email, p.email), Pick(d.phone, p.phone), Pick(d.linkedIn, p.linkedIn),
      Pick(d.github, p.github), Pick(d.location, p.location), Pick(d.profileImage, p.profileImage))
  }

  function MergeProfessional(p: ProfessionalInfo, d: ProfessionalPatch): (r: ProfessionalInfo)
    ensures forall k :: ProfessionalPatchField(d, k).Some? ==> ProfessionalField(r, k) == ProfessionalPatchField(d, k).value
    ensures forall k :: ProfessionalPatchField(d, k).None? ==> ProfessionalField(r, k) == ProfessionalField(p, k)
  {
    ProfessionalInfo(
      Pick(d.skills, p.skills), Pick(d.experienceYears, p.experienceYears),
      Pick(d.summary, p.summary), Pick(d.domain, p.domain))
  }

  function MergeProjects(p: ProjectsInfo, d: ProjectsPatch): (r: ProjectsInfo)
    ensures forall k :: ProjectsPatchField(d, k).Some? ==> ProjectsField(r, k) == ProjectsPatchField(d, k).value
    ensures forall k :: ProjectsPatchField(d, k).None? ==> ProjectsField(r, k) == ProjectsField(p, k)
  {
    ProjectsInfo(Pick(d.project1, p.project1), Pick(d.project2, p.project2))
  }

  function MergeExperience(p: ExperienceInfo, d: ExperiencePatch): (r: ExperienceInfo)
    ensures forall k :: ExperiencePatchField(d, k).Some? ==> ExperienceField(r, k) == ExperiencePatchField(d, k).value
    ensures forall k :: ExperiencePatchField(d, k).None? ==> ExperienceField(r, k) == ExperienceField(p, k)
  {
    ExperienceInfo(Pick(d.exp1, p.exp1), Pick(d.exp2, p.exp2))
  }

  /** `{ ...a, ...data }` on the portfolio: a key the data carries replaces the old value wholesale. */
  function MergePortfolio(a: AIPortfolio, data: AIPortfolio): (r: AIPortfolio)
    ensures forall k :: PortfolioHas(r, k) <==> PortfolioHas(a, k) || PortfolioHas(data, k)
    ensures data.summary.Some? ==> r.summary == data.summary
    ensures data.skills.Some? ==> r.skills == data.skills
    ensures data.experience.Some? ==> r.experience == data.experience
    ensures data.projects.Some? ==> r.projects == data.projects
    ensures data.summary.None? ==> r.summary == a.summary
    ensures data.skills.None? ==> r.skills == a.skills
    ensures data.experience.None? ==> r.experience == a.experience
    ensures data.projects.None? ==> r.projects == a.projects
  {
    AIPortfolio(
      if data.summary.Some? then data.summary else a.summary,
      if data.skills.Some? then data.skills else a.skills,
      if data.experience.Some? then data.experience else a.experience,
      if data.projects.Some? then data.projects else a.projects)
  }

  /** The partial with no keys. */
  const NoPersonalChange: PersonalPatch := PersonalPatch(None, None, None, None, None, None, None)

  /** Merging is idempotent, and the empty partial changes nothing. */
  lemma MergePersonalIdempotent(p: PersonalInfo, d: PersonalPatch)
    ensures MergePersonal(MergePersonal(p, d), d) == MergePersonal(p, d)
    ensures MergePersonal(p, NoPersonalChange) == p
  {
  }

  lemma MergeProfessionalIdempotent(p: ProfessionalInfo, d: ProfessionalPatch)
    ensures MergeProfessional(MergeProfessional(p, d), d) == MergeProfessional(p, d)
    ensures MergeProfessional(p, ProfessionalPatch(None, None, None, None)) == p
  {
  }

  lemma MergeProjectsIdempotent(p: ProjectsInfo, d: ProjectsPatch)
    ensures MergeProjects(MergeProjects(p, d), d) == MergeProjects(p, d)
    ensures MergeProjects(p, ProjectsPatch(None, None)) == p
  {
  }

  lemma MergeExperienceIdempotent(p: ExperienceInfo, d: ExperiencePatch)
    ensures MergeExperience(MergeExperience(p, d), d) == MergeExperience(p, d)
    ensures MergeExperience(p, ExperiencePatch(None, None)) == p
  {
  }

  lemma MergePortfolioIdempotent(a: AIPortfolio, data: AIPortfolio)
    ensures MergePortfolio(MergePortfolio(a, data), data) == MergePortfolio(a, data)
    ensures MergePortfolio(a, AIPortfolio(None, None, None, None)) == a
  {
  }

  /** `{ ...d, ...e }` on two partials: the later partial's keys over the earlier's. */
  function LayerPersonal(d: PersonalPatch, e: PersonalPatch): (r: PersonalPatch)
    ensures forall k :: PersonalPatchField(r, k).Some? <==> PersonalPatchField(d, k).Some? || PersonalPatchField(e, k).Some?
  {
    PersonalPatch(
      if e.name.Some? then e.name else d.name,
      if e.email.Some? then e.email else d.email,
      if e.phone.Some? then e.phone else d.phone,
      if e.linkedIn.Some? then e.linkedIn else d.linkedIn,
      if e.github.Some? then e.github else d.github,
      if e.location.Some? then e.location else d.location,
      if e.profileImage.Some? then e.profileImage else d.profileImage)
  }

  /** Two successive merges are one merge with the later partial laid over the earlier. */
  lemma MergePersonalCompose(p: PersonalInfo, d: PersonalPatch, e: PersonalPatch)
    ensures MergePersonal(MergePersonal(p, d), e) == MergePersonal(p, LayerPersonal(d, e))
  {
  }

  // ---------------------------------------------------------------------------
  // The store
  // ---------------------------------------------------------------------------

  datatype StoreState = StoreState(
    personalInfo: PersonalInfo, professional: ProfessionalInfo,
    projects: ProjectsInfo, experience: ExperienceInfo,
    jobDescription: string, aiPortfolio: Option<AIPortfolio>)

  /** The state the store is created with. */
  function InitialState(): (s: StoreState)
    ensures forall k :: PersonalField(s.personalInfo, k) == ""
    ensures forall k :: ProfessionalField(s.professional, k) == ""
    ensures forall k :: ProjectsField(s.projects, k) == ""
    ensures forall k :: ExperienceField(s.experience, k) == ""
    ensures s.jobDescription == "" && s.aiPortfolio.None?
  {
    StoreState(
      PersonalInfo("", "", "", "", "", "", ""),
      ProfessionalInfo("", "", "", ""),
      ProjectsInfo("", ""),
      ExperienceInfo("", ""),
      "",
      None)
  }

  class ResumeStore {
    var personalInfo: PersonalInfo
    var professional: ProfessionalInfo
    var projects: ProjectsInfo
    var experience: ExperienceInfo
    var jobDescription: string
    var aiPortfolio: Option<AIPortfolio>

    function State(): StoreState
      reads this
    {
      StoreState(personalInfo, professional, projects, experience, jobDescription, aiPortfolio)
    }

    constructor()
      ensures State() == InitialState()
    {
      personalInfo := PersonalInfo("", "", "", "", "", "", "");
      professional := ProfessionalInfo("", "", "", "");
      projects := ProjectsInfo("", "");
      experience := ExperienceInfo("", "");
      jobDescription := "";
      aiPortfolio := None;
    }

    method SetPersonalInfo(partial: PersonalPatch)
      modifies this
      ensures State() == old(State()).(personalInfo := MergePersonal(old(personalInfo), partial))
    {
      personalInfo := MergePersonal(personalInfo, partial);
    }

    method SetProfessional(partial: ProfessionalPatch)
      modifies this
      ensures State() == old(State()).(professional := MergeProfessional(old(professional), partial))
    {
      professional := MergeProfessional(professional, partial);
    }

    method SetProjects(partial: ProjectsPatch)
      modifies this
      ensures State() == old(State()).(projects := MergeProjects(old(projects), partial))
    {
      projects := MergeProjects(projects, partial);
    }

    method SetExperience(partial: ExperiencePatch)
      modifies this
      ensures State() == old(State()).(experience := MergeExperience(old(experience), partial))
    {
      experience := MergeExperience(experience, partial);
    }

    method SetJobDescription(job: string)
      modifies this
      ensures State() == old(State()).(jobDescription := job)
    {
      jobDescription := job;
    }

    /** Replaces the portfolio wholesale: keys of the old one that `data` lacks are gone. */
    method SetAIPortfolio(data: AIPortfolio)
      modifies this
      ensures State() == old(State()).(aiPortfolio := Some(data))
    {
      aiPortfolio := Some(data);
    }

    /** The same merge as `SetPersonalInfo`, under the name the portfolio view uses. */
    method UpdatePersonalInfo(partial: PersonalPatch)
      modifies this
      ensures State() == old(State()).(personalInfo := MergePersonal(old(personalInfo), partial))
    {
      personalInfo := MergePersonal(personalInfo, partial);
    }

    /** Merges into the portfolio when there is one, and otherwise starts it from `data`. */
    method UpdateAiPortfolio(data: AIPortfolio)
      modifies this
      ensures old(aiPortfolio).Some? ==> State() == old(State()).(aiPortfolio := Some(MergePortfolio(old(aiPortfolio).value, data)))
      ensures old(aiPortfolio).None? ==> State() == old(State()).(aiPortfolio := Some(data))
    {
      aiPortfolio := if aiPortfolio.Some? then Some(MergePortfolio(aiPortfolio.value, data)) else Some(data);
    }

    method Reset()
      modifies this
      ensures State() == InitialState()
    {
      personalInfo := PersonalInfo("", "", "", "", "", "", "");
      professional := ProfessionalInfo("", "", "", "");
      projects := ProjectsInfo("", "");
      experience := ExperienceInfo("", "");
      jobDescription := "";
      aiPortfolio := None;
    }
  }
}
