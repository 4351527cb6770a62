/**
 * The prompt side of the generation endpoint: the domain-to-guidance table
 * with its `other` fallback, the sanitised echo of the request body (fourteen
 * text fields, `profileImage` never among them), its `JSON.stringify(_, null, 2)`
 * rendering, and the assembled prompt.
 */
module PromptBuilder {
  import opened Wrappers
  import opened JsText

  /** The domain tags the guidance table knows. */
  datatype DomainTag =
    | SoftwareDeveloper
    | DataScience
    | Medical
    | Marketing
    | Finance
    | Design
    | Education
    | Legal
    | Sales
    | HumanResources
    | Engineering
    | Content
    | Consulting
    | Research
    | OtherDomain

  /** The table key of each tag. */
  function TagName(t: DomainTag): string {
    match t
    case SoftwareDeveloper => "software_developer"
    case DataScience => "data_science"
    case Medical => "medical"
    case Marketing => "marketing"
    case Finance => "finance"
    case Design => "design"
    case Education => "education"
    case Legal => "legal"
    case Sales => "sales"
    case HumanResources => "hr"
    case Engineering => "engineering"
    case Content => "content"
    case Consulting => "consulting"
    case Research => "research"
    case OtherDomain => "other"
  }

  /** The entry of the table under a key, if the table itself has one. */
  function ParseTag(key: string): (t: Option<DomainTag>)
    ensures t.Some? ==> TagName(t.value) == key
    ensures t.None? ==> forall u :: TagName(u) != key
  {
    if key == "software_developer" then Some(SoftwareDeveloper)
    else if key == "data_science" then Some(DataScience)
    else if key == "medical" then Some(Medical)
    else if key == "marketing" then Some(Marketing)
    else if key == "finance" then Some(Finance)
    else if key == "design" then Some(Design)
    else if key == "education" then Some(Education)
    else if key == "legal" then Some(Legal)
    else if key == "sales" then Some(Sales)
    else if key == "hr" then Some(HumanResources)
    else if key == "engineering" then Some(Engineering)
    else if key == "content" then Some(Content)
    else if key == "consulting" then Some(Consulting)
    else if key == "research" then Some(Research)
    else if key == "other" then Some(OtherDomain)
    else None
  }

  /** The guidance text of each entry of `DOMAIN_PROMPTS`. */
  function GuidanceText(t: DomainTag): string {
    match t
    case SoftwareDeveloper =>
      "\n    DOMAIN:  Software Development / Engineering\n    - Focus on technical skills, programming languages, frameworks, and tools\n    - Highlight code quality, system design, and problem-solving abilities\n    - Use technical action verbs:  Architected, Implemented, Debugged, Refactored, Deployed, Optimized\n  "
    case DataScience =>
      "\n    DOMAIN: Data Science / Machine Learning\n    - Focus on ML/AI frameworks, statistical analysis, and data processing skills\n    - Highlight model accuracy, data pipeline efficiency, and insights generated\n    - Use action verbs: Analyzed, Modeled, Predicted, Trained, Validated, Visualized\n  "
    case Medical =>
      "\n    DOMAIN: Medical / Healthcare Professional\n    - Focus on clinical skills, patient care, certifications, and specializations\n    - Highlight patient outcomes, care quality metrics, and procedural expertise\n    - Use action verbs: Diagnosed, Treated, Administered, Coordinated, Assessed, Monitored\n  "
    case Marketing =>
      "\n    DOMAIN: Marketing / Digital Marketing\n    - Focus on campaign management, analytics tools, and creative skills\n    - Highlight ROI, conversion rates, engagement metrics, and brand growth\n    - Use action verbs: Launched, Increased, Targeted, Optimized, Branded, Converted\n  "
    case Finance =>
      "\n    DOMAIN: Finance / Accounting\n    - Focus on financial analysis, reporting, compliance, and software proficiency\n    - Highlight cost savings, revenue impact, audit success, and accuracy metrics\n    - Use action verbs: Analyzed, Forecasted, Audited, Reconciled, Budgeted, Reported\n  "
    case Design =>
      "\n    DOMAIN: UI/UX Design / Graphic Design\n    - Focus on design tools, user research, prototyping, and visual skills\n    - Highlight user satisfaction scores, conversion improvements, and design systems\n    - Use action verbs: Designed, Prototyped, Researched, Iterated, Created, Collaborated\n  "
    case Education =>
      "\n    DOMAIN: Education / Teaching\n    - Focus on curriculum development, teaching methodologies, and subject expertise\n    - Highlight student outcomes, engagement rates, and program improvements\n    - Use action verbs: Taught, Mentored, Developed, Assessed, Facilitated, Inspired\n  "
    case Legal =>
      "\n    DOMAIN: Legal / Law\n    - Focus on legal research, case management, and specialization areas\n    - Highlight case outcomes, client satisfaction, and regulatory compliance\n    - Use action verbs:  Represented, Negotiated, Drafted, Litigated, Advised, Researched\n  "
    case Sales =>
      "\n    DOMAIN: Sales / Business Development\n    - Focus on sales techniques, CRM tools, and relationship management\n    - Highlight revenue generated, deals closed, and quota achievement\n    - Use action verbs:  Closed, Generated, Exceeded, Prospected, Negotiated, Retained\n  "
    case HumanResources =>
      "\n    DOMAIN: Human Resources\n    - Focus on recruitment, employee relations, HRIS systems, and policy development\n    - Highlight hiring metrics, retention rates, and program implementations\n    - Use action verbs: Recruited, Onboarded, Implemented, Mediated, Developed, Streamlined\n  "
    case Engineering =>
      "\n    DOMAIN: Engineering (Non-Software)\n    - Focus on technical specifications, project management, and industry standards\n    - Highlight project completions, efficiency improvements, and safety records\n    - Use action verbs: Engineered, Designed, Tested, Fabricated, Improved, Supervised\n  "
    case Content =>
      "\n    DOMAIN: Content Writing / Journalism\n    - Focus on writing skills, content strategy, and editorial experience\n    - Highlight readership growth, engagement metrics, and publication achievements\n    - Use action verbs: Wrote, Published, Edited, Researched, Interviewed, Increased\n  "
    case Consulting =>
      "\n    DOMAIN: Consulting / Management\n    - Focus on strategic planning, problem-solving, and client management\n    - Highlight client outcomes, project deliveries, and business impact\n    - Use action verbs: Advised, Strategized, Delivered, Transformed, Recommended, Analyzed\n  "
    case Research =>
      "\n    DOMAIN: Research / Academia\n    - Focus on research methodologies, publications, and academic achievements\n    - Highlight citations, grants received, and research impact\n    - Use action verbs:  Researched, Published, Presented, Collaborated, Discovered, Analyzed\n  "
    case OtherDomain =>
      "\n    DOMAIN: General Professional\n    - Focus on transferable skills, achievements, and professional growth\n    - Highlight measurable outcomes and key contributions\n    - Use relevant action verbs based on the specific field\n  "
  }

  /** The template text before the guidance, between the guidance and the echo, and after the echo. */
  const PromptHead: string := "\nYou are an expert portfolio content generator. \n\nConvert the user input into a professional JSON object for a portfolio website. \n\n"
  const PromptMiddle: string := "\n\n====================\nOUTPUT FORMAT (STRICT)\n====================\nReturn ONLY valid JSON.  No markdown, no backticks, no explanations.\n\n{\n  \"summary\": \"2-3 sentence professional summary\",\n  \"skills\": [\"Skill1\", \"Skill2\"],\n  \"experience\":  [\n    {\n      \"company\": \"Company Name\",\n      \"role\": \"Job Title\",\n      \"duration\": \"Date Range\",\n      \"points\": [\"Achievement 1\", \"Achievement 2\"]\n    }\n  ],\n  \"projects\": [\n    {\n      \"name\": \"Project Name\",\n      \"tech\": [\"Tech1\", \"Tech2\"],\n      \"description\": \"Project description\"\n    }\n  ]\n}\n\n====================\nRULES\n====================\n- SKILLS:  Split by commas, capitalize properly (react \U{2192} React)\n- EXPERIENCE: Use strong action verbs, create achievement-oriented bullet points\n- PROJECTS:  Infer tech stack, write professional descriptions\n- SUMMARY:  Write a compelling 2-3 sentence professional summary tailored to the domain\n- If data is missing, make reasonable assumptions\n- Keep it concise and professional\n\n====================\nUSER INPUT\n====================\n"
  const PromptTail: string := "\n"

  /** The tag a request names: `body.professional?.domain || "other"`. */
  function DomainKey(domain: Option<string>): (key: string)
    ensures |key| > 0
    ensures domain.Some? && |domain.value| > 0 ==> key == domain.value
  {
    if domain.Some? && |domain.value| > 0 then domain.value else "other"
  }

  /** Every tag is found under its own key, so distinct tags have distinct keys. */
  lemma ParseTagName(t: DomainTag)
    ensures ParseTag(TagName(t)) == Some(t)
  {
  }

  /**
   * `DOMAIN_PROMPTS[domain] || DOMAIN_PROMPTS.other`, reading the table's own
   * entries: a recognised tag selects its own entry; an absent, empty or
   * unrecognised tag selects the `other` entry.
   */
  function SelectTag(domain: Option<string>): (t: DomainTag)
    ensures forall u :: domain == Some(TagName(u)) ==> t == u
    ensures (forall u :: domain != Some(TagName(u))) ==> t == OtherDomain
  {
    var key := DomainKey(domain);
    assert forall u :: domain == Some(TagName(u)) ==> ParseTag(key) == Some(u) by {
      forall u | domain == Some(TagName(u)) ensures ParseTag(key) == Some(u) {
        ParseTagName(u);
      }
    }
    ParseTag(key).GetOr(OtherDomain)
  }

  /** The guidance text the prompt carries for a request's domain tag. */
  function DomainGuidance(domain: Option<string>): string {
    GuidanceText(SelectTag(domain))
  }

  /** The members every object literal inherits from `Object.prototype`. */
  const ObjectPrototypeMembers: set<string> := {
    "constructor", "__defineGetter__", "__defineSetter__", "hasOwnProperty",
    "__lookupGetter__", "__lookupSetter__", "isPrototypeOf", "propertyIsEnumerable",
    "toString", "valueOf", "__proto__", "toLocaleString"
  }

  /** What a bracket read on the table finds: one of its own entries, or an inherited member. */
  datatype Lookup = Entry(tag: DomainTag) | Inherited(member: string)

  /** How an inherited member reads once interpolated into the template. */
  function InheritedText(member: string): string {
    if member == "__proto__" then "[object Object]"
    else "function " + (if member == "constructor" then "Object" else member) + "() { [native code] }"
  }

  function LookupText(l: Lookup): string {
    match l
    case Entry(t) => GuidanceText(t)
    case Inherited(m) => InheritedText(m)
  }

  /**
   * The lookup as the route writes it: a bracket read on a plain object also
   * finds the members inherited from `Object.prototype`, and those are truthy,
   * so the `|| DOMAIN_PROMPTS.other` fallback never fires for them.
   */
  function LookupAsWritten(domain: Option<string>): (l: Lookup)
    ensures l.Inherited? <==> domain.Some? && domain.value in ObjectPrototypeMembers
  {
    var key := DomainKey(domain);
    match ParseTag(key)
    case Some(t) => Entry(t)
    case None => if key in ObjectPrototypeMembers then Inherited(key) else Entry(OtherDomain)
  }

  /** The guidance text as the route writes the lookup. */
  function DomainGuidanceAsWritten(domain: Option<string>): string {
    LookupText(LookupAsWritten(domain))
  }

  /** The two lookups agree on every tag except the inherited member names. */
  lemma AsWrittenAgreesOffPrototype(domain: Option<string>)
    requires !(domain.Some? && domain.value in ObjectPrototypeMembers)
    ensures LookupAsWritten(domain) == Entry(SelectTag(domain))
  {
  }

  /** The tag `constructor` is not in the table, yet the route reads a native function instead of the `other` guidance. */
  lemma InheritedTagSkipsGuidance()
    ensures SelectTag(Some("constructor")) == OtherDomain
    ensures LookupAsWritten(Some("constructor")) == Inherited("constructor")
    ensures InheritedText("constructor") == "function Object() { [native code] }"
  {
    assert ParseTag("constructor") == None;
  }

  // ---------------------------------------------------------------------------
  // The request body as received, and its sanitised echo
  // ---------------------------------------------------------------------------

  /** One text field of the request body; `None` is an absent key, `null` or `undefined`. */
  type Field = Option<string>

  datatype RawPersonal = RawPersonal(
    name: Field, email: Field, phone: Field, location: Field,
    github: Field, linkedIn: Field, profileImage: Field)
  datatype RawProfessional = RawProfessional(
    skills: Field, experienceYears: Field, summary: Field, domain: Field)
  datatype RawProjects = RawProjects(project1: Field, project2: Field)
  datatype RawExperience = RawExperience(exp1: Field, exp2: Field)
  datatype RawBody = RawBody(
    personalInfo: Option<RawPersonal>, professional: Option<RawProfessional>,
    projects: Option<RawProjects>, experience: Option<RawExperience>)

  datatype CleanPersonal = CleanPersonal(
    name: string, email: string, phone: string, location: string, github: string, linkedIn: string)
  datatype CleanProfessional = CleanProfessional(
    skills: string, experienceYears: string, summary: string, domain: string)
  datatype CleanProjects = CleanProjects(project1: string, project2: string)
  datatype CleanExperience = CleanExperience(exp1: string, exp2: string)
  datatype CleanBody = CleanBody(
    personalInfo: CleanPersonal, professional: CleanProfessional,
    projects: CleanProjects, experience: CleanExperience)

  /** The fourteen fields the echo carries. */
  datatype EchoKey =
    | Name | Email | Phone | Location | Github | LinkedIn
    | Skills | ExperienceYears | Summary | Domain
    | Project1 | Project2 | Exp1 | Exp2

  /** `body.<group>?.<key>` */
  function RawField(b: RawBody, k: EchoKey): Field {
    match k
    case Name => if b.personalInfo.Some? then b.personalInfo.value.name else None
    case Email => if b.personalInfo.Some? then b.personalInfo.value.email else None
    case Phone => if b.personalInfo.Some? then b.personalInfo.value.phone else None
    case Location => if b.personalInfo.Some? then b.personalInfo.value.location else None
    case Github => if b.personalInfo.Some? then b.personalInfo.value.github else None
    case LinkedIn => if b.personalInfo.Some? then b.personalInfo.value.linkedIn else None
    case Skills => if b.professional.Some? then b.professional.value.skills else None
    case ExperienceYears => if b.professional.Some? then b.professional.value.experienceYears else None
    case Summary => if b.professional.Some? then b.professional.value.summary else None
    case Domain => if b.professional.Some? then b.professional.value.domain else None
    case Project1 => if b.projects.Some? then b.projects.value.project1 else None
    case Project2 => if b.projects.Some? then b.projects.value.project2 else None
    case Exp1 => if b.experience.Some? then b.experience.value.exp1 else None
    case Exp2 => if b.experience.Some? then b.experience.value.exp2 else None
  }

  function EchoField(c: CleanBody, k: EchoKey): string {
    match k
    case Name => c.personalInfo.name
    case Email => c.personalInfo.email
    case Phone => c.personalInfo.phone
    case Location => c.personalInfo.location
    case Github => c.personalInfo.github
    case LinkedIn => c.personalInfo.linkedIn
    case Skills => c.professional.skills
    case ExperienceYears => c.professional.experienceYears
    case Summary => c.professional.summary
    case Domain => c.professional.domain
    case Project1 => c.projects.project1
    case Project2 => c.projects.project2
    case Exp1 => c.experience.exp1
    case Exp2 => c.experience.exp2
  }

  /** `v || ""` for a text field. */
  function OrEmpty(v: Field): string {
    if v.Some? && |v.value| > 0 then v.value else ""
  }

  /** `cleanedBody`: every echoed field is the received text, or "" where the key is missing. */
  function Sanitize(b: RawBody): (c: CleanBody)
    ensures forall k :: EchoField(c, k) == RawField(b, k).GetOr("")
  {
    CleanBody(
      CleanPersonal(
        OrEmpty(RawField(b, Name)), OrEmpty(RawField(b, Email)), OrEmpty(RawField(b, Phone)),
        OrEmpty(RawField(b, Location)), OrEmpty(RawField(b, Github)), OrEmpty(RawField(b, LinkedIn))),
      CleanProfessional(
        OrEmpty(RawField(b, Skills)), OrEmpty(RawField(b, ExperienceYears)),
        OrEmpty(RawField(b, Summary)), OrEmpty(RawField(b, Domain))),
      CleanProjects(OrEmpty(RawField(b, Project1)), OrEmpty(RawField(b, Project2))),
      CleanExperience(OrEmpty(RawField(b, Exp1)), OrEmpty(RawField(b, Exp2))))
  }

  // ---------------------------------------------------------------------------
  // JSON.stringify(cleanedBody, null, 2)
  // ---------------------------------------------------------------------------

  function HexDigit(d: nat): (c: char)
    requires d < 16
  {
    if d < 10 then DigitChar(d) else ('a' as int + d - 10) as char
  }

  /** How `JSON.stringify` writes one character inside a string literal. */
  function EscapeChar(c: char): string {
    if c == '"' then "\\\""
    else if c == '\\' then "\\\\"
    else if c == '\U{0008}' then "\\b"
    else if c == '\t' then "\\t"
    else if c == '\n' then "\\n"
    else if c == '\U{000C}' then "\\f"
    else if c == '\r' then "\\r"
    else if (c as int) < 0x20 then "\\u00" + [HexDigit(c as int / 16), HexDigit(c as int % 16)]
    else [c]
  }

  function EscapeText(s: string): string {
    if s == [] then [] else EscapeChar(s[0]) + EscapeText(s[1..])
  }

  /** A string as a JSON string literal. */
  function Quote(s: string): string {
    "\"" + EscapeText(s) + "\""
  }

  function HexValue(c: char): Option<nat> {
    if '0' <= c <= '9' then Some(c as int - '0' as int)
    else if 'a' <= c <= 'f' then Some(c as int - 'a' as int + 10)
    else if 'A' <= c <= 'F' then Some(c as int - 'A' as int + 10)
    else None
  }

  /** The character a `\uXXXX` escape stands for (surrogate halves are not decoded). */
  function UnicodeEscape(h: string): Option<char>
    requires |h| == 4
  {
    match (HexValue(h[0]), HexValue(h[1]), HexValue(h[2]), HexValue(h[3]))
    case (Some(a), Some(b), Some(c), Some(d)) =>
      var v := ((a * 16 + b) * 16 + c) * 16 + d;
      if v < 0xD800 || 0xE000 <= v < 0x10000 then Some(v as char) else None
    case _ => None
  }

  /** The character a two-character escape `\e` stands for. */
  function ShortEscape(e: char): Option<char> {
    if e == '"' then Some('"')
    else if e == '\\' then Some('\\')
    else if e == '/' then Some('/')
    else if e == 'b' then Some('\U{0008}')
    else if e == 'f' then Some('\U{000C}')
    else if e == 'n' then Some('\n')
    else if e == 'r' then Some('\r')
    else if e == 't' then Some('\t')
    else None
  }

  function Prepend(c: char, rest: Option<string>): Option<string> {
    match rest
    case Some(t) => Some([c] + t)
    case None => None
  }

  /** The text a JSON string literal's body denotes, or `None` when the body is malformed. */
  function UnescapeText(t: string): Option<string>
    decreases |t|
  {
    if t == [] then Some([])
    else if t[0] == '"' || (t[0] as int) < 0x20 then None
    else if t[0] != '\\' then Prepend(t[0], UnescapeText(t[1..]))
    else if |t| < 2 then None
    else if t[1] == 'u' then
      if |t| < 6 then None
      else match UnicodeEscape(t[2..6])
        case Some(c) => Prepend(c, UnescapeText(t[6..]))
        case None => None
    else match ShortEscape(t[1])
      case Some(c) => Prepend(c, UnescapeText(t[2..]))
      case None => None
  }

  lemma HexRoundTrip(d: nat)
    requires d < 16
    ensures HexValue(HexDigit(d)) == Some(d)
  {
  }

  lemma UnescapeEscapedChar(c: char, rest: string)
    ensures UnescapeText(EscapeChar(c) + rest) == Prepend(c, UnescapeText(rest))
  {
    var e := EscapeChar(c);
    var t := e + rest;
    if |e| == 1 {
      assert t[1..] == rest;
    } else if |e| == 2 {
      assert t[2..] == rest;
    } else {
      var n := c as int;
      HexRoundTrip(n / 16);
      HexRoundTrip(n % 16);
      assert t[2..6] == ['0', '0', HexDigit(n / 16), HexDigit(n % 16)];
      assert t[6..] == rest;
    }
  }

  /** Every text survives JSON string escaping: decoding the escaped form gives it back. */
  lemma {:induction false} EscapeRoundTrip(s: string)
    ensures UnescapeText(EscapeText(s)) == Some(s)
  {
    if s != [] {
      EscapeRoundTrip(s[1..]);
      UnescapeEscapedChar(s[0], EscapeText(s[1..]));
      assert [s[0]] + s[1..] == s;
    }
  }

  /** The members of an object, one per line at `indent`, separated by commas. */
  function MemberLines(indent: string, members: seq<(string, string)>): string
    requires members != []
    decreases |members|
  {
    var line := indent + Quote(members[0].0) + ": " + members[0].1;
    if |members| == 1 then line else line + ",\n" + MemberLines(indent, members[1..])
  }

  /** An object whose member values are already rendered, laid out with a two-space gap at nesting `indent`. */
  function ObjectText(indent: string, members: seq<(string, string)>): (r: string)
    ensures |r| >= 2 && r[0] == '{' && r[|r| - 1] == '}'
  {
    if members == [] then "{}" else "{\n" + MemberLines(indent + "  ", members) + "\n" + indent + "}"
  }

  /** The echo as `JSON.stringify(cleanedBody, null, 2)` writes it, keys in declaration order. */
  function EchoJson(c: CleanBody): string {
    ObjectText("", [
      ("personalInfo", ObjectText("  ", [
        ("name", Quote(c.personalInfo.name)),
        ("email", Quote(c.personalInfo.email)),
        ("phone", Quote(c.personalInfo.phone)),
        ("location", Quote(c.personalInfo.location)),
        ("github", Quote(c.personalInfo.github)),
        ("linkedIn", Quote(c.personalInfo.linkedIn))])),
      ("professional", ObjectText("  ", [
        ("skills", Quote(c.professional.skills)),
        ("experienceYears", Quote(c.professional.experienceYears)),
        ("summary", Quote(c.professional.summary)),
        ("domain", Quote(c.professional.domain))])),
      ("projects", ObjectText("  ", [
        ("project1", Quote(c.projects.project1)),
        ("project2", Quote(c.projects.project2))])),
      ("experience", ObjectText("  ", [
        ("exp1", Quote(c.experience.exp1)),
        ("exp2", Quote(c.experience.exp2))]))])
  }

  /** `head + x + middle + y + tail` holds `x` and `y` at the offsets the pieces before them add up to. */
  function Splice(head: string, x: string, middle: string, y: string, tail: string): (p: string)
    ensures OccursAt(p, x, |head|)
    ensures OccursAt(p, y, |head| + |x| + |middle|)
  {
    var p := head + x + middle + y + tail;
    assert p[|head|..|head| + |x|] == x;
    assert p[|head| + |x| + |middle|..|head| + |x| + |middle| + |y|] == y;
    p
  }

  /** The prompt: the fixed instructions with the guidance and the echo spliced in. */
  function BuildPrompt(guidance: string, echo: CleanBody): (p: string)
    ensures OccursAt(p, guidance, |PromptHead|)
    ensures OccursAt(p, EchoJson(echo), |PromptHead| + |guidance| + |PromptMiddle|)
  {
    Splice(PromptHead, guidance, PromptMiddle, EchoJson(echo), PromptTail)
  }

  /** The domain tag a body names. */
  function BodyDomain(b: RawBody): Field {
    if b.professional.Some? then b.professional.value.domain else None
  }

  /** The prompt sent for a request body. */
  function PromptFor(b: RawBody): string {
    BuildPrompt(DomainGuidance(BodyDomain(b)), Sanitize(b))
  }

  /** The prompt does not depend on `profileImage`: the image is never forwarded. */
  lemma ProfileImageNeverForwarded(b: RawBody, image: Field)
    requires b.personalInfo.Some?
    ensures PromptFor(b.(personalInfo := Some(b.personalInfo.value.(profileImage := image)))) == PromptFor(b)
  {
    var b' := b.(personalInfo := Some(b.personalInfo.value.(profileImage := image)));
    assert BodyDomain(b') == BodyDomain(b);
    assert Sanitize(b') == Sanitize(b);
  }
}
