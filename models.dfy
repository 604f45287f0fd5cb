/**
 * The pydantic records of the service (server/app/models.py) and the
 * validation pydantic performs when a record is built from parsed JSON:
 * a missing required field or a value of the wrong kind is refused, a
 * missing optional field takes its declared default, unknown keys are
 * ignored.
 */
module Models {
  import opened Wrappers
  import opened JsonText

  datatype Contact = Contact(
    email: Option<string>,
    phone: Option<string>,
    location: Option<string>,
    links: seq<string>)

  datatype Role = Role(
    title: string,
    company: string,
    start: Option<string>,
    end: Option<string>,
    bullets: seq<string>)

  datatype Project = Project(name: string, stack: seq<string>, bullets: seq<string>)

  datatype Education = Education(school: string, degree: string, period: string)

  datatype Profile = Profile(
    name: string,
    contacts: Contact,
    summary: string,
    skills: seq<string>,
    experience: seq<Role>,
    education: seq<Education>,
    projects: seq<Project>)

  /** The regions a job may name; "GL" is the global convention. */
  datatype Region = US | EU | GL

  datatype JobJD = JobJD(
    id: Option<string>,
    region: Region,
    company: string,
    title: string,
    jdText: string)

  datatype GenerateRequest = GenerateRequest(
    profile: Profile,
    jobs: seq<JobJD>,
    prefs: seq<(string, Json)>)

  datatype OutRole = OutRole(
    title: string,
    company: string,
    start: Option<string>,
    end: Option<string>,
    bullets: seq<string>)

  datatype OutResume = OutResume(
    summary: string,
    skillsLine: seq<string>,
    experience: seq<OutRole>,
    projects: seq<Project>,
    education: seq<Education>)

  datatype OutCoverLetter = OutCoverLetter(
    address: string,
    intro: string,
    whyYou: string,
    evidence: seq<string>,
    whyThem: string,
    close: string)

  datatype OutATS = OutATS(jdKeywordsMatched: seq<string>, risks: seq<string>)

  datatype LLMOutput = LLMOutput(resume: OutResume, coverLetter: OutCoverLetter, ats: OutATS)

  /** The literal a region is written as. */
  function RegionCode(r: Region): string {
    match r
    case US => "US"
    case EU => "EU"
    case GL => "GL"
  }

  const DefaultContact := Contact(Some(""), Some(""), Some(""), [])

  // ---------------------------------------------------------------------
  // Field validators
  // ---------------------------------------------------------------------

  function Fields(j: Json): Option<seq<(string, Json)>> {
    if j.JObj? then Some(j.fields) else None
  }

  function Str(j: Json): Option<string> {
    if j.JStr? then Some(j.s) else None
  }

  /** `Optional[str]`: a string or null. */
  function OptStr(j: Json): Option<Option<string>> {
    match j
    case JNull => Some(None)
    case JStr(s) => Some(Some(s))
    case _ => None
  }

  /** `List[str]`. */
  function StrList(j: Json): Option<seq<string>> {
    if j.JArr? && forall i :: 0 <= i < |j.items| ==> j.items[i].JStr? then
      Some(seq(|j.items|, i requires 0 <= i < |j.items| => j.items[i].s))
    else None
  }

  /** The JSON array of the given strings. */
  function StrArray(ss: seq<string>): Json {
    JArr(seq(|ss|, i requires 0 <= i < |ss| => JStr(ss[i])))
  }

  lemma StrListStrArray(ss: seq<string>)
    ensures StrList(StrArray(ss)) == Some(ss)
  {
    var items := StrArray(ss).items;
    assert seq(|items|, i requires 0 <= i < |items| => items[i].s) == ss;
  }

  /** `List[T]` for a record type `T` validated by `dec`. */
  function ListOf<T>(j: Json, dec: Json -> Option<T>): Option<seq<T>> {
    if j.JArr? && forall i :: 0 <= i < |j.items| ==> dec(j.items[i]).Some? then
      Some(seq(|j.items|, i requires 0 <= i < |j.items| => dec(j.items[i]).value))
    else None
  }

  /** A field declared without a default. */
  function Required<T>(f: seq<(string, Json)>, key: string, dec: Json -> Option<T>): (r: Option<T>)
    ensures r.Some? ==> key in Keys(f)
  {
    match Get(f, key)
    case None => None
    case Some(v) => dec(v)
  }

  /** A field declared with a default. */
  function Defaulted<T>(f: seq<(string, Json)>, key: string, dec: Json -> Option<T>, default: T): (r: Option<T>)
    ensures key !in Keys(f) ==> r == Some(default)
  {
    match Get(f, key)
    case None => Some(default)
    case Some(v) => dec(v)
  }

  /** `Literal["US", "EU", "GL"]`. */
  function RegionLiteral(j: Json): (r: Option<Region>)
    ensures r.Some? <==> j in {JStr("US"), JStr("EU"), JStr("GL")}
    ensures r.Some? ==> j == JStr(RegionCode(r.value))
  {
    if j == JStr("US") then Some(US)
    else if j == JStr("EU") then Some(EU)
    else if j == JStr("GL") then Some(GL)
    else None
  }

  // ---------------------------------------------------------------------
  // Records
  // ---------------------------------------------------------------------

  function DecodeContact(j: Json): Option<Contact> {
    var f :- Fields(j);
    var email :- Defaulted(f, "email", OptStr, Some(""));
    var phone :- Defaulted(f, "phone", OptStr, Some(""));
    var location :- Defaulted(f, "location", OptStr, Some(""));
    var links :- Defaulted(f, "links", StrList, []);
    Some(Contact(email, phone, location, links))
  }

  function DecodeRole(j: Json): (r: Option<Role>)
    ensures r.Some? ==> j.JObj? && "title" in Keys(j.fields) && "company" in Keys(j.fields)
    ensures r.Some? && "start" !in Keys(j.fields) ==> r.value.start == Some("")
    ensures r.Some? && "end" !in Keys(j.fields) ==> r.value.end == Some("")
    ensures r.Some? && "bullets" !in Keys(j.fields) ==> r.value.bullets == []
  {
    var f :- Fields(j);
    var title :- Required(f, "title", Str);
    var company :- Required(f, "company", Str);
    var start :- Defaulted(f, "start", OptStr, Some(""));
    var end :- Defaulted(f, "end", OptStr, Some(""));
    var bullets :- Defaulted(f, "bullets", StrList, []);
    Some(Role(title, company, start, end, bullets))
  }

  function DecodeProject(j: Json): (r: Option<Project>)
    ensures r.Some? ==> j.JObj? && "name" in Keys(j.fields)
  {
    var f :- Fields(j);
    var name :- Required(f, "name", Str);
    var stack :- Defaulted(f, "stack", StrList, []);
    var bullets :- Defaulted(f, "bullets", StrList, []);
    Some(Project(name, stack, bullets))
  }

  function DecodeEducation(j: Json): (r: Option<Education>)
    ensures r.Some? ==> j.JObj? && "school" in Keys(j.fields)
  {
    var f :- Fields(j);
    var school :- Required(f, "school", Str);
    var degree :- Defaulted(f, "degree", Str, "");
    var period :- Defaulted(f, "period", Str, "");
    Some(Education(school, degree, period))
  }

  function DecodeProfile(j: Json): (r: Option<Profile>)
    ensures r.Some? ==> j.JObj? && "name" in Keys(j.fields)
  {
    var f :- Fields(j);
    var name :- Required(f, "name", Str);
    var contacts :- Defaulted(f, "contacts", DecodeContact, DefaultContact);
    var summary :- Defaulted(f, "summary", Str, "");
    var skills :- Defaulted(f, "skills", StrList, []);
    var experience :- Defaulted(f, "experience", j => ListOf(j, DecodeRole), []);
    var education :- Defaulted(f, "education", j => ListOf(j, DecodeEducation), []);
    var projects :- Defaulted(f, "projects", j => ListOf(j, DecodeProject), []);
    Some(Profile(name, contacts, summary, skills, experience, education, projects))
  }

  function DecodeJobJD(j: Json): (r: Option<JobJD>)
    ensures r.Some? ==> (j.JObj?
      && "company" in Keys(j.fields) && "title" in Keys(j.fields) && "jd_text" in Keys(j.fields))
    ensures r.Some? ==>
      if "region" in Keys(j.fields) then Get(j.fields, "region") == Some(JStr(RegionCode(r.value.region)))
      else r.value.region == US
    ensures r.Some? && "id" !in Keys(j.fields) ==> r.value.id == None
  {
    var f :- Fields(j);
    var id :- Defaulted(f, "id", OptStr, None);
    var region :- Defaulted(f, "region", RegionLiteral, US);
    var company :- Required(f, "company", Str);
    var title :- Required(f, "title", Str);
    var jdText :- Required(f, "jd_text", Str);
    Some(JobJD(id, region, company, title, jdText))
  }

  function DecodeGenerateRequest(j: Json): (r: Option<GenerateRequest>)
    ensures r.Some? ==> j.JObj? && "profile" in Keys(j.fields) && "jobs" in Keys(j.fields)
  {
    var f :- Fields(j);
    var profile :- Required(f, "profile", DecodeProfile);
    var jobs :- Required(f, "jobs", j => ListOf(j, DecodeJobJD));
    var prefs :- Defaulted(f, "prefs", Fields, []);
    Some(GenerateRequest(profile, jobs, prefs))
  }

  function DecodeOutRole(j: Json): (r: Option<OutRole>)
    ensures r.Some? ==> (j.JObj?
      && "title" in Keys(j.fields) && "company" in Keys(j.fields) && "bullets" in Keys(j.fields))
    ensures r.Some? && "start" !in Keys(j.fields) ==> r.value.start == Some("")
    ensures r.Some? && "end" !in Keys(j.fields) ==> r.value.end == Some("")
  {
    var f :- Fields(j);
    var title :- Required(f, "title", Str);
    var company :- Required(f, "company", Str);
    var start :- Defaulted(f, "start", OptStr, Some(""));
    var end :- Defaulted(f, "end", OptStr, Some(""));
    var bullets :- Required(f, "bullets", StrList);
    Some(OutRole(title, company, start, end, bullets))
  }

  function DecodeOutResume(j: Json): (r: Option<OutResume>)
    ensures r.Some? ==> (j.JObj?
      && "summary" in Keys(j.fields) && "skills_line" in Keys(j.fields) && "experience" in Keys(j.fields))
    ensures r.Some? && "projects" !in Keys(j.fields) ==> r.value.projects == []
    ensures r.Some? && "education" !in Keys(j.fields) ==> r.value.education == []
  {
    var f :- Fields(j);
    var summary :- Required(f, "summary", Str);
    var skillsLine :- Required(f, "skills_line", StrList);
    var experience :- Required(f, "experience", j => ListOf(j, DecodeOutRole));
    var projects :- Defaulted(f, "projects", j => ListOf(j, DecodeProject), []);
    var education :- Defaulted(f, "education", j => ListOf(j, DecodeEducation), []);
    Some(OutResume(summary, skillsLine, experience, projects, education))
  }

  function DecodeOutCoverLetter(j: Json): (r: Option<OutCoverLetter>)
    ensures r.Some? ==> (j.JObj?
      && "address" in Keys(j.fields) && "intro" in Keys(j.fields) && "why_you" in Keys(j.fields)
      && "evidence" in Keys(j.fields) && "why_them" in Keys(j.fields) && "close" in Keys(j.fields))
  {
    var f :- Fields(j);
    var address :- Required(f, "address", Str);
    var intro :- Required(f, "intro", Str);
    var whyYou :- Required(f, "why_you", Str);
    var evidence :- Required(f, "evidence", StrList);
    var whyThem :- Required(f, "why_them", Str);
    var close :- Required(f, "close", Str);
    Some(OutCoverLetter(address, intro, whyYou, evidence, whyThem, close))
  }

  function DecodeOutATS(j: Json): (r: Option<OutATS>)
    ensures j.JObj? && "jd_keywords_matched" !in Keys(j.fields) && "risks" !in Keys(j.fields)
      ==> r == Some(OutATS([], []))
  {
    var f :- Fields(j);
    var matched :- Defaulted(f, "jd_keywords_matched", StrList, []);
    var risks :- Defaulted(f, "risks", StrList, []);
    Some(OutATS(matched, risks))
  }

  /** `LLMOutput(**data)`: fails unless `data` is an object holding the three parts. */
  function DecodeLLMOutput(j: Json): (r: Option<LLMOutput>)
    ensures r.Some? ==> (j.JObj?
      && "resume" in Keys(j.fields) && "cover_letter" in Keys(j.fields) && "ats" in Keys(j.fields))
  {
    var f :- Fields(j);
    var resume :- Required(f, "resume", DecodeOutResume);
    var coverLetter :- Required(f, "cover_letter", DecodeOutCoverLetter);
    var ats :- Required(f, "ats", DecodeOutATS);
    Some(LLMOutput(resume, coverLetter, ats))
  }

  // ---------------------------------------------------------------------
  // Defaults
  // ---------------------------------------------------------------------

  /** A role given only its title and company gets empty dates and no bullets. */
  lemma RoleDefaults(title: string, company: string)
    ensures DecodeRole(JObj([("title", JStr(title)), ("company", JStr(company))]))
         == Some(Role(title, company, Some(""), Some(""), []))
  {
    var f := [("title", JStr(title)), ("company", JStr(company))];
    GetUnique(f, 0, "title");
    GetUnique(f, 1, "company");
    GetAbsent(f, "start");
    GetAbsent(f, "end");
    GetAbsent(f, "bullets");
  }

  /** Only the name of a profile is required; every other part starts empty. */
  lemma ProfileDefaults(name: string)
    ensures DecodeProfile(JObj([("name", JStr(name))]))
         == Some(Profile(name, DefaultContact, "", [], [], [], []))
  {
    var f := [("name", JStr(name))];
    GetUnique(f, 0, "name");
    GetAbsent(f, "contacts");
    GetAbsent(f, "summary");
    GetAbsent(f, "skills");
    GetAbsent(f, "experience");
    GetAbsent(f, "education");
    GetAbsent(f, "projects");
  }

  /** A job that names no region or id targets the US and has no id. */
  lemma JobDefaults(company: string, title: string, jd: string)
    ensures DecodeJobJD(JObj([("company", JStr(company)), ("title", JStr(title)), ("jd_text", JStr(jd))]))
         == Some(JobJD(None, US, company, title, jd))
  {
    var f := [("company", JStr(company)), ("title", JStr(title)), ("jd_text", JStr(jd))];
    GetUnique(f, 0, "company");
    GetUnique(f, 1, "title");
    GetUnique(f, 2, "jd_text");
    GetAbsent(f, "id");
    GetAbsent(f, "region");
  }

  /** A region outside US, EU and GL makes the job invalid. */
  lemma JobRejectsUnknownRegion(f: seq<(string, Json)>, code: string)
    requires Get(f, "region") == Some(JStr(code))
    requires code !in {"US", "EU", "GL"}
    ensures DecodeJobJD(JObj(f)) == None
  {
  }

  /** An output role without bullets is invalid, while missing dates default to empty. */
  lemma OutRoleNeedsBullets(title: string, company: string, bullets: seq<string>)
    ensures DecodeOutRole(JObj([("title", JStr(title)), ("company", JStr(company))])) == None
    ensures DecodeOutRole(JObj([("title", JStr(title)), ("company", JStr(company)), ("bullets", StrArray(bullets))]))
         == Some(OutRole(title, company, Some(""), Some(""), bullets))
  {
    var f := [("title", JStr(title)), ("company", JStr(company))];
    GetUnique(f, 0, "title");
    GetUnique(f, 1, "company");
    GetAbsent(f, "start");
    GetAbsent(f, "end");
    GetAbsent(f, "bullets");
    var g := [("title", JStr(title)), ("company", JStr(company)), ("bullets", StrArray(bullets))];
    GetUnique(g, 0, "title");
    GetUnique(g, 1, "company");
    GetUnique(g, 2, "bullets");
    GetAbsent(g, "start");
    GetAbsent(g, "end");
    StrListStrArray(bullets);
  }
}
