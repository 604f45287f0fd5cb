/**
 * The generation step (server/app/core/llm.py): the fixed instruction text,
 * the response schema handed to the generation service, the user prompt and
 * the guarded call to the service. The service client itself is a function
 * parameter: it gets the API key and the request text and answers with the
 * response text (possibly absent) or an error message.
 */
module Llm {
  import opened Wrappers
  import opened JsonText
  import opened Models
  import Strings

  /** Python string literals written side by side are joined without any separator. */
  const System: string :=
    "You are an expert ATS resume & cover-letter tailor"
    + "Return ONLY valid JSON for the given schema"
    + "Never invent companies, schools, or dates"
    + "Use exact JD Keyowrds only when truthful"
    + "Respect region style rules. Keep concise, metric-first quantitative bullets, each bullet also flowing in the oder <action -> impactful result>"

  // ---------------------------------------------------------------------
  // Response schema
  // ---------------------------------------------------------------------

  datatype SchemaType = ObjectType | ArrayType | StringType

  datatype Schema = Schema(
    kind: SchemaType,
    required: seq<string>,
    properties: seq<(string, Schema)>,
    items: Option<Schema>)

  const Text := Schema(StringType, [], [], None)
  const TextList := Schema(ArrayType, [], [], Some(Text))

  function ArrayOf(s: Schema): Schema {
    Schema(ArrayType, [], [], Some(s))
  }

  const OutRoleSchema := Schema(ObjectType, ["title", "company", "bullets"],
    [("title", Text), ("company", Text), ("start", Text), ("end", Text), ("bullets", TextList)], None)

  const ProjectSchema := Schema(ObjectType, [],
    [("name", Text), ("stack", TextList), ("bullets", TextList)], None)

  const EducationSchema := Schema(ObjectType, [],
    [("school", Text), ("degree", Text), ("period", Text)], None)

  const ResumeSchema := Schema(ObjectType, ["summary", "skills_line", "experience", "projects", "education"],
    [("summary", Text), ("skills_line", TextList), ("experience", ArrayOf(OutRoleSchema)),
     ("projects", ArrayOf(ProjectSchema)), ("education", ArrayOf(EducationSchema))], None)

  const CoverLetterSchema := Schema(ObjectType, ["address", "intro", "why_you", "evidence", "why_them", "close"],
    [("address", Text), ("intro", Text), ("why_you", Text), ("evidence", TextList),
     ("why_them", Text), ("close", Text)], None)

  const AtsSchema := Schema(ObjectType, ["jd_keywords_matched", "risks"],
    [("jd_keywords_matched", TextList), ("risks", TextList)], None)

  /** `OUTPUT_JSON_SCHEMA` as written. */
  const OutputSchema := Schema(ObjectType, ["resume", "cover_letter", "ats"],
    [("resume", ResumeSchema), ("cover_letter", CoverLetterSchema), ("ats", AtsSchema)], None)

  /**
   * A JSON value conforms to a schema: it has the schema's type, an object
   * has every required key, and every property that is present conforms to
   * its own schema. Keys the schema does not mention are allowed.
   */
  predicate Conforms(s: Schema, j: Json)
    decreases s
  {
    match s.kind
    case StringType => j.JStr?
    case ArrayType =>
      j.JArr? && (s.items.Some? ==> forall i :: 0 <= i < |j.items| ==> Conforms(s.items.value, j.items[i]))
    case ObjectType =>
      && j.JObj?
      && (forall k :: k in s.required ==> k in Keys(j.fields))
      && (forall p :: 0 <= p < |s.properties| ==>
            (s.properties[p].0 in Keys(j.fields) ==>
               Conforms(s.properties[p].1, Get(j.fields, s.properties[p].0).value)))
  }

  predicate HasKeys(j: Json, keys: set<string>) {
    j.JObj? && keys <= Keys(j.fields)
  }

  /**
   * The required keys of the response, level by level, written out
   * independently of the schema value.
   */
  predicate HasRequiredOutputKeys(j: Json) {
    && HasKeys(j, {"resume", "cover_letter", "ats"})
    && var resume := Get(j.fields, "resume").value;
    && HasKeys(resume, {"summary", "skills_line", "experience", "projects", "education"})
    && var experience := Get(resume.fields, "experience").value;
    && experience.JArr?
    && (forall i :: 0 <= i < |experience.items| ==>
          HasKeys(experience.items[i], {"title", "company", "bullets"}))
    && HasKeys(Get(j.fields, "cover_letter").value,
               {"address", "intro", "why_you", "evidence", "why_them", "close"})
    && HasKeys(Get(j.fields, "ats").value, {"jd_keywords_matched", "risks"})
  }

  /** What conformance says about the `p`-th property of an object schema. */
  lemma PropertyConforms(s: Schema, j: Json, p: nat)
    requires s.kind == ObjectType && Conforms(s, j) && p < |s.properties|
    ensures j.JObj?
    ensures s.properties[p].0 in s.required ==> s.properties[p].0 in Keys(j.fields)
    ensures s.properties[p].0 in Keys(j.fields) ==>
      Conforms(s.properties[p].1, Get(j.fields, s.properties[p].0).value)
  {
  }

  lemma RequiredPresent(s: Schema, j: Json, k: string)
    requires s.kind == ObjectType && Conforms(s, j) && k in s.required
    ensures j.JObj? && k in Keys(j.fields)
  {
  }

  lemma ExperienceHasRequiredKeys(e: Json)
    requires Conforms(ArrayOf(OutRoleSchema), e)
    ensures e.JArr?
    ensures forall i :: 0 <= i < |e.items| ==> HasKeys(e.items[i], {"title", "company", "bullets"})
  {
    forall i | 0 <= i < |e.items|
      ensures HasKeys(e.items[i], {"title", "company", "bullets"})
    {
      var x := e.items[i];
      assert Conforms(OutRoleSchema, x);
      RequiredPresent(OutRoleSchema, x, "title");
      RequiredPresent(OutRoleSchema, x, "company");
      RequiredPresent(OutRoleSchema, x, "bullets");
    }
  }

  lemma ResumeHasRequiredKeys(r: Json)
    requires Conforms(ResumeSchema, r)
    ensures HasKeys(r, {"summary", "skills_line", "experience", "projects", "education"})
    ensures Conforms(ArrayOf(OutRoleSchema), Get(r.fields, "experience").value)
  {
    RequiredPresent(ResumeSchema, r, "summary");
    RequiredPresent(ResumeSchema, r, "skills_line");
    RequiredPresent(ResumeSchema, r, "experience");
    RequiredPresent(ResumeSchema, r, "projects");
    RequiredPresent(ResumeSchema, r, "education");
    PropertyConforms(ResumeSchema, r, 2);
  }

  lemma CoverLetterHasRequiredKeys(c: Json)
    requires Conforms(CoverLetterSchema, c)
    ensures HasKeys(c, {"address", "intro", "why_you", "evidence", "why_them", "close"})
  {
    RequiredPresent(CoverLetterSchema, c, "address");
    RequiredPresent(CoverLetterSchema, c, "intro");
    RequiredPresent(CoverLetterSchema, c, "why_you");
    RequiredPresent(CoverLetterSchema, c, "evidence");
    RequiredPresent(CoverLetterSchema, c, "why_them");
    RequiredPresent(CoverLetterSchema, c, "close");
  }

  lemma AtsHasRequiredKeys(a: Json)
    requires Conforms(AtsSchema, a)
    ensures HasKeys(a, {"jd_keywords_matched", "risks"})
  {
    RequiredPresent(AtsSchema, a, "jd_keywords_matched");
    RequiredPresent(AtsSchema, a, "risks");
  }

  /**
   * A response that conforms to the schema carries every required key at
   * every level: resume, cover_letter and ats at the top; the five resume
   * parts; title, company and bullets in each experience entry; the six
   * cover-letter parts; the two ats lists.
   */
  lemma ConformingOutputHasRequiredKeys(j: Json)
    requires Conforms(OutputSchema, j)
    ensures HasRequiredOutputKeys(j)
  {
    RequiredPresent(OutputSchema, j, "resume");
    RequiredPresent(OutputSchema, j, "cover_letter");
    RequiredPresent(OutputSchema, j, "ats");
    PropertyConforms(OutputSchema, j, 0);
    PropertyConforms(OutputSchema, j, 1);
    PropertyConforms(OutputSchema, j, 2);
    var resume := Get(j.fields, "resume").value;
    ResumeHasRequiredKeys(resume);
    ExperienceHasRequiredKeys(Get(resume.fields, "experience").value);
    CoverLetterHasRequiredKeys(Get(j.fields, "cover_letter").value);
    AtsHasRequiredKeys(Get(j.fields, "ats").value);
  }

  /** A response without `resume`, `cover_letter` or `ats` does not conform. */
  lemma MissingTopLevelKeyRejected(j: Json, key: string)
    requires key in {"resume", "cover_letter", "ats"}
    requires j.JObj? ==> key !in Keys(j.fields)
    ensures !Conforms(OutputSchema, j)
  {
    if Conforms(OutputSchema, j) {
      ConformingOutputHasRequiredKeys(j);
    }
  }

  // ---------------------------------------------------------------------
  // Schema against the output records
  // ---------------------------------------------------------------------

  lemma ArrayDecodes<T>(s: Schema, j: Json, dec: Json -> Option<T>)
    requires Conforms(ArrayOf(s), j)
    requires forall x :: Conforms(s, x) ==> dec(x).Some?
    ensures ListOf(j, dec).Some?
  {
    assert forall i :: 0 <= i < |j.items| ==> Conforms(s, j.items[i]);
  }

  lemma OutRoleDecodes(j: Json)
    requires Conforms(OutRoleSchema, j)
    ensures DecodeOutRole(j).Some?
  {
    var f := j.fields;
    PropertyConforms(OutRoleSchema, j, 0);
    PropertyConforms(OutRoleSchema, j, 1);
    PropertyConforms(OutRoleSchema, j, 2);
    PropertyConforms(OutRoleSchema, j, 3);
    PropertyConforms(OutRoleSchema, j, 4);
  }

  lemma CoverLetterDecodes(j: Json)
    requires Conforms(CoverLetterSchema, j)
    ensures DecodeOutCoverLetter(j).Some?
  {
    PropertyConforms(CoverLetterSchema, j, 0);
    PropertyConforms(CoverLetterSchema, j, 1);
    PropertyConforms(CoverLetterSchema, j, 2);
    PropertyConforms(CoverLetterSchema, j, 3);
    PropertyConforms(CoverLetterSchema, j, 4);
    PropertyConforms(CoverLetterSchema, j, 5);
  }

  lemma AtsDecodes(j: Json)
    requires Conforms(AtsSchema, j)
    ensures DecodeOutATS(j).Some?
  {
    PropertyConforms(AtsSchema, j, 0);
    PropertyConforms(AtsSchema, j, 1);
  }

  /**
   * The schema does not require a project's name, while the Project record
   * does: a response that conforms to the schema as written can still be
   * refused when the record is built.
   */
  lemma NamelessProjectConformsButIsRefused()
    ensures Conforms(ProjectSchema, JObj([]))
    ensures DecodeProject(JObj([])) == None
  {
    assert Conforms(ProjectSchema, JObj([]));
  }

  const FixedProjectSchema := Schema(ObjectType, ["name"],
    [("name", Text), ("stack", TextList), ("bullets", TextList)], None)

  const FixedEducationSchema := Schema(ObjectType, ["school"],
    [("school", Text), ("degree", Text), ("period", Text)], None)

  const FixedResumeSchema := Schema(ObjectType, ["summary", "skills_line", "experience", "projects", "education"],
    [("summary", Text), ("skills_line", TextList), ("experience", ArrayOf(OutRoleSchema)),
     ("projects", ArrayOf(FixedProjectSchema)), ("education", ArrayOf(FixedEducationSchema))], None)

  /** The schema with the project name and the school required, as the records demand. */
  const FixedOutputSchema := Schema(ObjectType, ["resume", "cover_letter", "ats"],
    [("resume", FixedResumeSchema), ("cover_letter", CoverLetterSchema), ("ats", AtsSchema)], None)

  lemma FixedProjectDecodes(j: Json)
    requires Conforms(FixedProjectSchema, j)
    ensures DecodeProject(j).Some?
  {
    PropertyConforms(FixedProjectSchema, j, 0);
    PropertyConforms(FixedProjectSchema, j, 1);
    PropertyConforms(FixedProjectSchema, j, 2);
  }

  lemma FixedEducationDecodes(j: Json)
    requires Conforms(FixedEducationSchema, j)
    ensures DecodeEducation(j).Some?
  {
    PropertyConforms(FixedEducationSchema, j, 0);
    PropertyConforms(FixedEducationSchema, j, 1);
    PropertyConforms(FixedEducationSchema, j, 2);
  }

  lemma FixedResumeDecodes(j: Json)
    requires Conforms(FixedResumeSchema, j)
    ensures DecodeOutResume(j).Some?
  {
    var f := j.fields;
    PropertyConforms(FixedResumeSchema, j, 0);
    PropertyConforms(FixedResumeSchema, j, 1);
    PropertyConforms(FixedResumeSchema, j, 2);
    PropertyConforms(FixedResumeSchema, j, 3);
    PropertyConforms(FixedResumeSchema, j, 4);
    forall x | Conforms(OutRoleSchema, x) ensures DecodeOutRole(x).Some? {
      OutRoleDecodes(x);
    }
    forall x | Conforms(FixedProjectSchema, x) ensures DecodeProject(x).Some? {
      FixedProjectDecodes(x);
    }
    forall x | Conforms(FixedEducationSchema, x) ensures DecodeEducation(x).Some? {
      FixedEducationDecodes(x);
    }
    ArrayDecodes(OutRoleSchema, Get(f, "experience").value, DecodeOutRole);
    if "projects" in Keys(f) {
      ArrayDecodes(FixedProjectSchema, Get(f, "projects").value, DecodeProject);
    }
    if "education" in Keys(f) {
      ArrayDecodes(FixedEducationSchema, Get(f, "education").value, DecodeEducation);
    }
  }

  /** Every response that conforms to the corrected schema builds an LLMOutput record. */
  lemma FixedSchemaOutputDecodes(j: Json)
    requires Conforms(FixedOutputSchema, j)
    ensures DecodeLLMOutput(j).Some?
  {
    PropertyConforms(FixedOutputSchema, j, 0);
    PropertyConforms(FixedOutputSchema, j, 1);
    PropertyConforms(FixedOutputSchema, j, 2);
    FixedResumeDecodes(Get(j.fields, "resume").value);
    CoverLetterDecodes(Get(j.fields, "cover_letter").value);
    AtsDecodes(Get(j.fields, "ats").value);
  }

  // ---------------------------------------------------------------------
  // Prompt
  // ---------------------------------------------------------------------

  function Section(heading: string, content: string): string {
    heading + ":\n" + content + "\n\n"
  }

  /** `build_user_prompt`: five labelled sections in a fixed order and a closing directive. */
  function BuildUserPrompt(profileMinJson: string, jdText: string, regionRules: Json,
                           selectedBulletsJson: string, schemaJson: string): string
  {
    Section("REGION_RULES", Dumps(regionRules))
    + Section("PROFILE_MIN", profileMinJson)
    + Section("JD_TEXT", jdText)
    + Section("PRESELECTED_PROFILE_BULLETS", selectedBulletsJson)
    + Section("SCHEMA (immutable)", schemaJson)
    + "Return JSON only."
  }

  /** The text before the first line break. */
  function FirstLine(s: string): string {
    if s == [] || s[0] == '\n' then [] else [s[0]] + FirstLine(s[1..])
  }

  lemma {:induction false} FirstLineOf(a: string, b: string)
    requires '\n' !in a
    ensures FirstLine(a + "\n" + b) == a
  {
    if a != [] {
      FirstLineOf(a[1..], b);
      assert (a + "\n" + b)[1..] == a[1..] + "\n" + b;
    }
  }

  /** The region rules as a prompt reader finds them: the second line of the prompt. */
  function RegionRulesLine(prompt: string): string {
    var n := FirstLine(prompt);
    if |n| < |prompt| then FirstLine(prompt[|n| + 1..]) else ""
  }

  lemma DumpsHasNoLineBreak(j: Json)
    ensures '\n' !in Dumps(j)
  {
    DumpsSingleLine(j);
    assert forall i :: 0 <= i < |Dumps(j)| ==> Dumps(j)[i] != '\n';
  }

  lemma SecondLine(h: string, d: string, tail: string)
    requires '\n' !in h && '\n' !in d
    ensures FirstLine(h + "\n" + (d + "\n" + tail)) == h
    ensures RegionRulesLine(h + "\n" + (d + "\n" + tail)) == d
  {
    var r := h + "\n" + (d + "\n" + tail);
    FirstLineOf(h, d + "\n" + tail);
    assert r[|h| + 1..] == d + "\n" + tail;
    FirstLineOf(d, tail);
  }

  /**
   * The prompt opens with the REGION_RULES label, and its second line is the
   * serialized rules, which never span more than one line.
   */
  lemma PromptRegionRulesLine(profileMinJson: string, jdText: string, regionRules: Json,
                              selectedBulletsJson: string, schemaJson: string)
    ensures var r := BuildUserPrompt(profileMinJson, jdText, regionRules, selectedBulletsJson, schemaJson);
      FirstLine(r) == "REGION_RULES:" && RegionRulesLine(r) == Dumps(regionRules)
  {
    var d := Dumps(regionRules);
    var rest := Section("PROFILE_MIN", profileMinJson) + Section("JD_TEXT", jdText)
      + Section("PRESELECTED_PROFILE_BULLETS", selectedBulletsJson)
      + Section("SCHEMA (immutable)", schemaJson) + "Return JSON only.";
    assert BuildUserPrompt(profileMinJson, jdText, regionRules, selectedBulletsJson, schemaJson)
        == Section("REGION_RULES", d) + rest;
    DumpsHasNoLineBreak(regionRules);
    assert '\n' !in "REGION_RULES:";
    OpeningSectionLines("REGION_RULES:", "REGION_RULES", d, rest);
  }

  /** A text opening with a one-line section has the heading as first line and the content as second. */
  lemma OpeningSectionLines(line: string, h: string, d: string, rest: string)
    requires line == h + ":" && '\n' !in line && '\n' !in d
    ensures FirstLine(Section(h, d) + rest) == line
    ensures RegionRulesLine(Section(h, d) + rest) == d
  {
    assert h + ":\n" == line + "\n";
    assert "\n\n" + rest == "\n" + ("\n" + rest);
    calc {
      Section(h, d) + rest;
      (line + "\n") + d + "\n\n" + rest;
      line + "\n" + (d + ("\n\n" + rest));
      line + "\n" + (d + ("\n" + ("\n" + rest)));
      line + "\n" + (d + "\n" + ("\n" + rest));
    }
    SecondLine(line, d, "\n" + rest);
  }

  /** The section labels of the prompt, spelt as single literals. */
  lemma SectionLabels()
    ensures "PROFILE_MIN:\n" == "PROFILE_MIN" + ":\n"
    ensures "\n\nJD_TEXT:\n" == "\n\n" + "JD_TEXT" + ":\n"
    ensures "JD_TEXT:\n" == "JD_TEXT" + ":\n"
    ensures "\n\nSCHEMA (immutable):\n" == "\n\n" + "SCHEMA (immutable)" + ":\n"
    ensures "SCHEMA (immutable):\n" == "SCHEMA (immutable)" + ":\n"
    ensures "\n\nReturn JSON only." == "\n\n" + "Return JSON only."
  {
  }

  /** The label of the selected bullets, spelt as single literals. */
  lemma BulletsLabels()
    ensures "\n\nPRESELECTED_PROFILE_BULLETS:\n" == "\n\n" + "PRESELECTED_PROFILE_BULLETS" + ":\n"
    ensures "PRESELECTED_PROFILE_BULLETS:\n" == "PRESELECTED_PROFILE_BULLETS" + ":\n"
  {
  }

  /**
   * A section followed by another: its content comes right after its label,
   * and the next section's label comes right after the content.
   */
  lemma SectionAt(a: string, h1: string, c1: string, h2: string, c2: string, z: string,
                  lead: string, next: string)
    requires lead == h1 + ":\n" && next == "\n\n" + h2 + ":\n"
    ensures Strings.OccursAt(a + Section(h1, c1) + Section(h2, c2) + z, lead + c1 + next, |a|)
    ensures (a + Section(h1, c1) + Section(h2, c2) + z)[|a| + |lead|..|a| + |lead| + |c1|] == c1
  {
    var m := lead + c1 + next;
    TwoSections(a, h1, c1, h2, c2, z);
    InfixAt(a, m, c2 + "\n\n" + z);
    assert m[|lead|..|lead| + |c1|] == c1;
  }

  /**
   * The profile's JSON appears unchanged right after its label, which follows
   * the region rules section, and is followed by the label of the job text.
   */
  lemma PromptProfileMin(profileMinJson: string, jdText: string, regionRules: Json,
                         selectedBulletsJson: string, schemaJson: string)
    ensures var r := BuildUserPrompt(profileMinJson, jdText, regionRules, selectedBulletsJson, schemaJson);
      var at := |Section("REGION_RULES", Dumps(regionRules))|;
      && Strings.OccursAt(r, "PROFILE_MIN:\n" + profileMinJson + "\n\nJD_TEXT:\n", at)
      && r[at + 13..at + 13 + |profileMinJson|] == profileMinJson
  {
    var a := Section("REGION_RULES", Dumps(regionRules));
    var z := Section("PRESELECTED_PROFILE_BULLETS", selectedBulletsJson)
      + Section("SCHEMA (immutable)", schemaJson) + "Return JSON only.";
    assert BuildUserPrompt(profileMinJson, jdText, regionRules, selectedBulletsJson, schemaJson)
        == a + Section("PROFILE_MIN", profileMinJson) + Section("JD_TEXT", jdText) + z;
    SectionLabels();
    SectionAt(a, "PROFILE_MIN", profileMinJson, "JD_TEXT", jdText, z, "PROFILE_MIN:\n", "\n\nJD_TEXT:\n");
  }

  /**
   * The job text appears unchanged right after its label, followed by the
   * label of the selected bullets.
   */
  lemma PromptJdText(profileMinJson: string, jdText: string, regionRules: Json,
                     selectedBulletsJson: string, schemaJson: string)
    ensures var r := BuildUserPrompt(profileMinJson, jdText, regionRules, selectedBulletsJson, schemaJson);
      var at := |Section("REGION_RULES", Dumps(regionRules)) + Section("PROFILE_MIN", profileMinJson)|;
      && Strings.OccursAt(r, "JD_TEXT:\n" + jdText + "\n\nPRESELECTED_PROFILE_BULLETS:\n", at)
      && r[at + 9..at + 9 + |jdText|] == jdText
  {
    var a := Section("REGION_RULES", Dumps(regionRules)) + Section("PROFILE_MIN", profileMinJson);
    var z := Section("SCHEMA (immutable)", schemaJson) + "Return JSON only.";
    assert BuildUserPrompt(profileMinJson, jdText, regionRules, selectedBulletsJson, schemaJson)
        == a + Section("JD_TEXT", jdText) + Section("PRESELECTED_PROFILE_BULLETS", selectedBulletsJson) + z;
    SectionLabels();
    BulletsLabels();
    SectionAt(a, "JD_TEXT", jdText, "PRESELECTED_PROFILE_BULLETS", selectedBulletsJson, z,
              "JD_TEXT:\n", "\n\nPRESELECTED_PROFILE_BULLETS:\n");
  }

  /**
   * The selected bullets appear unchanged right after their label, followed by
   * the label of the schema.
   */
  lemma PromptSelectedBullets(profileMinJson: string, jdText: string, regionRules: Json,
                              selectedBulletsJson: string, schemaJson: string)
    ensures var r := BuildUserPrompt(profileMinJson, jdText, regionRules, selectedBulletsJson, schemaJson);
      var at := |Section("REGION_RULES", Dumps(regionRules)) + Section("PROFILE_MIN", profileMinJson)
                 + Section("JD_TEXT", jdText)|;
      && Strings.OccursAt(r, "PRESELECTED_PROFILE_BULLETS:\n" + selectedBulletsJson + "\n\nSCHEMA (immutable):\n", at)
      && r[at + 29..at + 29 + |selectedBulletsJson|] == selectedBulletsJson
  {
    var a := Section("REGION_RULES", Dumps(regionRules)) + Section("PROFILE_MIN", profileMinJson)
      + Section("JD_TEXT", jdText);
    var z := "Return JSON only.";
    SectionLabels();
    BulletsLabels();
    SectionAt(a, "PRESELECTED_PROFILE_BULLETS", selectedBulletsJson, "SCHEMA (immutable)", schemaJson, z,
              "PRESELECTED_PROFILE_BULLETS:\n", "\n\nSCHEMA (immutable):\n");
  }

  /**
   * The prompt ends with the schema's label, the schema's JSON unchanged, a
   * blank line and the closing directive, after the other four sections.
   */
  lemma PromptSchema(profileMinJson: string, jdText: string, regionRules: Json,
                     selectedBulletsJson: string, schemaJson: string)
    ensures var r := BuildUserPrompt(profileMinJson, jdText, regionRules, selectedBulletsJson, schemaJson);
      var at := |Section("REGION_RULES", Dumps(regionRules)) + Section("PROFILE_MIN", profileMinJson)
                 + Section("JD_TEXT", jdText) + Section("PRESELECTED_PROFILE_BULLETS", selectedBulletsJson)|;
      && at <= |r|
      && r[at..] == "SCHEMA (immutable):\n" + schemaJson + "\n\nReturn JSON only."
      && r[at + 20..at + 20 + |schemaJson|] == schemaJson
  {
    var a := Section("REGION_RULES", Dumps(regionRules)) + Section("PROFILE_MIN", profileMinJson)
      + Section("JD_TEXT", jdText) + Section("PRESELECTED_PROFILE_BULLETS", selectedBulletsJson);
    SectionLabels();
    ClosingSection(a, "SCHEMA (immutable)", schemaJson, "Return JSON only.",
                   "SCHEMA (immutable):\n", "\n\nReturn JSON only.");
  }

  /** A text ending with a section and a closing line ends with the lead, the content and that line. */
  lemma ClosingSection(a: string, h: string, c: string, close: string, lead: string, tail: string)
    requires lead == h + ":\n" && tail == "\n\n" + close
    ensures (a + Section(h, c) + close)[|a|..] == lead + c + tail
    ensures (a + Section(h, c) + close)[|a| + |lead|..|a| + |lead| + |c|] == c
  {
    var m := lead + c + tail;
    assert a + Section(h, c) + close == a + m;
    assert m[|lead|..|lead| + |c|] == c;
  }

  /** The prompt ends with the closing directive, after the schema section. */
  lemma PromptEnding(profileMinJson: string, jdText: string, regionRules: Json,
                     selectedBulletsJson: string, schemaJson: string)
    ensures Strings.EndsWith(BuildUserPrompt(profileMinJson, jdText, regionRules, selectedBulletsJson, schemaJson),
                             "\n\nReturn JSON only.")
  {
    var r := BuildUserPrompt(profileMinJson, jdText, regionRules, selectedBulletsJson, schemaJson);
    var y := Section("REGION_RULES", Dumps(regionRules)) + Section("PROFILE_MIN", profileMinJson)
      + Section("JD_TEXT", jdText) + Section("PRESELECTED_PROFILE_BULLETS", selectedBulletsJson)
      + "SCHEMA (immutable)" + ":\n" + schemaJson;
    assert r == y + ("\n\n" + "Return JSON only.");
    assert "\n\n" + "Return JSON only." == "\n\nReturn JSON only.";
    SuffixEnds(y, "\n\nReturn JSON only.");
  }

  lemma TwoSections(a: string, h1: string, c1: string, h2: string, c2: string, rest: string)
    ensures a + Section(h1, c1) + Section(h2, c2) + rest
         == a + (h1 + ":\n" + c1 + ("\n\n" + h2 + ":\n")) + (c2 + "\n\n" + rest)
  {
  }

  lemma InfixAt(a: string, m: string, z: string)
    ensures Strings.OccursAt(a + m + z, m, |a|)
  {
    assert (a + m + z)[|a|..|a| + |m|] == m;
  }

  lemma SuffixEnds(x: string, e: string)
    ensures Strings.EndsWith(x + e, e)
  {
    assert (x + e)[|x|..] == e;
  }

  // ---------------------------------------------------------------------
  // The call
  // ---------------------------------------------------------------------

  /** Failures of the tailoring pipeline; `message` is what `str()` of the exception gives. */
  datatype PipelineError =
    | ConfigurationError(message: string)
    | GenerationError(message: string)
    | SchemaError(message: string)
    | GroundingError(message: string)
    | RecordError(message: string)

  const ApiKeyMissing := "GEMINI_API_KEY not set"

  /** The generation service: (API key, request text) to response text, absent text, or a failure. */
  type Client = (string, string) -> Result<Option<string>, string>

  predicate KeyMissing(apiKey: Option<string>) {
    apiKey == None || apiKey == Some("")
  }

  /**
   * `call_llm`: refuses to run without an API key, sends the instructions
   * and the prompt as one text, and turns an empty answer into "{}".
   */
  function CallLlm(apiKey: Option<string>, prompt: string, client: Client): (r: Result<string, PipelineError>)
    ensures KeyMissing(apiKey) <==> r == Err(ConfigurationError(ApiKeyMissing))
    ensures !KeyMissing(apiKey) ==> (r.Ok? <==> client(apiKey.value, System + "\n\n" + prompt).Ok?)
    ensures !KeyMissing(apiKey) && r.Err? ==>
      r.error == GenerationError(client(apiKey.value, System + "\n\n" + prompt).error)
    ensures r.Ok? ==> r.value != ""
    ensures r.Ok? ==>
      var answer := client(apiKey.value, System + "\n\n" + prompt);
      answer.Ok? && (answer.value == Some(r.value) || (r.value == "{}" && answer.value in {None, Some("")}))
  {
    if KeyMissing(apiKey) then Err(ConfigurationError(ApiKeyMissing))
    else
      match client(apiKey.value, System + "\n\n" + prompt)
      case Err(e) => Err(GenerationError(e))
      case Ok(None) => Ok("{}")
      case Ok(Some(text)) => if text == "" then Ok("{}") else Ok(text)
  }

  /** Without a key the service is never consulted: any two clients give the same result. */
  lemma KeyCheckedBeforeClient(apiKey: Option<string>, prompt: string, c1: Client, c2: Client)
    requires KeyMissing(apiKey)
    ensures CallLlm(apiKey, prompt, c1) == CallLlm(apiKey, prompt, c2)
  {
  }
}
