# umukozihr-tailor: the tailoring and document pipeline, in Dafny

The service takes a candidate profile and a batch of job descriptions. For
each job it does four things:

- It picks the profile's bullets that best match the job text.
- It asks a generation service for a tailored resume, cover letter and
  ATS report, under a fixed JSON schema.
- It validates that answer into typed records.
- It renders both documents to LaTeX, compiles them to PDF where a
  toolchain is available, and bundles all files of the run into one
  archive.

This project models that pipeline and proves what it promises. There is
one module per source file:

| module | file | what it holds |
|---|---|---|
| `Models` | `server/app/models.py` | request and response records; their JSON decoders with required fields, defaults and the region enumeration |
| `Llm` | `server/app/core/llm.py` | instruction text, response schema, user prompt layout, guarded service call |
| `Tailor` | `server/app/core/tailor.py` | tokenizer, keyword scoring, stable top-k bullet selection, region rules, the `run_tailor` chain |
| `TexCompile` | `server/app/core/tex_compile.py` | template lookups; the artifacts directory as a class whose methods render, compile and bundle |
| `GenerateRoute` | `server/app/routes/v1_generate.py` | the batch endpoint: per-job loop, file naming, PDF links, error path, final archive |

Three modules hold shared models of Python behaviour:

- `Wrappers`: `Option` and `Result`.
- `Strings`: `str.replace`, prefixes and suffixes.
- `JsonText`: `json.dumps` on ordered objects and string quoting.

Some external pieces are function-typed parameters:

- the generation client;
- the API key (an `Option`);
- the schema validator and the grounding check;
- the profile and schema serializers;
- the Jinja template engine;
- the two latexmk runs (local and Docker);
- the run id (a uuid4 string in the service).

`Tailor.RunTailor(env, ·, ·)` is one instance of the tailoring step that
`GenerateRoute.Generate` takes as a parameter.

Python's `str.lower` is ASCII-only here. The sort on `pool` is a stable
insertion sort with reverse order by score, which is what `list.sort`
with `reverse=True` promises. `glob`'s order is unspecified, so
`ArtifactDir.Bundle` takes each listing in an arbitrary order and its
contract holds for every order.

The `SYSTEM` constant is five string literals written side by side. Python
joins these with no separator, so the sentences run together, and
`Llm.System` keeps it that way.

## Model

| member | source | states |
|---|---|---|
| Strings.ReplaceCharRemoves | server/app/routes/v1_generate.py:21 | after every `' '` becomes `'_'`, no space is left and the length is unchanged |
| Strings.ReplaceCharAt | server/app/routes/v1_generate.py:21 | one-character replacement changes exactly the positions holding the pattern |
| Strings.ReplaceAll | server/app/core/tex_compile.py:50 | `str.replace` with a pattern and replacement of equal length keeps the length of the text |
| Strings.ReplacePairAt | server/app/core/tex_compile.py:50 | replacing a two-character pattern whose characters differ by a two-character text keeps the length, and each position holds the replacement's first character where a match starts, its second where a match started one before, and the input's character elsewhere |
| Strings.ReplaceAllAbsent | server/app/core/tex_compile.py:50 | `str.replace` returns its input when the pattern does not occur |
| Strings.ReplaceAllKeepsOut | server/app/core/tex_compile.py:50 | replacing never introduces a character found in neither the input nor the replacement |
| Strings.ReplacePairGone | server/app/core/tex_compile.py:50 | once a two-character pattern is replaced by text containing neither of its characters, it no longer occurs |
| Strings.ReplaceAllSkips | server/app/routes/v1_generate.py:31-32 | a prefix with no character that can start the pattern passes through unchanged |
| JsonText.UnescapeEscape | server/app/core/tailor.py:45-46 | JSON string escaping is undone exactly by unescaping |
| JsonText.UnquoteQuote | server/app/core/tailor.py:45-46 | a string serialized by `json.dumps` reads back as the same string |
| JsonText.Quote | server/app/core/tailor.py:45-46 | a serialized string starts and ends with a double quote |
| JsonText.DumpsSingleLine | server/app/core/llm.py:63 | `Dumps` (`json.dumps`) without indentation never emits a control character, hence no line break |
| Models.RegionLiteral | server/app/models.py:39 | exactly the literals "US", "EU", "GL" decode, each to the region that prints back as it |
| Models.DecodeRole | server/app/models.py:10-15 | a role needs a title and a company; absent dates become "" and absent bullets [] |
| Models.DecodeProject | server/app/models.py:17-20 | a project needs a name |
| Models.DecodeEducation | server/app/models.py:22-25 | an education entry needs a school |
| Models.DecodeProfile | server/app/models.py:27-34 | a profile needs a name |
| Models.DecodeJobJD | server/app/models.py:36-42 | a job needs company, title and text; its region is the given literal, or US when absent; an absent id is None |
| Models.DecodeGenerateRequest | server/app/models.py:44-47 | a request needs a profile and a job list |
| Models.DecodeOutRole | server/app/models.py:50-55 | a generated role needs title, company and bullets; absent dates become "" |
| Models.DecodeOutResume | server/app/models.py:57-62 | a generated resume needs summary, skills line and experience; projects and education default to [] |
| Models.DecodeOutCoverLetter | server/app/models.py:64-70 | all six letter parts are required |
| Models.DecodeOutATS | server/app/models.py:72-74 | an ATS object with neither list decodes to two empty lists |
| Models.DecodeLLMOutput | server/app/models.py:76-79 | the output needs resume, cover letter and ATS parts |
| Models.RoleDefaults | server/app/models.py:10-15 | title and company alone give empty dates and no bullets |
| Models.ProfileDefaults | server/app/models.py:27-34 | a name alone gives empty contacts, summary and lists |
| Models.JobDefaults | server/app/models.py:36-42 | a job without id or region has id None and region US |
| Models.JobRejectsUnknownRegion | server/app/models.py:39 | any region outside US, EU, GL makes the job invalid |
| Models.OutRoleNeedsBullets | server/app/models.py:55 | a generated role without bullets is refused; with them it decodes, with dates defaulted |
| Llm.ExperienceHasRequiredKeys | server/app/core/llm.py:27-33 | every conforming experience item has title, company and bullets |
| Llm.ResumeHasRequiredKeys | server/app/core/llm.py:24 | a conforming resume has all five parts, and its experience conforms |
| Llm.CoverLetterHasRequiredKeys | server/app/core/llm.py:45-52 | a conforming letter has all six parts |
| Llm.AtsHasRequiredKeys | server/app/core/llm.py:53-56 | a conforming ATS part has both lists |
| Llm.ConformingOutputHasRequiredKeys | server/app/core/llm.py:20-58 | an answer that `Conforms` to `OUTPUT_JSON_SCHEMA` has every key the schema requires, at every level |
| Llm.MissingTopLevelKeyRejected | server/app/core/llm.py:22 | an answer lacking resume, cover_letter or ats does not conform |
| Llm.ArrayDecodes | server/app/core/llm.py:27 | an array conforming to an item schema decodes when every conforming item does |
| Llm.OutRoleDecodes | server/app/core/llm.py:27-33 | every conforming experience item builds an OutRole |
| Llm.CoverLetterDecodes | server/app/core/llm.py:45-52 | every conforming letter builds an OutCoverLetter |
| Llm.AtsDecodes | server/app/core/llm.py:53-56 | every conforming ATS part builds an OutATS |
| Llm.NamelessProjectConformsButIsRefused | server/app/core/llm.py:34-38 | a project without a name satisfies the schema but not the Project record |
| Llm.FixedProjectDecodes | server/app/core/llm.py:34-38 | with `name` required, every conforming project builds a Project |
| Llm.FixedEducationDecodes | server/app/core/llm.py:39-43 | with `school` required, every conforming entry builds an Education |
| Llm.FixedResumeDecodes | server/app/core/llm.py:24-44 | with those two fixes, every conforming resume builds an OutResume |
| Llm.FixedSchemaOutputDecodes | server/app/core/llm.py:20-58 | with those two fixes, every conforming answer builds an LLMOutput |
| Llm.DumpsHasNoLineBreak | server/app/core/llm.py:63 | serialized region rules contain no line break |
| Llm.OpeningSectionLines | server/app/core/llm.py:61-69 | a text that opens with a section whose heading and content hold no line break has the heading with its colon as first line and the content as second line |
| Llm.PromptRegionRulesLine | server/app/core/llm.py:61-69 | the first line of the prompt `BuildUserPrompt` (`build_user_prompt`) returns is `REGION_RULES:` and its second line is exactly the serialized rules |
| Llm.PromptJdText | server/app/core/llm.py:65 | the job text appears verbatim right after `JD_TEXT:`, followed by the bullets label |
| Llm.PromptProfileMin | server/app/core/llm.py:63-65 | the profile's JSON appears verbatim right after `PROFILE_MIN:`, which follows the region rules section, and is followed by the job text's label |
| Llm.PromptSelectedBullets | server/app/core/llm.py:66-67 | the selected bullets appear verbatim right after their label, followed by the schema label |
| Llm.PromptSchema | server/app/core/llm.py:67-68 | after the other four sections the prompt ends with `SCHEMA (immutable):`, the schema's JSON verbatim, a blank line and "Return JSON only." |
| Llm.SectionAt | server/app/core/llm.py:63-67 | in two consecutive sections, the first one's content sits verbatim right after its label and right before the second one's label |
| Llm.ClosingSection | server/app/core/llm.py:67-68 | a text ending with a section and a closing line ends with that label, that content and that line |
| Llm.PromptEnding | server/app/core/llm.py:67-68 | the prompt ends with a blank line and "Return JSON only." |
| Llm.CallLlm | server/app/core/llm.py:71-91 | the call fails with the key error if and only if the key is missing or empty; with a key it succeeds if and only if the service answers, and a service failure is reported as a generation error carrying the service's message; success passes on the service's text, or "{}" when that text is absent or empty, never an empty text; instructions and prompt go out as one text |
| Llm.KeyCheckedBeforeClient | server/app/core/llm.py:72-75 | without a key the outcome does not depend on the service client |
| Tailor.LowerCase | server/app/core/tailor.py:12 | after lower-casing no upper-case letter is left, every other character is kept, each letter keeps its place in the alphabet, and lowering twice is lowering once |
| Tailor.LeadingRun | server/app/core/tailor.py:12 | the run of token characters at the front is maximal |
| Tailor.Runs | server/app/core/tailor.py:12 | every `findall` match is non-empty and consists of `[A-Za-z0-9+#.]`; each character of a match is a character of the text |
| Tailor.RunsOccur | server/app/core/tailor.py:12 | every `findall` match is a contiguous piece of the text |
| Tailor.Keep | server/app/core/tailor.py:13 | kept tokens come from the input, are longer than one character and are not stop words |
| Tailor.NormTokensShape | server/app/core/tailor.py:11-13 | every token `NormTokens` (`norm_tokens`) returns is lower-case, at least two characters long, not a stop word, and made of token characters |
| Tailor.LoweredRuns | server/app/core/tailor.py:12 | runs found in lower-cased text are lower-case |
| Tailor.LeadingRunStops | server/app/core/tailor.py:12 | a separator ends the leading run |
| Tailor.RunsSplit | server/app/core/tailor.py:12 | matches on both sides of a separator are those of each side, in order |
| Tailor.RunsOfWord | server/app/core/tailor.py:12 | a word of token characters is one match |
| Tailor.WholeRun | server/app/core/tailor.py:12 | in a word of token characters the leading run is the whole word |
| Tailor.KeepAppend | server/app/core/tailor.py:13 | filtering commutes with concatenation |
| Tailor.NormTokensSplit | server/app/core/tailor.py:11-13 | tokens on both sides of a separator are those of each side, in order |
| Tailor.NormTokensOfWord | server/app/core/tailor.py:11-13 | a single word yields its lower-case form exactly when that form is kept |
| Tailor.SumCountsZero | server/app/core/tailor.py:17 | a sum of counts is zero if and only if every token's count is zero |
| Tailor.SumCountsAppend | server/app/core/tailor.py:17 | sums of counts add over concatenation |
| Tailor.ScoreBulletZero | server/app/core/tailor.py:15-20 | `ScoreBullet` (`score_bullet`) gives a bullet zero if and only if none of its tokens is a token of the job text |
| Tailor.ScoreBulletSplit | server/app/core/tailor.py:15-17 | the score of two texts joined by a separator is the sum of their scores |
| Tailor.ScoreOfWord | server/app/core/tailor.py:15-17 | a kept single word scores its number of occurrences in the job text |
| Tailor.Insert | server/app/core/tailor.py:30 | insertion keeps every entry |
| Tailor.SortByScore | server/app/core/tailor.py:30 | the sort yields non-increasing scores, keeps every entry, and keeps the original order among equal scores |
| Tailor.InsertSorted | server/app/core/tailor.py:30 | insertion into a sorted list keeps it sorted |
| Tailor.InsertWithScore | server/app/core/tailor.py:30 | insertion keeps the order of entries with equal scores |
| Tailor.InsertBounded | server/app/core/tailor.py:30 | inserting an entry scored at most b into a list scored at most b gives a list scored at most b |
| Tailor.RoleItemsStep | server/app/core/tailor.py:23-29 | the inner loop appends one scored bullet per step |
| Tailor.PoolExtend | server/app/core/tailor.py:22-29 | the outer loop appends one role's entries per step |
| Tailor.SelectTopK | server/app/core/tailor.py:19-31 | the loops, sort and slice return exactly `TopK` of the profile, job text and k |
| Tailor.PoolLength | server/app/core/tailor.py:22-29 | the pool holds one entry per bullet of the profile |
| Tailor.TopKLength | server/app/core/tailor.py:31 | the result has min(k, number of bullets) entries for k >= 0; for k < 0 it has the number of bullets less -k, and none when that is not positive |
| Tailor.TopKOrdered | server/app/core/tailor.py:30-31 | the entries `TopK` (`select_topk_bullets`) selects are in non-increasing score order |
| Tailor.PrefixNotWorse | server/app/core/tailor.py:30-31 | in a sorted list, a prefix and its rest together are the whole list, and nothing in the rest outscores the prefix |
| Tailor.TopKExcludedNotBetter | server/app/core/tailor.py:19-31 | the selected and the left-out entries together are the pool, and no left-out bullet scores higher than a selected one |
| Tailor.PoolProvenance | server/app/core/tailor.py:22-29 | every pool entry is a bullet of some role, carrying that role's title and company and the bullet's score |
| Tailor.TopKProvenance | server/app/core/tailor.py:19-31 | every returned bullet comes from a role of the profile with the same title and company |
| Tailor.WithScoreAppend | server/app/core/tailor.py:30 | the entries with a given score split over concatenation |
| Tailor.PrefixWithScore | server/app/core/tailor.py:31 | a prefix's entries with a given score are a prefix of the list's entries with that score |
| Tailor.TopKStable | server/app/core/tailor.py:30-31 | among equal scores, the selected bullets are the first ones in profile order; with `TopKLength` and `TopKOrdered` this fixes which tied bullets the cut at `k` drops: the later ones in profile order |
| Tailor.RegionRules | server/app/core/tailor.py:33-37 | the date format is always YYYY-MM; one page for US and GL, two otherwise; the fallback style exactly for regions other than US, EU, GL |
| Tailor.JobRegionHasOwnRule | server/app/core/tailor.py:34-36 | every region a job can name has its own rule, never the fallback |
| Tailor.RulesJsonFields | server/app/core/tailor.py:34-37 | the serialized rules carry pages, style and date_format with the rule's values |
| Tailor.Respond | server/app/core/tailor.py:48-53 | for the steps after the prompt (`RunTailor` runs them on the `TailorPrompt` text): a missing key fails first and any call failure is passed on unchanged; the outcome is a success if and only if the call, validation, grounding check and record construction all pass, and then it is the record built from the validated data; a schema error means validation failed and carries the validator's message; a grounding error means validation passed and the check failed, and carries the check's message; a record error means both passed and the record could not be built |
| Tailor.ValidationBeforeGrounding | server/app/core/tailor.py:50-52 | when validation fails, the outcome is a schema error whatever the grounding check would say |
| Tailor.TailorPromptRules | server/app/core/tailor.py:40-47 | the prompt's rules line is the serialized rules of the job's region |
| Tailor.TailorPromptContents | server/app/core/tailor.py:39-47 | the prompt `TailorPrompt` builds for `run_tailor` holds, verbatim under their labels, the profile's JSON, the job text, the JSON of exactly the top `k = 12` bullets selected for that job text, and the schema's JSON followed by the closing directive |
| TexCompile.ResumeTemplateLookup | server/app/core/tex_compile.py:17-21 | the three regions have three distinct resume templates; any other region gets the global one |
| TexCompile.LetterTemplateLookup | server/app/core/tex_compile.py:23-27 | US and EU share the simple letter; every other region gets the global one |
| TexCompile.ResumeTemplate | server/app/core/tex_compile.py:30 | the resume template looked up for any region, with the global fallback, is one of the three resume templates |
| TexCompile.LetterTemplate | server/app/core/tex_compile.py:31 | the letter template looked up for any region, with the global fallback, is one of the letter templates |
| TexCompile.ResumeTemplatePages | server/app/core/tex_compile.py:17-21 | the EU resume template is the two-page layout; the US and GL templates are one-page, where a template's page count is read off its file name (`*_twopage.tex.j2` is two pages, any other name one), a naming convention of the repository |
| TexCompile.TemplateMatchesRules | server/app/core/tex_compile.py:17-30 | for US, EU and GL the template's page count, read off its file name, equals the rules' page count; for other regions the template has one page and the rules say two |
| TexCompile.RenderedNamesDistinct | server/app/core/tex_compile.py:36-37 | the resume and letter names differ, keep the base as prefix and end in `.tex` |
| TexCompile.PdfOutputName | server/app/core/tex_compile.py:42-46 | latexmk's PDF name ends in `.pdf` and keeps the source's stem |
| TexCompile.DockerPath | server/app/core/tex_compile.py:50 | the mount path has the input's length; position by position, each backslash becomes '/', each "C:" (after that first rewrite) becomes "/c", and every other character is kept; so no backslash and no "C:" is left, and a path with neither is unchanged |
| TexCompile.EnumerationExists | server/app/core/tex_compile.py:75 | every set of file names can be listed without repetition |
| TexCompile.EntriesNameEachOnce | server/app/core/tex_compile.py:74-79 | entries from two listings of disjoint sets name each file exactly once |
| TexCompile.PdfAndTexDisjoint | server/app/core/tex_compile.py:75-78 | the PDF and `.tex` patterns select disjoint sets |
| TexCompile.BundledArchive | server/app/core/tex_compile.py:71-80 | the archive names every PDF and `.tex` file of the run exactly once and nothing else, with all PDFs first |
| TexCompile.ArchiveNotSelected | server/app/core/tex_compile.py:72-78 | no archive is ever selected by either pattern |
| TexCompile.RunsDoNotMix | server/app/core/tex_compile.py:75-78 | two distinct run ids of equal length never select the same file |
| TexCompile.SelectionWithArchive | server/app/core/tex_compile.py:72-78 | creating the archive first does not change what the patterns select |
| TexCompile.ArtifactDir.constructor | server/app/core/tex_compile.py:7-8 | the directory starts at its location with the given files |
| TexCompile.ArtifactDir.RenderTex | server/app/core/tex_compile.py:29-40 | returns the two names and writes exactly those two files, rendered from each region's template with its context |
| TexCompile.ArtifactDir.CompileTex | server/app/core/tex_compile.py:56-69 | local success writes the PDF; otherwise Docker runs on the rewritten path, and its success writes the PDF; when both fail nothing changes and both errors are reported |
| TexCompile.ArtifactDir.Bundle | server/app/core/tex_compile.py:71-80 | writes only `run_id + "_bundle.zip"`; the archive holds the run's PDFs, then its `.tex` files, each with its content before bundling |
| GenerateRoute.FileBaseShape | server/app/routes/v1_generate.py:21 | the file base `FileBase` builds is the run id, `_`, then the job key position by position with each space turned into `_` and every other character kept, so no space is left and the key's length is kept |
| GenerateRoute.RenderedFilesSelected | server/app/routes/v1_generate.py:21-25 | both rendered files of every job match the run's `.tex` pattern |
| GenerateRoute.DottedJobBase | server/app/routes/v1_generate.py:21 | a job with id "a.tex" in run "r" gets base "r_a.tex" |
| GenerateRoute.DottedBaseRewritten | server/app/routes/v1_generate.py:31-32 | the route's rewrite also turns a ".tex" inside the base into ".pdf" |
| GenerateRoute.DottedBaseMisses | server/app/routes/v1_generate.py:31-32 | for a base containing ".tex", the route's PDF name differs from latexmk's |
| GenerateRoute.AsWrittenPdfNameMissesOutput | server/app/routes/v1_generate.py:31-32 | for job id "a.tex", the route looks for a PDF other than the one compiled |
| GenerateRoute.PdfNamesOfRenderedFiles | server/app/routes/v1_generate.py:44-47 | the PDF links name `<base>_resume.pdf` and `<base>_cover.pdf` |
| GenerateRoute.PdfNamesAgreeWithoutDots | server/app/routes/v1_generate.py:31-32 | for a base without '.', the route's name and latexmk's coincide |
| GenerateRoute.JobDoneKept | server/app/routes/v1_generate.py:44-49 | a processed job's files and links stay valid while later jobs only add files |
| GenerateRoute.AllDoneKept | server/app/routes/v1_generate.py:15-49 | all processed jobs stay valid while files are only added |
| GenerateRoute.AllDoneStep | server/app/routes/v1_generate.py:49 | appending the next job's artifact extends the processed prefix |
| GenerateRoute.NotAnArchive | server/app/routes/v1_generate.py:25-28 | a `.tex` or `.pdf` name never ends in `.zip` |
| GenerateRoute.ArchiveNotJobFile | server/app/routes/v1_generate.py:25-28 | none of a job's four files is the run's archive |
| GenerateRoute.ArchiveHoldsRendered | server/app/routes/v1_generate.py:52 | the bundle holds both sources of every job of the run |
| GenerateRoute.JobFilesDistinct | server/app/routes/v1_generate.py:21-32 | a job's two sources and two PDFs have four different names |
| GenerateRoute.JobFilesDisjoint | server/app/routes/v1_generate.py:21-32 | jobs with different file bases share no file |
| GenerateRoute.WrittenKept | server/app/routes/v1_generate.py:21-32 | a job's rendered sources and compiled PDFs stay as they are while none of its four files changes |
| GenerateRoute.JobWrittenKept | server/app/routes/v1_generate.py:21-47 | a job's files and PDF links stay valid while none of its four files changes |
| GenerateRoute.AllWrittenStep | server/app/routes/v1_generate.py:15-49 | processing the next job keeps the files of every earlier job with another file base and adds the next job's |
| GenerateRoute.AllWrittenArchive | server/app/routes/v1_generate.py:52 | writing the run's archive keeps every job's files and links |
| GenerateRoute.JobStep | server/app/routes/v1_generate.py:15-49 | after one job is processed, the archive name is still untouched, the processed prefix grows by that job, and its files are recorded |
| GenerateRoute.ProcessNext | server/app/routes/v1_generate.py:21-49 | one turn of the loop after a successful tailoring keeps the loop's invariants for the prefix grown by the new artifact |
| GenerateRoute.RenderAndCompile | server/app/routes/v1_generate.py:22-30 | both sources are written under the job's base and hold the texts rendered from the region's templates with the job's contexts; each PDF is the local toolchain's output when it succeeds, else Docker's on the rewritten path, else left as it was; existing files stay, and only the job's two sources and two PDFs may change |
| GenerateRoute.ProcessJob | server/app/routes/v1_generate.py:21-49 | the artifact carries the job key, region and source links; both sources hold the texts rendered from the tailored output and each PDF is what compiling left; each PDF link is present exactly when that PDF exists; no file outside the job's four is touched |
| GenerateRoute.ProcessJobs | server/app/routes/v1_generate.py:15-49 | succeeds if and only if every tailoring call succeeds; otherwise status 400 with the first failing job's message; one artifact per job, in order; the archive name is untouched; on success every job that no later job overwrites (same file base) has its rendered sources in the directory, each of its PDFs whose local or Docker compile succeeded holds that compile's output, and its PDF links match the files present |
| GenerateRoute.Generate | server/app/routes/v1_generate.py:11-53 | as `ProcessJobs`, plus: on error no archive is written; on success the response carries the run id, one valid artifact per job, and the archive link, the archive holds both sources of every job, and bundling leaves every job's sources, PDFs and links as `ProcessJobs` stated them |

## Left out

- Tailor.LowerCase: only ASCII letters are lowered. Python's `str.lower` also maps non-ASCII letters, including some that lower into ASCII (the Kelvin sign) or into two characters ('İ').
- Tailor.SortByScore: the sort is a functional stable insertion sort. Timsort's in-place mutation of `pool` is not modelled, only its result.
- Tailor.RunTailor: `validate_or_error` and `business_rules_check` are parameters. Their module is not part of this model.
- The profile's `model_dump_json()` and the schema's `to_json_dict()` serialization are parameters (`profileJson`, `schemaJson`).
- Llm.CallLlm: the Gemini client is a parameter.
  - Its sampling settings (temperature 0.2, top_p 0.9, 4000 tokens, model name) are not modelled, nor is its non-determinism.
  - Only the joined text of instructions and prompt is passed.
- `load_dotenv` and environment lookup are replaced by the `apiKey` parameter.
- JsonText.Dumps: numbers are integers only; floats are not modelled. Non-ASCII characters are kept as they are (`ensure_ascii=False`).
- Models: pydantic's error messages and type coercions are left out. Decoding fails with `None`, and a value of the wrong JSON type is refused.
- TexCompile.ArtifactDir.RenderTex: the Jinja environment and templates are a parameter. Template bodies, autoescape settings and `trim_blocks` are not modelled.
- TexCompile.ArtifactDir.CompileTex:
  - latexmk's auxiliary files (.aux, .log, .fls) are not modelled.
  - A failed run is taken to leave no PDF behind; a partial PDF that a failed latexmk run can leave (which the route would then link) is not modelled.
  - Timeouts (120 s and 240 s) are not modelled.
  - The two printed messages are not modelled.
  - The toolchains are parameters that see the source file and return the PDF or an error.
  - Docker mounts `DockerPath(location)` and gets no working directory, as in the source.
- TexCompile.ArtifactDir.Bundle:
  - `glob` wildcard characters inside the run id are not modelled, nor are hidden files or case-insensitive file systems. Matching is literal prefix and suffix.
  - Compression is not modelled.
  - Archive entries hold file contents, not bytes.
- GenerateRoute.ProcessJob: the PDF names the route checks and links are latexmk's output names (`PdfOutputName`), not the as-written `.replace('.tex', '.pdf')` on the whole base name; they agree for a base without '.' (`GenerateRoute.PdfNamesAgreeWithoutDots`) and differ for a base containing ".tex" (`GenerateRoute.DottedBaseMisses`, see Findings). For job id "a.tex" in run "r" the as-written route drops a PDF link although the PDF exists; after an earlier job with id "a.pdf" it would instead link that job's `r_a.pdf_resume.pdf`.
- GenerateRoute.FileBase: a job key containing '/' would name a file in another directory. Paths are flat names here.
- GenerateRoute.Generate:
  - The `created_at` and `updated_at` timestamps are left out.
  - The uuid4 run id is a parameter.
  - Exceptions from rendering (template errors, disk errors) are not modelled; the service would answer 500.
  - Files written by jobs before a failing one stay in the directory, as they do in the service.
- `OUTPUT_JSON_SCHEMA` as handed to the client is `Llm.OutputSchema`. How the service enforces a schema is not part of this model.

## Findings

| source | as written | input that shows it | evidently intended | confidence | as-written member | corrected member |
|---|---|---|---|---|---|---|
| server/app/routes/v1_generate.py:31-32 | the PDF name is the source's base name with every ".tex" replaced by ".pdf" | run id "r" and job id "a.tex": the source "r_a.tex_resume.tex" compiles to "r_a.tex_resume.pdf", while the route looks for "r_a.pdf_resume.pdf", so the PDF link is dropped although the PDF exists | only the final ".tex" extension becomes ".pdf", as latexmk names its output | high, not executed | GenerateRoute.AsWrittenPdfNameMissesOutput | TexCompile.PdfOutputName (used by GenerateRoute.ProcessJob; GenerateRoute.PdfNamesOfRenderedFiles) |
| server/app/core/llm.py:34-43 | project and education items in the response schema require no property | the answer `{"resume": {..., "projects": [{}]}, ...}` conforms to the schema, but `LLMOutput(**data)` refuses it because `Project.name` is required, so the job fails with status 400 | the schema requires `name` for projects and `school` for education, as the records do | medium, not executed | Llm.NamelessProjectConformsButIsRefused | Llm.FixedSchemaOutputDecodes |
