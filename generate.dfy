/**
 * The batch endpoint (server/app/routes/v1_generate.py): for each job in
 * order, tailor the profile, render both documents under a per-run file
 * base, compile them, and record links to what was produced; the first
 * tailoring failure aborts the request; after the loop the run's files are
 * bundled into one archive.
 *
 * The run id (a uuid4 string in the service) is a parameter, and so are the
 * tailoring step, the template engine and the two LaTeX toolchains.
 */
module GenerateRoute {
  import opened Wrappers
  import opened Strings
  import opened Models
  import opened Llm
  import opened TexCompile

  // ---------------------------------------------------------------------
  // Names
  // ---------------------------------------------------------------------

  /** `j.id or j.title`: an absent or empty id falls back to the title. */
  function JobKey(job: JobJD): string {
    if job.id.Some? && job.id.value != "" then job.id.value else job.title
  }

  /** The file base of a job's documents: the run id, '_', and the job key with spaces turned into '_'. */
  function FileBase(runId: string, job: JobJD): string {
    runId + "_" + ReplaceAll(JobKey(job), " ", "_")
  }

  /**
   * The base starts with the run id and '_'; then comes the job key with each
   * space turned into '_' and every other character kept, so no space is left.
   */
  lemma FileBaseShape(runId: string, job: JobJD)
    ensures StartsWith(FileBase(runId, job), runId + "_")
    ensures |FileBase(runId, job)| == |runId| + 1 + |JobKey(job)|
    ensures forall i :: 0 <= i < |JobKey(job)| ==>
      FileBase(runId, job)[|runId| + 1 + i] == (if JobKey(job)[i] == ' ' then '_' else JobKey(job)[i])
    ensures ' ' !in FileBase(runId, job)[|runId| + 1..]
  {
    ReplaceCharRemoves(JobKey(job), ' ', '_');
    ReplaceCharAt(JobKey(job), " ", "_");
    var base := FileBase(runId, job);
    assert base[..|runId| + 1] == runId + "_";
    assert base[|runId| + 1..] == ReplaceAll(JobKey(job), " ", "_");
  }

  /** Both rendered files of every job match the run's `.tex` pattern, so `bundle` picks them up. */
  lemma RenderedFilesSelected(runId: string, job: JobJD)
    ensures Matches(ResumeName(FileBase(runId, job)), runId, ".tex")
    ensures Matches(LetterName(FileBase(runId, job)), runId, ".tex")
  {
    var base := FileBase(runId, job);
    FileBaseShape(runId, job);
    RenderedNamesDistinct(base);
    assert ResumeName(base)[..|runId| + 1] == base[..|runId| + 1];
    assert LetterName(base)[..|runId| + 1] == base[..|runId| + 1];
  }

  const ArtifactsUrl := "/artifacts/"

  // ---------------------------------------------------------------------
  // The PDF name
  // ---------------------------------------------------------------------

  /** The route's PDF name as written: every ".tex" in the base name becomes ".pdf". */
  function AsWrittenPdfName(texName: string): string {
    ReplaceAll(texName, ".tex", ".pdf")
  }

  /**
   * A job whose id contains ".tex": the route looks for, and would link,
   * a PDF other than the one latexmk writes, so the link is left out even
   * when compilation succeeded.
   */
  lemma AsWrittenPdfNameMissesOutput()
    ensures var base := FileBase("r", JobJD(Some("a.tex"), US, "", "", ""));
      AsWrittenPdfName(ResumeName(base)) != PdfOutputName(ResumeName(base))
  {
    DottedJobBase();
    assert "r_a.tex" == "r_a" + ".tex" + "";
    DottedBaseMisses("r_a", "");
  }

  lemma DottedJobBase()
    ensures FileBase("r", JobJD(Some("a.tex"), US, "", "", "")) == "r_a.tex"
  {
    ReplaceAllSkips("a.tex", [], " ", "_");
    assert "a.tex" + [] == "a.tex";
  }

  /** The route's rewrite turns the ".tex" inside a dotted base into ".pdf" as well. */
  lemma DottedBaseRewritten(p: string, q: string)
    requires '.' !in p && '.' !in q
    ensures AsWrittenPdfName(ResumeName(p + ".tex" + q)) == p + ".pdf" + q + "_resume.pdf"
  {
    var tail := q + "_resume";
    assert '.' !in "_resume";
    assert ResumeName(p + ".tex" + q) == p + (".tex" + (tail + (".tex" + [])));
    ReplaceAllSkips(p, ".tex" + (tail + (".tex" + [])), ".tex", ".pdf");
    ReplaceAllHit(".tex", tail + (".tex" + []), ".pdf");
    ReplaceAllSkips(tail, ".tex" + [], ".tex", ".pdf");
    ReplaceAllHit(".tex", [], ".pdf");
  }

  /** For every base with one ".tex" inside it the two names differ. */
  lemma DottedBaseMisses(p: string, q: string)
    requires '.' !in p && '.' !in q
    ensures AsWrittenPdfName(ResumeName(p + ".tex" + q)) != PdfOutputName(ResumeName(p + ".tex" + q))
  {
    var base := p + ".tex" + q;
    DottedBaseRewritten(p, q);
    PdfNamesOfRenderedFiles(base);
    assert AsWrittenPdfName(ResumeName(base))[|p| + 1] == 'p';
    assert PdfOutputName(ResumeName(base))[|p| + 1] == 't';
  }

  /** The PDF links name the files latexmk writes next to the sources. */
  lemma PdfNamesOfRenderedFiles(base: string)
    ensures PdfOutputName(ResumeName(base)) == base + "_resume.pdf"
    ensures PdfOutputName(LetterName(base)) == base + "_cover.pdf"
  {
    RenderedNamesDistinct(base);
    var r := ResumeName(base);
    var l := LetterName(base);
    assert r[..|r| - 4] == base + "_resume";
    assert l[..|l| - 4] == base + "_cover";
  }

  /** Without a '.' in the base the route's name and latexmk's agree. */
  lemma PdfNamesAgreeWithoutDots(base: string)
    requires '.' !in base
    ensures AsWrittenPdfName(ResumeName(base)) == PdfOutputName(ResumeName(base))
    ensures AsWrittenPdfName(LetterName(base)) == PdfOutputName(LetterName(base))
  {
    PdfNamesOfRenderedFiles(base);
    assert ResumeName(base) == base + "_resume" + (".tex" + []);
    ReplaceAllSkips(base + "_resume", ".tex" + [], ".tex", ".pdf");
    ReplaceAllHit(".tex", [], ".pdf");
    assert LetterName(base) == base + "_cover" + (".tex" + []);
    ReplaceAllSkips(base + "_cover", ".tex" + [], ".tex", ".pdf");
  }

  // ---------------------------------------------------------------------
  // Artifacts
  // ---------------------------------------------------------------------

  /** The record the route returns for one job (its timestamps are not modelled). */
  datatype Artifact = Artifact(
    jobId: string,
    region: Region,
    resumeTex: string,
    coverLetterTex: string,
    resumePdf: Option<string>,
    coverLetterPdf: Option<string>)

  datatype HttpError = HttpError(status: nat, detail: string)

  datatype GenerateResponse = GenerateResponse(run: string, artifacts: seq<Artifact>, zip: string)

  /** The links and fields of `a` are those of `job` in run `runId`. */
  predicate ArtifactFor(a: Artifact, runId: string, job: JobJD) {
    var base := FileBase(runId, job);
    && a.jobId == JobKey(job)
    && a.region == job.region
    && a.resumeTex == ArtifactsUrl + ResumeName(base)
    && a.coverLetterTex == ArtifactsUrl + LetterName(base)
    && (a.resumePdf.Some? ==> a.resumePdf.value == ArtifactsUrl + PdfOutputName(ResumeName(base)))
    && (a.coverLetterPdf.Some? ==> a.coverLetterPdf.value == ArtifactsUrl + PdfOutputName(LetterName(base)))
  }

  /**
   * After job `job` is processed: `a` is its artifact, both sources exist,
   * and each PDF link names a file that exists.
   */
  ghost predicate JobDone(files: map<string, FileData>, runId: string, job: JobJD, a: Artifact) {
    var base := FileBase(runId, job);
    && ArtifactFor(a, runId, job)
    && ResumeName(base) in files && LetterName(base) in files
    && (a.resumePdf.Some? ==> PdfOutputName(ResumeName(base)) in files)
    && (a.coverLetterPdf.Some? ==> PdfOutputName(LetterName(base)) in files)
  }

  /** The first |artifacts| jobs are processed, each with its artifact. */
  ghost predicate AllDone(files: map<string, FileData>, runId: string, jobs: seq<JobJD>, artifacts: seq<Artifact>) {
    && |artifacts| <= |jobs|
    && forall j :: 0 <= j < |artifacts| ==> JobDone(files, runId, jobs[j], artifacts[j])
  }

  /** Processed jobs stay processed while files are only added or rewritten. */
  lemma AllDoneKept(before: map<string, FileData>, after: map<string, FileData>, runId: string,
                    jobs: seq<JobJD>, artifacts: seq<Artifact>)
    requires AllDone(before, runId, jobs, artifacts)
    requires forall n :: n in before ==> n in after
    ensures AllDone(after, runId, jobs, artifacts)
  {
    forall j | 0 <= j < |artifacts|
      ensures JobDone(after, runId, jobs[j], artifacts[j])
    {
      JobDoneKept(before, after, runId, jobs[j], artifacts[j]);
    }
  }

  lemma AllDoneStep(before: map<string, FileData>, after: map<string, FileData>, runId: string,
                    jobs: seq<JobJD>, artifacts: seq<Artifact>, a: Artifact)
    requires AllDone(before, runId, jobs, artifacts) && |artifacts| < |jobs|
    requires forall n :: n in before ==> n in after
    requires JobDone(after, runId, jobs[|artifacts|], a)
    ensures AllDone(after, runId, jobs, artifacts + [a])
  {
    AllDoneKept(before, after, runId, jobs, artifacts);
  }

  /** A processed job stays processed while files are only added or rewritten. */
  lemma JobDoneKept(files: map<string, FileData>, files': map<string, FileData>, runId: string, job: JobJD, a: Artifact)
    requires JobDone(files, runId, job, a)
    requires forall n :: n in files ==> n in files'
    ensures JobDone(files', runId, job, a)
  {
  }

  /** Entry `n` is the same in both listings: absent from both, or present in both with the same content. */
  ghost predicate Untouched(before: map<string, FileData>, after: map<string, FileData>, n: string) {
    && (n in after <==> n in before)
    && (n in after ==> after[n] == before[n])
  }

  /** The four files processing a job may write: both sources and both PDFs. */
  function JobFiles(base: string): set<string> {
    {ResumeName(base), LetterName(base), PdfOutputName(ResumeName(base)), PdfOutputName(LetterName(base))}
  }

  /** A listing that is either unchanged or has entry `k` set differs from the old one at `k` only. */
  lemma OneEntryWritten(before: map<string, FileData>, after: map<string, FileData>, k: string)
    requires after == before || (k in after && after == before[k := after[k]])
    ensures k in before ==> k in after
    ensures forall n :: n != k ==> Untouched(before, after, n)
  {
  }

  // ---------------------------------------------------------------------
  // File contents
  // ---------------------------------------------------------------------

  /** Two texts whose endings differ `k` characters from the end are different. */
  lemma DifferentEnds(x: string, y: string, e1: string, e2: string, k: nat)
    requires 1 <= k <= |e1| && k <= |e2| && e1[|e1| - k] != e2[|e2| - k]
    ensures x + e1 != y + e2
  {
    assert (x + e1)[|x + e1| - k] == e1[|e1| - k];
    assert (y + e2)[|y + e2| - k] == e2[|e2| - k];
  }

  /** Equal texts with the same ending have the same beginning. */
  lemma SameEnd(x: string, y: string, e: string)
    ensures x + e == y + e ==> x == y
  {
    if x + e == y + e {
      assert x == (x + e)[..|x|];
    }
  }

  /** A job's four files have four different names. */
  lemma JobFilesDistinct(base: string)
    ensures ResumeName(base) != LetterName(base)
    ensures PdfOutputName(ResumeName(base)) !in {ResumeName(base), LetterName(base)}
    ensures PdfOutputName(LetterName(base)) !in {ResumeName(base), LetterName(base), PdfOutputName(ResumeName(base))}
  {
    PdfNamesOfRenderedFiles(base);
    assert ResumeName(base) != LetterName(base) by {
      DifferentEnds(base, base, "_resume.tex", "_cover.tex", 5);
    }
    assert base + "_resume.pdf" != ResumeName(base) && base + "_resume.pdf" != LetterName(base) by {
      DifferentEnds(base, base, "_resume.pdf", "_resume.tex", 1);
      DifferentEnds(base, base, "_resume.pdf", "_cover.tex", 1);
    }
    assert base + "_cover.pdf" != ResumeName(base) && base + "_cover.pdf" != LetterName(base) by {
      DifferentEnds(base, base, "_cover.pdf", "_resume.tex", 1);
      DifferentEnds(base, base, "_cover.pdf", "_cover.tex", 1);
    }
    assert base + "_cover.pdf" != base + "_resume.pdf" by {
      DifferentEnds(base, base, "_cover.pdf", "_resume.pdf", 5);
    }
  }

  /** Jobs with different file bases never share a file. */
  lemma JobFilesDisjoint(b1: string, b2: string)
    requires b1 != b2
    ensures JobFiles(b1) !! JobFiles(b2)
  {
    PdfNamesOfRenderedFiles(b1);
    PdfNamesOfRenderedFiles(b2);
    var ends := ["_resume.tex", "_cover.tex", "_resume.pdf", "_cover.pdf"];
    assert JobFiles(b1) == {b1 + ends[0], b1 + ends[1], b1 + ends[2], b1 + ends[3]};
    assert JobFiles(b2) == {b2 + ends[0], b2 + ends[1], b2 + ends[2], b2 + ends[3]};
    forall p, q | 0 <= p < 4 && 0 <= q < 4
      ensures b1 + ends[p] != b2 + ends[q]
    {
      if p == q {
        SameEnd(b1, b2, ends[p]);
      } else if p / 2 == q / 2 {
        DifferentEnds(b1, b2, ends[p], ends[q], 5);
      } else {
        DifferentEnds(b1, b2, ends[p], ends[q], 1);
      }
    }
  }

  /** The resume source rendered for `job` from the tailored output `out`. */
  function ResumeText(renderResume: (string, ResumeContext) -> string, profile: Profile, job: JobJD,
                      out: LLMOutput): string
  {
    renderResume(ResumeTemplate(RegionCode(job.region)), ResumeContext(profile, out.resume, job))
  }

  /** The cover letter source rendered for `job` from the tailored output `out`. */
  function LetterText(renderLetter: (string, LetterContext) -> string, profile: Profile, job: JobJD,
                      out: LLMOutput): string
  {
    renderLetter(LetterTemplate(RegionCode(job.region)), LetterContext(profile, out.coverLetter, job))
  }

  /**
   * The PDF entry `compile_tex` leaves for the source `texName` holding
   * `text`: the local toolchain's output when it succeeds, otherwise the
   * Docker one's, and when both fail the entry is as it was in `before`.
   */
  ghost predicate Compiled(before: map<string, FileData>, after: map<string, FileData>, location: string,
                           texName: string, text: string, local: Latexmk, docker: Latexmk)
  {
    var source := Some(TexSource(text));
    var first := local(location, texName, source);
    var second := docker(DockerPath(location), texName, source);
    var pdf := PdfOutputName(texName);
    if first.Ok? then pdf in after && after[pdf] == PdfDocument(first.value)
    else if second.Ok? then pdf in after && after[pdf] == PdfDocument(second.value)
    else Untouched(before, after, pdf)
  }

  /** Both sources under `base` hold the rendered texts, and each PDF entry is what compiling it left. */
  ghost predicate Written(before: map<string, FileData>, after: map<string, FileData>, location: string,
                          base: string, resumeText: string, letterText: string, local: Latexmk, docker: Latexmk)
  {
    && ResumeName(base) in after && after[ResumeName(base)] == TexSource(resumeText)
    && LetterName(base) in after && after[LetterName(base)] == TexSource(letterText)
    && Compiled(before, after, location, ResumeName(base), resumeText, local, docker)
    && Compiled(before, after, location, LetterName(base), letterText, local, docker)
  }

  /** What was written for a base stays written while none of its four files changes. */
  lemma WrittenKept(before: map<string, FileData>, mid: map<string, FileData>, after: map<string, FileData>,
                    location: string, base: string, resumeText: string, letterText: string,
                    local: Latexmk, docker: Latexmk)
    requires Written(before, mid, location, base, resumeText, letterText, local, docker)
    requires forall n :: n in JobFiles(base) ==> Untouched(mid, after, n)
    ensures Written(after, after, location, base, resumeText, letterText, local, docker)
  {
    assert ResumeName(base) in JobFiles(base) && LetterName(base) in JobFiles(base);
    assert PdfOutputName(ResumeName(base)) in JobFiles(base) && PdfOutputName(LetterName(base)) in JobFiles(base);
  }

  /** No job among the first `n` after job `j` has `j`'s file base, so none rewrote `j`'s files. */
  ghost predicate LastWithBase(runId: string, jobs: seq<JobJD>, n: nat, j: nat) {
    && j < n <= |jobs|
    && forall k :: j < k < n ==> FileBase(runId, jobs[k]) != FileBase(runId, jobs[j])
  }

  /**
   * After the first |artifacts| jobs: each job that no later job overwrote
   * has its rendered sources and compiled PDFs in `files`, and its artifact
   * links a PDF exactly when that PDF exists.
   */
  ghost predicate AllWritten(files: map<string, FileData>, location: string, runId: string, profile: Profile,
                             jobs: seq<JobJD>, artifacts: seq<Artifact>,
                             tailor: (Profile, JobJD) -> Result<LLMOutput, PipelineError>,
                             renderResume: (string, ResumeContext) -> string,
                             renderLetter: (string, LetterContext) -> string,
                             local: Latexmk, docker: Latexmk)
  {
    && |artifacts| <= |jobs|
    && forall j :: (0 <= j < |artifacts| && LastWithBase(runId, jobs, |artifacts|, j)
                    && tailor(profile, jobs[j]).Ok?) ==>
         JobWritten(files, location, runId, profile, jobs[j], artifacts[j], tailor(profile, jobs[j]).value,
                    renderResume, renderLetter, local, docker)
  }

  /** The files and links of one job, as `AllWritten` states them. */
  ghost predicate JobWritten(files: map<string, FileData>, location: string, runId: string, profile: Profile,
                             job: JobJD, a: Artifact, out: LLMOutput,
                             renderResume: (string, ResumeContext) -> string,
                             renderLetter: (string, LetterContext) -> string,
                             local: Latexmk, docker: Latexmk)
  {
    var base := FileBase(runId, job);
    && Written(files, files, location, base, ResumeText(renderResume, profile, job, out),
               LetterText(renderLetter, profile, job, out), local, docker)
    && (a.resumePdf.Some? <==> PdfOutputName(ResumeName(base)) in files)
    && (a.coverLetterPdf.Some? <==> PdfOutputName(LetterName(base)) in files)
  }

  /** A job's files and links stay as they are while none of its four files changes. */
  lemma JobWrittenKept(files: map<string, FileData>, files': map<string, FileData>, location: string,
                       runId: string, profile: Profile, job: JobJD, a: Artifact, out: LLMOutput,
                       renderResume: (string, ResumeContext) -> string,
                       renderLetter: (string, LetterContext) -> string,
                       local: Latexmk, docker: Latexmk)
    requires JobWritten(files, location, runId, profile, job, a, out, renderResume, renderLetter, local, docker)
    requires forall n :: n in JobFiles(FileBase(runId, job)) ==> Untouched(files, files', n)
    ensures JobWritten(files', location, runId, profile, job, a, out, renderResume, renderLetter, local, docker)
  {
    var base := FileBase(runId, job);
    WrittenKept(files, files, files', location, base, ResumeText(renderResume, profile, job, out),
                LetterText(renderLetter, profile, job, out), local, docker);
    assert PdfOutputName(ResumeName(base)) in JobFiles(base) && PdfOutputName(LetterName(base)) in JobFiles(base);
  }

  /**
   * Processing the next job keeps every earlier job that has another file
   * base, and adds the next job itself.
   */
  lemma AllWrittenStep(before: map<string, FileData>, after: map<string, FileData>, location: string,
                       runId: string, profile: Profile, jobs: seq<JobJD>, artifacts: seq<Artifact>, a: Artifact,
                       tailor: (Profile, JobJD) -> Result<LLMOutput, PipelineError>,
                       renderResume: (string, ResumeContext) -> string,
                       renderLetter: (string, LetterContext) -> string,
                       local: Latexmk, docker: Latexmk)
    requires AllWritten(before, location, runId, profile, jobs, artifacts, tailor, renderResume, renderLetter, local, docker)
    requires |artifacts| < |jobs| && tailor(profile, jobs[|artifacts|]).Ok?
    requires forall n :: n !in JobFiles(FileBase(runId, jobs[|artifacts|])) ==> Untouched(before, after, n)
    requires JobWritten(after, location, runId, profile, jobs[|artifacts|], a, tailor(profile, jobs[|artifacts|]).value,
                        renderResume, renderLetter, local, docker)
    ensures AllWritten(after, location, runId, profile, jobs, artifacts + [a], tailor, renderResume, renderLetter, local, docker)
  {
    var n := |artifacts|;
    var all := artifacts + [a];
    forall j | 0 <= j < |all| && LastWithBase(runId, jobs, |all|, j) && tailor(profile, jobs[j]).Ok?
      ensures JobWritten(after, location, runId, profile, jobs[j], all[j], tailor(profile, jobs[j]).value,
                         renderResume, renderLetter, local, docker)
    {
      if j < n {
        assert LastWithBase(runId, jobs, n, j);
        assert all[j] == artifacts[j];
        JobFilesDisjoint(FileBase(runId, jobs[n]), FileBase(runId, jobs[j]));
        JobWrittenKept(before, after, location, runId, profile, jobs[j], artifacts[j], tailor(profile, jobs[j]).value,
                       renderResume, renderLetter, local, docker);
      }
    }
  }

  /** Writing the run's archive leaves every job's files and links as they were. */
  lemma AllWrittenArchive(before: map<string, FileData>, after: map<string, FileData>, location: string,
                          runId: string, profile: Profile, jobs: seq<JobJD>, artifacts: seq<Artifact>,
                          tailor: (Profile, JobJD) -> Result<LLMOutput, PipelineError>,
                          renderResume: (string, ResumeContext) -> string,
                          renderLetter: (string, LetterContext) -> string,
                          local: Latexmk, docker: Latexmk, archive: FileData)
    requires AllWritten(before, location, runId, profile, jobs, artifacts, tailor, renderResume, renderLetter, local, docker)
    requires after == before[ArchiveName(runId) := archive]
    ensures AllWritten(after, location, runId, profile, jobs, artifacts, tailor, renderResume, renderLetter, local, docker)
  {
    forall j | 0 <= j < |artifacts| && LastWithBase(runId, jobs, |artifacts|, j) && tailor(profile, jobs[j]).Ok?
      ensures JobWritten(after, location, runId, profile, jobs[j], artifacts[j], tailor(profile, jobs[j]).value,
                         renderResume, renderLetter, local, docker)
    {
      ArchiveNotJobFile(runId, FileBase(runId, jobs[j]));
      JobWrittenKept(before, after, location, runId, profile, jobs[j], artifacts[j], tailor(profile, jobs[j]).value,
                     renderResume, renderLetter, local, docker);
    }
  }

  /**
   * One turn of the loop of `generate`: after the next job is processed,
   * the run's archive is still untouched and the processed prefix grows by
   * that job.
   */
  lemma JobStep(start: map<string, FileData>, before: map<string, FileData>, after: map<string, FileData>,
                location: string, runId: string, profile: Profile, jobs: seq<JobJD>, artifacts: seq<Artifact>,
                a: Artifact,
                tailor: (Profile, JobJD) -> Result<LLMOutput, PipelineError>,
                renderResume: (string, ResumeContext) -> string,
                renderLetter: (string, LetterContext) -> string,
                local: Latexmk, docker: Latexmk)
    requires |artifacts| < |jobs| && tailor(profile, jobs[|artifacts|]).Ok?
    requires Untouched(start, before, ArchiveName(runId))
    requires AllDone(before, runId, jobs, artifacts)
    requires AllWritten(before, location, runId, profile, jobs, artifacts, tailor, renderResume, renderLetter, local, docker)
    requires var job := jobs[|artifacts|];
      var out := tailor(profile, job).value;
      var base := FileBase(runId, job);
      && JobDone(after, runId, job, a)
      && Written(before, after, location, base, ResumeText(renderResume, profile, job, out),
                 LetterText(renderLetter, profile, job, out), local, docker)
      && (a.resumePdf.Some? <==> PdfOutputName(ResumeName(base)) in after)
      && (a.coverLetterPdf.Some? <==> PdfOutputName(LetterName(base)) in after)
      && (forall n :: n in before ==> n in after)
      && (forall n :: n !in JobFiles(base) ==> Untouched(before, after, n))
    ensures Untouched(start, after, ArchiveName(runId))
    ensures AllDone(after, runId, jobs, artifacts + [a])
    ensures AllWritten(after, location, runId, profile, jobs, artifacts + [a], tailor, renderResume, renderLetter, local, docker)
  {
    var job := jobs[|artifacts|];
    var out := tailor(profile, job).value;
    ArchiveNotJobFile(runId, FileBase(runId, job));
    AllDoneStep(before, after, runId, jobs, artifacts, a);
    WrittenKept(before, after, after, location, FileBase(runId, job), ResumeText(renderResume, profile, job, out),
                LetterText(renderLetter, profile, job, out), local, docker);
    AllWrittenStep(before, after, location, runId, profile, jobs, artifacts, a,
                   tailor, renderResume, renderLetter, local, docker);
  }

  /** Names ending in ".tex" or ".pdf" are never archives. */
  lemma NotAnArchive(name: string)
    requires EndsWith(name, ".tex") || EndsWith(name, ".pdf")
    ensures !EndsWith(name, ".zip")
  {
    assert name[|name| - 4..][1] == name[|name| - 3];
  }

  /** Processing a job never writes the run's archive. */
  lemma ArchiveNotJobFile(runId: string, base: string)
    ensures ArchiveName(runId) !in JobFiles(base)
  {
    var z := ArchiveName(runId);
    assert EndsWith(z, ".zip") by {
      assert z[|z| - 4..] == ".zip";
    }
    assert z != ResumeName(base) && z != LetterName(base) by {
      RenderedNamesDistinct(base);
      NotAnArchive(ResumeName(base));
      NotAnArchive(LetterName(base));
    }
    assert z != PdfOutputName(ResumeName(base)) by {
      NotAnArchive(PdfOutputName(ResumeName(base)));
    }
    assert z != PdfOutputName(LetterName(base)) by {
      NotAnArchive(PdfOutputName(LetterName(base)));
    }
  }

  /**
   * Render both documents under `base`, then compile the resume and then
   * the letter: only the job's four files may change.
   */
  method RenderAndCompile(dir: ArtifactDir, base: string, resumeCtx: ResumeContext, letterCtx: LetterContext,
                          region: string,
                          renderResume: (string, ResumeContext) -> string,
                          renderLetter: (string, LetterContext) -> string,
                          local: Latexmk, docker: Latexmk)
    returns (resumeTex: string, letterTex: string)
    modifies dir
    ensures resumeTex == ResumeName(base) && letterTex == LetterName(base)
    ensures resumeTex in dir.files && letterTex in dir.files
    ensures Written(old(dir.files), dir.files, dir.location, base, renderResume(ResumeTemplate(region), resumeCtx),
                    renderLetter(LetterTemplate(region), letterCtx), local, docker)
    ensures forall n :: n in old(dir.files) ==> n in dir.files
    ensures forall n :: n !in JobFiles(base) ==> Untouched(old(dir.files), dir.files, n)
  {
    ghost var resumeText := renderResume(ResumeTemplate(region), resumeCtx);
    ghost var letterText := renderLetter(LetterTemplate(region), letterCtx);
    JobFilesDistinct(base);
    resumeTex, letterTex := dir.RenderTex(resumeCtx, letterCtx, region, base, renderResume, renderLetter);
    ghost var rendered := dir.files;
    assert dir.Source(resumeTex) == Some(TexSource(resumeText));
    var _ := dir.CompileTex(resumeTex, local, docker);
    ghost var first := dir.files;
    OneEntryWritten(rendered, first, PdfOutputName(resumeTex));
    assert dir.Source(letterTex) == Some(TexSource(letterText));
    var _ := dir.CompileTex(letterTex, local, docker);
    OneEntryWritten(first, dir.files, PdfOutputName(letterTex));
    forall n | n !in JobFiles(base)
      ensures Untouched(old(dir.files), dir.files, n)
    {
      assert Untouched(old(dir.files), rendered, n);
      assert Untouched(rendered, first, n) && Untouched(first, dir.files, n);
    }
    assert Compiled(old(dir.files), dir.files, dir.location, resumeTex, resumeText, local, docker) by {
      var pdf := PdfOutputName(resumeTex);
      assert Untouched(old(dir.files), rendered, pdf) && Untouched(first, dir.files, pdf);
    }
    assert Compiled(old(dir.files), dir.files, dir.location, letterTex, letterText, local, docker) by {
      var pdf := PdfOutputName(letterTex);
      assert Untouched(old(dir.files), rendered, pdf) && Untouched(rendered, first, pdf);
    }
  }

  /**
   * The loop body after tailoring: render and compile the job's documents,
   * and link each PDF only when it exists.
   */
  method ProcessJob(dir: ArtifactDir, runId: string, profile: Profile, job: JobJD, out: LLMOutput,
                    renderResume: (string, ResumeContext) -> string,
                    renderLetter: (string, LetterContext) -> string,
                    local: Latexmk, docker: Latexmk)
    returns (a: Artifact)
    modifies dir
    ensures JobDone(dir.files, runId, job, a)
    ensures Written(old(dir.files), dir.files, dir.location, FileBase(runId, job),
                    ResumeText(renderResume, profile, job, out), LetterText(renderLetter, profile, job, out), local, docker)
    ensures a.resumePdf.Some? <==> PdfOutputName(ResumeName(FileBase(runId, job))) in dir.files
    ensures a.coverLetterPdf.Some? <==> PdfOutputName(LetterName(FileBase(runId, job))) in dir.files
    ensures forall n :: n in old(dir.files) ==> n in dir.files
    ensures forall n :: n !in JobFiles(FileBase(runId, job)) ==> Untouched(old(dir.files), dir.files, n)
  {
    var base := FileBase(runId, job);
    var resumeTex, letterTex := RenderAndCompile(dir, base, ResumeContext(profile, out.resume, job),
                                                 LetterContext(profile, out.coverLetter, job),
                                                 RegionCode(job.region), renderResume, renderLetter, local, docker);
    var resumePdf := PdfOutputName(resumeTex);
    var letterPdf := PdfOutputName(letterTex);
    a := Artifact(JobKey(job), job.region, ArtifactsUrl + resumeTex, ArtifactsUrl + letterTex, None, None);
    if resumePdf in dir.files {
      a := a.(resumePdf := Some(ArtifactsUrl + resumePdf));
    }
    if letterPdf in dir.files {
      a := a.(coverLetterPdf := Some(ArtifactsUrl + letterPdf));
    }
  }

  /** The first job whose tailoring fails is job `i`. */
  predicate FirstFailure(tailor: (Profile, JobJD) -> Result<LLMOutput, PipelineError>,
                         request: GenerateRequest, i: int)
  {
    && 0 <= i < |request.jobs|
    && tailor(request.profile, request.jobs[i]).Err?
    && forall j :: 0 <= j < i ==> tailor(request.profile, request.jobs[j]).Ok?
  }

  lemma ArchiveHoldsListed(name: string, pdfOrder: seq<string>, texOrder: seq<string>,
                           source: map<string, FileData>)
    requires forall n :: n in pdfOrder ==> n in source
    requires forall n :: n in texOrder ==> n in source
    requires name in texOrder
    ensures name in EntryNames(Entries(pdfOrder, source) + Entries(texOrder, source))
  {
    var k :| 0 <= k < |texOrder| && texOrder[k] == name;
    assert (Entries(pdfOrder, source) + Entries(texOrder, source))[|pdfOrder| + k].0 == name;
  }

  /** An archive `bundle` builds from `listing` holds both rendered files of every job of the run. */
  lemma ArchiveHoldsRendered(jobs: seq<JobJD>, artifacts: seq<Artifact>, runId: string,
                              listing: map<string, FileData>, archive: FileData)
    requires |artifacts| == |jobs| && AllDone(listing, runId, jobs, artifacts)
    requires exists pdfOrder, texOrder :: (
      && Enumerates(pdfOrder, Selection(listing.Keys, runId, ".pdf"))
      && Enumerates(texOrder, Selection(listing.Keys, runId, ".tex"))
      && archive == Archive(Entries(pdfOrder, listing) + Entries(texOrder, listing)))
    ensures archive.Archive?
    ensures forall j :: 0 <= j < |jobs| ==>
      ResumeName(FileBase(runId, jobs[j])) in EntryNames(archive.entries)
      && LetterName(FileBase(runId, jobs[j])) in EntryNames(archive.entries)
  {
    var pdfOrder, texOrder :|
      && Enumerates(pdfOrder, Selection(listing.Keys, runId, ".pdf"))
      && Enumerates(texOrder, Selection(listing.Keys, runId, ".tex"))
      && archive == Archive(Entries(pdfOrder, listing) + Entries(texOrder, listing));
    forall j | 0 <= j < |jobs|
      ensures ResumeName(FileBase(runId, jobs[j])) in EntryNames(archive.entries)
      ensures LetterName(FileBase(runId, jobs[j])) in EntryNames(archive.entries)
    {
      assert JobDone(listing, runId, jobs[j], artifacts[j]);
      RenderedFilesSelected(runId, jobs[j]);
      ArchiveHoldsListed(ResumeName(FileBase(runId, jobs[j])), pdfOrder, texOrder, listing);
      ArchiveHoldsListed(LetterName(FileBase(runId, jobs[j])), pdfOrder, texOrder, listing);
    }
  }

  /**
   * One turn of the loop of `generate` once the next job is tailored:
   * process it and keep the loop's invariants for the longer prefix.
   */
  method ProcessNext(dir: ArtifactDir, ghost start: map<string, FileData>, runId: string, profile: Profile,
                     jobs: seq<JobJD>, artifacts: seq<Artifact>,
                     tailor: (Profile, JobJD) -> Result<LLMOutput, PipelineError>,
                     renderResume: (string, ResumeContext) -> string,
                     renderLetter: (string, LetterContext) -> string,
                     local: Latexmk, docker: Latexmk)
    returns (a: Artifact)
    requires |artifacts| < |jobs| && tailor(profile, jobs[|artifacts|]).Ok?
    requires Untouched(start, dir.files, ArchiveName(runId))
    requires AllDone(dir.files, runId, jobs, artifacts)
    requires AllWritten(dir.files, dir.location, runId, profile, jobs, artifacts,
                        tailor, renderResume, renderLetter, local, docker)
    modifies dir
    ensures Untouched(start, dir.files, ArchiveName(runId))
    ensures AllDone(dir.files, runId, jobs, artifacts + [a])
    ensures AllWritten(dir.files, dir.location, runId, profile, jobs, artifacts + [a],
                       tailor, renderResume, renderLetter, local, docker)
  {
    ghost var before := dir.files;
    var job := jobs[|artifacts|];
    a := ProcessJob(dir, runId, profile, job, tailor(profile, job).value, renderResume, renderLetter, local, docker);
    JobStep(start, before, dir.files, dir.location, runId, profile, jobs, artifacts, a,
            tailor, renderResume, renderLetter, local, docker);
  }

  /**
   * The loop of `generate`: tailor, render and compile each job in order;
   * the first tailoring failure ends it with status 400.
   */
  method ProcessJobs(dir: ArtifactDir, request: GenerateRequest, runId: string,
                     tailor: (Profile, JobJD) -> Result<LLMOutput, PipelineError>,
                     renderResume: (string, ResumeContext) -> string,
                     renderLetter: (string, LetterContext) -> string,
                     local: Latexmk, docker: Latexmk)
    returns (r: Result<seq<Artifact>, HttpError>)
    modifies dir
    ensures r.Ok? <==> forall i :: 0 <= i < |request.jobs| ==> tailor(request.profile, request.jobs[i]).Ok?
    ensures r.Err? ==> exists i :: (FirstFailure(tailor, request, i)
      && r.error == HttpError(400, "LLM/validation error: " + tailor(request.profile, request.jobs[i]).error.message))
    ensures Untouched(old(dir.files), dir.files, ArchiveName(runId))
    ensures r.Ok? ==> |r.value| == |request.jobs| && AllDone(dir.files, runId, request.jobs, r.value)
    ensures r.Ok? ==> AllWritten(dir.files, dir.location, runId, request.profile, request.jobs, r.value,
                                 tailor, renderResume, renderLetter, local, docker)
  {
    var jobs := request.jobs;
    var artifacts: seq<Artifact> := [];
    var i := 0;
    while i < |jobs|
      invariant 0 <= i <= |jobs|
      invariant |artifacts| == i
      invariant forall j :: 0 <= j < i ==> tailor(request.profile, jobs[j]).Ok?
      invariant AllDone(dir.files, runId, jobs, artifacts)
      invariant Untouched(old(dir.files), dir.files, ArchiveName(runId))
      invariant AllWritten(dir.files, dir.location, runId, request.profile, jobs, artifacts,
                           tailor, renderResume, renderLetter, local, docker)
    {
      var job := jobs[i];
      var outcome := tailor(request.profile, job);
      if outcome.Err? {
        assert FirstFailure(tailor, request, i);
        return Err(HttpError(400, "LLM/validation error: " + outcome.error.message));
      }
      var a := ProcessNext(dir, old(dir.files), runId, request.profile, jobs, artifacts,
                           tailor, renderResume, renderLetter, local, docker);
      artifacts := artifacts + [a];
      i := i + 1;
    }
    r := Ok(artifacts);
  }

  /**
   * `generate`: one artifact per job in job order; the first tailoring
   * failure ends the request with status 400 before anything is bundled;
   * otherwise the run's files are bundled and the archive link returned.
   */
  method Generate(dir: ArtifactDir, request: GenerateRequest, runId: string,
                  tailor: (Profile, JobJD) -> Result<LLMOutput, PipelineError>,
                  renderResume: (string, ResumeContext) -> string,
                  renderLetter: (string, LetterContext) -> string,
                  local: Latexmk, docker: Latexmk)
    returns (r: Result<GenerateResponse, HttpError>)
    modifies dir
    ensures r.Ok? <==> forall i :: 0 <= i < |request.jobs| ==> tailor(request.profile, request.jobs[i]).Ok?
    ensures r.Err? ==> exists i :: (FirstFailure(tailor, request, i)
      && r.error == HttpError(400, "LLM/validation error: " + tailor(request.profile, request.jobs[i]).error.message))
    ensures r.Err? ==> Untouched(old(dir.files), dir.files, ArchiveName(runId))
    ensures r.Ok? ==> r.value.run == runId && r.value.zip == ArtifactsUrl + ArchiveName(runId)
    ensures r.Ok? ==> |r.value.artifacts| == |request.jobs| && AllDone(dir.files, runId, request.jobs, r.value.artifacts)
    ensures r.Ok? ==> (ArchiveName(runId) in dir.files && dir.files[ArchiveName(runId)].Archive?
      && forall i :: 0 <= i < |request.jobs| ==>
        var entries := dir.files[ArchiveName(runId)].entries;
        ResumeName(FileBase(runId, request.jobs[i])) in EntryNames(entries)
        && LetterName(FileBase(runId, request.jobs[i])) in EntryNames(entries))
    ensures r.Ok? ==> AllWritten(dir.files, dir.location, runId, request.profile, request.jobs, r.value.artifacts,
                                 tailor, renderResume, renderLetter, local, docker)
  {
    var processed := ProcessJobs(dir, request, runId, tailor, renderResume, renderLetter, local, docker);
    if processed.Err? {
      return Err(processed.error);
    }
    ghost var listing := dir.files;
    var zipName := dir.Bundle(runId);
    ArchiveHoldsRendered(request.jobs, processed.value, runId, listing, dir.files[zipName]);
    AllDoneKept(listing, dir.files, runId, request.jobs, processed.value);
    AllWrittenArchive(listing, dir.files, dir.location, runId, request.profile, request.jobs, processed.value,
                      tailor, renderResume, renderLetter, local, docker, dir.files[zipName]);
    r := Ok(GenerateResponse(runId, processed.value, ArtifactsUrl + zipName));
  }
}
