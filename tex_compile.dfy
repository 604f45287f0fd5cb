/**
 * Document production (server/app/core/tex_compile.py): the region to
 * template lookups, the artifacts directory with the files `render_tex`
 * writes, the two-stage LaTeX compilation and the per-run archive.
 *
 * The directory is an `ArtifactDir` object holding its files by name; the
 * template engine and the two LaTeX toolchains are function parameters.
 */
module TexCompile {
  import opened Wrappers
  import opened Strings
  import opened Models
  import Tailor

  // ---------------------------------------------------------------------
  // Templates
  // ---------------------------------------------------------------------

  const ResumeTemplates: map<string, string> := map[
    "US" := "resume_us_onepage.tex.j2",
    "EU" := "resume_eu_twopage.tex.j2",
    "GL" := "resume_gl_onepage.tex.j2"]

  const LetterTemplates: map<string, string> := map[
    "US" := "cover_letter_simple.tex.j2",
    "EU" := "cover_letter_simple.tex.j2",
    "GL" := "cover_letter_standard_global.tex.j2"]

  /** `REGION_RESUME_TEMPLATE.get(region, REGION_RESUME_TEMPLATE["GL"])`. */
  function ResumeTemplate(region: string): (r: string)
    ensures r in ResumeTemplates.Values
  {
    if region in ResumeTemplates then ResumeTemplates[region] else ResumeTemplates["GL"]
  }

  /** `REGION_LETTER_TEMPLATE.get(region, REGION_LETTER_TEMPLATE["GL"])`. */
  function LetterTemplate(region: string): (r: string)
    ensures r in LetterTemplates.Values
  {
    if region in LetterTemplates then LetterTemplates[region] else LetterTemplates["GL"]
  }

  /** Each region has its own resume layout, and any other region falls back to the global one. */
  lemma ResumeTemplateLookup(region: string)
    ensures ResumeTemplate("US") != ResumeTemplate("EU")
    ensures ResumeTemplate("EU") != ResumeTemplate("GL")
    ensures ResumeTemplate("US") != ResumeTemplate("GL")
    ensures region !in {"US", "EU", "GL"} ==> ResumeTemplate(region) == "resume_gl_onepage.tex.j2"
  {
  }

  /** US and EU share the simple letter; GL and every other region get the global one. */
  lemma LetterTemplateLookup(region: string)
    ensures LetterTemplate("US") == LetterTemplate("EU") == "cover_letter_simple.tex.j2"
    ensures region !in {"US", "EU"} ==> LetterTemplate(region) == "cover_letter_standard_global.tex.j2"
  {
  }

  /** The page budget a resume template is laid out for, read off its name. */
  function TemplatePages(template: string): nat {
    if EndsWith(template, "_twopage.tex.j2") then 2 else 1
  }

  /** The EU layout is the only two-page resume template. */
  lemma ResumeTemplatePages()
    ensures TemplatePages("resume_us_onepage.tex.j2") == 1
    ensures TemplatePages("resume_eu_twopage.tex.j2") == 2
    ensures TemplatePages("resume_gl_onepage.tex.j2") == 1
  {
    assert "resume_eu_twopage.tex.j2"[9..] == "_twopage.tex.j2";
    assert "resume_us_onepage.tex.j2"[9..] != "_twopage.tex.j2" by {
      assert "resume_us_onepage.tex.j2"[9..][1] != "_twopage.tex.j2"[1];
    }
    assert "resume_gl_onepage.tex.j2"[9..] != "_twopage.tex.j2" by {
      assert "resume_gl_onepage.tex.j2"[9..][1] != "_twopage.tex.j2"[1];
    }
  }

  /**
   * For the three regions a job can name, the resume layout has the page
   * count the prompt's region rules announce. The lookups disagree only for
   * a region outside the enumeration: one-page layout, two-page rules.
   */
  lemma TemplateMatchesRules(region: Region, other: string)
    requires other !in {"US", "EU", "GL"}
    ensures TemplatePages(ResumeTemplate(RegionCode(region))) == Tailor.RegionRules(RegionCode(region)).pages
    ensures TemplatePages(ResumeTemplate(other)) == 1 && Tailor.RegionRules(other).pages == 2
  {
    ResumeTemplatePages();
  }

  // ---------------------------------------------------------------------
  // Files and names
  // ---------------------------------------------------------------------

  /** The content of a file in the artifacts directory. */
  datatype FileData =
    | TexSource(text: string)
    | PdfDocument(content: string)
    | Archive(entries: seq<(string, FileData)>)
    | OtherFile(content: string)

  /** What the templates are rendered with: the profile, one part of the generated output, the job. */
  datatype ResumeContext = ResumeContext(profile: Profile, out: OutResume, job: JobJD)
  datatype LetterContext = LetterContext(profile: Profile, out: OutCoverLetter, job: JobJD)

  function ResumeName(outBase: string): string {
    outBase + "_resume.tex"
  }

  function LetterName(outBase: string): string {
    outBase + "_cover.tex"
  }

  /** The two names `render_tex` writes never coincide, and both keep the base as prefix. */
  lemma RenderedNamesDistinct(outBase: string)
    ensures ResumeName(outBase) != LetterName(outBase)
    ensures StartsWith(ResumeName(outBase), outBase) && StartsWith(LetterName(outBase), outBase)
    ensures EndsWith(ResumeName(outBase), ".tex") && EndsWith(LetterName(outBase), ".tex")
  {
    assert |ResumeName(outBase)| != |LetterName(outBase)|;
    assert ResumeName(outBase)[|ResumeName(outBase)| - 4..] == ".tex";
    assert LetterName(outBase)[|LetterName(outBase)| - 4..] == ".tex";
  }

  /** The name latexmk gives the PDF of a source file: the `.tex` extension becomes `.pdf`. */
  function PdfOutputName(texName: string): (r: string)
    ensures EndsWith(r, ".pdf")
    ensures EndsWith(texName, ".tex") ==> |r| == |texName| && r[..|r| - 4] == texName[..|texName| - 4]
  {
    var stem := if EndsWith(texName, ".tex") then texName[..|texName| - 4] else texName;
    assert (stem + ".pdf")[|stem|..] == ".pdf";
    stem + ".pdf"
  }

  /**
   * Character `i` of the Docker mount path: a backslash becomes '/', and
   * each "C:" becomes "/c"; every other character is kept.
   */
  function DockerChar(cwd: string, i: nat): char
    requires i < |cwd|
  {
    if cwd[i] == '\\' then '/'
    else if i + 1 < |cwd| && cwd[i] == 'C' && cwd[i + 1] == ':' then '/'
    else if 0 < i && cwd[i - 1] == 'C' && cwd[i] == ':' then 'c'
    else cwd[i]
  }

  /**
   * `_docker_latexmk`'s rewrite of a Windows directory into a Docker mount
   * path: backslashes become slashes, then every "C:" becomes "/c".
   */
  function DockerPath(cwd: string): (r: string)
    ensures |r| == |cwd|
    ensures forall i :: 0 <= i < |cwd| ==> r[i] == DockerChar(cwd, i)
    ensures '\\' !in r
    ensures !Occurs(r, "C:")
    ensures !Occurs(cwd, "\\") && !Occurs(cwd, "C:") ==> r == cwd
  {
    var slashed := ReplaceAll(cwd, "\\", "/");
    ReplaceCharRemoves(cwd, '\\', '/');
    ReplaceAllKeepsOut(slashed, "C:", "/c", '\\');
    ReplacePairGone(slashed, "C:", "/c");
    var r := ReplaceAll(slashed, "C:", "/c");
    assert |r| == |cwd| && forall i :: 0 <= i < |cwd| ==> r[i] == DockerChar(cwd, i) by {
      ReplaceCharAt(cwd, "\\", "/");
      ReplacePairAt(slashed, "C:", "/c");
      forall i | 0 <= i < |cwd|
        ensures r[i] == DockerChar(cwd, i)
      {
        assert r[i] == PairReplacedAt(slashed, "C:", "/c", i);
      }
    }
    assert !Occurs(cwd, "\\") && !Occurs(cwd, "C:") ==> r == cwd by {
      if !Occurs(cwd, "\\") && !Occurs(cwd, "C:") {
        ReplaceAllAbsent(cwd, "\\", "/");
        ReplaceAllAbsent(cwd, "C:", "/c");
      }
    }
    r
  }

  /** How `compile_tex` ended: it never raises, whatever the two toolchains do. */
  datatype CompileOutcome =
    | LocalOk
    | DockerOk(localError: string)
    | BothFailed(localError: string, dockerError: string)

  /**
   * A LaTeX toolchain run: working directory (or mount path), file name and
   * the file found there, to the PDF it produces or the reason it failed.
   */
  type Latexmk = (string, string, Option<FileData>) -> Result<string, string>

  // ---------------------------------------------------------------------
  // Archive selection
  // ---------------------------------------------------------------------

  /** `glob` of `run_id + "_*" + ext`: the prefix and the extension, which may not overlap. */
  predicate Matches(name: string, runId: string, ext: string) {
    |runId| + 1 + |ext| <= |name| && StartsWith(name, runId + "_") && EndsWith(name, ext)
  }

  function Selection(listing: set<string>, runId: string, ext: string): set<string> {
    set n | n in listing && Matches(n, runId, ext)
  }

  function ArchiveName(runId: string): string {
    runId + "_bundle.zip"
  }

  function EntryNames(entries: seq<(string, FileData)>): set<string> {
    set i | 0 <= i < |entries| :: entries[i].0
  }

  predicate DistinctNames(entries: seq<(string, FileData)>) {
    forall i, j :: 0 <= i < j < |entries| ==> entries[i].0 != entries[j].0
  }

  /** `order` lists every name of `names` once, in some order: a directory listing. */
  predicate Enumerates(order: seq<string>, names: set<string>) {
    && (forall i, j :: 0 <= i < j < |order| ==> order[i] != order[j])
    && (forall n :: n in order ==> n in names)
    && (forall n :: n in names ==> n in order)
  }

  lemma {:induction false} EnumerationExists(names: set<string>)
    ensures exists order :: Enumerates(order, names)
    decreases names
  {
    if names == {} {
      assert Enumerates([], names);
    } else {
      var x :| x in names;
      EnumerationExists(names - {x});
      var rest :| Enumerates(rest, names - {x});
      assert Enumerates([x] + rest, names) by {
        forall i, j | 0 <= i < j < |[x] + rest|
          ensures ([x] + rest)[i] != ([x] + rest)[j]
        {
          if i == 0 {
            assert ([x] + rest)[j] == rest[j - 1];
          } else {
            assert ([x] + rest)[i] == rest[i - 1] && ([x] + rest)[j] == rest[j - 1];
          }
        }
      }
    }
  }

  /** Archive entries for the listed names, each with the content `source` holds for it. */
  function Entries(order: seq<string>, source: map<string, FileData>): (r: seq<(string, FileData)>)
    requires forall n :: n in order ==> n in source
    ensures |r| == |order|
    ensures forall i :: 0 <= i < |order| ==> r[i] == (order[i], source[order[i]])
  {
    seq(|order|, i requires 0 <= i < |order| => (order[i], source[order[i]]))
  }

  /**
   * Archive entries built from two listings of disjoint name sets name every
   * listed file exactly once.
   */
  lemma EntriesNameEachOnce(first: seq<string>, second: seq<string>, a: set<string>, b: set<string>,
                            source: map<string, FileData>)
    requires Enumerates(first, a) && Enumerates(second, b) && a !! b
    requires a <= source.Keys && b <= source.Keys
    ensures EntryNames(Entries(first, source) + Entries(second, source)) == a + b
    ensures DistinctNames(Entries(first, source) + Entries(second, source))
  {
    var e := Entries(first, source) + Entries(second, source);
    forall n | n in a + b
      ensures n in EntryNames(e)
    {
      if n in a {
        var i :| 0 <= i < |first| && first[i] == n;
        assert e[i].0 == n;
      } else {
        var i :| 0 <= i < |second| && second[i] == n;
        assert e[|first| + i].0 == n;
      }
    }
    forall i, j | 0 <= i < j < |e|
      ensures e[i].0 != e[j].0
    {
      if j < |first| {
      } else if |first| <= i {
        assert e[i].0 == second[i - |first|] && e[j].0 == second[j - |first|];
      } else {
        assert e[i].0 == first[i] && e[j].0 == second[j - |first|];
        assert first[i] in a && second[j - |first|] in b;
      }
    }
  }

  /** A file name cannot end in both `.pdf` and `.tex`. */
  lemma PdfAndTexDisjoint(listing: set<string>, runId: string)
    ensures Selection(listing, runId, ".pdf") !! Selection(listing, runId, ".tex")
  {
    forall n | n in Selection(listing, runId, ".pdf")
      ensures n !in Selection(listing, runId, ".tex")
    {
      assert n[|n| - 4..][1] == 'p';
    }
  }

  /**
   * An archive built as `bundle` builds it names each PDF and `.tex` file of
   * the run exactly once, nothing else, and all PDFs before all sources.
   */
  lemma BundledArchive(listing: map<string, FileData>, runId: string, pdfOrder: seq<string>, texOrder: seq<string>)
    requires Enumerates(pdfOrder, Selection(listing.Keys, runId, ".pdf"))
    requires Enumerates(texOrder, Selection(listing.Keys, runId, ".tex"))
    ensures var e := Entries(pdfOrder, listing) + Entries(texOrder, listing);
      && EntryNames(e) == Selection(listing.Keys, runId, ".pdf") + Selection(listing.Keys, runId, ".tex")
      && DistinctNames(e)
      && (forall i :: 0 <= i < |e| ==> (i < |pdfOrder| <==> EndsWith(e[i].0, ".pdf")))
  {
    PdfAndTexDisjoint(listing.Keys, runId);
    EntriesNameEachOnce(pdfOrder, texOrder, Selection(listing.Keys, runId, ".pdf"),
                        Selection(listing.Keys, runId, ".tex"), listing);
    var e := Entries(pdfOrder, listing) + Entries(texOrder, listing);
    forall i | 0 <= i < |e|
      ensures i < |pdfOrder| <==> EndsWith(e[i].0, ".pdf")
    {
      if i < |pdfOrder| {
        assert e[i].0 == pdfOrder[i];
        assert e[i].0 in Selection(listing.Keys, runId, ".pdf");
      } else {
        var n := texOrder[i - |pdfOrder|];
        assert e[i].0 == n;
        assert n in Selection(listing.Keys, runId, ".tex");
        assert n[|n| - 4..][1] == 't';
      }
    }
  }

  /** No archive of any run is ever picked up by a PDF or `.tex` pattern. */
  lemma ArchiveNotSelected(runId: string, other: string)
    ensures !Matches(ArchiveName(other), runId, ".pdf") && !Matches(ArchiveName(other), runId, ".tex")
  {
    var z := ArchiveName(other);
    assert z[|z| - 4..] == ".zip";
  }

  /** Two different run ids of the same length (uuid4 strings) select disjoint sets of files. */
  lemma RunsDoNotMix(runId: string, other: string, name: string, ext: string, ext2: string)
    requires |runId| == |other| && runId != other
    ensures Matches(name, runId, ext) ==> !Matches(name, other, ext2)
  {
    if Matches(name, runId, ext) {
      assert name[..|runId|] == (runId + "_")[..|runId|] == runId;
    }
  }

  lemma SelectionWithArchive(listing: set<string>, runId: string, ext: string)
    requires ext in {".pdf", ".tex"}
    ensures Selection(listing + {ArchiveName(runId)}, runId, ext) == Selection(listing, runId, ext)
  {
    ArchiveNotSelected(runId, runId);
  }

  // ---------------------------------------------------------------------
  // The artifacts directory
  // ---------------------------------------------------------------------

  class ArtifactDir {
    /** `ART_DIR`: where the directory lives, as the toolchains are told. */
    const location: string
    /** The files of the directory by base name. */
    var files: map<string, FileData>

    constructor (location: string, files: map<string, FileData>)
      ensures this.location == location && this.files == files
    {
      this.location := location;
      this.files := files;
    }

    function Source(name: string): Option<FileData>
      reads this
    {
      if name in files then Some(files[name]) else None
    }

    /**
     * `render_tex`: renders the region's resume and letter templates and
     * writes `out_base + "_resume.tex"` and `out_base + "_cover.tex"`,
     * replacing any earlier files of those names.
     */
    method RenderTex(resumeCtx: ResumeContext, letterCtx: LetterContext, region: string, outBase: string,
                     renderResume: (string, ResumeContext) -> string,
                     renderLetter: (string, LetterContext) -> string)
      returns (resumeName: string, letterName: string)
      modifies this
      ensures resumeName == ResumeName(outBase) && letterName == LetterName(outBase)
      ensures files == old(files)
        [resumeName := TexSource(renderResume(ResumeTemplate(region), resumeCtx))]
        [letterName := TexSource(renderLetter(LetterTemplate(region), letterCtx))]
    {
      var resumeTemplate := ResumeTemplate(region);
      var letterTemplate := LetterTemplate(region);
      var texResume := renderResume(resumeTemplate, resumeCtx);
      var texLetter := renderLetter(letterTemplate, letterCtx);
      resumeName := ResumeName(outBase);
      letterName := LetterName(outBase);
      files := files[resumeName := TexSource(texResume)];
      files := files[letterName := TexSource(texLetter)];
    }

    /**
     * `compile_tex`: the local toolchain first; the Docker one, with the
     * rewritten mount path, only when the local one failed; when both fail
     * the directory is left as it was and both reasons are reported.
     */
    method CompileTex(texName: string, local: Latexmk, docker: Latexmk) returns (outcome: CompileOutcome)
      modifies this
      ensures var first := local(location, texName, old(Source(texName)));
        first.Ok? ==> outcome == LocalOk && files == old(files)[PdfOutputName(texName) := PdfDocument(first.value)]
      ensures var first := local(location, texName, old(Source(texName)));
        var second := docker(DockerPath(location), texName, old(Source(texName)));
        first.Err? && second.Ok? ==>
          outcome == DockerOk(first.error) && files == old(files)[PdfOutputName(texName) := PdfDocument(second.value)]
      ensures var first := local(location, texName, old(Source(texName)));
        var second := docker(DockerPath(location), texName, old(Source(texName)));
        first.Err? && second.Err? ==> outcome == BothFailed(first.error, second.error) && files == old(files)
    {
      var source := Source(texName);
      var first := local(location, texName, source);
      if first.Ok? {
        files := files[PdfOutputName(texName) := PdfDocument(first.value)];
        outcome := LocalOk;
      } else {
        var second := docker(DockerPath(location), texName, source);
        if second.Ok? {
          files := files[PdfOutputName(texName) := PdfDocument(second.value)];
          outcome := DockerOk(first.error);
        } else {
          outcome := BothFailed(first.error, second.error);
        }
      }
    }

    /**
     * `bundle`: creates `run_id + "_bundle.zip"`, then adds every PDF of the
     * run and after them every `.tex` file of the run, each under its base
     * name. The directory listing order is not fixed, so each loop takes
     * the files in an unspecified order.
     */
    method Bundle(runId: string) returns (zipName: string)
      modifies this
      ensures zipName == ArchiveName(runId)
      ensures zipName in files && files == old(files)[zipName := files[zipName]]
      ensures exists pdfOrder, texOrder ::
        && Enumerates(pdfOrder, Selection(old(files).Keys, runId, ".pdf"))
        && Enumerates(texOrder, Selection(old(files).Keys, runId, ".tex"))
        && files[zipName] == Archive(Entries(pdfOrder, old(files)) + Entries(texOrder, old(files)))
    {
      zipName := ArchiveName(runId);
      ghost var before := files;
      files := files[zipName := Archive([])];
      assert files.Keys == before.Keys + {zipName};
      SelectionWithArchive(before.Keys, runId, ".pdf");
      SelectionWithArchive(before.Keys, runId, ".tex");
      ArchiveNotSelected(runId, runId);
      assert Selection(files.Keys, runId, ".pdf") == Selection(before.Keys, runId, ".pdf");
      assert Selection(files.Keys, runId, ".tex") == Selection(before.Keys, runId, ".tex");
      EnumerationExists(Selection(files.Keys, runId, ".pdf"));
      EnumerationExists(Selection(files.Keys, runId, ".tex"));
      var pdfOrder :| Enumerates(pdfOrder, Selection(files.Keys, runId, ".pdf"));
      assert forall n :: n in pdfOrder ==> n in before && n != zipName;
      var entries: seq<(string, FileData)> := [];
      var i := 0;
      while i < |pdfOrder|
        invariant files == before[zipName := Archive([])]
        invariant 0 <= i <= |pdfOrder|
        invariant forall n :: n in pdfOrder[..i] ==> n in before
        invariant entries == Entries(pdfOrder[..i], before)
      {
        var f := pdfOrder[i];
        assert pdfOrder[..i + 1] == pdfOrder[..i] + [f];
        entries := entries + [(f, files[f])];
        i := i + 1;
      }
      assert pdfOrder[..i] == pdfOrder;
      ghost var pdfEntries := entries;
      var texOrder :| Enumerates(texOrder, Selection(files.Keys, runId, ".tex"));
      assert forall n :: n in texOrder ==> n in before && n != zipName;
      var k := 0;
      while k < |texOrder|
        invariant files == before[zipName := Archive([])]
        invariant 0 <= k <= |texOrder|
        invariant forall n :: n in texOrder[..k] ==> n in before
        invariant entries == pdfEntries + Entries(texOrder[..k], before)
      {
        var f := texOrder[k];
        assert texOrder[..k + 1] == texOrder[..k] + [f];
        entries := entries + [(f, files[f])];
        k := k + 1;
      }
      assert texOrder[..k] == texOrder;
      // The archive is complete when the `with` block closes it.
      files := files[zipName := Archive(entries)];
    }
  }
}
