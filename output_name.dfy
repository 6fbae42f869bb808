/** The name of the PNG artifact: `file.name.replace(/\.pdf$/i, "")` followed
    by `.png`. Without the `u` or `m` flags, `$` matches only at the very end
    of the name and case-insensitive matching relates only the ASCII letters
    p/P, d/D and f/F. */
module OutputName {

  const PdfSuffixLength: nat := 4
  const PngSuffix: string := ".png"

  /** ASCII lower-casing; every other character is left alone. */
  function LowerAscii(c: char): char
  {
    if 'A' <= c <= 'Z' then (c as int + 32) as char else c
  }

  /** `ext` is ".pdf" in some mixture of cases. */
  predicate IsPdfExtension(ext: string)
  {
    |ext| == PdfSuffixLength && ext[0] == '.'
    && LowerAscii(ext[1]) == 'p' && LowerAscii(ext[2]) == 'd' && LowerAscii(ext[3]) == 'f'
  }

  /** The regular expression `/\.pdf$/i` finds a match in `name`. */
  predicate EndsWithPdf(name: string)
  {
    |name| >= PdfSuffixLength && IsPdfExtension(name[|name| - PdfSuffixLength..])
  }

  /** `name.replace(/\.pdf$/i, "")`: removes one trailing ".pdf", any case. */
  function StripPdfSuffix(name: string): (r: string)
    ensures EndsWithPdf(name) ==> |r| == |name| - PdfSuffixLength && name == r + name[|r|..]
    ensures !EndsWithPdf(name) ==> r == name
  {
    if EndsWithPdf(name) then name[..|name| - PdfSuffixLength] else name
  }

  /** `${originalName}.png`. */
  function PngName(name: string): (r: string)
    ensures |r| >= |PngSuffix| && r[|r| - |PngSuffix|..] == PngSuffix
  {
    StripPdfSuffix(name) + PngSuffix
  }

  /** A name ending in ".pdf" (any case) loses exactly that suffix, whatever
      precedes it: "report.PDF" gives "report.png" and "a.pdf.pdf" gives
      "a.pdf.png". */
  lemma PdfNameBecomesPng(stem: string, ext: string)
    requires IsPdfExtension(ext)
    ensures PngName(stem + ext) == stem + PngSuffix
  {
    var name := stem + ext;
    assert name[|name| - PdfSuffixLength..] == ext;
    assert name[..|name| - PdfSuffixLength] == stem;
  }

  /** A name that does not end in ".pdf" (any case) only gets ".png" appended:
      "notes" gives "notes.png". */
  lemma OtherNameGetsPngAppended(name: string)
    requires !EndsWithPdf(name)
    ensures PngName(name) == name + PngSuffix
  {
  }

  /** Only one suffix is removed: the stem left after stripping never has a
      ".pdf" of its own removed, so PngName is determined by StripPdfSuffix
      alone and the original name is recovered from the result. */
  lemma PngNameRecoversSource(name: string)
    ensures var r := PngName(name);
            var stem := r[..|r| - |PngSuffix|];
            (EndsWithPdf(name) ==> name[..|stem|] == stem && IsPdfExtension(name[|stem|..]))
            && (!EndsWithPdf(name) ==> stem == name)
  {
    var r := PngName(name);
    assert r[..|r| - |PngSuffix|] == StripPdfSuffix(name);
  }

  /** Three sample names: "report.PDF", "notes", "a.pdf.pdf". */
  lemma ExampleNames()
    ensures PngName("report.PDF") == "report.png"
    ensures PngName("notes") == "notes.png"
    ensures PngName("a.pdf.pdf") == "a.pdf.png"
  {
    PdfNameBecomesPng("report", ".PDF");
    PdfNameBecomesPng("a.pdf", ".pdf");
    assert !EndsWithPdf("notes");
  }
}
