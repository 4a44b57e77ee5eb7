/** `PDFReader` (src/claude_clis/tools/doc2md/readers/pdf.py) over abstract
    extraction results: the primary Markdown extractor's text or error, and
    what opening the file with PyMuPDF gives (an error, or whether the file
    needs a password and the text of each page). */
module PdfReader {
  import opened Base
  import opened Text
  import Paths

  datatype Doc = Doc(needsPass: bool, pages: seq<string>)

  const NoTextMsg := "No readable text found in PDF"

  /** The block one non-blank page contributes; pages count from 1. */
  function PageBlock(n: nat, text: string): string
  {
    "## Page " + NatToString(n + 1) + "\n\n" + text
  }

  /** The blocks of the first n pages. */
  function Blocks(pages: seq<string>, n: nat): seq<string>
    requires n <= |pages|
  {
    if n == 0 then []
    else Blocks(pages, n - 1) + (if !IsBlank(pages[n - 1]) then [PageBlock(n - 1, pages[n - 1])] else [])
  }

  /** The indexes of the non-blank pages among the first n, in order. */
  function Readable(pages: seq<string>, n: nat): (ks: seq<nat>)
    requires n <= |pages|
    ensures forall j :: 0 <= j < |ks| ==> ks[j] < n
  {
    if n == 0 then []
    else Readable(pages, n - 1) + (if !IsBlank(pages[n - 1]) then [n - 1] else [])
  }

  /** `Readable` lists exactly the non-blank pages, in increasing order. */
  lemma ReadableExact(pages: seq<string>, n: nat)
    requires n <= |pages|
    ensures var ks := Readable(pages, n);
      (forall j :: 0 <= j < |ks| ==> !IsBlank(pages[ks[j]]))
      && (forall i, j :: 0 <= i < j < |ks| ==> ks[i] < ks[j])
      && (forall k :: 0 <= k < n && !IsBlank(pages[k]) ==> k in ks)
  {
    ReadableNonBlank(pages, n);
    ReadableIncreasing(pages, n);
    ReadableComplete(pages, n);
  }

  lemma {:induction false} ReadableNonBlank(pages: seq<string>, n: nat)
    requires n <= |pages|
    ensures forall j :: 0 <= j < |Readable(pages, n)| ==> !IsBlank(pages[Readable(pages, n)[j]])
  {
    if n > 0 {
      ReadableNonBlank(pages, n - 1);
    }
  }

  lemma {:induction false} ReadableIncreasing(pages: seq<string>, n: nat)
    requires n <= |pages|
    ensures forall i, j :: 0 <= i < j < |Readable(pages, n)| ==> Readable(pages, n)[i] < Readable(pages, n)[j]
  {
    if n > 0 {
      ReadableIncreasing(pages, n - 1);
    }
  }

  lemma {:induction false} ReadableComplete(pages: seq<string>, n: nat)
    requires n <= |pages|
    ensures forall k :: 0 <= k < n && !IsBlank(pages[k]) ==> k in Readable(pages, n)
  {
    if n > 0 {
      ReadableComplete(pages, n - 1);
      assert forall k :: k in Readable(pages, n - 1) ==> k in Readable(pages, n);
    }
  }

  /** Each block carries the original index of its page, so blank pages leave
      gaps in the numbering. */
  lemma {:induction false} BlocksNumbered(pages: seq<string>, n: nat)
    requires n <= |pages|
    ensures var ks := Readable(pages, n);
      |Blocks(pages, n)| == |ks| && forall j :: 0 <= j < |ks| ==> Blocks(pages, n)[j] == PageBlock(ks[j], pages[ks[j]])
  {
    if n > 0 {
      BlocksNumbered(pages, n - 1);
      var ks, bs := Readable(pages, n - 1), Blocks(pages, n - 1);
      var ks', bs' := Readable(pages, n), Blocks(pages, n);
      if !IsBlank(pages[n - 1]) {
        assert ks' == ks + [n - 1];
        assert bs' == bs + [PageBlock(n - 1, pages[n - 1])];
        forall j | 0 <= j < |ks'|
          ensures bs'[j] == PageBlock(ks'[j], pages[ks'[j]])
        {
          if j < |ks| {
            assert bs'[j] == bs[j] && ks'[j] == ks[j];
          }
        }
      } else {
        assert ks' == ks && bs' == bs;
      }
    }
  }

  /** The text `_extract_with_pymupdf` returns, or the error it raises. */
  function Fallback(open: Result<Doc, string>): Result<string, string>
  {
    match open
    case Failure(e) => Failure(e)
    case Success(doc) =>
      var blocks := Blocks(doc.pages, |doc.pages|);
      if blocks == [] then Failure(NoTextMsg) else Success(Join(blocks, "\n\n"))
  }

  /** `_extract_with_pymupdf`: the page loop. */
  method ExtractWithPyMuPdf(open: Result<Doc, string>) returns (r: Result<string, string>)
    ensures r == Fallback(open)
  {
    if open.Failure? {
      return Failure(open.error);
    }
    var pages := open.value.pages;
    var content: seq<string> := [];
    for pageNum := 0 to |pages|
      invariant content == Blocks(pages, pageNum)
    {
      var text := pages[pageNum];
      StripEmptyIffBlank(text);
      if Strip(text) != [] {
        content := content + [PageBlock(pageNum, text)];
      }
    }
    if content == [] {
      return Failure(NoTextMsg);
    }
    r := Success(Join(content, "\n\n"));
  }

  /** The fallback fails for want of text exactly when every page is blank. */
  lemma NoTextIff(doc: Doc)
    ensures Fallback(Success(doc)) == Failure(NoTextMsg) <==>
      forall k :: 0 <= k < |doc.pages| ==> IsBlank(doc.pages[k])
  {
    var ks := Readable(doc.pages, |doc.pages|);
    BlocksNumbered(doc.pages, |doc.pages|);
    ReadableExact(doc.pages, |doc.pages|);
    if ks != [] {
      assert !IsBlank(doc.pages[ks[0]]);
    }
  }

  /** `read_pdf`: the guards, then the primary extractor, and the fallback
      only when the primary one raises. */
  function ReadPdf(exists_: bool, path: string, primary: Result<string, string>, open: Result<Doc, string>)
    : (r: Result<string, string>)
    ensures !exists_ ==> r == Failure("File not found: " + path)
    ensures exists_ && Lower(Paths.Suffix(path)) != ".pdf" ==> r == Failure("Not a PDF file: " + path)
    ensures r.Success? ==> exists_ && Lower(Paths.Suffix(path)) == ".pdf"
    ensures exists_ && Lower(Paths.Suffix(path)) == ".pdf" && primary.Success? ==> r == primary
    ensures exists_ && Lower(Paths.Suffix(path)) == ".pdf" && primary.Failure? ==>
      (r.Success? <==> Fallback(open).Success?)
    ensures exists_ && Lower(Paths.Suffix(path)) == ".pdf" && primary.Failure? && Fallback(open).Failure? ==>
      r == Failure("Failed to read PDF: " + primary.error + ". Fallback also failed: " + Fallback(open).error)
  {
    if !exists_ then Failure("File not found: " + path)
    else if Lower(Paths.Suffix(path)) != ".pdf" then Failure("Not a PDF file: " + path)
    else if primary.Success? then primary
    else
      match Fallback(open)
      case Success(t) => Success(t)
      case Failure(e) => Failure("Failed to read PDF: " + primary.error + ". Fallback also failed: " + e)
  }

  /** `is_pdf_readable`: opened, no password, and a first page with text. */
  function IsPdfReadable(open: Result<Doc, string>): (b: bool)
    ensures b ==> open.Success? && !open.value.needsPass && |open.value.pages| > 0
  {
    open.Success? && !open.value.needsPass && |open.value.pages| > 0 && Strip(open.value.pages[0]) != []
  }

  /** Readable means: opened, no password, at least one page, and a first
      page that is not blank. */
  lemma PdfReadableIff(open: Result<Doc, string>)
    ensures IsPdfReadable(open) <==>
      open.Success? && !open.value.needsPass && |open.value.pages| > 0 && !IsBlank(open.value.pages[0])
  {
    if open.Success? && |open.value.pages| > 0 {
      StripEmptyIffBlank(open.value.pages[0]);
    }
  }

  /** A file judged readable is one the fallback extracts, and its text
      starts with the first page's block. */
  lemma ReadableExtracts(open: Result<Doc, string>)
    requires IsPdfReadable(open)
    ensures Fallback(open).Success?
    ensures StartsWith(Fallback(open).value, PageBlock(0, open.value.pages[0]))
  {
    var pages := open.value.pages;
    StripEmptyIffBlank(pages[0]);
    BlocksNumbered(pages, |pages|);
    ReadableExact(pages, |pages|);
    var ks := Readable(pages, |pages|);
    assert 0 in ks;
    assert ks[0] == 0;
    var blocks := Blocks(pages, |pages|);
    assert blocks[0] == PageBlock(0, pages[0]);
    JoinStartsWithFirst(blocks, "\n\n");
  }

  lemma JoinStartsWithFirst(parts: seq<string>, sep: string)
    requires parts != []
    ensures StartsWith(Join(parts, sep), parts[0])
  {
    if |parts| > 1 {
      assert Join(parts, sep) == parts[0] + (sep + Join(parts[1..], sep));
    }
  }
}
