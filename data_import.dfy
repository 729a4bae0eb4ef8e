/**
 * The data-import panel: dropped files are classified by extension, can be
 * removed one by one by position, and are uploaded one after the other; the
 * list is cleared only when every upload succeeds.
 */
module DataImport {
  import opened Wrappers

  /** The four results of `getFileType`. */
  datatype FileKind = Spreadsheet | Pdf | Document | Unknown

  // ---------------------------------------------------------------------------
  // Classifying a file name
  // ---------------------------------------------------------------------------

  /**
   * `toLowerCase` on one character, for the ASCII capitals: the result is
   * never a capital, it is a small letter exactly when the input is a letter
   * of either case, and it is the input or its small form.
   */
  function LowerChar(c: char): (l: char)
    ensures !('A' <= l <= 'Z')
    ensures 'a' <= l <= 'z' <==> 'a' <= c <= 'z' || 'A' <= c <= 'Z'
    ensures l == c || l as int == c as int + 32
  {
    if 'A' <= c <= 'Z' then (c as int + 32) as char else c
  }

  /** `toLowerCase`. */
  function Lower(s: string): (l: string)
    ensures |l| == |s|
    ensures forall i :: 0 <= i < |s| ==> l[i] == LowerChar(s[i])
  {
    if s == [] then [] else Lower(s[..|s| - 1]) + [LowerChar(s[|s| - 1])]
  }

  /** Lower-casing twice is lower-casing once. */
  lemma LowerIdempotent(s: string)
    ensures Lower(Lower(s)) == Lower(s)
  {
    assert forall i :: 0 <= i < |s| ==> LowerChar(LowerChar(s[i])) == LowerChar(s[i]);
  }

  /**
   * `split('.').pop()`: the text after the last dot, or the whole name when
   * it has no dot.
   */
  function LastSegment(s: string): (ext: string)
    ensures |ext| <= |s| && ext == s[|s| - |ext|..]
    ensures '.' !in ext
    ensures |ext| < |s| ==> s[|s| - |ext| - 1] == '.'
  {
    if s == [] then []
    else if s[|s| - 1] == '.' then []
    else LastSegment(s[..|s| - 1]) + [s[|s| - 1]]
  }

  /** A name without a dot is its own extension. */
  lemma {:induction false} NoDotIsOwnSegment(s: string)
    requires '.' !in s
    ensures LastSegment(s) == s
    decreases |s|
  {
    if s != [] {
      assert s == s[..|s| - 1] + [s[|s| - 1]];
      NoDotIsOwnSegment(s[..|s| - 1]);
    }
  }

  /** Lower-casing does not move dots, so it commutes with taking the last segment. */
  lemma {:induction false} LowerLastSegment(s: string)
    ensures Lower(LastSegment(s)) == LastSegment(Lower(s))
    decreases |s|
  {
    if s != [] {
      var init := s[..|s| - 1];
      assert Lower(s)[..|s| - 1] == Lower(init);
      LowerLastSegment(init);
      if s[|s| - 1] != '.' {
        assert Lower(LastSegment(init) + [s[|s| - 1]]) == Lower(LastSegment(init)) + [LowerChar(s[|s| - 1])];
      }
    }
  }

  /** The `switch` of `getFileType` on a lower-cased extension. */
  function Classify(ext: string): (kind: FileKind)
    ensures kind == Spreadsheet <==> ext in {"xls", "xlsx", "csv"}
    ensures kind == Pdf <==> ext == "pdf"
    ensures kind == Document <==> ext in {"doc", "docx"}
    ensures kind == Unknown <==> ext !in {"xls", "xlsx", "csv", "pdf", "doc", "docx"}
  {
    if ext == "xls" || ext == "xlsx" || ext == "csv" then Spreadsheet
    else if ext == "pdf" then Pdf
    else if ext == "doc" || ext == "docx" then Document
    else Unknown
  }

  /** `getFileType(filename)`. */
  function GetFileType(filename: string): FileKind {
    Classify(Lower(LastSegment(filename)))
  }

  /** Classification ignores case: names that lower-case alike get the same kind. */
  lemma FileTypeIgnoresCase(a: string, b: string)
    requires Lower(a) == Lower(b)
    ensures GetFileType(a) == GetFileType(b)
  {
    LowerLastSegment(a);
    LowerLastSegment(b);
  }

  /** A name with no dot is classified as if it were the extension itself. */
  lemma NoDotClassifiesWholeName(filename: string)
    requires '.' !in filename
    ensures GetFileType(filename) == Classify(Lower(filename))
  {
    NoDotIsOwnSegment(filename);
  }

  /** After a dot, a dot-free tail is the last segment. */
  lemma {:induction false} SegmentAfterDot(prefix: string, ext: string)
    requires prefix != [] && prefix[|prefix| - 1] == '.'
    requires '.' !in ext
    ensures LastSegment(prefix + ext) == ext
    decreases |ext|
  {
    var s := prefix + ext;
    if ext == [] {
      assert s == prefix;
    } else {
      var init := ext[..|ext| - 1];
      var last := ext[|ext| - 1];
      assert last != '.' && '.' !in init by {
        assert last in ext;
        assert forall c :: c in init ==> c in ext;
      }
      assert s[..|s| - 1] == prefix + init;
      assert s[|s| - 1] == last;
      SegmentAfterDot(prefix, init);
      assert init + [last] == ext;
    }
  }

  /** Only the part after the last dot counts: `report.pdf.xlsx` is a spreadsheet, `report.pdf.` is unknown. */
  lemma OnlyLastSegmentCounts(stem: string, ext: string)
    requires '.' !in ext
    ensures GetFileType(stem + "." + ext) == Classify(Lower(ext))
  {
    SegmentAfterDot(stem + ".", ext);
  }

  // ---------------------------------------------------------------------------
  // Removing a file by position
  // ---------------------------------------------------------------------------

  /** `files.filter((_, i) => i !== index)`. */
  function RemoveAt<T>(xs: seq<T>, index: int): (r: seq<T>)
    ensures |r| <= |xs|
    decreases |xs|
  {
    if xs == [] then []
    else (if index == 0 then [] else [xs[0]]) + RemoveAt(xs[1..], index - 1)
  }

  /** Removing position `index` drops exactly that element, keeping the rest in order; any other index changes nothing. */
  lemma RemoveAtSlices<T>(xs: seq<T>, index: int)
    ensures 0 <= index < |xs| ==> RemoveAt(xs, index) == xs[..index] + xs[index + 1..]
    ensures !(0 <= index < |xs|) ==> RemoveAt(xs, index) == xs
  {
    if 0 <= index < |xs| {
      RemoveAtInside(xs, index);
    } else {
      RemoveAtOutside(xs, index);
    }
  }

  /** An index outside the list removes nothing. */
  lemma {:induction false} RemoveAtOutside<T>(xs: seq<T>, index: int)
    requires !(0 <= index < |xs|)
    ensures RemoveAt(xs, index) == xs
    decreases |xs|
  {
    if xs != [] {
      RemoveAtOutside(xs[1..], index - 1);
      assert xs == [xs[0]] + xs[1..];
    }
  }

  /** An index inside the list removes exactly that element. */
  lemma {:induction false} RemoveAtInside<T>(xs: seq<T>, index: int)
    requires 0 <= index < |xs|
    ensures RemoveAt(xs, index) == xs[..index] + xs[index + 1..]
    decreases |xs|
  {
    if index == 0 {
      RemoveAtOutside(xs[1..], -1);
      assert xs[..0] + xs[1..] == xs[1..];
    } else {
      var tail := xs[1..];
      RemoveAtInside(tail, index - 1);
      assert RemoveAt(xs, index) == [xs[0]] + (tail[..index - 1] + tail[index..]);
      assert xs[..index] == [xs[0]] + tail[..index - 1];
      assert xs[index + 1..] == tail[index..];
    }
  }

  // ---------------------------------------------------------------------------
  // The panel
  // ---------------------------------------------------------------------------

  /** A dropped file: its name and its kind (the preview URL is browser plumbing). */
  datatype FileEntry = FileEntry(name: string, kind: FileKind)

  /** `acceptedFiles.map(file => ({ file, type: getFileType(file.name) }))`. */
  function Entries(names: seq<string>): seq<FileEntry> {
    EntriesBy(names, GetFileType)
  }

  /** Each name paired with the kind `kind` gives it. */
  function EntriesBy(names: seq<string>, kind: string -> FileKind): seq<FileEntry> {
    seq(|names|, i requires 0 <= i < |names| => FileEntry(names[i], kind(names[i])))
  }

  /** Classifying two lists of names one after the other is classifying each. */
  lemma EntriesAppend(a: seq<string>, b: seq<string>)
    ensures Entries(a + b) == Entries(a) + Entries(b)
  {
    EntriesByAppend(a, b, GetFileType);
  }

  /** `EntriesAppend` for any classifier. */
  lemma EntriesByAppend(a: seq<string>, b: seq<string>, kind: string -> FileKind)
    ensures EntriesBy(a + b, kind) == EntriesBy(a, kind) + EntriesBy(b, kind)
  {
    forall i | 0 <= i < |a + b|
      ensures EntriesBy(a + b, kind)[i] == (EntriesBy(a, kind) + EntriesBy(b, kind))[i]
    {
      if i >= |a| {
        assert (a + b)[i] == b[i - |a|];
      }
    }
  }

  /**
   * Each file is classified on its own: removing a file and then classifying
   * the rest gives the entries with that file's entry removed.
   */
  lemma EntriesRemoveAt(names: seq<string>, index: int)
    ensures Entries(RemoveAt(names, index)) == RemoveAt(Entries(names), index)
  {
    EntriesByRemoveAt(names, GetFileType, index);
  }

  /** `EntriesRemoveAt` for any classifier, by induction on the names. */
  lemma {:induction false} EntriesByRemoveAt(names: seq<string>, kind: string -> FileKind, index: int)
    ensures EntriesBy(RemoveAt(names, index), kind) == RemoveAt(EntriesBy(names, kind), index)
    decreases |names|
  {
    if names != [] {
      var e := EntriesBy(names, kind);
      var head := if index == 0 then [] else [names[0]];
      EntriesByRemoveAt(names[1..], kind, index - 1);
      EntriesByAppend(head, RemoveAt(names[1..], index - 1), kind);
      assert e[1..] == EntriesBy(names[1..], kind);
      assert EntriesBy(head, kind) == if index == 0 then [] else [e[0]];
    }
  }

  /**
   * The position of the first file whose upload fails, if any: the uploads
   * run one after the other and the first failure ends the loop.
   */
  function FirstFailure(files: seq<FileEntry>, accepts: FileEntry -> bool): (k: Option<nat>)
    ensures k.None? <==> forall j :: 0 <= j < |files| ==> accepts(files[j])
    ensures k.Some? ==>
      k.value < |files| && !accepts(files[k.value]) && forall j :: 0 <= j < k.value ==> accepts(files[j])
  {
    if files == [] then None
    else if !accepts(files[0]) then Some(0)
    else match FirstFailure(files[1..], accepts)
      case None => None
      case Some(k) => Some(k + 1)
  }

  /** How `handleUpload` ended. */
  datatype UploadOutcome = NothingToUpload | AllUploaded | Failed

  /** The state of the import panel: the dropped files and the busy flag. */
  class ImportPanel {
    var files: seq<FileEntry>
    var isProcessing: bool

    constructor ()
      ensures files == [] && !isProcessing
    {
      files := [];
      isProcessing := false;
    }

    /** `onDrop`: the dropped files replace the list. */
    method Drop(names: seq<string>)
      modifies this
      ensures files == Entries(names) && isProcessing == old(isProcessing)
    {
      files := Entries(names);
    }

    /** `removeFile(index)`. */
    method RemoveFile(index: int)
      modifies this
      ensures files == RemoveAt(old(files), index) && isProcessing == old(isProcessing)
    {
      files := RemoveAt(files, index);
    }

    /**
     * `handleUpload`, with the upload of one file abstracted as `accepts`.
     * Nothing happens without files. Otherwise the files are posted in order
     * until one fails; `sent` lists those posted. All succeeding clears the
     * list; a failure leaves it as it was. Either way the busy flag ends
     * false.
     */
    method HandleUpload(accepts: FileEntry -> bool) returns (outcome: UploadOutcome, sent: seq<FileEntry>)
      modifies this
      ensures old(files) == [] ==>
        outcome == NothingToUpload && sent == [] && files == old(files) && isProcessing == old(isProcessing)
      ensures old(files) != [] ==> !isProcessing
      ensures old(files) != [] && FirstFailure(old(files), accepts).None? ==>
        outcome == AllUploaded && sent == old(files) && files == []
      ensures old(files) != [] && FirstFailure(old(files), accepts).Some? ==>
        outcome == Failed && sent == old(files)[..FirstFailure(old(files), accepts).value + 1] && files == old(files)
    {
      sent := [];
      if |files| == 0 {
        outcome := NothingToUpload;
        return;
      }
      isProcessing := true;
      var failed := false;
      var i := 0;
      while i < |files| && !failed
        invariant 0 <= i <= |files|
        invariant sent == files[..i]
        invariant !failed ==> forall j :: 0 <= j < i ==> accepts(files[j])
        invariant failed ==> 0 < i && FirstFailure(files, accepts) == Some(i - 1)
        invariant files == old(files)
      {
        sent := sent + [files[i]];
        if !accepts(files[i]) {
          failed := true;
        }
        i := i + 1;
      }
      if failed {
        outcome := Failed;
      } else {
        files := [];
        outcome := AllUploaded;
      }
      isProcessing := false;
    }
  }

  /** `toLowerCase` on the extension `XLSX`. */
  lemma LowerXLSX()
    ensures Lower("XLSX") == "xlsx"
  {
    var l := Lower("XLSX");
    assert LowerChar('X') == 'x' && LowerChar('L') == 'l' && LowerChar('S') == 's';
    assert l[0] == 'x' && l[1] == 'l' && l[2] == 's' && l[3] == 'x';
  }

  /** An upper-case extension is recognised: `Budget.XLSX` is a spreadsheet. */
  lemma UpperCaseExtension()
    ensures GetFileType("Budget.XLSX") == Spreadsheet
  {
    assert "Budget.XLSX" == "Budget" + "." + "XLSX";
    OnlyLastSegmentCounts("Budget", "XLSX");
    LowerXLSX();
  }

  /** Lower-casing the extension `PDF`. */
  lemma LowerPDF()
    ensures Lower("PDF") == "pdf"
  {
    var l := Lower("PDF");
    assert l[0] == LowerChar('P') == 'p';
    assert l[1] == LowerChar('D') == 'd';
    assert l[2] == LowerChar('F') == 'f';
  }

  /** A name without a dot is its own extension: `PDF` is a PDF. */
  lemma DotlessName()
    ensures GetFileType("PDF") == Pdf
  {
    assert "PDF" == ['P', 'D', 'F'];
    assert '.' !in "PDF";
    NoDotClassifiesWholeName("PDF");
    LowerPDF();
  }

  /** A name ending in a dot has an empty extension: `notes.` is unknown. */
  lemma TrailingDot()
    ensures GetFileType("notes.") == Unknown
  {
    assert "notes." == "notes" + "." + "";
    OnlyLastSegmentCounts("notes", "");
  }
}
