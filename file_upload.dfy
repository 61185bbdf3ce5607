/** The upload form: per-file validation, the selection it keeps with aligned
    previews, and the upload that turns each selected file into a sheet. */
module FileUpload {
  import opened Wrappers
  import opened Seqs
  import opened Strings
  import opened Records
  import opened Database
  import opened AppStore

  /** A browser `File`: its name, its MIME type and its size in bytes. */
  datatype File = File(name: string, fileType: string, size: nat)

  datatype PreviewKind = Image | Pdf

  /** One entry of the preview list; `preview` is the image's data URL. */
  datatype Preview = Preview(name: string, preview: Option<string>, kind: PreviewKind)

  const AllowedTypes: seq<string> := ["application/pdf", "image/png", "image/jpeg", "image/jpg"]

  /** Ten mebibytes. */
  const MaxFileSize: nat := 10 * 1024 * 1024

  const InvalidTypeMessage := ": Invalid file type. Only PDF, PNG, and JPG are allowed."
  const TooLargeMessage := ": File too large. Maximum size is 10MB."

  /** The error message for a file, or none for an acceptable one. The type is
      checked first, so a file wrong on both counts gets the type message. */
  function ValidateFile(f: File): (err: Option<string>)
    ensures err.None? <==> f.fileType in AllowedTypes && f.size <= MaxFileSize
    ensures f.fileType !in AllowedTypes ==> err == Some(f.name + InvalidTypeMessage)
    ensures f.fileType in AllowedTypes && f.size > MaxFileSize ==> err == Some(f.name + TooLargeMessage)
  {
    if f.fileType !in AllowedTypes then Some(f.name + InvalidTypeMessage)
    else if f.size > MaxFileSize then Some(f.name + TooLargeMessage)
    else None
  }

  predicate IsValid(f: File)
  {
    ValidateFile(f).None?
  }

  /** The size limit includes its bound: 10485760 bytes pass, one more fails. */
  lemma SizeLimitIsInclusive(name: string, fileType: string)
    requires fileType in AllowedTypes
    ensures IsValid(File(name, fileType, 10485760))
    ensures ValidateFile(File(name, fileType, 10485761)) == Some(name + TooLargeMessage)
  {
  }

  /** The messages of the rejected files, in input order. */
  function ErrorsOf(files: seq<File>): seq<string>
  {
    if files == [] then []
    else
      var rest := ErrorsOf(files[..|files| - 1]);
      match ValidateFile(files[|files| - 1])
      case Some(m) => rest + [m]
      case None => rest
  }

  /** Every collected message is the message of some input file. */
  lemma {:induction false} ErrorsComeFromFiles(files: seq<File>)
    ensures forall e :: e in ErrorsOf(files) ==> exists f :: f in files && ValidateFile(f) == Some(e)
  {
    if files != [] {
      var init := files[..|files| - 1];
      ErrorsComeFromFiles(init);
      assert forall f :: f in init ==> f in files;
    }
  }

  /** Every file goes either to the errors or to the accepted files, never both. */
  lemma {:induction false} SelectionPartitions(files: seq<File>)
    ensures |ErrorsOf(files)| + |Filter(files, IsValid)| == |files|
  {
    if files != [] {
      SelectionPartitions(files[..|files| - 1]);
    }
  }

  function PreviewOf(f: File, dataUrl: File -> string): Preview
  {
    if StartsWith(f.fileType, "image/") then Preview(f.name, Some(dataUrl(f)), Image)
    else Preview(f.name, None, Pdf)
  }

  /** The previews pushed for the accepted files, one per file, in order. */
  function PreviewsOf(files: seq<File>, dataUrl: File -> string): seq<Preview>
  {
    if files == [] then []
    else PreviewsOf(files[..|files| - 1], dataUrl) + [PreviewOf(files[|files| - 1], dataUrl)]
  }

  /** The selection and its previews have equal length, matching names, and an
      image preview exactly for an image type. */
  predicate Aligned(files: seq<File>, previews: seq<Preview>)
  {
    && |files| == |previews|
    && forall k :: 0 <= k < |files| ==>
         && previews[k].name == files[k].name
         && (previews[k].kind == Image <==> StartsWith(files[k].fileType, "image/"))
  }

  lemma {:induction false} PreviewsAligned(files: seq<File>, dataUrl: File -> string)
    ensures Aligned(files, PreviewsOf(files, dataUrl))
  {
    if files != [] {
      PreviewsAligned(files[..|files| - 1], dataUrl);
    }
  }

  /** One more file: it joins either the accepted files or the messages. */
  lemma SelectStep(files: seq<File>, i: nat)
    requires i < |files|
    ensures Filter(files[..i + 1], IsValid) ==
              if IsValid(files[i]) then Filter(files[..i], IsValid) + [files[i]] else Filter(files[..i], IsValid)
    ensures ErrorsOf(files[..i + 1]) ==
              if IsValid(files[i]) then ErrorsOf(files[..i]) else ErrorsOf(files[..i]) + [ValidateFile(files[i]).value]
  {
    assert files[..i + 1][..i] == files[..i];
  }

  /** The loop of `handleFileSelect`: validates each file in turn, collecting
      messages, accepted files and their previews. */
  method SelectFiles(files: seq<File>, dataUrl: File -> string)
    returns (errors: seq<string>, validFiles: seq<File>, previews: seq<Preview>)
    ensures validFiles == Filter(files, IsValid)
    ensures errors == ErrorsOf(files)
    ensures previews == PreviewsOf(validFiles, dataUrl)
  {
    errors, validFiles, previews := [], [], [];
    var i := 0;
    while i < |files|
      invariant 0 <= i <= |files|
      invariant validFiles == Filter(files[..i], IsValid)
      invariant errors == ErrorsOf(files[..i])
      invariant previews == PreviewsOf(validFiles, dataUrl)
    {
      var f := files[i];
      SelectStep(files, i);
      match ValidateFile(f) {
        case Some(msg) =>
          errors := errors + [msg];
        case None =>
          assert (validFiles + [f])[..|validFiles|] == validFiles;
          validFiles := validFiles + [f];
          previews := previews + [PreviewOf(f, dataUrl)];
      }
      i := i + 1;
    }
    assert files[..|files|] == files;
  }

  /** `xs.join(sep)`. */
  function Join(xs: seq<string>, sep: string): (r: string)
    ensures xs != [] ==> xs[0] <= r
    ensures xs != [] ==> |r| == TotalLength(xs) + (|xs| - 1) * |sep|
  {
    if xs == [] then ""
    else if |xs| == 1 then xs[0]
    else
      assert (|xs| - 1) * |sep| == |sep| + (|xs| - 2) * |sep|;
      xs[0] + sep + Join(xs[1..], sep)
  }

  /** The number of characters of all the strings together. */
  function TotalLength(xs: seq<string>): nat
  {
    if xs == [] then 0 else |xs[0]| + TotalLength(xs[1..])
  }

  /** `part` appears in `text` starting at index `offset`. */
  predicate PartAt(text: string, part: string, offset: int)
  {
    0 <= offset && offset + |part| <= |text| && text[offset..offset + |part|] == part
  }

  /** Moving past a prefix of `n` characters moves every part by `n`. */
  lemma PartAfterPrefix(prefix: string, text: string, part: string, offset: int)
    requires PartAt(text, part, offset)
    ensures PartAt(prefix + text, part, |prefix| + offset)
  {
    assert (prefix + text)[|prefix| + offset..|prefix| + offset + |part|] == text[offset..offset + |part|];
  }

  /** The first string opens the join, followed by a separator when more come. */
  lemma JoinFirst(xs: seq<string>, sep: string)
    requires xs != []
    ensures PartAt(Join(xs, sep), xs[0], 0)
    ensures |xs| > 1 ==> PartAt(Join(xs, sep), sep, |xs[0]|)
  {
    if |xs| > 1 {
      var j := Join(xs, sep);
      assert j == xs[0] + sep + Join(xs[1..], sep);
      assert j[..|xs[0]|] == xs[0];
      assert j[|xs[0]|..|xs[0]| + |sep|] == sep;
    }
  }

  /** The strings before the k-th, counted past the first. */
  lemma TotalLengthStep(xs: seq<string>, k: nat)
    requires 0 < k <= |xs|
    ensures TotalLength(xs[..k]) == |xs[0]| + TotalLength(xs[1..][..k - 1])
  {
    assert xs[..k][1..] == xs[1..][..k - 1];
  }

  /** The k-th string of the join sits after the k strings before it and k
      separators, and a separator follows every string but the last. */
  lemma {:induction false} JoinPart(xs: seq<string>, sep: string, k: nat)
    requires k < |xs|
    ensures PartAt(Join(xs, sep), xs[k], TotalLength(xs[..k]) + k * |sep|)
    ensures k < |xs| - 1 ==> PartAt(Join(xs, sep), sep, TotalLength(xs[..k]) + k * |sep| + |xs[k]|)
  {
    if k == 0 {
      JoinFirst(xs, sep);
    } else {
      var prefix, rest := xs[0] + sep, xs[1..];
      JoinPart(rest, sep, k - 1);
      TotalLengthStep(xs, k);
      assert k * |sep| == |sep| + (k - 1) * |sep|;
      var offset := TotalLength(rest[..k - 1]) + (k - 1) * |sep|;
      assert Join(xs, sep) == prefix + Join(rest, sep);
      PartAfterPrefix(prefix, Join(rest, sep), xs[k], offset);
      if k < |xs| - 1 {
        PartAfterPrefix(prefix, Join(rest, sep), sep, offset + |xs[k]|);
      }
    }
  }

  /** `s.filter((_, i) => i !== index)`: the element at `index` dropped, if there is one. */
  function RemoveAt<T>(s: seq<T>, index: int): (r: seq<T>)
    ensures 0 <= index < |s| ==> |r| == |s| - 1
    ensures !(0 <= index < |s|) ==> r == s
    ensures forall k :: 0 <= k < |r| && k < index ==> r[k] == s[k]
    ensures forall k :: 0 <= index <= k < |r| ==> r[k] == s[k + 1]
  {
    if 0 <= index < |s| then s[..index] + s[index + 1..] else s
  }

  /** `file.name.replace(/\.[^/.]+$/, '')`: the match starts at `i`. */
  predicate ExtensionAt(name: string, i: int)
  {
    && 0 <= i < |name| - 1
    && name[i] == '.'
    && forall j :: i < j < |name| ==> name[j] != '.' && name[j] != '/'
  }

  /** Scans `name[..n]` from the right, knowing that `name[n..]` holds no '.'
      and no '/': the start of the extension, or -1. */
  function ExtensionStart(name: string, n: nat): (i: int)
    requires n <= |name|
    requires forall j :: n <= j < |name| ==> name[j] != '.' && name[j] != '/'
    ensures -1 <= i < n
    ensures i >= 0 ==> ExtensionAt(name, i)
    ensures i == -1 ==> forall k :: !ExtensionAt(name, k)
  {
    if n == 0 then -1
    else if name[n - 1] == '.' then
      (if n < |name| then n - 1 else -1)
    else if name[n - 1] == '/' then -1
    else ExtensionStart(name, n - 1)
  }

  /** The display name of an uploaded file: its name without a final
      `.suffix` whose characters are neither '.' nor '/'. */
  function StripExtension(name: string): (r: string)
    ensures r <= name
    ensures r != name ==> ExtensionAt(name, |r|)
  {
    var i := ExtensionStart(name, |name|);
    if i >= 0 then name[..i] else name
  }

  /** The pattern can match at one position at most (the last '.'), and the
      name changes exactly when it matches; what is cut is the match. */
  lemma StripExtensionRemovesOnlyTheExtension(name: string)
    ensures (exists i :: ExtensionAt(name, i)) <==> StripExtension(name) != name
    ensures forall i :: ExtensionAt(name, i) ==> StripExtension(name) == name[..i]
  {
    assert forall i, j :: ExtensionAt(name, i) && ExtensionAt(name, j) ==> i == j;
  }

  lemma StripExtensionExamples()
    ensures StripExtension("a.b.pdf") == "a.b"
    ensures StripExtension("noext") == "noext"
    ensures StripExtension("file.") == "file."
    ensures StripExtension("v1.2/score") == "v1.2/score"
  {
    StripExtensionRemovesOnlyTheExtension("a.b.pdf");
    StripExtensionRemovesOnlyTheExtension("noext");
    StripExtensionRemovesOnlyTheExtension("file.");
    StripExtensionRemovesOnlyTheExtension("v1.2/score");
    assert ExtensionAt("a.b.pdf", 3);
    assert !ExtensionAt("file.", 4);
    assert forall k :: !ExtensionAt("noext", k) by {
      forall k | 0 <= k < 4 ensures "noext"[k] != '.' {}
    }
    assert "v1.2/score"[4] == '/';
    assert forall k :: 0 <= k < 10 && k != 2 ==> "v1.2/score"[k] != '.';
  }

  /** The data handed to `addSheet` for one file. */
  function UploadData(f: File, dataUrl: File -> string): (r: Record)
    ensures Field(r, "name") == Text(StripExtension(f.name))
    ensures Field(r, "fileType") == Text(f.fileType) && Field(r, "fileData") == Text(dataUrl(f))
  {
    map["name" := Text(StripExtension(f.name)), "fileType" := Text(f.fileType), "fileData" := Text(dataUrl(f))]
  }

  /** The sheet `addSheet` makes for the file at index k of the selection,
      which takes the clock readings `clock(k)`. */
  function SheetMaker(dataUrl: File -> string, clock: nat -> Stamp): (File, nat) -> Record
  {
    (f: File, k: nat) => NewSheet(UploadData(f, dataUrl), clock(k))
  }

  /** The sheets an upload of `files` adds, newest (last uploaded) first. */
  function UploadedSheets(files: seq<File>, dataUrl: File -> string, clock: nat -> Stamp): (r: seq<Record>)
    ensures |r| == |files|
  {
    Stacked(files, SheetMaker(dataUrl, clock))
  }

  /** The k-th selected file's sheet sits k places from the end: the last
      file uploaded comes first. */
  lemma UploadedSheetsContents(files: seq<File>, dataUrl: File -> string, clock: nat -> Stamp)
    ensures forall k :: 0 <= k < |files| ==>
              UploadedSheets(files, dataUrl, clock)[|files| - 1 - k] == NewSheet(UploadData(files[k], dataUrl), clock(k))
  {
    StackedContents(files, SheetMaker(dataUrl, clock));
  }

  lemma UploadedSheetsStep(files: seq<File>, k: nat, dataUrl: File -> string, clock: nat -> Stamp)
    requires k < |files|
    ensures UploadedSheets(files[..k + 1], dataUrl, clock)
            == [NewSheet(UploadData(files[k], dataUrl), clock(k))] + UploadedSheets(files[..k], dataUrl, clock)
  {
    StackedStep(files, SheetMaker(dataUrl, clock), k);
  }

  class UploadForm {
    var selectedFiles: seq<File>
    var previews: seq<Preview>
    var error: Option<string>
    var success: Option<string>
    var uploading: bool

    constructor ()
      ensures selectedFiles == [] && previews == []
      ensures error == None && success == None && !uploading
    {
      selectedFiles := [];
      previews := [];
      error := None;
      success := None;
      uploading := false;
    }

    predicate SelectionAligned()
      reads this
    {
      Aligned(selectedFiles, previews)
    }

    method HandleFileSelect(files: seq<File>, dataUrl: File -> string)
      modifies this`selectedFiles, this`previews, this`error, this`success
      ensures selectedFiles == Filter(files, IsValid)
      ensures previews == PreviewsOf(selectedFiles, dataUrl)
      ensures error == if ErrorsOf(files) == [] then None else Some(Join(ErrorsOf(files), "\n"))
      ensures success == None
      ensures SelectionAligned()
    {
      error := None;
      success := None;
      var errors, validFiles, newPreviews := SelectFiles(files, dataUrl);
      PreviewsAligned(validFiles, dataUrl);
      if |errors| > 0 {
        error := Some(Join(errors, "\n"));
      }
      selectedFiles := validFiles;
      previews := newPreviews;
    }

    method HandleRemoveFile(index: int)
      modifies this`selectedFiles, this`previews, this`error
      ensures selectedFiles == RemoveAt(old(selectedFiles), index)
      ensures previews == RemoveAt(old(previews), index)
      ensures error == None
      ensures old(SelectionAligned()) ==> SelectionAligned()
    {
      selectedFiles := RemoveAt(selectedFiles, index);
      previews := RemoveAt(previews, index);
      error := None;
    }

    /** Uploads the selection one file at a time through the store. */
    method HandleUpload(store: Store, dataUrl: File -> string, clock: nat -> Stamp)
      modifies this`selectedFiles, this`previews, this`error, this`success, this`uploading
      modifies store`sheets, store.db`sheets, store.db`storage
      ensures old(selectedFiles) == [] ==>
                && error == Some("Please select at least one file")
                && success == old(success) && uploading == old(uploading)
                && selectedFiles == [] && previews == old(previews)
      ensures old(selectedFiles) == [] ==>
                && store.sheets == old(store.sheets)
                && store.db.sheets == old(store.db.sheets) && store.db.storage == old(store.db.storage)
      ensures old(selectedFiles) != [] ==>
                store.sheets == UploadedSheets(old(selectedFiles), dataUrl, clock) + old(store.sheets)
      ensures old(selectedFiles) != [] ==>
                store.db.sheets == UploadedSheets(old(selectedFiles), dataUrl, clock) + old(store.db.sheets)
      ensures old(selectedFiles) != [] ==>
                store.db.storage == Save(old(store.db.storage), store.db.sheets, store.db.playlists)
      ensures old(selectedFiles) != [] ==>
                && success == Some("Successfully uploaded " + Decimal(|old(selectedFiles)|) + " file(s)!")
                && error == None && selectedFiles == [] && previews == [] && !uploading
      ensures old(store.Mirrors()) ==> store.Mirrors()
    {
      if |selectedFiles| == 0 {
        error := Some("Please select at least one file");
        return;
      }
      uploading := true;
      error := None;
      success := None;
      UploadAll(store, selectedFiles, dataUrl, clock);
      success := Some("Successfully uploaded " + Decimal(|selectedFiles|) + " file(s)!");
      selectedFiles := [];
      previews := [];
      uploading := false;
    }
  }

  /** One more save in the upload loop: the storage is the original storage
      with only the latest collections written. */
  lemma SavedAfter(original: Storage, before: Storage, after: Storage,
                   s0: seq<Record>, s1: seq<Record>, playlists: seq<Record>, k: nat)
    requires k == 0 ==> before == original
    requires k > 0 ==> before == Save(original, s0, playlists)
    requires after == Save(before, s1, playlists)
    ensures after == Save(original, s1, playlists)
  {
    if k > 0 {
      SaveTwice(original, s0, playlists, s1, playlists);
    }
  }

  /** The loop of `handleUpload`: one `addSheet` per file, in selection order. */
  method UploadAll(store: Store, files: seq<File>, dataUrl: File -> string, clock: nat -> Stamp)
    requires files != []
    modifies store`sheets, store.db`sheets, store.db`storage
    ensures store.sheets == UploadedSheets(files, dataUrl, clock) + old(store.sheets)
    ensures store.db.sheets == UploadedSheets(files, dataUrl, clock) + old(store.db.sheets)
    ensures store.db.storage == Save(old(store.db.storage), store.db.sheets, store.db.playlists)
    ensures old(store.Mirrors()) ==> store.Mirrors()
  {
    var k := 0;
    ghost var added: seq<Record> := [];
    while k < |files|
      invariant 0 <= k <= |files|
      invariant added == UploadedSheets(files[..k], dataUrl, clock)
      invariant store.sheets == added + old(store.sheets)
      invariant store.db.sheets == added + old(store.db.sheets)
      invariant k == 0 ==> store.db.storage == old(store.db.storage)
      invariant k > 0 ==> store.db.storage == Save(old(store.db.storage), store.db.sheets, store.db.playlists)
    {
      ghost var before, savedSheets := store.db.storage, store.db.sheets;
      var doc := store.AddSheet(UploadData(files[k], dataUrl), clock(k));
      SavedAfter(old(store.db.storage), before, store.db.storage, savedSheets, store.db.sheets, store.db.playlists, k);
      UploadedSheetsStep(files, k, dataUrl, clock);
      PrependAssoc(doc, added, old(store.sheets));
      PrependAssoc(doc, added, old(store.db.sheets));
      added := [doc] + added;
      k := k + 1;
    }
    assert files[..k] == files;
  }
}
