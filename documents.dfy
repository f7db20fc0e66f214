/**
 * The medical-documents tab of a client: stored file names are the URL-safe base64 of the
 * UTF-8 bytes of the display name; the panel suggests, builds and keeps extensions, classifies
 * previews, and keeps its list and dialog state in component fields.
 */
module DocumentsManager {
  import opened Wrappers
  import opened JsText
  import opened Seqs
  import Utf8
  import Base64

  /** `.replace(/\//g, "_").replace(/\+/g, "-")`: the substitutions of section 5 of RFC 4648. */
  function ToUrlSafe(s: string): (r: string)
    ensures |r| == |s|
    ensures forall i :: 0 <= i < |s| ==> r[i] == (if s[i] == '/' then '_' else if s[i] == '+' then '-' else s[i])
  {
    seq(|s|, i requires 0 <= i < |s| => if s[i] == '/' then '_' else if s[i] == '+' then '-' else s[i])
  }

  /** `.replace(/-/g, "+").replace(/_/g, "/")`: back to the standard alphabet. */
  function FromUrlSafe(s: string): (r: string)
    ensures |r| == |s|
    ensures forall i :: 0 <= i < |s| ==> r[i] == (if s[i] == '-' then '+' else if s[i] == '_' then '/' else s[i])
  {
    seq(|s|, i requires 0 <= i < |s| => if s[i] == '-' then '+' else if s[i] == '_' then '/' else s[i])
  }

  /** The characters of a stored name: the URL-safe digits and the padding. */
  predicate IsStoredNameChar(c: char) {
    'A' <= c <= 'Z' || 'a' <= c <= 'z' || '0' <= c <= '9' || c == '-' || c == '_' || c == '='
  }

  /**
   * `encodeName`: `encodeURIComponent` followed by the `%XX` to character replacement turns
   * the name into one character per UTF-8 octet, which `btoa` encodes.
   */
  function EncodeName(name: string): (r: string)
    ensures |r| % 4 == 0
    ensures forall i :: 0 <= i < |r| ==> IsStoredNameChar(r[i])
  {
    ToUrlSafe(Base64.Encode(Utf8.Encode(name)))
  }

  /**
   * `decodeName`: `atob` of the standard alphabet, then `decodeURIComponent` of the octets as
   * `%XX` escapes. When either throws, the name is returned as it was.
   */
  function DecodeName(stored: string): (r: string)
    ensures r != stored ==>
      Base64.Decode(FromUrlSafe(stored)).Some? && Utf8.Encode(r) == Base64.Decode(FromUrlSafe(stored)).value
  {
    match Base64.Decode(FromUrlSafe(stored))
    case None => stored
    case Some(octets) =>
      match Utf8.Decode(octets)
      case None => stored
      case Some(name) => Utf8.EncodeDecode(octets); name
  }

  /** Every name comes back from its stored form. */
  lemma DecodeEncodeName(name: string)
    ensures DecodeName(EncodeName(name)) == name
  {
    var bs := Utf8.Encode(name);
    var b := Base64.Encode(bs);
    assert FromUrlSafe(ToUrlSafe(b)) == b;
    Base64.DecodeEncode(bs);
    Utf8.DecodeEncode(name);
  }

  /** In a stored name the padding comes last: `=` only in the last two places. */
  lemma StoredNameShape(name: string)
    ensures var r := EncodeName(name);
      forall i :: 0 <= i < |r| && r[i] == '=' ==> i >= |r| - 2
  {
    var bs := Utf8.Encode(name);
    Base64.EncodeDigitsShape(bs);
  }

  /** Different display names never share a stored name. */
  lemma EncodeNameInjective(a: string, b: string)
    requires EncodeName(a) == EncodeName(b)
    ensures a == b
  {
    DecodeEncodeName(a);
    DecodeEncodeName(b);
  }

  /**
   * Names stored before the encoding was introduced, such as `report.pdf` or a Hebrew name,
   * hold a character `atob` rejects and are shown as they are.
   */
  lemma LegacyNameUnchanged(stored: string, c: char)
    requires c in stored && !Base64.IsAsciiSpace(c) && !IsStoredNameChar(c) && c != '+' && c != '/'
    ensures DecodeName(stored) == stored
  {
    var i :| 0 <= i < |stored| && stored[i] == c;
    var t := FromUrlSafe(stored);
    assert t[i] == c;
    Base64.DecodeRejects(t, c);
  }

  /**
   * `handleFileSelect`: `name.substring(0, name.lastIndexOf("."))` or, when that is empty
   * (no dot, or only a leading one), the whole name.
   */
  function SuggestedName(fileName: string): (r: string)
    ensures var k := LastIndexOf(fileName, '.');
      if k <= 0 then r == fileName else r == fileName[..k] && fileName[k] == '.' && '.' !in fileName[k + 1..]
  {
    var k := LastIndexOf(fileName, '.');
    var before := if k < 0 then [] else fileName[..k];
    if before == [] then fileName else before
  }

  /** `name.split(".").pop()`: the text after the last dot, or the whole name without one. */
  function Extension(name: string): (r: string)
    ensures '.' !in r
    ensures var k := LastIndexOf(name, '.'); r == if k == -1 then name else name[k + 1..]
  {
    LastPieceAfterLastSep(name, '.');
    LastPiece(name, '.')
  }

  /** The display name built from an entered name and the extension of another name. */
  function WithExtension(entered: string, extensionSource: string): string {
    JsTrim(entered) + "." + Extension(extensionSource)
  }

  /**
   * `handleUpload`: nothing without a selected file or with an input that trims to empty;
   * otherwise the stored name of the trimmed input plus the selected file's extension.
   */
  function UploadName(selected: Option<string>, input: string): (r: Option<string>)
    ensures r.Some? <==> selected.Some? && JsTrim(input) != []
  {
    if selected.None? || JsTrim(input) == [] then None
    else Some(EncodeName(WithExtension(input, selected.value)))
  }

  /** The stored name of an upload shows as the trimmed input plus the selected file's extension. */
  lemma UploadNameDecodes(selected: string, input: string)
    requires JsTrim(input) != []
    ensures DecodeName(UploadName(Some(selected), input).value) == WithExtension(input, selected)
  {
    DecodeEncodeName(WithExtension(input, selected));
  }

  /**
   * `saveRename`: nothing when the input trims to empty; otherwise the stored name of the
   * trimmed input plus the extension of the decoded old name.
   */
  function RenameTarget(oldStored: string, input: string): (r: Option<string>)
    ensures r.Some? <==> JsTrim(input) != []
  {
    if JsTrim(input) == [] then None
    else Some(EncodeName(WithExtension(input, DecodeName(oldStored))))
  }

  /** The extension of a name ending in `.` and a dot-free text is that text. */
  lemma ExtensionOfWith(entered: string, ext: string)
    requires '.' !in ext
    ensures Extension(JsTrim(entered) + "." + ext) == ext
  {
    var s := JsTrim(entered) + "." + ext;
    assert s == JsTrim(entered) + ['.'] + ext;
    SplitWhereAfterLast(JsTrim(entered), '.', ext, c => c == '.');
  }

  /** An upload keeps the extension of the chosen file. */
  lemma UploadKeepsExtension(selected: string, input: string)
    requires JsTrim(input) != []
    ensures Extension(DecodeName(UploadName(Some(selected), input).value)) == Extension(selected)
  {
    UploadNameDecodes(selected, input);
    ExtensionOfWith(input, Extension(selected));
  }

  /** A rename keeps the extension of the file's display name. */
  lemma RenameKeepsExtension(oldStored: string, input: string)
    requires JsTrim(input) != []
    ensures Extension(DecodeName(RenameTarget(oldStored, input).value)) == Extension(DecodeName(oldStored))
  {
    var shown := WithExtension(input, DecodeName(oldStored));
    DecodeEncodeName(shown);
    ExtensionOfWith(input, Extension(DecodeName(oldStored)));
  }

  /** What the preview dialog shows. */
  datatype PreviewType = Image | Pdf | Other

  const ImageExtensions: seq<string> := ["jpg", "jpeg", "png", "gif", "webp"]

  /** `handlePreview`: the lower-cased extension of the display name decides the preview. */
  function PreviewKind(displayName: string): (r: PreviewType)
    ensures r == Image <==> ToLower(Extension(displayName)) in ImageExtensions
    ensures r == Pdf <==> ToLower(Extension(displayName)) == "pdf"
  {
    var ext := ToLower(Extension(displayName));
    if ext in ImageExtensions then Image else if ext == "pdf" then Pdf else Other
  }

  /** `s` ends with `suffix`. */
  predicate EndsWith(s: string, suffix: string) {
    |suffix| <= |s| && s[|s| - |suffix|..] == suffix
  }

  /** The list icon: `/\.(jpg|jpeg|png|gif|webp)$/i` on the display name. */
  predicate ShowsImageIcon(displayName: string) {
    exists e :: e in ImageExtensions && EndsWith(ToLower(displayName), "." + e)
  }

  /** A display name with a dot gets the image icon exactly when it previews as an image. */
  lemma IconAgreesWithPreview(displayName: string)
    requires '.' in displayName
    ensures ShowsImageIcon(displayName) <==> PreviewKind(displayName) == Image
  {
    var k := LastIndexOf(displayName, '.');
    var low := ToLower(displayName);
    assert low[k] == '.';
    assert forall j :: k < j < |low| ==> low[j] != '.';
    assert low[k + 1..] == ToLower(Extension(displayName));
    if PreviewKind(displayName) == Image {
      DottedSuffix(low, k);
    }
    if ShowsImageIcon(displayName) {
      var e :| e in ImageExtensions && EndsWith(low, "." + e);
      ImageExtensionDotFree(e);
      SuffixAfterLastDot(low, k, e);
    }
  }

  lemma ImageExtensionDotFree(e: string)
    requires e in ImageExtensions
    ensures '.' !in e
  {
    assert e == "jpg" || e == "jpeg" || e == "png" || e == "gif" || e == "webp";
  }

  lemma DottedSuffix(low: string, k: nat)
    requires k < |low| && low[k] == '.'
    ensures EndsWith(low, "." + low[k + 1..])
  {
    assert low[k..] == "." + low[k + 1..];
  }

  /** A dot-free suffix after a dot is the text after the last dot. */
  lemma SuffixAfterLastDot(low: string, k: nat, e: string)
    requires k < |low| && low[k] == '.'
    requires forall j :: k < j < |low| ==> low[j] != '.'
    requires '.' !in e && EndsWith(low, "." + e)
    ensures low[k + 1..] == e
  {
    var j := |low| - |e| - 1;
    assert low[j] == ("." + e)[0];
    assert forall i :: j < i < |low| ==> low[i] == e[i - j - 1];
    assert forall i :: j < i < |low| ==> low[i] != '.';
    assert j == k;
    assert low[j + 1..] == ("." + e)[1..];
  }

  /** A name without a dot is its own extension: `png` previews as an image with the plain icon. */
  lemma NoDotPreviewWithoutIcon()
    ensures PreviewKind("png") == Image && !ShowsImageIcon("png")
  {
    assert Extension("png") == "png";
    assert ToLower("png") == "png";
  }

  /** A stored file as the storage listing reports it. */
  datatype StoredFile = StoredFile(id: string, name: string)

  /** `handleDelete`: the listing without the entries of that stored name, in order. */
  function WithoutFile(files: seq<StoredFile>, name: string): (r: seq<StoredFile>)
    ensures forall f :: f in r <==> f in files && f.name != name
    ensures SubsequenceOf(r, files)
  {
    var keep := (f: StoredFile) => f.name != name;
    var r := Filter(files, keep);
    FilterSubsequence(files, keep);
    forall f | f in r ensures f in files {
      assert f in multiset(r);
    }
    r
  }

  /** The pencil button: the display name up to its first dot. */
  function EditPrefill(displayName: string): string {
    FirstPiece(displayName, '.')
  }

  lemma EditPrefillBeforeDot(base: string, rest: string)
    requires '.' !in base
    ensures EditPrefill(base + "." + rest) == base
    ensures EditPrefill(base) == base
  {
    assert base + "." + rest == base + ['.'] + rest;
    FirstPieceBeforeSep(base, rest, '.');
  }

  /** The state of the documents tab. */
  class DocumentsPanel {
    var files: seq<StoredFile>
    var isUploadOpen: bool
    var selectedFile: Option<string>
    var fileNameInput: string
    var editingFileId: Option<string>
    var editNameInput: string
    var previewOpen: bool
    var previewUrl: Option<string>
    var previewType: PreviewType
    var previewTitle: string

    constructor ()
      ensures files == [] && !isUploadOpen && selectedFile == None && fileNameInput == []
      ensures editingFileId == None && editNameInput == []
      ensures !previewOpen && previewUrl == None && previewType == Other && previewTitle == []
    {
      files := [];
      isUploadOpen := false;
      selectedFile := None;
      fileNameInput := [];
      editingFileId := None;
      editNameInput := [];
      previewOpen := false;
      previewUrl := None;
      previewType := Other;
      previewTitle := [];
    }

    /** `listFiles`: a successful listing replaces the files; an error keeps them. */
    method ListFiles(listing: Option<seq<StoredFile>>)
      modifies this
      ensures files == if listing.Some? then listing.value else old(files)
      ensures unchanged(this`isUploadOpen, this`selectedFile, this`fileNameInput, this`editingFileId)
      ensures unchanged(this`editNameInput, this`previewOpen, this`previewUrl, this`previewType, this`previewTitle)
    {
      if listing.Some? {
        files := listing.value;
      }
    }

    /** `handleFileSelect`: remembers the chosen file and suggests its name. */
    method HandleFileSelect(chosen: Option<string>)
      modifies this
      ensures chosen.Some? ==> selectedFile == chosen && fileNameInput == SuggestedName(chosen.value)
      ensures chosen.None? ==> selectedFile == old(selectedFile) && fileNameInput == old(fileNameInput)
      ensures unchanged(this`files, this`isUploadOpen, this`editingFileId, this`editNameInput)
      ensures unchanged(this`previewOpen, this`previewUrl, this`previewType, this`previewTitle)
    {
      if chosen.Some? {
        selectedFile := chosen;
        fileNameInput := SuggestedName(chosen.value);
      }
    }

    /**
     * `handleUpload`: returns the stored name sent to storage, if any; a successful upload
     * closes the dialog and clears the selection and the input.
     */
    method HandleUpload(uploadSucceeded: bool) returns (upload: Option<string>)
      modifies this
      ensures upload == UploadName(old(selectedFile), old(fileNameInput))
      ensures upload.Some? && uploadSucceeded ==>
        !isUploadOpen && selectedFile == None && fileNameInput == []
      ensures upload.None? || !uploadSucceeded ==>
        isUploadOpen == old(isUploadOpen) && selectedFile == old(selectedFile) && fileNameInput == old(fileNameInput)
      ensures unchanged(this`files, this`editingFileId, this`editNameInput)
      ensures unchanged(this`previewOpen, this`previewUrl, this`previewType, this`previewTitle)
    {
      upload := UploadName(selectedFile, fileNameInput);
      if upload.Some? && uploadSucceeded {
        CloseUpload();
      }
    }

    /** Closes the upload dialog and clears the selection and the input. */
    method CloseUpload()
      modifies this
      ensures !isUploadOpen && selectedFile == None && fileNameInput == []
      ensures unchanged(this`files, this`editingFileId, this`editNameInput)
      ensures unchanged(this`previewOpen, this`previewUrl, this`previewType, this`previewTitle)
    {
      isUploadOpen := false;
      selectedFile := None;
      fileNameInput := [];
    }

    /**
     * `handlePreview`: with a signed URL, records the URL, the kind and the display name;
     * images and PDFs open the dialog, anything else opens a new window instead.
     */
    method HandlePreview(file: StoredFile, signedUrl: Option<string>) returns (opensWindow: bool)
      modifies this
      ensures signedUrl.None? ==> !opensWindow && unchanged(this)
      ensures signedUrl.Some? ==>
        previewUrl == signedUrl && previewType == PreviewKind(DecodeName(file.name))
        && previewTitle == DecodeName(file.name)
        && opensWindow == (previewType == Other)
        && previewOpen == (old(previewOpen) || previewType != Other)
      ensures unchanged(this`files, this`isUploadOpen, this`selectedFile, this`fileNameInput)
      ensures unchanged(this`editingFileId, this`editNameInput)
    {
      opensWindow := false;
      if signedUrl.Some? {
        var kind := PreviewKind(DecodeName(file.name));
        previewUrl := signedUrl;
        previewType := kind;
        previewTitle := DecodeName(file.name);
        if kind == Other {
          opensWindow := true;
        } else {
          previewOpen := true;
        }
      }
    }

    /** `handleDelete`: after confirmation and a successful removal, drops the entries of that name. */
    method HandleDelete(name: string, confirmed: bool, removeSucceeded: bool) returns (removes: bool)
      modifies this
      ensures removes == confirmed
      ensures files == if confirmed && removeSucceeded then WithoutFile(old(files), name) else old(files)
      ensures unchanged(this`isUploadOpen, this`selectedFile, this`fileNameInput, this`editingFileId)
      ensures unchanged(this`editNameInput, this`previewOpen, this`previewUrl, this`previewType, this`previewTitle)
    {
      removes := confirmed;
      if confirmed && removeSucceeded {
        files := WithoutFile(files, name);
      }
    }

    /** The pencil button: starts editing the file with its name up to the first dot. */
    method StartEdit(file: StoredFile)
      modifies this
      ensures editingFileId == Some(file.id) && editNameInput == EditPrefill(DecodeName(file.name))
      ensures unchanged(this`files, this`isUploadOpen, this`selectedFile, this`fileNameInput)
      ensures unchanged(this`previewOpen, this`previewUrl, this`previewType, this`previewTitle)
    {
      editingFileId := Some(file.id);
      editNameInput := EditPrefill(DecodeName(file.name));
    }

    /**
     * `saveRename`: returns the stored name the file is moved to, if any; a successful move
     * ends the editing.
     */
    method SaveRename(oldStored: string, moveSucceeded: bool) returns (target: Option<string>)
      modifies this
      ensures target == RenameTarget(oldStored, old(editNameInput))
      ensures editingFileId == if target.Some? && moveSucceeded then None else old(editingFileId)
      ensures unchanged(this`files, this`isUploadOpen, this`selectedFile, this`fileNameInput, this`editNameInput)
      ensures unchanged(this`previewOpen, this`previewUrl, this`previewType, this`previewTitle)
    {
      target := RenameTarget(oldStored, editNameInput);
      if target.Some? && moveSucceeded {
        editingFileId := None;
      }
    }
  }
}
