/**
 * The attachment button (frontend/src/components/chat/file-upload.tsx): the icon chosen
 * for a file name by its extension, and the drop handler's state (`uploading`,
 * `progress`, `selectedFile`) around the upload request, whose response is a parameter.
 */
module FileUpload {
  import opened Wrappers
  import opened Text
  import SocketService

  // ------------------------------------------------------------------
  // Icons
  // ------------------------------------------------------------------

  const ImageExtensions: seq<string> := ["jpg", "jpeg", "png", "gif", "webp"]
  const VideoExtensions: seq<string> := ["mp4", "mov", "avi", "mkv"]
  const AudioExtensions: seq<string> := ["mp3", "wav", "ogg", "m4a"]
  const DocumentExtensions: seq<string> := ["pdf", "doc", "docx", "txt"]

  datatype Icon = ImageIcon | VideoIcon | MusicIcon | DocumentIcon | GenericIcon

  /** A lowercase string has a dot exactly where the original has one. */
  lemma LowerKeepsDots(s: string)
    ensures '.' in Lower(s) <==> '.' in s
  {
    if '.' in s {
      var i :| 0 <= i < |s| && s[i] == '.';
      assert Lower(s)[i] == '.';
    }
  }

  /**
   * The extension as the icon sees it: the lowercased last piece of the name split at
   * '.', which is the whole name when it has no '.' and empty when it ends with one.
   */
  function Extension(filename: string): (r: string)
    ensures |r| <= |filename| && r == Lower(filename[|filename| - |r|..])
    ensures '.' !in r
    ensures '.' !in filename ==> r == Lower(filename)
    ensures '.' in filename ==> |r| < |filename| && filename[|filename| - |r| - 1] == '.'
  {
    var last := AfterLast(filename, '.');
    LowerKeepsDots(last);
    Lower(last)
  }

  /** `getFileIcon`: the first extension list that holds the extension decides; none means generic. */
  function FileIcon(filename: string): (r: Icon)
    ensures r == ImageIcon <==> Extension(filename) in ImageExtensions
    ensures r == VideoIcon <==> Extension(filename) in VideoExtensions
    ensures r == MusicIcon <==> Extension(filename) in AudioExtensions
    ensures r == DocumentIcon <==> Extension(filename) in DocumentExtensions
  {
    var ext := Extension(filename);
    ExtensionListsDisjoint(ext);
    if ext in ImageExtensions then ImageIcon
    else if ext in VideoExtensions then VideoIcon
    else if ext in AudioExtensions then MusicIcon
    else if ext in DocumentExtensions then DocumentIcon
    else GenericIcon
  }

  /** No extension is in two lists, so the order of the tests does not matter. */
  lemma ExtensionListsDisjoint(ext: string)
    ensures ext in ImageExtensions ==> ext !in VideoExtensions && ext !in AudioExtensions && ext !in DocumentExtensions
    ensures ext in VideoExtensions ==> ext !in AudioExtensions && ext !in DocumentExtensions
    ensures ext in AudioExtensions ==> ext !in DocumentExtensions
  {
  }

  /** A name's icon is generic exactly when its extension is in none of the lists. */
  lemma GenericIff(filename: string)
    ensures FileIcon(filename) == GenericIcon <==>
      var ext := Extension(filename);
      ext !in ImageExtensions && ext !in VideoExtensions && ext !in AudioExtensions && ext !in DocumentExtensions
  {
  }

  /** Edge case of the lower-casing before the lookup: an upper-case "JPG" still gets the image icon. */
  lemma UppercaseImageExtension()
    ensures FileIcon("Photo.JPG") == ImageIcon
  {
    assert AfterLast("Photo.JPG", '.') == "JPG";
    assert Lower("JPG") == "jpg";
  }

  /** Edge case of `split('.').pop()` with several dots: only the piece after the last dot is looked up. */
  lemma LastExtensionCounts()
    ensures FileIcon("clip.old.mp4") == VideoIcon
  {
    assert Extension("clip.old.mp4") == "mp4";
  }

  /** Edge case of a known extension in the middle of a name: it is ignored in favour of the final one. */
  lemma InnerExtensionIgnored()
    ensures FileIcon("song.mp3.zip") == GenericIcon
  {
    assert Extension("song.mp3.zip") == "zip";
  }

  /** Edge case of a name with no dot: `pop()` returns the whole name, which is then looked up as an extension. */
  lemma WholeNameAsExtension()
    ensures FileIcon("pdf") == DocumentIcon
  {
    assert Extension("pdf") == "pdf";
  }

  /** Edge case of a name ending in a dot: `pop()` returns the empty piece, which is in no list, so the icon is generic. */
  lemma TrailingDotIsGeneric()
    ensures FileIcon("notes.") == GenericIcon
  {
    assert Extension("notes.") == "";
  }

  // ------------------------------------------------------------------
  // Dropping a file
  // ------------------------------------------------------------------

  /** The dropzone's size limit, in bytes. */
  const MaxUploadBytes: nat := 10 * 1024 * 1024

  datatype PickedFile = PickedFile(name: string, size: nat)

  /** The response of `POST /chat/upload`: the stored file's URL, name, type and size. */
  datatype FileData = FileData(url: string, filename: string, kind: string, size: int)

  /** A failed request: the response's `detail` and the error's `message`, when present. */
  datatype UploadError = UploadError(detail: Option<string>, message: Option<string>)

  /** The alert text: the detail when non-empty, else the message when non-empty, else "Upload failed". */
  function ErrorText(e: UploadError): (r: string)
    ensures SocketService.TruthyText(e.detail) ==> r == e.detail.value
    ensures !SocketService.TruthyText(e.detail) && SocketService.TruthyText(e.message) ==> r == e.message.value
    ensures !SocketService.TruthyText(e.detail) && !SocketService.TruthyText(e.message) ==> r == "Upload failed"
    ensures r != ""
  {
    if SocketService.TruthyText(e.detail) then e.detail.value
    else if SocketService.TruthyText(e.message) then e.message.value
    else "Upload failed"
  }

  /** The dropped files that pass the dropzone's `maxSize` test: those within the size limit, in order. */
  function WithinLimit(dropped: seq<PickedFile>): (r: seq<PickedFile>)
    ensures |r| <= |dropped|
    ensures forall f :: f in r <==> f in dropped && f.size <= MaxUploadBytes
  {
    if dropped == [] then []
    else (if dropped[0].size <= MaxUploadBytes then [dropped[0]] else []) + WithinLimit(dropped[1..])
  }

  /** The first file within the limit is the first accepted one: any file before it is over the limit. */
  lemma {:induction false} FirstAccepted(dropped: seq<PickedFile>)
    requires WithinLimit(dropped) != []
    ensures exists k ::
      (0 <= k < |dropped| && dropped[k] == WithinLimit(dropped)[0]
       && forall j :: 0 <= j < k ==> dropped[j].size > MaxUploadBytes)
  {
    if dropped[0].size > MaxUploadBytes {
      FirstAccepted(dropped[1..]);
      var k :| 0 <= k < |dropped[1..]| && dropped[1..][k] == WithinLimit(dropped[1..])[0]
        && (forall j :: 0 <= j < k ==> dropped[1..][j].size > MaxUploadBytes);
      assert dropped[k + 1] == WithinLimit(dropped)[0];
      assert forall j :: 0 <= j < k + 1 ==> dropped[j].size > MaxUploadBytes by {
        forall j | 0 <= j < k + 1
          ensures dropped[j].size > MaxUploadBytes
        {
          if j > 0 {
            assert dropped[j] == dropped[1..][j - 1];
          }
        }
      }
    } else {
      assert dropped[0] == WithinLimit(dropped)[0];
    }
  }

  /**
   * The files the dropzone hands to `onDrop`: under `multiple: false`, a drop with more than
   * one file within the size limit is rejected as a whole, so the list is empty; otherwise it
   * is the files within the limit, which are then at most one.
   */
  function Accepted(dropped: seq<PickedFile>): (r: seq<PickedFile>)
    ensures |r| <= 1
    ensures r != [] <==> |WithinLimit(dropped)| == 1
    ensures r != [] ==> r[0] in dropped && r[0].size <= MaxUploadBytes
    ensures r != [] ==> forall f :: f in dropped && f.size <= MaxUploadBytes ==> f == r[0]
  {
    var within := WithinLimit(dropped);
    if |within| > 1 then [] else
      assert |within| == 1 ==> within[0] in within;
      within
  }

  /** Two small files dropped together: the dropzone rejects both and nothing is handed on. */
  lemma TwoSmallFilesRejected(a: PickedFile, b: PickedFile)
    requires a.size <= MaxUploadBytes && b.size <= MaxUploadBytes
    ensures WithinLimit([a, b]) == [a, b]
    ensures Accepted([a, b]) == []
  {
    assert [a, b][1..] == [b];
    assert [b][1..] == [];
  }

  /** An oversized file next to a small one does not count: the small one is handed on. */
  lemma OversizedFileDoesNotCount(big: PickedFile, small: PickedFile)
    requires big.size > MaxUploadBytes && small.size <= MaxUploadBytes
    ensures Accepted([big, small]) == [small]
  {
    assert [big, small][1..] == [small];
    assert [small][1..] == [];
  }

  class Uploader {
    var uploading: bool
    var progress: int
    var selectedFile: Option<PickedFile>
    /** The files sent to `POST /chat/upload`, oldest first. */
    var requests: seq<PickedFile>
    /** The responses handed to `onFileSelect`, oldest first. */
    var delivered: seq<FileData>
    var alerts: seq<string>

    constructor ()
      ensures !uploading && progress == 0 && selectedFile == None
      ensures requests == [] && delivered == [] && alerts == []
    {
      uploading, progress, selectedFile := false, 0, None;
      requests, delivered, alerts := [], [], [];
    }

    /**
     * A drop up to the request: nothing when the dropzone accepts no file (none within the
     * limit, or more than one); otherwise the one accepted file is selected and sent, with
     * uploading on and the progress at 0.
     */
    method OnDrop(dropped: seq<PickedFile>)
      modifies this`uploading, this`progress, this`selectedFile, this`requests
      ensures |WithinLimit(dropped)| != 1 ==>
        && uploading == old(uploading) && progress == old(progress)
        && selectedFile == old(selectedFile) && requests == old(requests)
      ensures |WithinLimit(dropped)| == 1 ==>
        && var file := WithinLimit(dropped)[0];
        && selectedFile == Some(file) && uploading && progress == 0
        && requests == old(requests) + [file] && file.size <= MaxUploadBytes
    {
      var accepted := Accepted(dropped);
      if |accepted| == 0 {
        return;
      }
      var file := accepted[0];
      assert file in accepted;
      selectedFile := Some(file);
      uploading := true;
      progress := 0;
      requests := requests + [file];
    }

    /**
     * The rest of `onDrop`, once the request settles: a response is handed on, a failure
     * alerts; either way the selection is cleared, uploading is off and the progress is 0.
     */
    method UploadSettled(outcome: Result<FileData, UploadError>)
      modifies this`uploading, this`progress, this`selectedFile, this`delivered, this`alerts
      ensures !uploading && progress == 0 && selectedFile == None
      ensures outcome.Ok? ==> delivered == old(delivered) + [outcome.value] && alerts == old(alerts)
      ensures outcome.Err? ==> delivered == old(delivered) && alerts == old(alerts) + [ErrorText(outcome.error)]
    {
      match outcome {
        case Ok(data) =>
          delivered := delivered + [data];
          selectedFile := None;
        case Err(e) =>
          alerts := alerts + [ErrorText(e)];
          selectedFile := None;
      }
      uploading := false;
      progress := 0;
    }
  }
}
