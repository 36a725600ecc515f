/// The file picker: which of the chosen files it passes on, when it calls
/// back, and the reset of the input element.
module Upload {
  import opened Js
  import Extraction

  /** A browser `File`, by the members the application reads. */
  datatype File = File(name: string, mimeType: string, size: nat)

  /** The picker keeps a file whose type is exactly `application/pdf` or starts with `image/`. */
  predicate IsAccepted(f: File) {
    f.mimeType == Extraction.PdfType || StartsWith(f.mimeType, Extraction.ImagePrefix)
  }

  /** The accepted files, in their original order. */
  function ValidFiles(files: seq<File>): (valid: seq<File>)
    ensures |valid| <= |files|
    ensures forall f :: f in valid <==> f in files && IsAccepted(f)
  {
    if files == [] then []
    else
      var rest := ValidFiles(files[..|files| - 1]);
      var last := files[|files| - 1];
      assert files == files[..|files| - 1] + [last];
      if IsAccepted(last) then rest + [last] else rest
  }

  /** Filtering works file by file: the accepted files of a concatenation are
      those of each part, in the same order. */
  lemma {:induction false} ValidFilesAppend(a: seq<File>, b: seq<File>)
    ensures ValidFiles(a + b) == ValidFiles(a) + ValidFiles(b)
    decreases |b|
  {
    if b == [] {
      assert a + b == a;
    } else {
      var b' := b[..|b| - 1];
      assert (a + b)[..|a + b| - 1] == a + b';
      assert (a + b)[|a + b| - 1] == b[|b| - 1];
      ValidFilesAppend(a, b');
    }
  }

  /** A list of accepted files passes the filter unchanged. */
  lemma {:induction false} ValidFilesOfAccepted(files: seq<File>)
    requires forall k :: 0 <= k < |files| ==> IsAccepted(files[k])
    ensures ValidFiles(files) == files
    decreases |files|
  {
    if files != [] {
      ValidFilesOfAccepted(files[..|files| - 1]);
      assert files == files[..|files| - 1] + [files[|files| - 1]];
    }
  }

  /** Filtering is idempotent. */
  lemma ValidFilesIdempotent(files: seq<File>)
    ensures ValidFiles(ValidFiles(files)) == ValidFiles(files)
  {
    var valid := ValidFiles(files);
    assert forall k :: 0 <= k < |valid| ==> valid[k] in valid;
    ValidFilesOfAccepted(valid);
  }

  /** The picker accepts exactly the types the server can extract: it never
      passes on a file the server answers with "Unsupported file type". */
  lemma AcceptedIsExtractable(f: File)
    ensures IsAccepted(f) <==> Extraction.PathFor(f.mimeType) != Extraction.Unsupported
  {
  }

  class FileUpload {
    /** The `value` of the hidden `<input type="file">`. */
    var inputValue: string

    constructor()
      ensures inputValue == ""
    {
      inputValue := "";
    }

    /** `handleFileChange` for the chosen files (`None` when the input has no
        file list): the callback gets the accepted files, and only when there
        is at least one; the input is cleared in every case. */
    method HandleFileChange(chosen: Option<seq<File>>) returns (callback: Option<seq<File>>)
      modifies this`inputValue
      ensures callback.Some? <==> ValidFiles(chosen.GetOr([])) != []
      ensures callback.Some? ==> callback.value == ValidFiles(chosen.GetOr([]))
      ensures inputValue == ""
    {
      var files := chosen.GetOr([]);
      var validFiles := ValidFiles(files);
      callback := None;
      if |validFiles| > 0 {
        callback := Some(validFiles);
      }
      inputValue := "";
    }
  }
}
