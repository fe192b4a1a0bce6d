/** Audio uploads (`opencore/audio/service.py`): the file name's extension is
    checked, the upload is copied chunk by chunk into a temporary file under a
    size limit, transcribed, and the temporary file is always removed. */
module Audio {
  import opened Wrappers
  import opened Text

  type Byte = bv8

  const MaxAudioSize: nat := 25 * 1024 * 1024
  const DefaultFileName := "audio.tmp"
  const AllowedExtensions: set<string> := {".wav", ".mp3", ".ogg", ".webm", ".m4a", ".flac", ".mpga"}

  /** An upload as the service sees it: the client's file name, if any, and
      the successive results of `read`; once the list is used up, `read`
      returns nothing. The service reads at most 1 MiB at a time; the model
      lets a piece have any length. */
  datatype Upload = Upload(filename: Option<string>, pieces: seq<seq<Byte>>)

  /** The three exceptions the service raises: the two of its own, and any
      other failure, re-raised after logging. */
  datatype AudioError =
    | InvalidType(message: string)   // AudioValidationError
    | TooLarge(message: string)      // AudioSizeError
    | Failed(message: string)

  datatype AudioResult = Transcribed(text: string) | Error(error: AudioError)

  /** The index of the last `c` in `s`, or -1 (`str.rfind`). */
  function LastIndexOf(s: string, c: char): (r: int)
    ensures -1 <= r < |s|
    ensures r >= 0 ==> s[r] == c
    ensures forall k | r < k < |s| :: s[k] != c
  {
    if s == [] then -1
    else if s[|s| - 1] == c then |s| - 1
    else LastIndexOf(s[..|s| - 1], c)
  }

  /** Some character of `s[from..to]` is not a dot. */
  predicate HasNonDot(s: string, from: int, to: int)
    requires 0 <= from && to <= |s|
  {
    exists k | from <= k < to :: s[k] != '.'
  }

  /** `os.path.splitext(p)[1]` on POSIX: the suffix from the last dot of the
      base name, unless that dot only belongs to a run of leading dots. */
  function Extension(p: string): (r: string)
    ensures |r| <= |p| && r == p[|p| - |r|..] && (r == [] || r[0] == '.')
  {
    var slash := LastIndexOf(p, '/');
    var dot := LastIndexOf(p, '.');
    if dot > slash && HasNonDot(p, slash + 1, dot) then p[dot..] else []
  }

  /** A suffix `.xyz` behind a stem whose last character is neither a dot nor
      a slash is exactly what `splitext` splits off. */
  lemma {:induction false} ExtensionOfSuffix(stem: string, ext: string)
    requires stem != [] && stem[|stem| - 1] != '.' && stem[|stem| - 1] != '/'
    requires ext != [] && ext[0] == '.' && forall k | 1 <= k < |ext| :: ext[k] != '.' && ext[k] != '/'
    ensures Extension(stem + ext) == ext
  {
    var p := stem + ext;
    var dot := LastIndexOf(p, '.');
    var slash := LastIndexOf(p, '/');
    assert p[|stem|] == '.';
    assert dot == |stem| by {
      forall k | |stem| < k < |p|
        ensures p[k] != '.'
      {
        assert p[k] == ext[k - |stem|];
      }
    }
    assert slash < |stem| - 1 by {
      forall k | |stem| - 1 <= k < |p|
        ensures p[k] != '/'
      {
        if k >= |stem| {
          assert p[k] == ext[k - |stem|];
        }
      }
    }
    assert p[|stem| - 1] != '.';
    assert HasNonDot(p, slash + 1, dot);
    assert p[dot..] == ext;
  }

  /** A name made only of dots after its last slash has no extension. */
  lemma LeadingDotsAreNoExtension(p: string)
    requires forall k | LastIndexOf(p, '/') < k < |p| :: p[k] == '.'
    ensures Extension(p) == []
  {
  }

  /** The extension the service checks: that of the file name, or of
      `audio.tmp` when there is none, lower-cased. */
  function CheckedExtension(filename: Option<string>): string {
    var name := if filename.Some? && filename.value != "" then filename.value else DefaultFileName;
    Lower(Extension(name))
  }

  /** A missing or empty file name is never accepted: `.tmp` is not an audio
      extension. */
  lemma MissingNameRejected(filename: Option<string>)
    requires filename.None? || filename.value == ""
    ensures CheckedExtension(filename) !in AllowedExtensions
  {
    ExtensionOfSuffix("audio", ".tmp");
    assert DefaultFileName == "audio" + ".tmp";
    LowerTmp();
    TmpNotAllowed();
  }

  lemma LowerTmp()
    ensures Lower(".tmp") == ".tmp"
  {
    var e := Lower(".tmp");
    assert e[0] == '.' && e[1] == 't' && e[2] == 'm' && e[3] == 'p';
  }

  lemma TmpNotAllowed()
    ensures ".tmp" !in AllowedExtensions
  {
    forall x | x in AllowedExtensions
      ensures x != ".tmp"
    {
      assert |x| > 1 && x[1] != 't';
    }
  }

  /** Upper-case extensions are accepted like lower-case ones. */
  lemma UpperCaseAccepted(stem: string)
    requires stem != [] && stem[|stem| - 1] != '.' && stem[|stem| - 1] != '/'
    ensures CheckedExtension(Some(stem + ".WAV")) == ".wav"
  {
    ExtensionOfSuffix(stem, ".WAV");
  }

  /** What the pieces deliver before the first empty one, which ends the copy. */
  function Delivered(pieces: seq<seq<Byte>>): seq<seq<Byte>> {
    if pieces == [] || pieces[0] == [] then [] else [pieces[0]] + Delivered(pieces[1..])
  }

  function Flatten(chunks: seq<seq<Byte>>): seq<Byte> {
    if chunks == [] then [] else chunks[0] + Flatten(chunks[1..])
  }

  lemma {:induction false} FlattenAppend(chunks: seq<seq<Byte>>, last: seq<Byte>)
    ensures Flatten(chunks + [last]) == Flatten(chunks) + last
  {
    if chunks != [] {
      assert (chunks + [last])[1..] == chunks[1..] + [last];
      FlattenAppend(chunks[1..], last);
    }
  }

  lemma {:induction false} DeliveredPrefix(pieces: seq<seq<Byte>>, i: nat)
    requires i <= |pieces| && forall k | 0 <= k < i :: pieces[k] != []
    ensures |Delivered(pieces)| >= i && Delivered(pieces)[..i] == pieces[..i]
    ensures i < |pieces| && pieces[i] == [] ==> Delivered(pieces) == pieces[..i]
    ensures i == |pieces| ==> Delivered(pieces) == pieces
  {
    if i > 0 {
      DeliveredPrefix(pieces[1..], i - 1);
      assert pieces[1..][..i - 1] == pieces[1..i];
      assert pieces[..i] == [pieces[0]] + pieces[1..i];
    }
  }

  /** The bytes of the first chunks start the bytes of all of them. */
  lemma {:induction false} FlattenPrefix(chunks: seq<seq<Byte>>, i: nat)
    requires i <= |chunks|
    ensures Flatten(chunks[..i]) <= Flatten(chunks)
    decreases i
  {
    if i > 0 {
      FlattenPrefix(chunks[1..], i - 1);
      assert chunks[..i][1..] == chunks[1..][..i - 1];
    }
  }

  /** The bytes of a prefix of the chunks never outnumber those of all of
      them. */
  lemma {:induction false} FlattenPrefixShorter(chunks: seq<seq<Byte>>, i: nat)
    requires i <= |chunks|
    ensures |Flatten(chunks[..i])| <= |Flatten(chunks)|
    decreases |chunks| - i
  {
    if i < |chunks| {
      FlattenPrefixShorter(chunks, i + 1);
      assert chunks[..i + 1] == chunks[..i] + [chunks[i]];
      FlattenAppend(chunks[..i], chunks[i]);
    } else {
      assert chunks[..i] == chunks;
    }
  }

  const SizeMessage := "File too large. Maximum size is " + IntToString(MaxAudioSize / (1024 * 1024)) + "MB."

  /** `listing` is an iteration order of the allowed extensions: as many
      entries as there are extensions, each an allowed one, none twice, so
      that each extension is listed exactly once. */
  predicate ListsAllowed(listing: seq<string>) {
    && |listing| == |AllowedExtensions|
    && (forall i | 0 <= i < |listing| :: listing[i] in AllowedExtensions)
    && (forall i, j | 0 <= i < j < |listing| :: listing[i] != listing[j])
  }

  /** `f"Invalid file type. Allowed extensions: {', '.join(...)}"`, where the
      set's iteration order is given as `listing`. */
  function TypeMessage(listing: seq<string>): string {
    "Invalid file type. Allowed extensions: " + Join(", ", listing)
  }

  /** The temporary directory: file paths and their contents. */
  class Disk {
    var files: map<string, seq<Byte>>

    constructor(files: map<string, seq<Byte>>)
      ensures this.files == files
    {
      this.files := files;
    }

    /** `NamedTemporaryFile(delete=False)`: an empty new file. */
    method Create(path: string)
      modifies this
      ensures files == old(files)[path := []]
    {
      files := files[path := []];
    }

    /** `tmp.write(chunk)` */
    method Write(path: string, chunk: seq<Byte>)
      requires path in files
      modifies this
      ensures files == old(files)[path := old(files)[path] + chunk]
    {
      files := files[path := files[path] + chunk];
    }

    /** `os.remove(path)` */
    method Remove(path: string)
      modifies this
      ensures files == old(files) - {path}
    {
      files := files - {path};
    }
  }

  /** The copy loop of `process_upload`: chunks are appended to the
      temporary file while the running total stays within `MaxAudioSize`; the
      chunk that takes it over the limit is not written. */
  method CopyToTemp(pieces: seq<seq<Byte>>, disk: Disk, tmpPath: string) returns (tooLarge: bool, ghost written: seq<Byte>)
    requires tmpPath in disk.files && disk.files[tmpPath] == []
    modifies disk
    ensures tooLarge <==> |Flatten(Delivered(pieces))| > MaxAudioSize
    ensures disk.files == old(disk.files)[tmpPath := written]
    ensures |written| <= MaxAudioSize && written <= Flatten(Delivered(pieces))
    ensures !tooLarge ==> written == Flatten(Delivered(pieces))
  {
    var total := 0;
    var i := 0;
    written := [];
    while true
      invariant i <= |pieces| && forall k | 0 <= k < i :: pieces[k] != []
      invariant written == Flatten(pieces[..i]) && total == |written| <= MaxAudioSize
      invariant disk.files == old(disk.files)[tmpPath := written]
      decreases |pieces| - i
    {
      var chunk := if i < |pieces| then pieces[i] else [];
      if chunk == [] {
        break;
      }
      DeliveredPrefix(pieces, i + 1);
      assert pieces[..i + 1] == pieces[..i] + [chunk];
      FlattenAppend(pieces[..i], chunk);
      FlattenPrefix(Delivered(pieces), i + 1);
      total := total + |chunk|;
      if total > MaxAudioSize {
        FlattenPrefixShorter(Delivered(pieces), i + 1);
        FlattenPrefix(Delivered(pieces), i);
        assert Delivered(pieces)[..i] == pieces[..i];
        return true, written;
      }
      disk.Write(tmpPath, chunk);
      written := written + chunk;
      i := i + 1;
    }
    DeliveredPrefix(pieces, i);
    assert Delivered(pieces) == pieces[..i];
    tooLarge := false;
  }

  /** `AudioService.process_upload`. `tmpPath` is the fresh name the
      temporary file gets, `listing` the order in which the allowed
      extensions are listed, and `transcribe` the transcriber applied to the
      saved file's bytes. The outcome depends only on the extension and the
      delivered bytes: an upload of exactly `MaxAudioSize` bytes is
      accepted, one byte more is not, and whatever happens the disk is left
      as it was. */
  method ProcessUpload(upload: Upload, disk: Disk, tmpPath: string, listing: seq<string>,
                       transcribe: seq<Byte> -> Outcome<string>)
    returns (r: AudioResult)
    requires tmpPath !in disk.files
    requires ListsAllowed(listing)
    modifies disk
    ensures disk.files == old(disk.files)
    ensures CheckedExtension(upload.filename) !in AllowedExtensions ==> r == Error(InvalidType(TypeMessage(listing)))
    ensures CheckedExtension(upload.filename) in AllowedExtensions ==>
      var data := Flatten(Delivered(upload.pieces));
      && (|data| > MaxAudioSize ==> r == Error(TooLarge(SizeMessage)))
      && (|data| <= MaxAudioSize ==>
            r == match transcribe(data) case Returned(t) => Transcribed(t) case Raised(e) => Error(Failed(e)))
  {
    var ext := CheckedExtension(upload.filename);
    if ext !in AllowedExtensions {
      return Error(InvalidType(TypeMessage(listing)));
    }
    disk.Create(tmpPath);
    var tooLarge, written := CopyToTemp(upload.pieces, disk, tmpPath);
    if tooLarge {
      r := Error(TooLarge(SizeMessage));
    } else {
      var text := transcribe(disk.files[tmpPath]);
      r := match text case Returned(t) => Transcribed(t) case Raised(e) => Error(Failed(e));
    }
    disk.Remove(tmpPath);
  }
}
