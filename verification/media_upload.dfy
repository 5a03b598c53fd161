/** Media classification and the upload pipeline of src/lib/utils/mediaUploadUtils.ts. The
    image codec work (HEIC conversion, JPEG re-encoding, dimensions, EXIF) and the object
    store are outside the model; the store's verdict per object is a parameter. */
module MediaUpload {
  import opened Common

  /** A submitted `File`: its name and MIME type. */
  datatype File = File(name: string, mimeType: string)

  datatype MediaType = Image | Video | Album

  /** `isImage`: an image MIME type, an untyped binary, or a name ending in .heic/.heif in
      any case. */
  predicate IsImage(f: File) {
    StartsWith(f.mimeType, "image/") || f.mimeType == "application/octet-stream"
    || EndsWith(Lower(f.name), ".heic") || EndsWith(Lower(f.name), ".heif")
  }

  /** `isVideo`. */
  predicate IsVideo(f: File) {
    StartsWith(f.mimeType, "video/")
  }

  const NoFiles := "No files provided"
  const UnsupportedPrefix := "Unsupported file type: "
  const VideoUnsupported := "Video files are not supported yet."

  /** `getMediaType`: more than one file is an album whatever the files are; a single file
      is an image or a video, checked in that order. */
  function GetMediaType(files: seq<File>): (r: Result<MediaType>)
    ensures files == [] <==> r == Err(NoFiles)
    ensures |files| > 1 <==> r == Ok(Album)
    ensures |files| == 1 ==> (r == Ok(Image) <==> IsImage(files[0]))
    ensures |files| == 1 ==> (r == Ok(Video) <==> !IsImage(files[0]) && IsVideo(files[0]))
    ensures |files| == 1 && !IsImage(files[0]) && !IsVideo(files[0]) ==> r == Err(UnsupportedPrefix + files[0].name)
  {
    if |files| == 0 then Err(NoFiles)
    else if |files| > 1 then Ok(Album)
    else if IsImage(files[0]) then Ok(Image)
    else if IsVideo(files[0]) then Ok(Video)
    else Err(UnsupportedPrefix + files[0].name)
  }

  /** The position of the last '.', or -1. */
  function LastDot(s: string): (i: int)
    ensures -1 <= i < |s|
    ensures i >= 0 ==> s[i] == '.'
    ensures forall j :: i < j < |s| ==> s[j] != '.'
  {
    if s == [] then -1
    else if s[|s| - 1] == '.' then |s| - 1
    else LastDot(s[..|s| - 1])
  }

  /** `name.split(".").pop()?.toLowerCase()`: the text after the last dot, or the whole
      name when it has none, lower-cased. */
  function Extension(name: string): (ext: string)
    ensures forall j :: 0 <= j < |ext| ==> ext[j] != '.' || LastDot(name) < 0
    ensures LastDot(name) < 0 ==> ext == Lower(name)
  {
    Lower(name[LastDot(name) + 1..])
  }

  /** Whether `processImage` sends the bytes through the HEIC converter first. */
  predicate NeedsHeicConversion(f: File) {
    Extension(f.name) == "heic" || Extension(f.name) == "heif"
  }

  /** A name ending in a dot followed by dot-free text has its last dot there. */
  lemma {:induction false} LastDotOfSuffix(stem: string, tail: string)
    requires tail != [] && tail[0] == '.'
    requires forall j :: 1 <= j < |tail| ==> tail[j] != '.'
    ensures LastDot(stem + tail) == |stem|
    decreases |tail|
  {
    var s := stem + tail;
    if |tail| > 1 {
      assert s[|s| - 1] == tail[|tail| - 1];
      assert s[..|s| - 1] == stem + tail[..|tail| - 1];
      LastDotOfSuffix(stem, tail[..|tail| - 1]);
    }
  }

  /** A name with a .heic or .heif extension, in any case, is both treated as an image and
      converted. */
  lemma HeicNamesAreConvertedImages(stem: string, ext: string, mimeType: string)
    requires Lower(ext) == ".heic" || Lower(ext) == ".heif"
    ensures IsImage(File(stem + ext, mimeType)) && NeedsHeicConversion(File(stem + ext, mimeType))
  {
    var name := stem + ext;
    assert forall j :: 0 <= j < |ext| ==> LowerChar(ext[j]) == Lower(ext)[j];
    LastDotOfSuffix(stem, ext);
    assert name[|stem| + 1..] == ext[1..];
    assert Lower(name[|stem| + 1..]) == Lower(ext)[1..];
    assert Lower(name)[|name| - |ext|..] == Lower(ext);
  }

  /** What `processImage` returns, without the image bytes and metadata. */
  datatype ProcessedMedia = ProcessedMedia(fileName: string, originalName: string, contentType: string,
                                           mimeType: string, convertedFromHeic: bool, fileUrl: string)

  /** The per-request environment: the bucket setting, the public endpoint, the UUID
      `randomUUID` yields for each file, the error the image codec raises on a file (if
      any), and the store's verdict on each `PutObject` (bucket, key). */
  datatype UploadEnv = UploadEnv(bucket: Option<string>, publicEndpoint: string, uuid: nat -> string,
                                 codecError: File -> Option<string>, put: (string, string) -> Result<bool>)

  function Bucket(env: UploadEnv): (b: string)
    ensures Truthy(env.bucket) ==> b == env.bucket.value
    ensures !Truthy(env.bucket) ==> b == "uploads"
  {
    if Truthy(env.bucket) then env.bucket.value else "uploads"
  }

  /** `processImage` followed by the upload of the file at position i. */
  function ProcessImage(env: UploadEnv, f: File, i: nat): (p: ProcessedMedia)
    ensures p.fileName == env.uuid(i) + ".jpeg" && p.originalName == f.name
    ensures p.contentType == "image/jpeg" && p.mimeType == f.mimeType
    ensures p.fileUrl == env.publicEndpoint + "/" + p.fileName
  {
    var fileName := env.uuid(i) + ".jpeg";
    ProcessedMedia(fileName, f.name, "image/jpeg", f.mimeType, NeedsHeicConversion(f),
      env.publicEndpoint + "/" + fileName)
  }

  /** The error of one file's upload task, if any: a non-image fails before any work, an
      image fails when the codec or its upload fails. */
  function FileError(env: UploadEnv, f: File, i: nat): Option<string> {
    if IsImage(f) then
      if env.codecError(f).Some? then env.codecError(f)
      else match env.put(Bucket(env), env.uuid(i) + ".jpeg")
      case Err(e) => Some(e)
      case Ok(_) => None
    else if IsVideo(f) then Some(VideoUnsupported)
    else Some(UnsupportedPrefix + f.name)
  }

  /** The first position at or after k whose file is not an image. */
  function FirstNonImage(files: seq<File>, k: nat): (r: Option<nat>)
    requires k <= |files|
    ensures r.Some? ==> k <= r.value < |files| && !IsImage(files[r.value])
    ensures r.Some? ==> forall j :: k <= j < r.value ==> IsImage(files[j])
    ensures r.None? <==> forall j :: k <= j < |files| ==> IsImage(files[j])
    decreases |files| - k
  {
    if k == |files| then None
    else if !IsImage(files[k]) then Some(k)
    else FirstNonImage(files, k + 1)
  }

  /** The first position at or after k whose upload task fails. */
  function FirstFailure(env: UploadEnv, files: seq<File>, k: nat): (r: Option<nat>)
    requires k <= |files|
    ensures r.Some? ==> k <= r.value < |files| && FileError(env, files[r.value], r.value).Some?
    ensures r.None? <==> forall j :: k <= j < |files| ==> FileError(env, files[j], j).None?
    decreases |files| - k
  {
    if k == |files| then None
    else if FileError(env, files[k], k).Some? then Some(k)
    else FirstFailure(env, files, k + 1)
  }

  datatype Uploaded = Uploaded(mediaType: MediaType, processed: seq<ProcessedMedia>)

  /** `processAndUploadMedia`: every error surfaces as a `ProcessMediaError` with the same
      message. The per-file jobs of non-images reject before any image work starts, so the first
      non-image decides the error; among failing uploads the first in order is taken. */
  function ProcessAndUploadMedia(env: UploadEnv, files: seq<File>): (r: Result<Uploaded>)
    ensures files == [] ==> r == Err(NoFiles)
    ensures r.Ok? <==> (files != [] && forall j :: 0 <= j < |files| ==> FileError(env, files[j], j).None?)
    ensures r.Ok? ==> ((forall j :: 0 <= j < |files| ==> IsImage(files[j]))
                       && r.value.mediaType == (if |files| > 1 then Album else Image)
                       && |r.value.processed| == |files|
                       && (forall j :: 0 <= j < |files| ==> r.value.processed[j] == ProcessImage(env, files[j], j)))
    ensures FirstNonImage(files, 0).Some? && files != [] && (|files| > 1 || IsVideo(files[0])) ==>
      r == Err(FileError(env, files[FirstNonImage(files, 0).value], FirstNonImage(files, 0).value).value)
  {
    match GetMediaType(files)
    case Err(e) => Err(e)
    case Ok(t) =>
      match FirstNonImage(files, 0)
      case Some(i) => Err(FileError(env, files[i], i).value)
      case None =>
        match FirstFailure(env, files, 0)
        case Some(i) => Err(FileError(env, files[i], i).value)
        case None =>
          Ok(Uploaded(t, seq(|files|, j requires 0 <= j < |files| => ProcessImage(env, files[j], j))))
  }

  /** A video is never uploaded, alone or in an album. */
  lemma VideosRejected(env: UploadEnv, files: seq<File>, j: nat)
    requires j < |files| && IsVideo(files[j]) && !IsImage(files[j])
    ensures ProcessAndUploadMedia(env, files).Err?
  {
    assert FileError(env, files[j], j).Some?;
  }

  /** A single file that is neither image nor video is refused by `getMediaType` with the
      same message its upload task would give. */
  lemma SingleUnsupportedMessage(env: UploadEnv, f: File)
    requires !IsImage(f) && !IsVideo(f)
    ensures ProcessAndUploadMedia(env, [f]) == Err(UnsupportedPrefix + f.name)
    ensures FileError(env, f, 0) == Some(UnsupportedPrefix + f.name)
  {
  }
}
