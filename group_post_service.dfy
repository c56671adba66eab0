/** The local helpers of the group-post service: the upload whitelist and size
    cap, the MIME-type category, and the fixed option lists of the post form. */
module GroupPostService {

  import opened Wrappers
  import opened JsText

  /** The parts of a browser `File` the client reads; sizes are whole bytes. */
  datatype FileInfo = FileInfo(name: string, mimeType: string, size: int)

  datatype Validation = Validation(valid: bool, error: Option<string>)

  const MaxUploadSize: int := 50 * 1024 * 1024

  const ImageTypes: seq<string> := ["image/jpeg", "image/jpg", "image/png", "image/webp", "image/gif"]
  const VideoTypes: seq<string> := ["video/mp4", "video/webm", "video/avi", "video/mov"]
  const AudioTypes: seq<string> :=
    ["audio/mpeg", "audio/mp3", "audio/wav", "audio/ogg", "audio/x-wav", "audio/x-m4a", "audio/aac"]
  const DocumentTypes: seq<string> := ["application/pdf", "text/plain"]

  /** The eighteen accepted MIME types, in the order the service lists them. */
  const AllowedTypes: seq<string> := ImageTypes + VideoTypes + AudioTypes + DocumentTypes

  const SizeError: string := "File size exceeds 50MB limit"
  const TypeError: string := "File type not supported"

  /** `validateFile`: the size cap first, then the type whitelist. */
  function ValidateFile(f: FileInfo): (v: Validation)
    ensures v.valid <==> f.size <= MaxUploadSize && f.mimeType in AllowedTypes
    ensures v.valid <==> v.error.None?
    ensures f.size > MaxUploadSize ==> v.error == Some(SizeError)
    ensures f.size <= MaxUploadSize && f.mimeType !in AllowedTypes ==> v.error == Some(TypeError)
  {
    if f.size > MaxUploadSize then Validation(false, Some(SizeError))
    else if f.mimeType !in AllowedTypes then Validation(false, Some(TypeError))
    else Validation(true, None)
  }

  /** `getFileTypeCategory`: by MIME prefix, `document` for everything else. */
  function FileTypeCategory(mimeType: string): (r: string)
    ensures r in ["image", "video", "audio", "document"]
    ensures r == "image" <==> StartsWith(mimeType, "image/")
    ensures r == "video" <==> StartsWith(mimeType, "video/") && !StartsWith(mimeType, "image/")
    ensures r == "audio" <==> StartsWith(mimeType, "audio/") && !StartsWith(mimeType, "image/") && !StartsWith(mimeType, "video/")
  {
    if StartsWith(mimeType, "image/") then "image"
    else if StartsWith(mimeType, "video/") then "video"
    else if StartsWith(mimeType, "audio/") then "audio"
    else "document"
  }

  /** Of the accepted types only the PDF and plain-text ones fall in the `document` category. */
  lemma AllowedDocumentTypes(t: string)
    requires t in AllowedTypes
    ensures FileTypeCategory(t) == "document" <==> t == "application/pdf" || t == "text/plain"
  {
    if t in ImageTypes {
      assert StartsWith(t, "image/");
    } else if t in VideoTypes {
      assert StartsWith(t, "video/");
    } else if t in AudioTypes {
      assert StartsWith(t, "audio/");
    } else {
      assert t[1] != "image/"[1] && t[1] != "video/"[1] && t[1] != "audio/"[1];
    }
  }

  const PostTypes: seq<string> := ["general", "help", "question", "event", "poll"]
  const UrgencyLevels: seq<string> := ["low", "medium", "high", "urgent"]

  /** `getPostTypes` and `getUrgencyLevels`: the fixed option lists. */
  function GetPostTypes(): (r: seq<string>)
    ensures |r| == 5 && r[0] == "general" && r[1] == "help" && r[2] == "question" && r[3] == "event" && r[4] == "poll"
    ensures forall i, j :: 0 <= i < j < |r| ==> r[i] != r[j]
  {
    PostTypes
  }

  /** Urgency runs from `low` to `urgent`, each level once. */
  function GetUrgencyLevels(): (r: seq<string>)
    ensures |r| == 4 && r[0] == "low" && r[1] == "medium" && r[2] == "high" && r[3] == "urgent"
    ensures forall i, j :: 0 <= i < j < |r| ==> r[i] != r[j]
  {
    UrgencyLevels
  }
}
