/** The check the group and community forms apply to a picked cover image before
    uploading it, and the outcome of that upload. */
module ImageCheck {

  import opened Wrappers
  import opened JsText
  import opened GroupPostService

  /** 5 MB, the largest image the forms upload. */
  const MaxImageSize: int := 5 * 1024 * 1024

  const SizeMessage: string := "File size must be less than 5MB"
  const TypeMessage: string := "Please select an image file"

  /** The alert that refuses a picked image, or None when it may be uploaded. The
      size is checked first. */
  function ImageRejection(f: FileInfo): (r: Option<string>)
    ensures r.None? <==> f.size <= MaxImageSize && StartsWith(f.mimeType, "image/")
    ensures f.size > MaxImageSize ==> r == Some(SizeMessage)
    ensures f.size <= MaxImageSize && !StartsWith(f.mimeType, "image/") ==> r == Some(TypeMessage)
  {
    if f.size > MaxImageSize then Some(SizeMessage)
    else if !StartsWith(f.mimeType, "image/") then Some(TypeMessage)
    else None
  }

  /** Exactly 5 MB is still accepted; one byte more is not. */
  lemma FiveMegabytesAccepted(name: string, mimeType: string)
    requires StartsWith(mimeType, "image/")
    ensures ImageRejection(FileInfo(name, mimeType, 5242880)).None?
    ensures ImageRejection(FileInfo(name, mimeType, 5242881)) == Some(SizeMessage)
  {
  }

  /** Every image these forms accept also passes the general upload whitelist's
      size cap, which is ten times larger. */
  lemma AcceptedImageWithinUploadCap(f: FileInfo)
    requires ImageRejection(f).None?
    ensures f.size <= MaxUploadSize
  {
  }

  /** The upload answer: `success`, `url` ("" when absent) and `message`. */
  datatype UploadResponse = UploadResponse(success: bool, url: string, message: string)

  /** The image field after the upload answer arrives: the new URL on success,
      the old value otherwise. */
  function ImageAfterUpload(image: string, response: UploadResponse): (r: string)
    ensures response.success ==> r == response.url
    ensures !response.success ==> r == image
  {
    if response.success then response.url else image
  }

  /** The alerts the upload answer raises: none on success. */
  function UploadAlerts(response: UploadResponse): (r: seq<string>)
    ensures response.success <==> r == []
    ensures !response.success ==> r == ["Failed to upload image: " + response.message]
  {
    if response.success then [] else ["Failed to upload image: " + response.message]
  }

  const UploadErrorMessage: string := "Failed to upload image"

  /** The error text a failed save shows: the server's `error` text, else the form's default. */
  function SaveFailureMessage(serverError: string, default: string): (r: string)
    requires default != ""
    ensures r != ""
    ensures serverError != "" ==> r == serverError
    ensures serverError == "" ==> r == default
  {
    Or(serverError, default)
  }
}
