/** The media-upload widget: a queue of chosen files, each validated on entry,
    uploaded one request per file, and reported once every file is up. */
module MediaUpload {

  import opened Wrappers
  import opened JsText
  import opened GroupPostService

  /** One queued file (the FileReader preview is not part of this model). */
  datatype UploadEntry = UploadEntry(
    file: FileInfo,
    uploading: bool,
    progress: int,
    uploaded: bool,
    error: Option<string>,
    url: Option<string>,
    mediaType: string)

  /** What `filesUploaded` emits per uploaded file. */
  datatype UploadedMedia = UploadedMedia(url: string, mediaType: string, originalName: string, size: int)

  /** The fresh entry `addFiles` queues for an accepted file. */
  function NewEntry(f: FileInfo): (e: UploadEntry)
    ensures !e.uploading && e.progress == 0 && !e.uploaded && e.error.None? && e.url.None?
    ensures e.file == f && e.mediaType == FileTypeCategory(f.mimeType)
  {
    UploadEntry(f, false, 0, false, None, None, FileTypeCategory(f.mimeType))
  }

  /** The entries a batch adds: the files that pass validation, in order. */
  function AcceptedEntries(files: seq<FileInfo>): (r: seq<UploadEntry>)
    ensures |r| <= |files|
  {
    if files == [] then []
    else AcceptedEntries(files[..|files| - 1])
         + (var f := files[|files| - 1]; if ValidateFile(f).valid then [NewEntry(f)] else [])
  }

  /** Each accepted entry comes from a file that passed validation, and every
      valid file of the batch is accepted. */
  lemma {:induction false} AcceptedEntriesAreValidFiles(files: seq<FileInfo>)
    ensures forall e :: e in AcceptedEntries(files) ==> e.file in files && ValidateFile(e.file).valid && e == NewEntry(e.file)
    ensures forall f :: f in files && ValidateFile(f).valid ==> NewEntry(f) in AcceptedEntries(files)
  {
    if files != [] {
      var init := files[..|files| - 1];
      AcceptedEntriesAreValidFiles(init);
      assert files == init + [files[|files| - 1]];
    }
  }

  /** The alert for a refused file: its name, then the validator's message. */
  function RejectionAlert(f: FileInfo): string {
    f.name + ": " + ValidateFile(f).error.GetOr("")
  }

  /** The alerts a batch raises: one per refused file, in order. */
  function RejectionAlerts(files: seq<FileInfo>): seq<string> {
    if files == [] then []
    else RejectionAlerts(files[..|files| - 1])
         + (var f := files[|files| - 1]; if ValidateFile(f).valid then [] else [RejectionAlert(f)])
  }

  /** The queue after `addFiles(files)`: the whole batch is refused when it would
      exceed the limit, otherwise the accepted files are appended. */
  function QueueAfterAdd(queue: seq<UploadEntry>, files: seq<FileInfo>, maxFiles: nat): seq<UploadEntry> {
    if |queue| + |files| > maxFiles then queue else queue + AcceptedEntries(files)
  }

  /** The limit is never crossed by adding files. */
  lemma AddKeepsLimit(queue: seq<UploadEntry>, files: seq<FileInfo>, maxFiles: nat)
    requires |queue| <= maxFiles
    ensures |QueueAfterAdd(queue, files, maxFiles)| <= maxFiles
    ensures QueueAfterAdd(queue, files, maxFiles)[..|queue|] == queue
  {
  }

  /** `uploadedCount` */
  function CountUploaded(queue: seq<UploadEntry>): (n: nat)
    ensures n <= |queue|
  {
    if queue == [] then 0 else CountUploaded(queue[..|queue| - 1]) + (if queue[|queue| - 1].uploaded then 1 else 0)
  }

  /** `allFilesUploaded`: a non-empty queue whose entries are all uploaded. */
  predicate AllUploaded(queue: seq<UploadEntry>) {
    |queue| > 0 && forall k :: 0 <= k < |queue| ==> queue[k].uploaded
  }

  /** The count reaches the queue's length exactly when every entry is uploaded. */
  lemma {:induction false} CountUploadedFull(queue: seq<UploadEntry>)
    ensures CountUploaded(queue) == |queue| <==> forall k :: 0 <= k < |queue| ==> queue[k].uploaded
  {
    if queue != [] {
      var init := queue[..|queue| - 1];
      CountUploadedFull(init);
      assert forall k :: 0 <= k < |init| ==> init[k] == queue[k];
    }
  }

  lemma AllUploadedIffCount(queue: seq<UploadEntry>)
    ensures AllUploaded(queue) <==> |queue| > 0 && CountUploaded(queue) == |queue|
  {
    CountUploadedFull(queue);
  }

  /** An entry `uploadAllFiles` sends: neither uploaded nor in flight. */
  predicate IsPending(e: UploadEntry) {
    !e.uploaded && !e.uploading
  }

  /** `uploadSingleFile`'s first three assignments. */
  function Started(e: UploadEntry): (r: UploadEntry)
    ensures r.uploading && r.progress == 0 && r.error.None?
    ensures r.file == e.file && r.uploaded == e.uploaded && r.url == e.url && r.mediaType == e.mediaType
  {
    e.(uploading := true, progress := 0, error := None)
  }

  /** The queue once `uploadAllFiles` has started every pending entry. */
  function StartPending(queue: seq<UploadEntry>): seq<UploadEntry> {
    if queue == [] then []
    else
      var e := queue[|queue| - 1];
      StartPending(queue[..|queue| - 1]) + [if IsPending(e) then Started(e) else e]
  }

  /** `uploadAllFiles` starts exactly the pending entries, position by position. */
  lemma {:induction false} StartPendingAt(queue: seq<UploadEntry>)
    ensures |StartPending(queue)| == |queue|
    ensures forall k :: 0 <= k < |queue| ==>
      StartPending(queue)[k] == if IsPending(queue[k]) then Started(queue[k]) else queue[k]
  {
    if queue != [] {
      var init := queue[..|queue| - 1];
      StartPendingAt(init);
      assert forall k :: 0 <= k < |init| ==> init[k] == queue[k];
    }
  }

  /** The positions `uploadAllFiles` sends, in order. */
  function PendingPositions(queue: seq<UploadEntry>): seq<nat> {
    if queue == [] then []
    else PendingPositions(queue[..|queue| - 1]) + (if IsPending(queue[|queue| - 1]) then [|queue| - 1] else [])
  }

  /** The positions sent are exactly the pending ones, in increasing order. */
  lemma PendingPositionsExact(queue: seq<UploadEntry>)
    ensures forall i :: 0 <= i < |PendingPositions(queue)| ==>
      PendingPositions(queue)[i] < |queue| && IsPending(queue[PendingPositions(queue)[i]])
    ensures forall k :: 0 <= k < |queue| && IsPending(queue[k]) ==> k in PendingPositions(queue)
    ensures forall i, j :: 0 <= i < j < |PendingPositions(queue)| ==> PendingPositions(queue)[i] < PendingPositions(queue)[j]
  {
    PendingPositionsPending(queue);
    PendingPositionsComplete(queue);
    PendingPositionsIncreasing(queue);
  }

  lemma {:induction false} PendingPositionsPending(queue: seq<UploadEntry>)
    ensures forall i :: 0 <= i < |PendingPositions(queue)| ==>
      PendingPositions(queue)[i] < |queue| && IsPending(queue[PendingPositions(queue)[i]])
  {
    if queue != [] {
      var last := |queue| - 1;
      var init := queue[..last];
      PendingPositionsPending(init);
      var before, after := PendingPositions(init), PendingPositions(queue);
      assert after == before + (if IsPending(queue[last]) then [last] else []);
      forall i | 0 <= i < |after|
        ensures after[i] < |queue| && IsPending(queue[after[i]])
      {
        if i < |before| {
          assert after[i] == before[i] && init[before[i]] == queue[before[i]];
        }
      }
    }
  }

  lemma {:induction false} PendingPositionsComplete(queue: seq<UploadEntry>)
    ensures forall k :: 0 <= k < |queue| && IsPending(queue[k]) ==> k in PendingPositions(queue)
  {
    if queue != [] {
      var last := |queue| - 1;
      var init := queue[..last];
      PendingPositionsComplete(init);
      var before, after := PendingPositions(init), PendingPositions(queue);
      assert after == before + (if IsPending(queue[last]) then [last] else []);
      forall k | 0 <= k < |queue| && IsPending(queue[k])
        ensures k in after
      {
        if k < last {
          assert init[k] == queue[k] && k in before;
        } else {
          assert after[|after| - 1] == last;
        }
      }
    }
  }

  lemma {:induction false} PendingPositionsIncreasing(queue: seq<UploadEntry>)
    ensures forall i :: 0 <= i < |PendingPositions(queue)| ==> PendingPositions(queue)[i] < |queue|
    ensures forall i, j :: 0 <= i < j < |PendingPositions(queue)| ==> PendingPositions(queue)[i] < PendingPositions(queue)[j]
  {
    if queue != [] {
      var last := |queue| - 1;
      var init := queue[..last];
      PendingPositionsIncreasing(init);
      var before, after := PendingPositions(init), PendingPositions(queue);
      assert after == before + (if IsPending(queue[last]) then [last] else []);
      forall i | 0 <= i < |after|
        ensures after[i] < |queue|
      {
        if i < |before| {
          assert after[i] == before[i];
        }
      }
      forall i, j | 0 <= i < j < |after|
        ensures after[i] < after[j]
      {
        if j < |before| {
          assert after[i] == before[i] && after[j] == before[j];
        } else {
          assert after[i] == before[i] && before[i] < |init|;
        }
      }
    }
  }

  /** One more entry of the queue adds its own position when it is pending. */
  lemma PendingPrefixStep(queue: seq<UploadEntry>, k: nat)
    requires k < |queue|
    ensures PendingPositions(queue[..k + 1]) == PendingPositions(queue[..k]) + (if IsPending(queue[k]) then [k] else [])
  {
    assert queue[..k + 1][..k] == queue[..k];
  }

  /** One more entry of the queue adds that entry, started when it is pending. */
  lemma StartPendingPrefixStep(queue: seq<UploadEntry>, k: nat)
    requires k < |queue|
    ensures StartPending(queue[..k + 1]) == StartPending(queue[..k]) + [if IsPending(queue[k]) then Started(queue[k]) else queue[k]]
  {
    assert queue[..k + 1][..k] == queue[..k];
  }

  /** After starting, nothing is left pending and no uploaded entry was touched. */
  lemma StartPendingLeavesNothingPending(queue: seq<UploadEntry>)
    ensures forall k :: 0 <= k < |StartPending(queue)| ==> !IsPending(StartPending(queue)[k])
    ensures CountUploaded(StartPending(queue)) == CountUploaded(queue)
  {
    StartPendingAt(queue);
    StartPendingKeepsCount(queue);
  }

  lemma {:induction false} StartPendingKeepsCount(queue: seq<UploadEntry>)
    ensures CountUploaded(StartPending(queue)) == CountUploaded(queue)
  {
    if queue != [] {
      var init := queue[..|queue| - 1];
      StartPendingKeepsCount(init);
      var r := StartPending(queue);
      assert r[..|r| - 1] == StartPending(init);
    }
  }

  /** An entry `checkAllUploadsComplete` reports: uploaded, with a non-empty URL. */
  predicate Emittable(e: UploadEntry) {
    e.uploaded && e.url.Some? && e.url.value != ""
  }

  /** The record reported for such an entry. */
  function AsMedia(e: UploadEntry): UploadedMedia
    requires e.url.Some?
  {
    UploadedMedia(e.url.value, e.mediaType, e.file.name, e.file.size)
  }

  /** What `checkAllUploadsComplete` emits: the record of every uploaded entry
      that has a URL, and nothing else. */
  function UploadedUrls(queue: seq<UploadEntry>): (r: seq<UploadedMedia>)
    ensures |r| <= |queue|
    ensures forall m :: m in r <==> exists e :: e in queue && Emittable(e) && m == AsMedia(e)
  {
    if queue == [] then []
    else
      var init := queue[..|queue| - 1];
      var e := queue[|queue| - 1];
      assert queue == init + [e];
      assert forall x :: x in queue <==> x in init || x == e;
      UploadedUrls(init) + (if Emittable(e) then [AsMedia(e)] else [])
  }

  /** The records keep the queue's order: the records of two queues in a row are
      those of the first followed by those of the second, and a single entry
      gives its record exactly when it is emittable. */
  lemma {:induction false} UploadedUrlsInOrder(a: seq<UploadEntry>, b: seq<UploadEntry>, x: UploadEntry)
    ensures UploadedUrls(a + b) == UploadedUrls(a) + UploadedUrls(b)
    ensures UploadedUrls([x]) == if Emittable(x) then [AsMedia(x)] else []
  {
    assert [x][..0] == [];
    if b != [] {
      var init := b[..|b| - 1];
      assert (a + b)[..|a + b| - 1] == a + init;
      assert (a + b)[|a + b| - 1] == b[|b| - 1];
      UploadedUrlsInOrder(a, init, x);
    } else {
      assert a + b == a;
    }
  }

  /** `getFileTypeLabel` */
  lemma DocumentTypesAreNotMedia()
    ensures !StartsWith("application/pdf", "image/") && !StartsWith("application/pdf", "video/")
    ensures !StartsWith("text/plain", "image/") && !StartsWith("text/plain", "video/")
  {
    StartsWithExcludes("application/pdf", "a", "image/");
    StartsWithExcludes("application/pdf", "a", "video/");
    StartsWithExcludes("text/plain", "t", "image/");
    StartsWithExcludes("text/plain", "t", "video/");
  }

  function FileTypeLabel(mimeType: string): (r: string)
    ensures r == "Image" <==> StartsWith(mimeType, "image/")
    ensures r == "Video" <==> StartsWith(mimeType, "video/") && !StartsWith(mimeType, "image/")
    ensures r == "PDF" <==> mimeType == "application/pdf"
    ensures r == "Text" <==> mimeType == "text/plain"
    ensures r == "Document" <==> !StartsWith(mimeType, "image/") && !StartsWith(mimeType, "video/")
                                 && mimeType != "application/pdf" && mimeType != "text/plain"
  {
    DocumentTypesAreNotMedia();
    if StartsWith(mimeType, "image/") then "Image"
    else if StartsWith(mimeType, "video/") then "Video"
    else if mimeType == "application/pdf" then "PDF"
    else if mimeType == "text/plain" then "Text"
    else "Document"
  }

  /** One more file of a batch adds at most one entry or one alert. */
  lemma PrefixStep(files: seq<FileInfo>, i: nat)
    requires i < |files|
    ensures ValidateFile(files[i]).valid ==>
      AcceptedEntries(files[..i + 1]) == AcceptedEntries(files[..i]) + [NewEntry(files[i])]
      && RejectionAlerts(files[..i + 1]) == RejectionAlerts(files[..i])
    ensures !ValidateFile(files[i]).valid ==>
      AcceptedEntries(files[..i + 1]) == AcceptedEntries(files[..i])
      && RejectionAlerts(files[..i + 1]) == RejectionAlerts(files[..i]) + [RejectionAlert(files[i])]
  {
    assert files[..i + 1][..i] == files[..i];
  }

  /** The alert `addFiles` raises when a batch would exceed the limit. */
  function MaxFilesAlert(maxFiles: nat): string {
    "Maximum " + NatToString(maxFiles) + " files allowed"
  }

  /** The validation loop of `addFiles`: the entries it queues and the alerts it
      raises, file by file. */
  method ScreenFiles(files: seq<FileInfo>) returns (accepted: seq<UploadEntry>, refused: seq<string>)
    ensures accepted == AcceptedEntries(files)
    ensures refused == RejectionAlerts(files)
  {
    accepted, refused := [], [];
    for i := 0 to |files|
      invariant accepted == AcceptedEntries(files[..i])
      invariant refused == RejectionAlerts(files[..i])
    {
      PrefixStep(files, i);
      var file := files[i];
      var validation := ValidateFile(file);
      if !validation.valid {
        refused := refused + [RejectionAlert(file)];
      } else {
        accepted := accepted + [NewEntry(file)];
      }
    }
    assert files[..|files|] == files;
  }

  class MediaUploadComponent {
    var maxFiles: nat
    var uploadFiles: seq<UploadEntry>
    var isUploading: bool
    /** Alert texts shown, oldest first. */
    var alerts: seq<string>
    /** Payloads emitted on `filesUploaded`, oldest first. */
    var emitted: seq<seq<UploadedMedia>>
    /** Queue positions an upload request was sent for, oldest first. */
    var requests: seq<nat>

    constructor()
      ensures maxFiles == 10 && uploadFiles == [] && !isUploading
      ensures alerts == [] && emitted == [] && requests == []
    {
      maxFiles := 10;
      uploadFiles := [];
      isUploading := false;
      alerts := [];
      emitted := [];
      requests := [];
    }

    function UploadedCount(): (n: nat)
      reads this
    {
      CountUploaded(uploadFiles)
    }

    predicate AllFilesUploaded()
      reads this
    {
      AllUploaded(uploadFiles)
    }

    method AddFiles(files: seq<FileInfo>)
      modifies this`uploadFiles, this`alerts
      ensures uploadFiles == QueueAfterAdd(old(uploadFiles), files, maxFiles)
      ensures |old(uploadFiles)| + |files| > maxFiles ==>
        alerts == old(alerts) + [MaxFilesAlert(maxFiles)]
      ensures |old(uploadFiles)| + |files| <= maxFiles ==> alerts == old(alerts) + RejectionAlerts(files)
    {
      if |uploadFiles| + |files| > maxFiles {
        alerts := alerts + [MaxFilesAlert(maxFiles)];
        return;
      }
      var accepted, refused := ScreenFiles(files);
      uploadFiles, alerts := uploadFiles + accepted, alerts + refused;
    }

    /** `uploadSingleFile` up to sending the request. */
    method UploadSingleFile(k: nat)
      requires k < |uploadFiles|
      modifies this`uploadFiles, this`requests
      ensures uploadFiles == old(uploadFiles)[k := Started(old(uploadFiles)[k])]
      ensures requests == old(requests) + [k]
    {
      uploadFiles := uploadFiles[k := Started(uploadFiles[k])];
      requests := requests + [k];
    }

    /** The final response of the upload of entry `k`, carrying `urls[0].url` if any. */
    method OnUploadResponse(k: nat, url: Option<string>)
      requires k < |uploadFiles|
      modifies this
      ensures var e := old(uploadFiles)[k].(uploading := false, uploaded := true, url := url);
        var q := old(uploadFiles)[k := e];
        && uploadFiles == q
        && (AllUploaded(q) ==> !isUploading && emitted == old(emitted) + [UploadedUrls(q)])
        && (!AllUploaded(q) ==> isUploading == old(isUploading) && emitted == old(emitted))
      ensures alerts == old(alerts) && requests == old(requests) && maxFiles == old(maxFiles)
    {
      var e := uploadFiles[k].(uploading := false, uploaded := true, url := url);
      uploadFiles := uploadFiles[k := e];
      CheckAllUploadsComplete();
    }

    /** The error callback of the upload of entry `k`. */
    method OnUploadError(k: nat, serverMessage: Option<string>)
      requires k < |uploadFiles|
      modifies this
      ensures uploadFiles == old(uploadFiles)[k := old(uploadFiles)[k].(
        uploading := false,
        error := Some(if serverMessage.Some? && serverMessage.value != "" then serverMessage.value else "Upload failed"))]
      ensures isUploading == old(isUploading) && alerts == old(alerts) && emitted == old(emitted)
      ensures requests == old(requests) && maxFiles == old(maxFiles)
    {
      var message := if serverMessage.Some? && serverMessage.value != "" then serverMessage.value else "Upload failed";
      uploadFiles := uploadFiles[k := uploadFiles[k].(uploading := false, error := Some(message))];
    }

    /** `uploadAllFiles`: sends every pending entry, in queue order. */
    method UploadAllFiles()
      modifies this`isUploading, this`uploadFiles, this`requests
      ensures isUploading
      ensures uploadFiles == StartPending(old(uploadFiles))
      ensures requests == old(requests) + PendingPositions(old(uploadFiles))
    {
      isUploading := true;
      var queue0, requests0 := uploadFiles, requests;
      var queue, sent := [], requests0;
      for k := 0 to |queue0|
        invariant queue == StartPending(queue0[..k])
        invariant sent == requests0 + PendingPositions(queue0[..k])
        modifies {}
      {
        PendingPrefixStep(queue0, k);
        StartPendingPrefixStep(queue0, k);
        var entry := queue0[k];
        if IsPending(entry) {
          queue := queue + [Started(entry)];
          sent := sent + [k];
        } else {
          queue := queue + [entry];
        }
      }
      assert queue0[..|queue0|] == queue0;
      uploadFiles, requests := queue, sent;
    }

    /** `removeFile`: deletes the entry at position `k`; a position not in the queue changes nothing. */
    method RemoveFile(k: int)
      modifies this
      ensures 0 <= k < |old(uploadFiles)| ==> uploadFiles == old(uploadFiles)[..k] + old(uploadFiles)[k + 1..]
      ensures !(0 <= k < |old(uploadFiles)|) ==> uploadFiles == old(uploadFiles)
      ensures isUploading == old(isUploading) && alerts == old(alerts) && emitted == old(emitted)
      ensures requests == old(requests) && maxFiles == old(maxFiles)
    {
      if 0 <= k < |uploadFiles| {
        uploadFiles := RemoveAt(uploadFiles, k);
      }
    }

    method ClearAllFiles()
      modifies this
      ensures uploadFiles == [] && !isUploading
      ensures alerts == old(alerts) && emitted == old(emitted) && requests == old(requests) && maxFiles == old(maxFiles)
    {
      uploadFiles := [];
      isUploading := false;
    }

    method CheckAllUploadsComplete()
      modifies this
      ensures AllUploaded(uploadFiles) ==> !isUploading && emitted == old(emitted) + [UploadedUrls(uploadFiles)]
      ensures !AllUploaded(uploadFiles) ==> isUploading == old(isUploading) && emitted == old(emitted)
      ensures uploadFiles == old(uploadFiles) && alerts == old(alerts) && requests == old(requests)
      ensures maxFiles == old(maxFiles)
    {
      if AllUploaded(uploadFiles) {
        isUploading := false;
        emitted := emitted + [UploadedUrls(uploadFiles)];
      }
    }
  }
}
