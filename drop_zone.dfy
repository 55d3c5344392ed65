/** The drop-zone view: the nearby-file list, upload and download handlers, and the
    search radius shown beside the list. Remote calls are given as their outcomes; each
    handler returns the requests it sends, in order. Every handler runs as one atomic
    step. */
module DropZone {
  import opened Maybe
  import opened Countdown

  /** Files larger than 100 MiB are refused before any request. */
  const MaxUploadBytes: int := 104857600

  const DefaultRadius: real := 200.0
  const MaxRadius: real := 500.0

  /** The search radius: 200 m, widened by the accuracy when that is worse than 100 m,
      up to 500 m. */
  function SearchRadius(accuracy: Option<real>): (r: real)
    ensures r == DefaultRadius || 300.0 < r <= MaxRadius
    ensures r == DefaultRadius <==> !(Truthy(accuracy) && accuracy.value > 100.0)
    ensures r != DefaultRadius ==> r <= DefaultRadius + accuracy.value
    ensures r != DefaultRadius && r < MaxRadius ==> r == DefaultRadius + accuracy.value
  {
    if Truthy(accuracy) && accuracy.value > 100.0 then
      if MaxRadius < DefaultRadius + accuracy.value then MaxRadius else DefaultRadius + accuracy.value
    else DefaultRadius
  }

  /** The radius at the boundaries and the cap. */
  lemma SearchRadiusExamples()
    ensures SearchRadius(None) == SearchRadius(Some(0.0)) == SearchRadius(Some(50.0)) == 200.0
    ensures SearchRadius(Some(100.0)) == 200.0
    ensures SearchRadius(Some(150.0)) == 350.0
    ensures SearchRadius(Some(300.0)) == SearchRadius(Some(1000.0)) == 500.0
  {
  }

  /** The query string of `/files/nearby`. */
  datatype NearbyQuery = NearbyQuery(latitude: Option<real>, longitude: Option<real>, accuracy: Option<real>)

  /** The latitude and longitude always go in; the accuracy only when it is truthy. */
  function NearbyQueryFor(latitude: Option<real>, longitude: Option<real>, accuracy: Option<real>): (q: NearbyQuery)
    ensures q.latitude == latitude && q.longitude == longitude
    ensures q.accuracy.Some? <==> Truthy(accuracy)
    ensures q.accuracy.Some? ==> q.accuracy == accuracy
  {
    NearbyQuery(latitude, longitude, if Truthy(accuracy) then accuracy else None)
  }

  /** A zero accuracy is sent like a missing one, and a query rebuilt from its own
      fields is the same query: what goes out never carries a falsy accuracy. */
  lemma NearbyQueryOmitsFalsyAccuracy(latitude: Option<real>, longitude: Option<real>, accuracy: Option<real>)
    ensures NearbyQueryFor(latitude, longitude, Some(0.0)) == NearbyQueryFor(latitude, longitude, None)
    ensures var q := NearbyQueryFor(latitude, longitude, accuracy);
            && (q.accuracy.None? || Truthy(q.accuracy))
            && NearbyQueryFor(q.latitude, q.longitude, q.accuracy) == q
  {
  }

  datatype UploadFile = UploadFile(name: string, size: nat)

  /** The multipart form of `/files/upload`. */
  datatype UploadForm = UploadForm(file: UploadFile, latitude: real, longitude: real, visibility: Visibility, password: Option<string>)

  /** The password field is added only for a private upload with a non-empty password. */
  function UploadFormFor(file: UploadFile, latitude: real, longitude: real, visibility: Visibility, password: string): (f: UploadForm)
    ensures f.file == file && f.latitude == latitude && f.longitude == longitude && f.visibility == visibility
    ensures f.password.Some? <==> visibility == Private && password != ""
    ensures f.password.Some? ==> f.password.value == password
  {
    UploadForm(file, latitude, longitude, visibility, if visibility == Private && password != "" then Some(password) else None)
  }

  /** A public upload never sends the typed password, whatever it is; a private upload
      with an empty password is sent without one; a password that is sent is never
      empty. */
  lemma UploadPasswordOnlyWhenPrivate(file: UploadFile, latitude: real, longitude: real, visibility: Visibility, p1: string, p2: string)
    ensures UploadFormFor(file, latitude, longitude, Public, p1) == UploadFormFor(file, latitude, longitude, Public, p2)
    ensures UploadFormFor(file, latitude, longitude, Private, "").password.None?
    ensures var f := UploadFormFor(file, latitude, longitude, visibility, p1);
            f.password.Some? ==> f.visibility == Private && f.password.value != ""
  {
  }

  datatype Request =
    | ListNearby(query: NearbyQuery)           // GET /files/nearby
    | Upload(form: UploadForm)                 // POST /files/upload
    | Unlock(id: string, password: string)     // POST /files/download/:id
    | FetchBlob(url: string)                   // GET of the file itself

  /** The listing endpoint's answer: the request or decoding failed, or a body. */
  datatype ListReply = ListThrew | ListBody(success: bool, data: seq<FileRecord>)

  /** The upload endpoint's answer. */
  datatype UploadReply = UploadThrew | UploadBody(success: bool, message: Option<string>)

  /** A grant from the private-download endpoint. */
  datatype Grant = Grant(fileUrl: string, filename: string)

  /** The private-download endpoint's answer. */
  datatype UnlockReply = UnlockThrew | UnlockBody(success: bool, data: Option<Grant>, message: Option<string>)

  /** `data.message || fallback`: an absent or empty message gives the fallback. */
  function MessageOr(message: Option<string>, fallback: string): (m: string)
    ensures message.Some? && message.value != "" ==> m == message.value
    ensures message.None? || message.value == "" ==> m == fallback
  {
    if message.Some? && message.value != "" then message.value else fallback
  }

  /** The message shown is never blank when the fallback is not, an empty message is
      treated as a missing one, and the outcome is one of the two candidates. */
  lemma MessageOrNeverBlank(message: Option<string>, fallback: string)
    requires fallback != ""
    ensures MessageOr(message, fallback) != ""
    ensures MessageOr(Some(""), fallback) == MessageOr(None, fallback) == fallback
    ensures MessageOr(message, fallback) == fallback || Some(MessageOr(message, fallback)) == message
  {
  }

  const FetchFailedMessage: string := "Failed to fetch nearby files"
  const FetchErrorMessage: string := "Error fetching nearby files"
  const UploadFailedMessage: string := "Upload failed"
  const UploadErrorMessage: string := "Error uploading file"
  const DownloadFailedMessage: string := "Download failed"
  const DownloadErrorMessage: string := "Error downloading file"

  /** The component state of the drop zone. The coordinates come from the navigation
      state handed over by the landing view and never change. Drag-over highlighting
      and the upload progress bar are presentation and are left out. */
  class Zone {
    const latitude: Option<real>
    const longitude: Option<real>
    const accuracy: Option<real>

    var nearbyFiles: seq<FileEntry>
    var error: Option<string>
    var loadingFiles: bool
    var file: Option<UploadFile>
    var password: string
    var visibility: Visibility
    var uploading: bool
    var downloadingFile: Option<string>
    var showPasswordPrompt: bool
    var downloadTarget: Option<FileEntry>
    var downloadPassword: string

    /** The initial `useState` values. */
    constructor (latitude: Option<real>, longitude: Option<real>, accuracy: Option<real>)
      ensures this.latitude == latitude && this.longitude == longitude && this.accuracy == accuracy
      ensures nearbyFiles == [] && error.None? && !loadingFiles && file.None?
      ensures password == "" && visibility == Public && !uploading
      ensures downloadingFile.None? && !showPasswordPrompt && downloadTarget.None? && downloadPassword == ""
    {
      this.latitude, this.longitude, this.accuracy := latitude, longitude, accuracy;
      nearbyFiles, error, loadingFiles, file := [], None, false, None;
      password, visibility, uploading := "", Public, false;
      downloadingFile, showPasswordPrompt, downloadTarget, downloadPassword := None, false, None, "";
    }

    /** Both coordinates are truthy: the mount effect lists nearby files and an
        upload may go ahead only then. */
    predicate HasCoordinates()
    {
      Truthy(latitude) && Truthy(longitude)
    }

    /** `fetchNearbyFiles` at time `now`: a successful listing replaces the whole list,
        a failure leaves it and sets the error, and loading always ends. */
    method FetchNearbyFiles(now: int, reply: ListReply) returns (sent: Request)
      modifies this`nearbyFiles, this`error, this`loadingFiles
      ensures sent == ListNearby(NearbyQueryFor(latitude, longitude, accuracy))
      ensures !loadingFiles
      ensures reply.ListBody? && reply.success ==>
                nearbyFiles == WithRemaining(reply.data, now) && error == old(error)
      ensures reply.ListBody? && !reply.success ==>
                nearbyFiles == old(nearbyFiles) && error == Some(FetchFailedMessage)
      ensures reply.ListThrew? ==>
                nearbyFiles == old(nearbyFiles) && error == Some(FetchErrorMessage)
    {
      loadingFiles := true;
      sent := ListNearby(NearbyQueryFor(latitude, longitude, accuracy));
      match reply {
        case ListThrew =>
          error := Some(FetchErrorMessage);
        case ListBody(success, data) =>
          if success {
            nearbyFiles := WithRemaining(data, now);
          } else {
            error := Some(FetchFailedMessage);
          }
      }
      loadingFiles := false;
    }

    /** The mount effect: list nearby files if the coordinates allow it. */
    method Mount(now: int, reply: ListReply) returns (sent: seq<Request>)
      modifies this`nearbyFiles, this`error, this`loadingFiles
      ensures HasCoordinates() ==>
                && sent == [ListNearby(NearbyQueryFor(latitude, longitude, accuracy))]
                && !loadingFiles
                && (reply.ListBody? && reply.success ==>
                      nearbyFiles == WithRemaining(reply.data, now) && error == old(error))
                && (reply.ListBody? && !reply.success ==>
                      nearbyFiles == old(nearbyFiles) && error == Some(FetchFailedMessage))
                && (reply.ListThrew? ==>
                      nearbyFiles == old(nearbyFiles) && error == Some(FetchErrorMessage))
      ensures !HasCoordinates() ==> sent == [] && unchanged(this)
    {
      sent := [];
      if HasCoordinates() {
        var request := FetchNearbyFiles(now, reply);
        sent := [request];
      }
    }

    /** The one-second interval: remaining times recomputed, nothing else touched. */
    method OnTick(now: int)
      modifies this`nearbyFiles
      ensures nearbyFiles == Tick(old(nearbyFiles), now)
    {
      nearbyFiles := Tick(nearbyFiles, now);
    }

    /** The upload button is disabled without a file or while uploading. */
    predicate UploadDisabled()
      reads this
    {
      file.None? || uploading
    }

    /** `handleUpload`, given the upload endpoint's reply and, for the listing refreshed
        after a successful upload, the time and the listing endpoint's reply. */
    method HandleUpload(reply: UploadReply, now: int, refreshed: ListReply) returns (sent: seq<Request>)
      modifies this
      ensures old(file).None? || !HasCoordinates() ==> sent == [] && unchanged(this)
      ensures old(file).Some? && old(file).value.size > MaxUploadBytes ==> sent == [] && unchanged(this)
      ensures old(file).Some? && HasCoordinates() && old(file).value.size <= MaxUploadBytes ==>
                && |sent| >= 1
                && sent[0] == Upload(UploadFormFor(old(file).value, latitude.value, longitude.value, old(visibility), old(password)))
                && !uploading
                && (reply.UploadBody? && reply.success ==>
                      && file.None? && password == "" && visibility == Public
                      && sent == [sent[0], ListNearby(NearbyQueryFor(latitude, longitude, accuracy))]
                      && !loadingFiles
                      && (refreshed.ListBody? && refreshed.success ==>
                            nearbyFiles == WithRemaining(refreshed.data, now) && error.None?)
                      && (refreshed.ListBody? && !refreshed.success ==>
                            nearbyFiles == old(nearbyFiles) && error == Some(FetchFailedMessage))
                      && (refreshed.ListThrew? ==>
                            nearbyFiles == old(nearbyFiles) && error == Some(FetchErrorMessage)))
                && (reply.UploadBody? && !reply.success ==>
                      && error == Some(MessageOr(reply.message, UploadFailedMessage))
                      && |sent| == 1 && file == old(file) && nearbyFiles == old(nearbyFiles)
                      && password == old(password) && visibility == old(visibility)
                      && loadingFiles == old(loadingFiles))
                && (reply.UploadThrew? ==>
                      && error == Some(UploadErrorMessage)
                      && |sent| == 1 && file == old(file) && nearbyFiles == old(nearbyFiles)
                      && password == old(password) && visibility == old(visibility)
                      && loadingFiles == old(loadingFiles))
      ensures downloadingFile == old(downloadingFile) && showPasswordPrompt == old(showPasswordPrompt)
      ensures downloadTarget == old(downloadTarget) && downloadPassword == old(downloadPassword)
    {
      sent := [];
      if file.None? || !HasCoordinates() {
        return;
      }
      if file.value.size > MaxUploadBytes {
        return;
      }
      uploading := true;
      error := None;
      var form := UploadFormFor(file.value, latitude.value, longitude.value, visibility, password);
      sent := [Upload(form)];
      match reply {
        case UploadThrew =>
          error := Some(UploadErrorMessage);
        case UploadBody(success, message) =>
          if success {
            file := None;
            password := "";
            visibility := Public;
            var listing := FetchNearbyFiles(now, refreshed);
            sent := sent + [listing];
          } else {
            error := Some(MessageOr(message, UploadFailedMessage));
          }
      }
      uploading := false;
    }

    /** `directDownload`: fetch the file; a failure sets the error, and the
        downloading marker is cleared either way. */
    method DirectDownload(fileUrl: string, filename: string, fetched: bool) returns (sent: seq<Request>)
      modifies this`downloadingFile, this`error
      ensures sent == [FetchBlob(fileUrl)]
      ensures downloadingFile.None?
      ensures error == if fetched then old(error) else Some(DownloadErrorMessage)
    {
      downloadingFile := Some(filename);
      sent := [FetchBlob(fileUrl)];
      if !fetched {
        error := Some(DownloadErrorMessage);
      }
      downloadingFile := None;
    }

    /** A file's download button is disabled while that file is downloading and once
        it has expired, that is, whenever its countdown reads "Expired". */
    predicate DownloadDisabled(entry: FileEntry)
      reads this
      ensures FormatRemainingTime(entry.remainingTime) == ExpiredLabel ==> DownloadDisabled(entry)
    {
      downloadingFile == Some(entry.record.filename) || entry.remainingTime <= 0
    }

    /** `handleDownload`: a private file opens the password prompt and sends nothing;
        a public one is fetched directly. */
    method HandleDownload(entry: FileEntry, fetched: bool) returns (sent: seq<Request>)
      modifies this`downloadTarget, this`showPasswordPrompt, this`downloadPassword, this`downloadingFile, this`error
      ensures entry.record.visibility == Private ==>
                && sent == [] && downloadTarget == Some(entry) && showPasswordPrompt && downloadPassword == ""
                && downloadingFile == old(downloadingFile) && error == old(error)
      ensures entry.record.visibility == Public ==>
                && sent == [FetchBlob(entry.record.fileUrl)] && downloadingFile.None?
                && error == (if fetched then old(error) else Some(DownloadErrorMessage))
                && downloadTarget == old(downloadTarget) && showPasswordPrompt == old(showPasswordPrompt)
                && downloadPassword == old(downloadPassword)
    {
      if entry.record.visibility == Private {
        downloadTarget := Some(entry);
        showPasswordPrompt := true;
        downloadPassword := "";
        sent := [];
        return;
      }
      sent := DirectDownload(entry.record.fileUrl, entry.record.filename, fetched);
    }

    /** The prompt's Download button is disabled with an empty password or while a
        download runs. */
    predicate PromptDownloadDisabled()
      reads this
    {
      downloadPassword == "" || (downloadingFile.Some? && downloadingFile.value != "")
    }

    /** `handlePrivateDownload`: nothing without a target; otherwise send the password,
        fetch the granted file when the reply carries a URL, and always close the prompt
        and clear the target, the password and the downloading marker. */
    method HandlePrivateDownload(reply: UnlockReply, fetched: bool) returns (sent: seq<Request>)
      modifies this`downloadTarget, this`showPasswordPrompt, this`downloadPassword, this`downloadingFile, this`error
      ensures old(downloadTarget).None? ==> sent == [] && unchanged(this)
      ensures old(downloadTarget).Some? ==>
                && |sent| >= 1 && sent[0] == Unlock(old(downloadTarget).value.record.id, old(downloadPassword))
                && !showPasswordPrompt && downloadTarget.None? && downloadPassword == "" && downloadingFile.None?
                && (reply.UnlockThrew? ==> |sent| == 1 && error == Some(DownloadErrorMessage))
                && (reply.UnlockBody? && reply.success && reply.data.Some? && reply.data.value.fileUrl != "" ==>
                      && sent == [sent[0], FetchBlob(reply.data.value.fileUrl)]
                      && error == (if fetched then None else Some(DownloadErrorMessage)))
                && (reply.UnlockBody? && !(reply.success && reply.data.Some? && reply.data.value.fileUrl != "") ==>
                      |sent| == 1 && error == Some(MessageOr(reply.message, DownloadFailedMessage)))
    {
      if downloadTarget.None? {
        return [];
      }
      var target := downloadTarget.value;
      downloadingFile := Some(target.record.filename);
      showPasswordPrompt := false;
      error := None;
      sent := [Unlock(target.record.id, downloadPassword)];
      match reply {
        case UnlockThrew =>
          error := Some(DownloadErrorMessage);
        case UnlockBody(success, data, message) =>
          if success && data.Some? && data.value.fileUrl != "" {
            var more := DirectDownload(data.value.fileUrl, data.value.filename, fetched);
            sent := sent + more;
          } else {
            error := Some(MessageOr(message, DownloadFailedMessage));
          }
      }
      downloadingFile := None;
      downloadTarget := None;
      downloadPassword := "";
    }

    /** The prompt's Cancel button. */
    method CancelPrompt()
      modifies this`showPasswordPrompt, this`downloadTarget, this`downloadPassword
      ensures !showPasswordPrompt && downloadTarget.None? && downloadPassword == ""
    {
      showPasswordPrompt := false;
      downloadTarget := None;
      downloadPassword := "";
    }
  }
}
