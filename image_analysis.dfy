/** views/ImageAnalysisView.tsx: image analysis. An image comes from a chosen file or a
    URL; either is refused above 10 MiB, a URL also when the fetch fails or the body is
    not an image; the image is read as a data URL and its base64 part kept; the kept
    image, a prompt and its type are sent to the model.

    `fetch`, `FileReader` and the model call are awaited or called back, so each handler
    is split at those points: the file's size and type, the fetch outcome and the data
    URL a reader produces are inputs. */
module ImageAnalysis {
  import opened Wrappers
  import opened Types
  import Text

  const MaxFileSize: nat := 10 * 1024 * 1024
  const DefaultMime: string := "image/jpeg"
  const FileTooLarge: string := "File size exceeds 10MB limit. Please upload a smaller image."
  const FileUnreadable: string := "Failed to read the file. Please try a different image."
  const FetchFailedPrefix: string := "Failed to fetch image: "
  const NotAnImage: string := "The URL provided does not point to a valid image file."
  const UrlTooLarge: string := "The image at this URL exceeds the 10MB size limit."
  const UrlFallback: string := "Failed to load image from URL. This might be due to CORS restrictions on the source domain."
  const AnalysisFailed: string := "Analysis failed. Please try again."

  /** A file is accepted up to and including 10 MiB. */
  predicate SizeAccepted(size: nat) {
    size <= MaxFileSize
  }

  /** `file.type || 'image/jpeg'`. */
  function MimeOf(fileType: string): (m: string)
    ensures m != ""
    ensures fileType != "" ==> m == fileType
  {
    if fileType != "" then fileType else DefaultMime
  }

  /** `dataUrl.split(',')[1]`: the piece after the first comma up to the next one, or
      nothing (`undefined`) when there is no comma. */
  function DataUrlPayload(dataUrl: string): (r: Option<string>)
    ensures r.None? <==> ',' !in dataUrl
  {
    var parts := Text.Split(dataUrl, ',');
    Text.SplitPieces(dataUrl, ',');
    if |parts| >= 2 then Some(parts[1]) else None
  }

  /** The base64 payload of a well-formed data URL is recovered exactly. */
  lemma PayloadOfDataUrl(mime: string, payload: string)
    requires ',' !in mime && ',' !in payload
    ensures DataUrlPayload("data:" + mime + ";base64," + payload) == Some(payload)
  {
    var header := "data:" + mime + ";base64";
    assert ',' !in header;
    assert "data:" + mime + ";base64," + payload == header + [','] + payload;
    Text.SplitAfter(header, ',', payload);
    Text.SplitWithout(payload, ',');
  }

  /** How the URL fetch settled: a rejected `fetch` or `blob()`, or a response with its
      status and its body's type and size. */
  datatype Fetched =
    | NetworkError(message: string)
    | Fetched(ok: bool, statusText: string, blobType: string, blobSize: nat)

  /** The checks of `handleUrlFetch` in order: status, then type, then size. The first
      failure is reported; an accepted body yields its type. */
  function UrlCheck(f: Fetched): (r: Result)
    ensures f.NetworkError? ==> r == Refused(MessageOr(f.message, UrlFallback))
    ensures f.Fetched? && !f.ok ==> r == Refused(FetchFailedPrefix + f.statusText)
    ensures f.Fetched? && f.ok && !Text.StartsWith(f.blobType, "image/") ==> r == Refused(NotAnImage)
    ensures f.Fetched? && f.ok && Text.StartsWith(f.blobType, "image/") && !SizeAccepted(f.blobSize) ==>
      r == Refused(UrlTooLarge)
    ensures r.Accepted? <==> f.Fetched? && f.ok && Text.StartsWith(f.blobType, "image/") && SizeAccepted(f.blobSize)
    ensures r.Accepted? ==> r.mime == f.blobType
  {
    match f
    case NetworkError(message) => Refused(MessageOr(message, UrlFallback))
    case Fetched(ok, statusText, blobType, blobSize) =>
      if !ok then Refused(FetchFailedPrefix + statusText)
      else if !Text.StartsWith(blobType, "image/") then Refused(NotAnImage)
      else if !SizeAccepted(blobSize) then Refused(UrlTooLarge)
      else Accepted(blobType)
  }

  datatype Result = Refused(message: string) | Accepted(mime: string)

  /** Everything the view keeps, as one value. */
  datatype View = View(
    image: Option<string>,
    imageUrl: string,
    mimeType: string,
    prompt: string,
    loading: bool,
    fetching: bool,
    result: Option<string>,
    error: Option<string>)

  class ImageView {
    var image: Option<string>
    var imageUrl: string
    var mimeType: string
    var prompt: string
    var loading: bool
    var fetching: bool
    var result: Option<string>
    var error: Option<string>

    function Fields(): View
      reads this
    {
      View(image, imageUrl, mimeType, prompt, loading, fetching, result, error)
    }

    constructor(initialPrompt: string)
      ensures image == None && imageUrl == "" && mimeType == DefaultMime && prompt == initialPrompt
      ensures !loading && !fetching && result == None && error == None
    {
      image, imageUrl, mimeType, prompt := None, "", DefaultMime, initialPrompt;
      loading, fetching, result, error := false, false, None, None;
    }

    method SetImageUrl(url: string)
      modifies this
      ensures imageUrl == url && image == old(image) && error == old(error) && fetching == old(fetching)
      ensures Fields() == old(Fields()).(imageUrl := url)
    {
      imageUrl := url;
    }

    /** `handleFileChange`: the error is cleared; an oversized file is refused; otherwise
        the type is kept and the file is read. `file` is `(size, type)`; `reading` tells
        whether a reader was started. */
    method ChooseFile(file: Option<(nat, string)>) returns (reading: bool)
      modifies this
      ensures reading <==> file.Some? && SizeAccepted(file.value.0)
      ensures file.Some? && !SizeAccepted(file.value.0) ==> error == Some(FileTooLarge) && mimeType == old(mimeType)
      ensures reading ==> error == None && mimeType == MimeOf(file.value.1)
      ensures file.None? ==> error == None && mimeType == old(mimeType)
      ensures image == old(image) && result == old(result) && fetching == old(fetching) && loading == old(loading)
      ensures Fields() == old(Fields()).(error := error, mimeType := mimeType)
    {
      error := None;
      reading := false;
      if file.Some? {
        var (size, fileType) := file.value;
        if !SizeAccepted(size) {
          error := Some(FileTooLarge);
          return;
        }
        mimeType := MimeOf(fileType);
        reading := true;
      }
    }

    /** The file reader finished: its data URL's payload becomes the image and the old
        result is dropped; a read error (`None`) only sets the error. */
    method FileRead(dataUrl: Option<string>)
      modifies this
      ensures dataUrl.Some? ==> image == DataUrlPayload(dataUrl.value) && result == None && error == old(error)
      ensures dataUrl.None? ==> image == old(image) && result == old(result) && error == Some(FileUnreadable)
      ensures mimeType == old(mimeType) && fetching == old(fetching) && loading == old(loading)
      ensures Fields() == old(Fields()).(image := image, result := result, error := error)
    {
      match dataUrl {
        case Some(url) =>
          image := DataUrlPayload(url);
          result := None;
        case None =>
          error := Some(FileUnreadable);
      }
    }

    /** `handleUrlFetch` up to the `fetch`: a blank URL is ignored; otherwise fetching
        starts with the error and result cleared. */
    method BeginUrlFetch() returns (started: bool)
      modifies this
      ensures started <==> Text.Trim(old(imageUrl)) != ""
      ensures !started ==> fetching == old(fetching) && error == old(error) && result == old(result)
      ensures started ==> fetching && error == None && result == None
      ensures image == old(image) && mimeType == old(mimeType) && imageUrl == old(imageUrl)
      ensures Fields() == old(Fields()).(fetching := fetching, error := error, result := result)
    {
      if Text.Trim(imageUrl) == "" {
        return false;
      }
      ghost var before := Fields();
      fetching, error, result := true, None, None;
      assert Fields() == before.(fetching := true, error := None, result := None);
      started := true;
    }

    /** The fetch settled: a refused body sets the first failing check's message and ends
        fetching; an accepted one keeps its type and is read. */
    method UrlFetched(f: Fetched) returns (reading: bool)
      modifies this
      ensures reading <==> UrlCheck(f).Accepted?
      ensures UrlCheck(f).Refused? ==> error == Some(UrlCheck(f).message) && !fetching && mimeType == old(mimeType)
      ensures UrlCheck(f).Accepted? ==> mimeType == UrlCheck(f).mime && error == old(error) && fetching == old(fetching)
      ensures image == old(image) && result == old(result)
      ensures Fields() == old(Fields()).(error := error, fetching := fetching, mimeType := mimeType)
    {
      match UrlCheck(f) {
        case Refused(message) =>
          error := Some(message);
          fetching := false;
          reading := false;
        case Accepted(mime) =>
          mimeType := mime;
          reading := true;
      }
    }

    /** The reader of a fetched body finished. It has no error handler: a failed read
        (`None`) leaves everything as it was, fetching included. */
    method UrlRead(dataUrl: Option<string>)
      modifies this
      ensures dataUrl.Some? ==> image == DataUrlPayload(dataUrl.value) && !fetching
      ensures dataUrl.None? ==> image == old(image) && fetching == old(fetching)
      ensures result == old(result) && error == old(error) && mimeType == old(mimeType)
      ensures Fields() == old(Fields()).(image := image, fetching := fetching)
    {
      if dataUrl.Some? {
        image := DataUrlPayload(dataUrl.value);
        fetching := false;
      }
    }

    /** `handleAnalyze` up to the call: without an image (none, or an empty one) nothing
        happens; otherwise loading starts with the error cleared. */
    method BeginAnalyze() returns (started: bool)
      modifies this
      ensures started <==> old(image).Some? && old(image).value != ""
      ensures !started ==> loading == old(loading) && error == old(error)
      ensures started ==> loading && error == None
      ensures image == old(image) && result == old(result) && mimeType == old(mimeType)
      ensures Fields() == old(Fields()).(loading := loading, error := error)
    {
      if image.None? || image.value == "" {
        return false;
      }
      loading, error := true, None;
      started := true;
    }

    /** After the call: the analysis, or the error message (or its fallback); loading
        ends either way. */
    method FinishAnalyze(call: Outcome<string>)
      modifies this
      ensures call.Resolved? ==> result == Some(call.value) && error == old(error)
      ensures call.Rejected? ==> result == old(result) && error == Some(MessageOr(call.message, AnalysisFailed))
      ensures !loading && image == old(image)
      ensures Fields() == old(Fields()).(result := result, error := error, loading := false)
    {
      match call {
        case Resolved(text) =>
          result := Some(text);
        case Rejected(message) =>
          error := Some(MessageOr(message, AnalysisFailed));
      }
      loading := false;
    }

    /** `clearImage`. */
    method ClearImage()
      modifies this
      ensures image == None && imageUrl == "" && result == None && error == None
      ensures mimeType == old(mimeType) && loading == old(loading) && fetching == old(fetching)
      ensures Fields() == old(Fields()).(image := None, imageUrl := "", result := None, error := None)
    {
      image, imageUrl, result, error := None, "", None, None;
    }
  }
}
