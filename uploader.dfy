/** The photo uploader: the accepted image types, and the state the
    component keeps (whether a drag is over the drop zone, the preview of
    the last image read, and whether a classification is running) as it
    reacts to one event after another. Reading the file and classifying the
    image are outside: their results are parameters. */
module GarbageUploader {
  import opened Wrappers
  import opened WasteClassifier

  /** The MIME types the uploader takes. */
  const AcceptedTypes: seq<string> := ["image/jpeg", "image/png", "image/webp", "image/gif"]

  datatype File = File(name: string, mimeType: string)

  /** A classification started from a file read as a data URL. */
  datatype Job = Job(file: File, url: string)

  /** The arguments `onClassified(result, file, previewUrl)` is called with. */
  datatype Delivery = Delivery(result: ClassificationResult, file: File, url: string)

  class Uploader {
    var isDragging: bool
    var previewUrl: Option<string>
    var isLoading: bool

    /** A classification only runs once there is a preview to show. */
    predicate Valid()
      reads this
    {
      isLoading ==> previewUrl.Some?
    }

    constructor ()
      ensures Valid()
      ensures !isDragging && previewUrl == None && !isLoading
    {
      isDragging := false;
      previewUrl := None;
      isLoading := false;
    }

    /** onSelectFile, up to `readAsDataURL`: a file of an accepted type
        starts a read; any other file is turned away (with a toast) and the
        method returns before anything else happens. Either way the state is
        left as it was. */
    method SelectFile(file: File) returns (reading: Option<File>)
      ensures reading.Some? <==> file.mimeType in AcceptedTypes
      ensures reading.Some? ==> reading.value == file
    {
      if file.mimeType in AcceptedTypes {
        reading := Some(file);
      } else {
        reading := None;
      }
    }

    /** `reader.onload`: the data URL becomes the preview, then the
        loading flag is raised and classification of that URL starts. */
    method ReadDone(file: File, url: string) returns (job: Job)
      requires Valid()
      modifies this
      ensures Valid()
      ensures previewUrl == Some(url) && isLoading && isDragging == old(isDragging)
      ensures job == Job(file, url)
    {
      previewUrl := Some(url);
      isLoading := true;
      job := Job(file, url);
    }

    /** The end of the `try`/`catch`/`finally` around the classification:
        the loading flag drops whatever the outcome, and `onClassified` is
        called only when the promise fulfilled, with the file and the URL
        the job was started with. */
    method ClassificationSettled(job: Job, outcome: Settled) returns (delivered: Option<Delivery>)
      requires Valid()
      modifies this
      ensures Valid()
      ensures !isLoading && previewUrl == old(previewUrl) && isDragging == old(isDragging)
      ensures delivered.Some? <==> outcome.Fulfilled?
      ensures delivered.Some? ==> delivered.value == Delivery(outcome.result, job.file, job.url)
    {
      isLoading := false;
      match outcome
      case Fulfilled(result) =>
        delivered := Some(Delivery(result, job.file, job.url));
      case Rejected =>
        delivered := None;
    }

    /** The file input's change handler: the first chosen file, if any, goes
        through onSelectFile. */
    method PickFiles(files: seq<File>) returns (reading: Option<File>)
      ensures reading.Some? <==> files != [] && files[0].mimeType in AcceptedTypes
      ensures reading.Some? ==> reading.value == files[0]
    {
      reading := None;
      if files != [] {
        reading := SelectFile(files[0]);
      }
    }

    /** handleDrop: the drag ends, and only the first dropped file, if any,
        goes through onSelectFile. */
    method Drop(files: seq<File>) returns (reading: Option<File>)
      requires Valid()
      modifies this
      ensures Valid()
      ensures !isDragging && previewUrl == old(previewUrl) && isLoading == old(isLoading)
      ensures reading.Some? <==> files != [] && files[0].mimeType in AcceptedTypes
      ensures reading.Some? ==> reading.value == files[0]
    {
      isDragging := false;
      reading := PickFiles(files);
    }

    method DragEnter()
      requires Valid()
      modifies this
      ensures Valid()
      ensures isDragging && previewUrl == old(previewUrl) && isLoading == old(isLoading)
    {
      isDragging := true;
    }

    method DragLeave()
      requires Valid()
      modifies this
      ensures Valid()
      ensures !isDragging && previewUrl == old(previewUrl) && isLoading == old(isLoading)
    {
      isDragging := false;
    }

    /** A click on the upload button: the button is disabled while a
        classification runs, so the file picker opens only when none does. */
    method ClickUpload() returns (opensPicker: bool)
      ensures opensPicker <==> !isLoading
    {
      opensPicker := !isLoading;
    }

    /** The caption of the upload button. */
    function ButtonCaption(): (caption: string)
      reads this
      ensures caption == "Identifying..." <==> isLoading
    {
      if isLoading then "Identifying..."
      else if previewUrl.Some? then "Try another photo"
      else "Upload a photo"
    }

    /** One whole upload of `file`, read as `url`, classified by `service`
        (whose model calls go as the last four parameters say). A rejected
        file changes nothing and never reaches the model; an accepted one
        ends with its URL as the preview, the loading flag down, and
        `onClassified` called exactly when the classification fulfilled,
        with what ClassifyImage settles on. */
    method Upload(file: File, url: string, service: ClassifierService,
                  loads: LoadOutcomes, first: Inference, reload: bool, retry: Inference)
      returns (delivered: Option<Delivery>, calls: seq<Call>)
      requires Valid()
      modifies this, service
      ensures Valid()
      ensures isDragging == old(isDragging)
      ensures file.mimeType !in AcceptedTypes ==>
        && delivered == None && calls == []
        && previewUrl == old(previewUrl) && isLoading == old(isLoading)
        && service.classifier == old(service.classifier)
      ensures file.mimeType in AcceptedTypes ==>
        && previewUrl == Some(url) && !isLoading
        && (delivered.Some? ==> delivered.value.file == file && delivered.value.url == url)
    // An accepted file is delivered exactly when a model was cached or one
    // of the backends loads; otherwise the loads were all tried in vain.
    ensures file.mimeType in AcceptedTypes ==>
      && (delivered.Some? <==>
            old(service.classifier).Some? || FirstLoading(FallbackChain, loads).Some?)
      && (delivered.None? ==>
            calls == LoadAttempts(FallbackChain, loads) && service.classifier == None)
    // What is delivered: the first answer, else the answer of the retry on
    // the WASM backend when there is one, else the sentinel result; and the
    // backend cached afterwards.
    ensures file.mimeType in AcceptedTypes && delivered.Some? ==>
      var h := if old(service.classifier).Some? then old(service.classifier).value
               else Handle(FirstLoading(FallbackChain, loads).value);
      && delivered.value.result ==
           (if first.Answers? then SelectResult(first.outputs)
            else if reload && retry.Answers? then SelectResult(retry.outputs)
            else Sentinel)
      && service.classifier == (if first.Throws? && reload then Some(Handle(Wasm)) else Some(h))
    {
      var reading := SelectFile(file);
      delivered, calls := None, [];
      if reading.Some? {
        var job := ReadDone(file, url);
        var outcome;
        outcome, calls := service.ClassifyImage(loads, first, reload, retry);
        delivered := ClassificationSettled(job, outcome);
      }
    }
  }
}
