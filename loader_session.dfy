/**
 The upload field's session (client/src/js/loader.js): the files the uploader
 holds, the hidden form entries recording finished uploads, and whether the form's
 submit is blocked. Each asynchronous source of the original (uploader events, the
 presign callback, the decoded image's `onload`) is one method here, applied to one
 file id; what those sources deliver (presigned URL, image size, response `uuid`)
 is a parameter.
 */
module Loader {
  import opened Wrappers
  import opened LoaderConfig
  import opened LoaderRules

  /** A file the uploader holds: its own transport endpoint ("" when it has none)
      and its meta data. */
  datatype TrackedFile = TrackedFile(endpoint: string, meta: map<string, string>)

  /** A request made to the notification helper. */
  datatype Notice =
    | FileOutcome(success: bool, fileId: string, uri: string, url: Option<string>)
    | SessionComplete(successful: seq<string>, failed: seq<string>, url: Option<string>)

  class UploadSession {
    const config: SessionConfig
    /** The uploader's files, by id. */
    var files: map<string, TrackedFile>
    /** The hidden form entries: file id to the URI it was uploaded under. */
    var fields: map<string, string>
    var submitBlocked: bool
    /** Notification requests, oldest first. */
    var notices: seq<Notice>
    /** Error messages shown to the user, oldest first. */
    var infos: seq<string>

    /** The form is never left blocked with no file in the uploader, and every
        hidden entry carries a URI. */
    ghost predicate Valid()
      reads this
    {
      && (submitBlocked ==> files != map[])
      && (forall id :: id in fields ==> fields[id] != "")
    }

    /** `handle`: normalise the configuration and start with nothing uploaded. */
    constructor (raw: RawConfig)
      ensures Valid()
      ensures config == Normalise(raw)
      ensures files == map[] && fields == map[] && !submitBlocked
      ensures notices == [] && infos == []
    {
      config := Normalise(raw);
      files, fields, submitBlocked := map[], map[], false;
      notices, infos := [], [];
    }

    /** The uploader removes a file (the user's removal, or one of the removals
        below) and `file-removed` fires: submit is released once no file is left.
        Removing a file that is not there changes nothing. The hidden entries are
        left as they are. */
    method RemoveFile(id: string)
      requires Valid()
      modifies this
      ensures Valid()
      ensures files == old(files) - {id}
      ensures submitBlocked == (old(submitBlocked) && files != map[])
      ensures fields == old(fields) && notices == old(notices) && infos == old(infos)
    {
      if id in files {
        files := files - {id};
        if |files| == 0 {
          submitBlocked := false;
        }
      }
    }

    /** `file-added`: block submit; with a presign URL configured, clear this
        file's endpoint until the presigned one arrives; record the file's own id
        in its meta data under the configured uuid name. */
    method FileAdded(id: string, endpoint: string, meta: map<string, string>)
      requires Valid()
      requires id !in files
      modifies this
      ensures Valid()
      ensures submitBlocked
      ensures files == old(files)[id := TrackedFile(
                if config.presignUrl.Some? then "" else endpoint,
                meta[config.uuidName := id])]
      ensures fields == old(fields) && notices == old(notices) && infos == old(infos)
    {
      submitBlocked := true;
      var current := endpoint;
      if config.presignUrl.Some? {
        current := "";
      }
      files := files[id := TrackedFile(current, meta[config.uuidName := id])];
      assert id in files;
    }

    /** The presign callback for file `id`: a non-empty URL becomes that file's
        endpoint; an empty one removes the file and reports a system error. */
    method PresignResolved(id: string, presignedUrl: string)
      requires Valid()
      requires config.presignUrl.Some?
      modifies this
      ensures Valid()
      ensures presignedUrl != "" ==>
        && files == (if id in old(files) then old(files)[id := old(files)[id].(endpoint := presignedUrl)]
                     else old(files))
        && submitBlocked == old(submitBlocked)
        && infos == old(infos)
      ensures presignedUrl == "" ==>
        && files == old(files) - {id}
        && submitBlocked == (old(submitBlocked) && files != map[])
        && infos == old(infos) + [PresignFailureMessage]
      ensures fields == old(fields) && notices == old(notices)
    {
      if presignedUrl != "" {
        if id in files {
          files := files[id := files[id].(endpoint := presignedUrl)];
        }
      } else {
        RemoveFile(id);
        infos := infos + [PresignFailureMessage];
      }
    }

    /** The decoded image of file `id` has loaded with the given size: a broken
        bound removes the file and shows its message. */
    method ImageLoaded(id: string, width: nat, height: nat)
      requires Valid()
      modifies this
      ensures Valid()
      ensures var rejection := DimensionRejection(config.bounds, config.messages, width, height);
        if rejection.Some? then
          && files == old(files) - {id}
          && submitBlocked == (old(submitBlocked) && files != map[])
          && infos == old(infos) + [rejection.value]
        else
          && files == old(files)
          && submitBlocked == old(submitBlocked)
          && infos == old(infos)
      ensures fields == old(fields) && notices == old(notices)
    {
      var rejection := DimensionRejection(config.bounds, config.messages, width, height);
      if rejection.Some? {
        RemoveFile(id);
        infos := infos + [rejection.value];
      }
    }

    /** `upload-success`: report success with the effective URI, and record a
        hidden entry for the file when there is a URI. */
    method UploadSuccess(id: string, responseUuid: string)
      requires Valid()
      requires id in files
      modifies this
      ensures Valid()
      ensures var uri := EffectiveUri(old(files)[id].endpoint, responseUuid);
        && notices == old(notices) + [FileOutcome(true, id, uri, config.notificationUrl)]
        && fields == (if uri != "" then old(fields)[id := uri] else old(fields))
      ensures files == old(files) && submitBlocked == old(submitBlocked) && infos == old(infos)
    {
      var uri := EffectiveUri(files[id].endpoint, responseUuid);
      notices := notices + [FileOutcome(true, id, uri, config.notificationUrl)];
      if uri != "" {
        fields := fields[id := uri];
      }
    }

    /** `upload-error`: report failure with the effective URI, and drop the file's
        hidden entry if it has one. Submit stays as it is. */
    method UploadError(id: string, responseUuid: string)
      requires Valid()
      requires id in files
      modifies this
      ensures Valid()
      ensures notices == old(notices)
        + [FileOutcome(false, id, EffectiveUri(old(files)[id].endpoint, responseUuid), config.notificationUrl)]
      ensures fields == old(fields) - {id}
      ensures files == old(files) && submitBlocked == old(submitBlocked) && infos == old(infos)
    {
      var uri := EffectiveUri(files[id].endpoint, responseUuid);
      notices := notices + [FileOutcome(false, id, uri, config.notificationUrl)];
      fields := fields - {id};
    }

    /** `error`: the upload as a whole failed; release submit. */
    method SessionError()
      requires Valid()
      modifies this
      ensures Valid()
      ensures !submitBlocked
      ensures files == old(files) && fields == old(fields)
      ensures notices == old(notices) && infos == old(infos)
    {
      submitBlocked := false;
    }

    /** `complete`: report the batch's result and release submit. */
    method Complete(successful: seq<string>, failed: seq<string>)
      requires Valid()
      modifies this
      ensures Valid()
      ensures !submitBlocked
      ensures notices == old(notices) + [SessionComplete(successful, failed, config.notificationUrl)]
      ensures files == old(files) && fields == old(fields) && infos == old(infos)
    {
      notices := notices + [SessionComplete(successful, failed, config.notificationUrl)];
      submitBlocked := false;
    }

    /** `cancel-all`: release submit. */
    method CancelAll()
      requires Valid()
      modifies this
      ensures Valid()
      ensures !submitBlocked
      ensures files == old(files) && fields == old(fields)
      ensures notices == old(notices) && infos == old(infos)
    {
      submitBlocked := false;
    }
  }

  /** A file added with a presign URL configured is uploaded to its presigned URL,
      the hidden entry carries that URL, and the batch's completion releases submit. */
  method PresignedUploadScenario(raw: RawConfig)
    requires raw.urls.presignUrl == Some("https://sign")
  {
    var s := new UploadSession(raw);
    s.FileAdded("x", "https://static", map[]);
    assert s.submitBlocked && s.files["x"].endpoint == "";
    s.PresignResolved("x", "https://up/x");
    assert s.files["x"].endpoint == "https://up/x";
    s.UploadSuccess("x", "");
    assert s.fields == map["x" := "https://up/x"];
    assert s.notices == [FileOutcome(true, "x", "https://up/x", s.config.notificationUrl)];
    s.Complete(["x"], []);
    assert !s.submitBlocked;
  }

  /** An empty presign result removes the only file: no entry, an error message,
      and submit released. */
  method EmptyPresignScenario(raw: RawConfig)
    requires raw.urls.presignUrl == Some("https://sign")
  {
    var s := new UploadSession(raw);
    s.FileAdded("x", "", map[]);
    s.PresignResolved("x", "");
    assert "x" !in s.files && "x" !in s.fields;
    assert s.infos == [PresignFailureMessage];
    assert !s.submitBlocked;
  }

  /** Two files, one uploaded and one failed: the failed one has no entry, and
      submit stays blocked until the batch completes. */
  method MixedOutcomeScenario(raw: RawConfig)
    requires raw.urls.presignUrl.None?
  {
    var s := new UploadSession(raw);
    s.FileAdded("a", "", map[]);
    s.FileAdded("b", "", map[]);
    s.UploadSuccess("a", "uuid-a");
    assert s.fields == map["a" := "uuid-a"] && s.submitBlocked;
    s.UploadError("b", "");
    assert "b" !in s.fields && s.fields["a"] == "uuid-a";
    assert s.notices[1] == FileOutcome(false, "b", "", s.config.notificationUrl);
    assert s.submitBlocked;
    s.Complete(["a"], ["b"]);
    assert !s.submitBlocked;
  }

  /** Removing a pending file while an uploaded one is still listed leaves submit
      blocked: only an empty uploader, or a batch event, releases it. */
  method RemovalKeepsBlockScenario(raw: RawConfig)
    requires raw.urls.presignUrl.None?
  {
    var s := new UploadSession(raw);
    s.FileAdded("a", "", map[]);
    s.UploadSuccess("a", "uuid-a");
    s.Complete(["a"], []);
    s.FileAdded("b", "", map[]);
    s.RemoveFile("b");
    assert s.files.Keys == {"a"} && s.submitBlocked;
  }
}
