/**
 The upload field's declarative configuration (the element's `data-config` JSON) and
 its normalisation into the settings the session runs with (client/src/js/loader.js,
 `handle`). An absent JSON member is `None`; a present one keeps its value, so the
 JavaScript truthiness tests of the source are written out below. A JSON `null` is
 not distinguished from an absent member.
 */
module LoaderConfig {
  import opened Wrappers
  import opened Strings

  /** JavaScript truthiness of an optional string: present and not "". */
  predicate TruthyString(o: Option<string>)
  {
    o.Some? && o.value != ""
  }

  /** JavaScript truthiness of an optional number: present and not 0. */
  predicate TruthyNumber(o: Option<int>)
  {
    o.Some? && o.value != 0
  }

  datatype RawRequest = RawRequest(
    httpMethod: Option<string>,
    endpoint: Option<string>,
    params: Option<map<string, string>>,   // None: `params` is not an object
    uuidName: Option<string>)

  datatype RawImage = RawImage(
    maxWidth: Option<int>, maxHeight: Option<int>,
    minWidth: Option<int>, minHeight: Option<int>)

  datatype RawValidation = RawValidation(
    sizeLimit: Option<int>,
    itemLimit: Option<int>,
    acceptFiles: Option<string>,
    image: RawImage)

  datatype RawUrls = RawUrls(notificationUrl: Option<string>, presignUrl: Option<string>)

  /** Message templates, read as they are when a check fails. */
  datatype Messages = Messages(
    maxWidthImageError: Option<string>, maxHeightImageError: Option<string>,
    minWidthImageError: Option<string>, minHeightImageError: Option<string>)

  datatype RawConfig = RawConfig(
    request: RawRequest,
    validation: RawValidation,
    urls: RawUrls,
    messages: Messages)

  /** Image bounds in pixels; 0 means the bound is not checked. */
  datatype ImageBounds = ImageBounds(maxWidth: int, maxHeight: int, minWidth: int, minHeight: int)

  /** What the upload library is told to enforce itself. */
  datatype Restrictions = Restrictions(
    maxFileSize: Option<int>,
    maxNumberOfFiles: Option<int>,
    minNumberOfFiles: Option<int>,
    allowedFileTypes: seq<string>)

  datatype SessionConfig = SessionConfig(
    httpMethod: string,
    formData: bool,
    meta: map<string, string>,
    restrictions: Restrictions,
    bounds: ImageBounds,
    notificationUrl: Option<string>,
    presignUrl: Option<string>,
    endpoint: Option<string>,
    uuidName: string,
    messages: Messages)

  const DefaultMethod := "POST"
  const DefaultFileTypes := ["image/*"]

  /** `method ? method : 'POST'` */
  function HttpMethod(raw: Option<string>): (m: string)
    ensures !TruthyString(raw) ==> m == DefaultMethod
    ensures TruthyString(raw) ==> m == raw.value
    ensures m != ""
  {
    if TruthyString(raw) then raw.value else DefaultMethod
  }

  /** A configured limit, or no limit (`null`) when absent or 0. */
  function Limit(raw: Option<int>): (l: Option<int>)
    ensures l.Some? <==> TruthyNumber(raw)
    ensures l.Some? ==> l == raw && l.value != 0
  {
    if TruthyNumber(raw) then raw else None
  }

  /** A configured image bound, or 0 (unchecked) when absent or 0. */
  function Bound(raw: Option<int>): (b: int)
    ensures raw.None? ==> b == 0
    ensures raw.Some? ==> b == raw.value
  {
    if TruthyNumber(raw) then raw.value else 0
  }

  /** A configured URL, or `null` when absent or "". */
  function Url(raw: Option<string>): (u: Option<string>)
    ensures u.Some? <==> TruthyString(raw)
    ensures u.Some? ==> u == raw && u.value != ""
  {
    if TruthyString(raw) then raw else None
  }

  /** The configured types split on commas, or the image wildcard type when absent or empty. */
  function AllowedTypes(acceptFiles: Option<string>): (types: seq<string>)
    ensures !TruthyString(acceptFiles) ==> types == DefaultFileTypes
    ensures TruthyString(acceptFiles) ==> |types| >= 1
    ensures TruthyString(acceptFiles) ==> forall i :: 0 <= i < |types| ==> ',' !in types[i]
    ensures TruthyString(acceptFiles) ==> Join(types, ",") == acceptFiles.value
  {
    if !TruthyString(acceptFiles) then DefaultFileTypes
    else
      JoinSplit(acceptFiles.value, ',');
      Split(acceptFiles.value, ',')
  }

  /** The key of the per-file id in a file's meta data: `uuidName` as a JavaScript
      property key, so an absent name becomes the key "undefined". */
  function UuidKey(uuidName: Option<string>): (k: string)
    ensures uuidName.Some? ==> k == uuidName.value
    ensures uuidName.None? ==> k == "undefined"
  {
    uuidName.GetOr("undefined")
  }

  /** The settings `handle` derives from the configuration before creating the uploader. */
  function Normalise(raw: RawConfig): (c: SessionConfig)
    ensures raw.request.httpMethod.None? ==> c.httpMethod == "POST"
    ensures c.formData <==> c.httpMethod != "PUT"
    ensures raw.request.params.Some? ==> c.meta == raw.request.params.value
    ensures raw.request.params.None? ==> c.meta == map[]
    ensures c.restrictions.maxFileSize.Some? <==> TruthyNumber(raw.validation.sizeLimit)
    ensures c.restrictions.maxNumberOfFiles.Some? <==> TruthyNumber(raw.validation.itemLimit)
    ensures c.restrictions.minNumberOfFiles.None?
    ensures raw.validation.acceptFiles.None? ==> c.restrictions.allowedFileTypes == ["image/*"]
    ensures TruthyString(raw.validation.acceptFiles) ==>
      Join(c.restrictions.allowedFileTypes, ",") == raw.validation.acceptFiles.value
    ensures raw.validation.image.maxWidth.None? ==> c.bounds.maxWidth == 0
    ensures raw.validation.image.maxHeight.None? ==> c.bounds.maxHeight == 0
    ensures raw.validation.image.minWidth.None? ==> c.bounds.minWidth == 0
    ensures raw.validation.image.minHeight.None? ==> c.bounds.minHeight == 0
    ensures raw.urls.presignUrl.None? ==> c.presignUrl.None?
    ensures raw.urls.notificationUrl.None? ==> c.notificationUrl.None?
    ensures c.presignUrl.Some? ==> c.presignUrl.value != ""
    ensures c.messages == raw.messages
    ensures c.httpMethod == HttpMethod(raw.request.httpMethod)
    ensures c.restrictions.allowedFileTypes == AllowedTypes(raw.validation.acceptFiles)
    ensures c.restrictions.maxFileSize == Limit(raw.validation.sizeLimit)
    ensures c.restrictions.maxNumberOfFiles == Limit(raw.validation.itemLimit)
    ensures c.bounds == ImageBounds(
      Bound(raw.validation.image.maxWidth), Bound(raw.validation.image.maxHeight),
      Bound(raw.validation.image.minWidth), Bound(raw.validation.image.minHeight))
    ensures c.notificationUrl == Url(raw.urls.notificationUrl)
    ensures c.presignUrl == Url(raw.urls.presignUrl)
    ensures c.endpoint == raw.request.endpoint
    ensures c.uuidName == UuidKey(raw.request.uuidName)
  {
    var m := HttpMethod(raw.request.httpMethod);
    var v := raw.validation;
    SessionConfig(
      httpMethod := m,
      formData := m != "PUT",
      meta := raw.request.params.GetOr(map[]),
      restrictions := Restrictions(
        maxFileSize := Limit(v.sizeLimit),
        maxNumberOfFiles := Limit(v.itemLimit),
        minNumberOfFiles := None,
        allowedFileTypes := AllowedTypes(v.acceptFiles)),
      bounds := ImageBounds(
        Bound(v.image.maxWidth), Bound(v.image.maxHeight),
        Bound(v.image.minWidth), Bound(v.image.minHeight)),
      notificationUrl := Url(raw.urls.notificationUrl),
      presignUrl := Url(raw.urls.presignUrl),
      endpoint := raw.request.endpoint,
      uuidName := UuidKey(raw.request.uuidName),
      messages := raw.messages)
  }

  /** A configured `acceptFiles` is recovered exactly by its allowed types, and no
      other comma-free list of types joins back to it. */
  lemma AllowedTypesExact(acceptFiles: string, types: seq<string>)
    requires acceptFiles != ""
    requires |types| >= 1 && forall i :: 0 <= i < |types| ==> ',' !in types[i]
    ensures Join(types, ",") == acceptFiles <==> types == AllowedTypes(Some(acceptFiles))
  {
    if Join(types, ",") == acceptFiles {
      SplitJoin(types, ',');
    }
  }
}
