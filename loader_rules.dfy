/**
 The per-file decisions the upload field makes without touching any state
 (client/src/js/loader.js): the image-dimension check run when a decoded image
 loads, the message shown for a failed check, and the URI an uploaded file is
 recorded under.
 */
module LoaderRules {
  import opened Wrappers
  import opened LoaderConfig

  const GenericDimensionMessage := "The image does not match the allowed dimensions"
  const PresignFailureMessage := "This file could not be added due to a system error. Please try again later."

  /** The four image bounds, in the order they are checked. */
  datatype BoundKind = MaxWidth | MaxHeight | MinWidth | MinHeight

  function Rank(k: BoundKind): nat
  {
    match k
    case MaxWidth => 0
    case MaxHeight => 1
    case MinWidth => 2
    case MinHeight => 3
  }

  /** An image of `width` x `height` breaks bound `k`; a bound of 0 (or below) is never broken. */
  predicate Violates(k: BoundKind, b: ImageBounds, width: nat, height: nat)
  {
    match k
    case MaxWidth => b.maxWidth > 0 && width > b.maxWidth
    case MaxHeight => b.maxHeight > 0 && height > b.maxHeight
    case MinWidth => b.minWidth > 0 && width < b.minWidth
    case MinHeight => b.minHeight > 0 && height < b.minHeight
  }

  /** The `image.onload` if/else chain: the first bound broken, in the order
      max width, max height, min width, min height, or none. */
  function DimensionViolation(b: ImageBounds, width: nat, height: nat): (r: Option<BoundKind>)
    ensures r.None? ==> forall k :: !Violates(k, b, width, height)
    ensures r.Some? ==> Violates(r.value, b, width, height)
    ensures r.Some? ==> forall k :: Rank(k) < Rank(r.value) ==> !Violates(k, b, width, height)
  {
    if b.maxWidth > 0 && width > b.maxWidth then Some(MaxWidth)
    else if b.maxHeight > 0 && height > b.maxHeight then Some(MaxHeight)
    else if b.minWidth > 0 && width < b.minWidth then Some(MinWidth)
    else if b.minHeight > 0 && height < b.minHeight then Some(MinHeight)
    else None
  }

  /** The configured template for a broken bound. */
  function Template(m: Messages, k: BoundKind): Option<string>
  {
    match k
    case MaxWidth => m.maxWidthImageError
    case MaxHeight => m.maxHeightImageError
    case MinWidth => m.minWidthImageError
    case MinHeight => m.minHeightImageError
  }

  /** The template when it is a non-empty string, the generic message otherwise. */
  function MessageOrGeneric(template: Option<string>): (msg: string)
    ensures msg != ""
    ensures TruthyString(template) ==> msg == template.value
    ensures !TruthyString(template) ==> msg == GenericDimensionMessage
  {
    if TruthyString(template) then template.value else GenericDimensionMessage
  }

  /** The message shown, and the file removed, when the loaded image breaks a bound. */
  function DimensionRejection(b: ImageBounds, m: Messages, width: nat, height: nat): (r: Option<string>)
    ensures r.Some? <==> exists k :: Violates(k, b, width, height)
    ensures r.Some? ==> r.value != ""
    ensures r.Some? ==> exists k ::
      && Violates(k, b, width, height)
      && (forall j :: Rank(j) < Rank(k) ==> !Violates(j, b, width, height))
      && r.value == MessageOrGeneric(Template(m, k))
  {
    match DimensionViolation(b, width, height)
    case None => None
    case Some(k) =>
      assert Violates(k, b, width, height) && forall j :: Rank(j) < Rank(k) ==> !Violates(j, b, width, height);
      Some(MessageOrGeneric(Template(m, k)))
  }

  /** Breaking max width always reports the max-width message, whatever else is broken. */
  lemma MaxWidthReportedFirst(b: ImageBounds, m: Messages, width: nat, height: nat)
    requires Violates(MaxWidth, b, width, height)
    ensures DimensionRejection(b, m, width, height) == Some(MessageOrGeneric(m.maxWidthImageError))
  {
    var r := DimensionRejection(b, m, width, height);
    var k :| Violates(k, b, width, height)
      && (forall j :: Rank(j) < Rank(k) ==> !Violates(j, b, width, height))
      && r.value == MessageOrGeneric(Template(m, k));
    assert k == MaxWidth;
  }

  /** The URI an upload is reported and recorded under: the file's own endpoint, else
      the `uuid` in the response body, else nothing. */
  function EffectiveUri(endpoint: string, responseUuid: string): (uri: string)
    ensures endpoint != "" ==> uri == endpoint
    ensures endpoint == "" ==> uri == responseUuid
    ensures uri == "" <==> endpoint == "" && responseUuid == ""
  {
    if endpoint != "" then endpoint
    else if responseUuid != "" then responseUuid
    else ""
  }

  /** Bounds left out of the configuration never reject an image. */
  lemma UnconfiguredBoundsAccept(raw: RawConfig, width: nat, height: nat)
    requires raw.validation.image == RawImage(None, None, None, None)
    ensures DimensionRejection(Normalise(raw).bounds, raw.messages, width, height).None?
  {
  }

  /** The example of a wide, short image: only the max-width message is reported. */
  lemma WideShortImage(m: Messages)
    ensures DimensionRejection(ImageBounds(800, 0, 0, 100), m, 1000, 50)
         == Some(MessageOrGeneric(m.maxWidthImageError))
  {
  }
}
