/**
 * The upload endpoint: a pure decision from the request body to a response.
 * The count of images is checked first, then every entry's data-URL prefix;
 * a body that cannot be read (or whose destructuring throws) gives 500.
 */
module Upload {
  import opened Wrappers

  /** A parsed JSON value, as `request.json()` would produce it. */
  datatype Json =
    | JNull
    | JBool(b: bool)
    | JNumber(n: real)
    | JString(s: string)
    | JArray(items: seq<Json>)
    | JObject(fields: map<string, Json>)

  /** The request body: either JSON that parsed, or a parse failure. */
  datatype Body = Unparseable | Parsed(value: Json)

  datatype ResponseBody =
    | Failure(error: string)
    | Success(url: string, message: string)

  datatype Response = Response(status: int, body: ResponseBody)

  const RequiredImages := 12
  const JpegPrefix := "data:image/jpeg;base64,"
  const CountError := "Exactly 12 images are required"
  const FormatError := "All images must be valid JPEG base64 data URLs"
  const ServerError := "Failed to process images"
  const PanoramaUrl := "/placeholder-360.jpg"
  const SuccessMessage := "Panorama processing completed successfully"

  /** `s.startsWith(prefix)`, compared one character at a time. */
  function StartsWith(s: string, prefix: string): (b: bool)
    ensures b <==> |prefix| <= |s| && s[..|prefix|] == prefix
  {
    if prefix == [] then true
    else if s == [] then false
    else
      assert |prefix| <= |s| ==> s[..|prefix|] == [s[0]] + s[1..][..|prefix| - 1];
      assert prefix == [prefix[0]] + prefix[1..];
      s[0] == prefix[0] && StartsWith(s[1..], prefix[1..])
  }

  /** `isValidImage`: a string that begins with the JPEG data-URL prefix. */
  predicate IsValidImage(img: Json): (b: bool)
    ensures b <==> img.JString? && JpegPrefix <= img.s
  {
    img.JString? && StartsWith(img.s, JpegPrefix)
  }

  /** `images.every(isValidImage)`, walked from the front. */
  function Every(items: seq<Json>): (b: bool)
    ensures b <==> forall i :: 0 <= i < |items| ==> IsValidImage(items[i])
  {
    if items == [] then true
    else IsValidImage(items[0]) && Every(items[1..])
  }

  /**
   * `const { images } = body` for a body that is not `null`: the own
   * property of an object, `undefined` (None) for any other value.
   */
  function ImagesOf(v: Json): (images: Option<Json>)
    ensures images.Some? <==> v.JObject? && "images" in v.fields
    ensures images.Some? ==> images.value == v.fields["images"]
  {
    if v.JObject? && "images" in v.fields then Some(v.fields["images"]) else None
  }

  /** The count check passes: `images` is an array of exactly twelve entries. */
  predicate HasTwelveImages(images: Option<Json>): (b: bool)
    // `undefined` and every non-array value fail, whatever they hold
    ensures images.None? || !images.value.JArray? ==> !b
    ensures b ==> |images.value.items| == RequiredImages
  {
    images.Some? && images.value.JArray? && |images.value.items| == RequiredImages
  }

  /** The POST handler. */
  function Post(body: Body): (r: Response)
    // 500 exactly when reading the body or destructuring it throws
    ensures r.status == 500 <==> body == Unparseable || body == Parsed(JNull)
    ensures r.status == 500 ==> r.body == Failure(ServerError)
    // the count check comes first, whatever the entries are
    ensures r.body == Failure(CountError) <==>
      body.Parsed? && body.value != JNull && !HasTwelveImages(ImagesOf(body.value))
    ensures r.body == Failure(FormatError) <==>
      body.Parsed? && HasTwelveImages(ImagesOf(body.value)) &&
      exists i :: 0 <= i < RequiredImages && !IsValidImage(ImagesOf(body.value).value.items[i])
    ensures r.body.Failure? && r.status != 500 ==> r.status == 400
    // success depends only on the shape of the body, never on the image contents
    ensures r.body.Success? <==>
      body.Parsed? && HasTwelveImages(ImagesOf(body.value)) &&
      forall i :: 0 <= i < RequiredImages ==> IsValidImage(ImagesOf(body.value).value.items[i])
    ensures r.body.Success? ==> r == Response(200, Success(PanoramaUrl, SuccessMessage))
  {
    match body
    case Unparseable => Response(500, Failure(ServerError))
    case Parsed(v) =>
      if v == JNull then Response(500, Failure(ServerError))
      else
        var images := ImagesOf(v);
        if !HasTwelveImages(images) then Response(400, Failure(CountError))
        else if !Every(images.value.items) then Response(400, Failure(FormatError))
        else Response(200, Success(PanoramaUrl, SuccessMessage))
  }

  /** A wrong-count list reports the count error even when every entry is malformed. */
  lemma CountCheckedBeforeFormat(entries: seq<Json>)
    requires |entries| != RequiredImages
    ensures Post(Parsed(JObject(map["images" := JArray(entries)]))) == Response(400, Failure(CountError))
  {
  }

  /** A body whose `images` is missing or not an array is a count error. */
  lemma MissingImagesIsCountError(v: Json)
    requires v != JNull
    requires !(v.JObject? && "images" in v.fields) || !v.fields["images"].JArray?
    ensures Post(Parsed(v)) == Response(400, Failure(CountError))
  {
  }
}
