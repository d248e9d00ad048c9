/**
 * `ComfyUIPixtral.process`: each image becomes a JPEG data URI, the URIs
 * follow the prompt in one user message, the request is POSTed to the
 * chat-completions endpoint, and whatever happens is returned as one string.
 *
 * The JPEG/base64 encoder (PIL and `base64`) is the parameter `encode`; the
 * HTTP round trip (`requests.post` plus reading the JSON reply) is the
 * parameter `send`. Each returns `Failure(message)` where the foreign code
 * would raise, with `message` the exception's `str()`.
 */
module Request {
  import opened Common
  import Text
  import opened ImageShape
  import MultiImages

  const DataUriPrefix := "data:image/jpeg;base64,"
  const Endpoint := "https://api.mistral.ai/v1/chat/completions"
  const StatusOk: nat := 200

  const ExceptionPrefix := "Error in process method: "
  const ApiErrorPrefix := "API Error: "

  /** One element of the message's content list. */
  datatype Part = TextPart(text: string) | ImageUrlPart(imageUrl: string)

  datatype Message = Message(role: string, content: seq<Part>)

  /** The JSON body of the POST; the three generation parameters are passed through as given. */
  datatype ChatRequest = ChatRequest(model: string, messages: seq<Message>, temperature: real, maxTokens: int, topP: real)

  datatype Header = Header(name: string, value: string)

  /** The one POST that `process` issues. */
  datatype Post = Post(url: string, headers: seq<Header>, body: ChatRequest)

  /**
   * What came back: the status code, the raw body text, and the outcome of
   * reading `choices[0].message.content` from the body as JSON (`Failure`
   * carries the message of the exception that reading raises).
   */
  datatype Response = Response(status: nat, text: string, content: Result<string, string>)

  /** Every exception that the `try` of lines 113-187 catches. */
  datatype ProcessError =
    | ShapeFailed(shapeError: ShapeError)
    | EncodeFailed(reason: string)
    | TooManyImages(count: nat)
    | TransportFailed(reason: string)
    | ResponseUnreadable(reason: string)

  /** What one call of `process` comes to, before it is flattened into the returned string. */
  datatype Outcome = Completed(text: string) | ApiError(status: nat, body: string) | Raised(error: ProcessError)

  // ---------------------------------------------------------------------
  // Data URIs

  /** Line 143: the fixed JPEG MIME prefix followed by the base64 text. */
  function DataUri(b64: string): (uri: string)
    ensures |uri| == |DataUriPrefix| + |b64|
    ensures uri[..|DataUriPrefix|] == DataUriPrefix && uri[|DataUriPrefix|..] == b64
  {
    DataUriPrefix + b64
  }

  /** The base64 text of a JPEG data URI, if that is what `uri` is. */
  function PayloadOf(uri: string): Option<string> {
    if |uri| >= |DataUriPrefix| && uri[..|DataUriPrefix|] == DataUriPrefix then Some(uri[|DataUriPrefix|..]) else None
  }

  lemma DataUriRoundTrip(b64: string)
    ensures PayloadOf(DataUri(b64)) == Some(b64)
  {
  }

  // ---------------------------------------------------------------------
  // The per-image loop (lines 115-143)

  /** The data URI one image contributes, or the exception raised on the way to it. */
  function ImageUrl<P>(img: RawImage<P>, encode: Canonical<P> -> Result<string, string>): (r: Result<string, ProcessError>)
    ensures Normalize(img).Failure? ==> r == Failure(ShapeFailed(Normalize(img).error))
    ensures Normalize(img).Success? ==>
      && (r.Success? <==> encode(Normalize(img).value).Success?)
      && (r.Success? ==> PayloadOf(r.value) == Some(encode(Normalize(img).value).value))
      && (r.Failure? ==> r.error == EncodeFailed(encode(Normalize(img).value).error))
  {
    match Normalize(img)
    case Failure(e) => Failure(ShapeFailed(e))
    case Success(c) =>
      match encode(c)
      case Failure(m) => Failure(EncodeFailed(m))
      case Success(b64) => Success(DataUri(b64))
  }

  /** `image_urls` after the loop: one URI per image, in order, or the first exception raised. */
  function EncodeAll<P>(images: seq<RawImage<P>>, encode: Canonical<P> -> Result<string, string>): (r: Result<seq<string>, ProcessError>)
    ensures r.Success? ==> |r.value| == |images|
    ensures r.Success? ==> forall k :: 0 <= k < |images| ==> ImageUrl(images[k], encode) == Success(r.value[k])
    decreases |images|
  {
    if images == [] then Success([])
    else
      match EncodeAll(images[..|images| - 1], encode)
      case Failure(e) => Failure(e)
      case Success(urls) =>
        match ImageUrl(images[|images| - 1], encode)
        case Failure(e) => Failure(e)
        case Success(u) => Success(urls + [u])
  }

  /** Image `j` is the first one whose conversion raises, and it raises `e`. */
  predicate FailsFirstAt<P>(images: seq<RawImage<P>>, encode: Canonical<P> -> Result<string, string>, j: int, e: ProcessError) {
    && 0 <= j < |images|
    && ImageUrl(images[j], encode) == Failure(e)
    && forall k :: 0 <= k < j ==> ImageUrl(images[k], encode).Success?
  }

  /** The loop succeeds exactly when every image converts, and otherwise reports the first failure. */
  lemma {:induction false} EncodeAllOutcome<P>(images: seq<RawImage<P>>, encode: Canonical<P> -> Result<string, string>)
    ensures EncodeAll(images, encode).Success? <==> forall k :: 0 <= k < |images| ==> ImageUrl(images[k], encode).Success?
    ensures EncodeAll(images, encode).Failure? ==> exists j :: FailsFirstAt(images, encode, j, EncodeAll(images, encode).error)
    decreases |images|
  {
    if images != [] {
      var init := images[..|images| - 1];
      var n := |images| - 1;
      EncodeAllOutcome(init, encode);
      assert forall k :: 0 <= k < n ==> init[k] == images[k];
      match EncodeAll(init, encode)
      case Failure(e) =>
        var j :| FailsFirstAt(init, encode, j, e);
        assert FailsFirstAt(images, encode, j, e);
      case Success(urls) =>
        if ImageUrl(images[n], encode).Failure? {
          assert FailsFirstAt(images, encode, n, ImageUrl(images[n], encode).error);
        }
    }
  }

  /** Once a prefix of the images raises, the whole loop raises the same exception. */
  lemma {:induction false} EncodeAllFailurePersists<P>(images: seq<RawImage<P>>, encode: Canonical<P> -> Result<string, string>, n: nat)
    requires n <= |images| && EncodeAll(images[..n], encode).Failure?
    ensures EncodeAll(images, encode) == EncodeAll(images[..n], encode)
    decreases |images|
  {
    if n < |images| {
      var init := images[..|images| - 1];
      assert init[..n] == images[..n];
      EncodeAllFailurePersists(init, encode, n);
    } else {
      assert images[..n] == images;
    }
  }

  /** The loop of lines 115-143: converts the images in order and stops at the first exception. */
  method EncodeImages<P>(images: seq<RawImage<P>>, encode: Canonical<P> -> Result<string, string>)
    returns (r: Result<seq<string>, ProcessError>)
    ensures r == EncodeAll(images, encode)
  {
    var urls: seq<string> := [];
    for i := 0 to |images|
      invariant EncodeAll(images[..i], encode) == Success(urls)
    {
      assert images[..i + 1][..i] == images[..i];
      var url := ImageUrl(images[i], encode);
      if url.Failure? {
        EncodeAllFailurePersists(images, encode, i + 1);
        return Failure(url.error);
      }
      urls := urls + [url.value];
    }
    assert images[..|images|] == images;
    return Success(urls);
  }

  // ---------------------------------------------------------------------
  // Request assembly (lines 148-170)

  /** The content list: the prompt as a text part, then one image part per URI, in order. */
  predicate IsContentFor(parts: seq<Part>, prompt: string, urls: seq<string>) {
    && |parts| == 1 + |urls|
    && parts[0] == TextPart(prompt)
    && forall k :: 0 <= k < |urls| ==> parts[k + 1] == ImageUrlPart(urls[k])
  }

  /** Lines 153-155. */
  method BuildContent(prompt: string, urls: seq<string>) returns (parts: seq<Part>)
    ensures IsContentFor(parts, prompt, urls)
  {
    parts := [TextPart(prompt)];
    for i := 0 to |urls|
      invariant |parts| == 1 + i && parts[0] == TextPart(prompt)
      invariant forall k :: 0 <= k < i ==> parts[k + 1] == ImageUrlPart(urls[k])
    {
      parts := parts + [ImageUrlPart(urls[i])];
    }
  }

  function Headers(apiKey: string): (hs: seq<Header>)
    ensures forall i :: 0 <= i < |hs| && hs[i].name == "Authorization" ==> hs[i].value == "Bearer " + apiKey
    ensures Header("Authorization", "Bearer " + apiKey) in hs
    ensures Header("Content-Type", "application/json") in hs
  {
    [Header("Authorization", "Bearer " + apiKey), Header("Content-Type", "application/json")]
  }

  /** `post` is the request `process` sends for these arguments and image URIs. */
  predicate IsRequestFor(post: Post, modelName: string, prompt: string, urls: seq<string>, apiKey: string,
                         temperature: real, maximumTokens: int, topP: real)
  {
    && post.url == Endpoint
    && post.headers == Headers(apiKey)
    && post.body.model == modelName
    && post.body.temperature == temperature
    && post.body.maxTokens == maximumTokens
    && post.body.topP == topP
    && |post.body.messages| == 1
    && post.body.messages[0].role == "user"
    && IsContentFor(post.body.messages[0].content, prompt, urls)
  }

  // ---------------------------------------------------------------------
  // The result policy (lines 175-187)

  /** Lines 175-182, with a failed round trip or an unreadable reply counted as the exception it raises. */
  function Reply(sent: Result<Response, string>): (o: Outcome)
    ensures o.Completed? <==> sent.Success? && sent.value.status == StatusOk && sent.value.content.Success?
    ensures o.ApiError? <==> sent.Success? && sent.value.status != StatusOk
    ensures o.Completed? ==> o.text == sent.value.content.value
    ensures o.ApiError? ==> o.status == sent.value.status && o.body == sent.value.text
    ensures o.Raised? ==> o.error.TransportFailed? || o.error.ResponseUnreadable?
  {
    match sent
    case Failure(m) => Raised(TransportFailed(m))
    case Success(resp) =>
      if resp.status == StatusOk then
        match resp.content
        case Success(t) => Completed(t)
        case Failure(m) => Raised(ResponseUnreadable(m))
      else ApiError(resp.status, resp.text)
  }

  /** `str(e)` of each caught exception. */
  function ErrorText(e: ProcessError): (t: string)
    ensures e.EncodeFailed? || e.TransportFailed? || e.ResponseUnreadable? ==> t == e.reason
    ensures e.TooManyImages? ==> t == MultiImages.CombineErrorMessage(MultiImages.TooMany(e.count))
    ensures e.ShapeFailed? ==> t == ShapeErrorMessage(e.shapeError)
  {
    match e
    case ShapeFailed(se) => ShapeErrorMessage(se)
    case EncodeFailed(m) => m
    case TooManyImages(n) => MultiImages.TooManyImagesMessage(n)
    case TransportFailed(m) => m
    case ResponseUnreadable(m) => m
  }

  /** The one string `process` returns for each outcome. */
  function Render(o: Outcome): (out: string)
    ensures o.ApiError? ==> |out| > |ApiErrorPrefix| && out[..|ApiErrorPrefix|] == ApiErrorPrefix
    ensures o.Raised? ==>
      |out| >= |ExceptionPrefix| && out[..|ExceptionPrefix|] == ExceptionPrefix && out[|ExceptionPrefix|..] == ErrorText(o.error)
    ensures o.Completed? ==> out == o.text
  {
    match o
    case Completed(t) => t
    case ApiError(code, body) => ApiErrorPrefix + Text.NatToString(code) + ", " + body
    case Raised(e) => ExceptionPrefix + ErrorText(e)
  }

  /**
   * The node's `process`. It never raises: it returns the string and, for
   * the model, the POST it issued, which is `None` whenever an image fails
   * or there are more than 30 of them. The count is checked only after every
   * image has been converted, so a conversion error wins over the count.
   */
  method Process<P>(modelName: string, prompt: string, images: seq<RawImage<P>>, apiKey: string,
                    temperature: real, maximumTokens: int, topP: real,
                    encode: Canonical<P> -> Result<string, string>,
                    send: Post -> Result<Response, string>)
    returns (output: string, posted: Option<Post>)
    ensures EncodeAll(images, encode).Failure? ==>
      posted == None && output == Render(Raised(EncodeAll(images, encode).error))
    ensures EncodeAll(images, encode).Success? && |images| > MultiImages.MaxImages ==>
      posted == None && output == Render(Raised(TooManyImages(|images|)))
    ensures EncodeAll(images, encode).Success? && |images| <= MultiImages.MaxImages ==>
      && posted.Some?
      && IsRequestFor(posted.value, modelName, prompt, EncodeAll(images, encode).value, apiKey, temperature, maximumTokens, topP)
      && output == Render(Reply(send(posted.value)))
  {
    var encoded := EncodeImages(images, encode);
    if encoded.Failure? {
      return Render(Raised(encoded.error)), None;
    }
    var urls := encoded.value;
    if |urls| > MultiImages.MaxImages {
      return Render(Raised(TooManyImages(|urls|))), None;
    }
    var content := BuildContent(prompt, urls);
    var request := ChatRequest(modelName, [Message("user", content)], temperature, maximumTokens, topP);
    var post := Post(Endpoint, Headers(apiKey), request);
    var response := send(post);
    output := Render(Reply(response));
    posted := Some(post);
  }

  // ---------------------------------------------------------------------
  // Properties of the result policy

  /** A 200 reply returns exactly the first choice's content; every kind of failure is marked by its prefix. */
  lemma ResultPolicy(sent: Result<Response, string>)
    ensures sent.Success? && sent.value.status == StatusOk && sent.value.content.Success? ==>
      Render(Reply(sent)) == sent.value.content.value
    ensures sent.Success? && sent.value.status != StatusOk ==>
      Render(Reply(sent)) == ApiErrorPrefix + Text.NatToString(sent.value.status) + ", " + sent.value.text
    ensures sent.Failure? ==> Render(Reply(sent)) == ExceptionPrefix + sent.error
    ensures sent.Success? && sent.value.status == StatusOk && sent.value.content.Failure? ==>
      Render(Reply(sent)) == ExceptionPrefix + sent.value.content.error
  {
  }

  /** More than 30 images: the message names the limit 30 and the count. */
  lemma TooManyMentionsLimit(n: nat)
    ensures Text.Contains(Render(Raised(TooManyImages(n))), "30")
    ensures Text.Contains(Render(Raised(TooManyImages(n))), Text.NatToString(n))
  {
    var m := Render(Raised(TooManyImages(n)));
    var before := ExceptionPrefix + "Pixtral Large supports up to ";
    var lead := ExceptionPrefix + "Pixtral Large supports up to 30 images. ";
    var d := Text.NatToString(n);
    assert m == before + "30" + " images. " + d + " provided.";
    assert m[|before|..|before| + 2] == "30";
    assert Text.OccursAt(m, "30", |before|);
    assert m == lead + d + " provided.";
    assert m[|lead|..|lead| + |d|] == d;
    assert Text.OccursAt(m, d, |lead|);
  }

  /** Reads an "API Error: <code>, <body>" string back into its status code and body. */
  function ParseApiError(s: string): Option<(nat, string)> {
    if |s| < |ApiErrorPrefix| || s[..|ApiErrorPrefix|] != ApiErrorPrefix then None
    else
      var t := s[|ApiErrorPrefix|..];
      var n := Text.LeadingDigits(t);
      if n == 0 || |t| < n + 2 || t[n..n + 2] != ", " then None
      else
        assert Text.AllDigits(t[..n]) by { Text.LeadingDigitsAreDigits(t); }
        Some((Text.DigitsValue(t[..n]), t[n + 2..]))
  }

  /** An API error string loses nothing: its status code and body can be read back from it. */
  lemma ApiErrorRoundTrip(code: nat, body: string)
    ensures ParseApiError(Render(ApiError(code, body))) == Some((code, body))
  {
    var s := Render(ApiError(code, body));
    var d := Text.NatToString(code);
    var t := d + ", " + body;
    assert s == ApiErrorPrefix + t;
    assert s[|ApiErrorPrefix|..] == t;
    assert t == d + (", " + body);
    Text.LeadingDigitsOf(d, ", " + body);
    assert t[..|d|] == d;
    assert t[|d|..|d| + 2] == ", ";
    assert t[|d| + 2..] == body;
    Text.DigitsValueOfNatToString(code);
  }
}
