/** weco/client.py: the WecoAI client's input validation, request assembly, response
    unwrapping and batch pairing. The network, the filesystem and PIL enter through a World. */
module Client {
  import opened Wrappers
  import opened Errors
  import opened PyStrings
  import opened PyValues
  import opened Traverse
  import opened Utils

  /** The values of weco/constants.py, which is not part of this model, taken as parameters. */
  datatype Limits = Limits(
    maxTextLength: nat,
    maxImageUploads: nat,
    maxImageSizeMb: real,
    supportedExtensions: set<string>)

  /** What `requests.get(image)` and `raise_for_status()` produced while validating a URL image:
      a failure (an error status or a transport exception), or the content-type header. */
  datatype Fetch = FetchFailed | Fetched(contentType: Option<string>)

  /** What probing one image string observes. */
  datatype ImageFacts = ImageFacts(
    scheme: Option<string>,  // urlparse(image).scheme; None where urlparse raises
    head: HeadProbe,         // requests.head(image)
    get: Fetch,              // requests.get(image) followed by raise_for_status()
    isLocal: bool,           // is_local_image(image): the file exists and PIL opens it
    size: Option<real>)      // the MB figure get_image_size measures; None where reading fails

  /** The metadata record `_validate_query` returns per image. */
  datatype ImageInfo = ImageInfo(image: string, fileType: string, size: real, source: string)

  /** A POST as `_make_request` forms it. */
  datatype Request = Request(url: string, headers: map<string, string>, body: Json)

  /** Everything outside the process that the client consults. */
  datatype World = World(
    facts: string -> ImageFacts,                    // probing an image string during validation
    decode: string -> Option<PilImage>,            // _upload_image: reading the bytes and Image.open
    encode: (PilImage, string) -> bool,            // processed_img.save(upload_data, format=file_type) succeeded
    post: Request -> Option<Object>,               // a POST and response.json(); None where either raises
    put: (string, string, PilImage) -> bool)       // the presigned PUT (url, content type, image) succeeded

  /** The warnings `_process_response` emitted and what it returned or raised. */
  datatype Processed = Processed(warned: seq<Json>, result: Result<Object, Error>)

  /** batch_query's `fn_names`: one name for every input, or one name per input. */
  datatype NameArg = OneName(name: string) | NameList(names: seq<string>)

  /** One entry of `batch_inputs`: the `text_input` and `images_input` keywords it supplies. */
  datatype BatchInput = BatchInput(text: Option<PyValue>, images: Option<PyValue>)

  const ApiKeyVariable := "WECO_API_KEY"
  const BaseUrl := "https://function.api.weco.ai"

  /** The keys `_process_response` reads, in the order it reads them. */
  const ResponseKeys: seq<string> := ["response", "num_input_tokens", "num_output_tokens", "latency_ms"]

  /** The keys of the dictionary `_process_response` returns. */
  const ResultKeys: set<string> := {"output", "in_tokens", "out_tokens", "latency_ms"}

  // ---------------------------------------------------------------------------
  // __init__ and _headers

  /** The key passed to the constructor if it is a string, else the environment variable. */
  function ResolveApiKey(arg: PyValue, env: map<string, string>): (r: Result<string, Error>)
    ensures r.Ok? <==> arg.PyStr? || ApiKeyVariable in env
    ensures arg.PyStr? ==> r == Ok(arg.s)
    ensures !arg.PyStr? && ApiKeyVariable in env ==> r == Ok(env[ApiKeyVariable])
    ensures r.Err? ==> r.error == MissingApiKey
  {
    if arg.PyStr? then Ok(arg.s)
    else if ApiKeyVariable in env then Ok(env[ApiKeyVariable])
    else Err(MissingApiKey)
  }

  /** The token of a bearer authorization header. */
  function BearerToken(header: string): Option<string>
  {
    if "Bearer " <= header then Some(header[7..]) else None
  }

  // ---------------------------------------------------------------------------
  // _validate_query, one image

  /** `t.split("/")[1]`, or None where Python raises IndexError. */
  function MediaSubtype(t: string): (r: Option<string>)
    ensures r.Some? <==> '/' in t
  {
    SecondPiece(t, '/')
  }

  /** `os.path.splitext(image)[1][1:]`: the extension without its dot. */
  function LocalFileType(path: string): (r: string)
    ensures '.' !in r && '/' !in r
  {
    var ext := SplitExt(path).1;
    assert ext != [] ==> ext[1..] == DropFirst(ext);
    DropFirst(ext)
  }

  /** The file type of a local path is its extension without the dot; a path without an
      extension has the empty file type. */
  lemma LocalFileTypeOf(root: string, ext: string)
    requires '.' !in ext && '/' !in ext && StemBefore(root, |root|)
    ensures LocalFileType(root + "." + ext) == ext
  {
    SplitExtOf(root, ext);
  }

  lemma LocalFileTypeNone(path: string)
    requires !StemBefore(path, RFind(path, '.'))
    ensures LocalFileType(path) == ""
  {
    SplitExtCases(path);
  }

  /** `response.headers["content-type"].split("/")[1]`, None where that raises. */
  function UrlFileType(f: Fetch): (r: Option<string>)
    requires f.Fetched?
    ensures r.Some? <==> f.contentType.Some? && '/' in f.contentType.value
  {
    if f.contentType.None? then None else MediaSubtype(f.contentType.value)
  }

  /** The classification half of `_validate_query`'s per-image steps: the raw file type and the
      source. The three classifiers run in turn and each one that matches overwrites the file
      type, so the last match decides it, while the source goes to the first match. */
  function Classify(image: string, f: ImageFacts): (r: Result<(string, string), Error>)
    ensures r.Ok? ==> IsSource(r.value.1)
    ensures r.Err? ==> r.error in {InvalidBase64Image, RequestFailed, InvalidImageUrl, InvalidImageSource}
  {
    var b64 := ParseDataUri(image);
    if b64.Some? && MediaSubtype(b64.value.mediaType).None? then Err(InvalidBase64Image)
    else
      var isUrl := IsPublicUrlImage(f.scheme, f.head);
      if isUrl && f.get.FetchFailed? then Err(RequestFailed)
      else if isUrl && UrlFileType(f.get).None? then Err(InvalidImageUrl)
      else if !(b64.Some? || isUrl || f.isLocal) then Err(InvalidImageSource)
      else
        var rawType :=
          if f.isLocal then LocalFileType(image)
          else if isUrl then UrlFileType(f.get).value
          else MediaSubtype(b64.value.mediaType).value;
        var source := if b64.Some? then SourceBase64 else if isUrl then SourceUrl else SourceLocal;
        Ok((rawType, source))
  }

  /** The admission half: lower-case the file type, check it against the allow-list, measure
      the image and check the size ceiling. */
  function Admit(limits: Limits, image: string, rawType: string, source: string, measured: Option<real>): (r: Result<ImageInfo, Error>)
    requires IsSource(source)
    ensures r.Ok? ==> r.value.image == image && r.value.source == source
    ensures r.Ok? ==> r.value.fileType == Lower(rawType) && r.value.fileType in limits.supportedExtensions
    ensures r.Ok? ==> r.value.size <= limits.maxImageSizeMb
    ensures Lower(rawType) !in limits.supportedExtensions ==> r == Err(UnsupportedFileType(Lower(rawType)))
  {
    var fileType := Lower(rawType);
    if fileType !in limits.supportedExtensions then Err(UnsupportedFileType(fileType))
    else match GetImageSize(source, measured)
      case Err(e) => Err(e)
      case Ok(size) =>
        if size > limits.maxImageSizeMb then Err(ImageTooLarge)
        else Ok(ImageInfo(image, fileType, size, source))
  }

  /** The per-image steps of `_validate_query`. */
  function CheckImage(limits: Limits, image: string, f: ImageFacts): (r: Result<ImageInfo, Error>)
    ensures r.Ok? ==> r.value.image == image && IsSource(r.value.source)
    ensures r.Ok? ==> IsLower(r.value.fileType) && r.value.fileType in limits.supportedExtensions
    ensures r.Ok? ==> r.value.size <= limits.maxImageSizeMb
    ensures r.Err? && r.error.UnsupportedFileType? ==> r.error.fileType !in limits.supportedExtensions
  {
    match Classify(image, f)
    case Err(e) => Err(e)
    case Ok(c) => Admit(limits, image, c.0, c.1, f.size)
  }

  /** Exactly when the classification succeeds: the data-URI media type, if any, has a '/';
      a URL image, if the probe accepts it, was fetched and has a content type with a '/';
      and at least one classifier matched. */
  lemma ClassifyAccepts(image: string, f: ImageFacts)
    ensures Classify(image, f).Ok? <==>
              (ParseDataUri(image).None? || '/' in ParseDataUri(image).value.mediaType) &&
              (IsPublicUrlImage(f.scheme, f.head) ==>
                 f.get.Fetched? && f.get.contentType.Some? && '/' in f.get.contentType.value) &&
              (ParseDataUri(image).Some? || IsPublicUrlImage(f.scheme, f.head) || f.isLocal)
  {
  }

  /** After a successful classification, the outcome is decided by the allow-list and the
      measured size alone; a size equal to the ceiling is accepted. */
  lemma CheckImageAdmission(limits: Limits, image: string, f: ImageFacts)
    ensures Classify(image, f).Err? ==> CheckImage(limits, image, f) == Err(Classify(image, f).error)
    ensures Classify(image, f).Ok? ==>
              var fileType := Lower(Classify(image, f).value.0);
              var source := Classify(image, f).value.1;
              var r := CheckImage(limits, image, f);
              (fileType !in limits.supportedExtensions ==> r == Err(UnsupportedFileType(fileType))) &&
              (fileType in limits.supportedExtensions && f.size.None? ==> r == Err(ImageReadFailed)) &&
              (fileType in limits.supportedExtensions && f.size.Some? && f.size.value > limits.maxImageSizeMb ==>
                 r == Err(ImageTooLarge)) &&
              (fileType in limits.supportedExtensions && f.size.Some? && f.size.value <= limits.maxImageSizeMb ==>
                 r == Ok(ImageInfo(image, fileType, f.size.value, source)))
  {
  }

  /** A URL image (not a data URI with a bad media type) whose GET fails is a request error;
      one whose content type is missing or has no '/' is an invalid URL. */
  lemma CheckImageUrlErrors(limits: Limits, image: string, f: ImageFacts)
    requires ParseDataUri(image).None? || '/' in ParseDataUri(image).value.mediaType
    requires IsPublicUrlImage(f.scheme, f.head)
    ensures f.get.FetchFailed? ==> CheckImage(limits, image, f) == Err(RequestFailed)
    ensures f.get.Fetched? && (f.get.contentType.None? || '/' !in f.get.contentType.value) ==>
              CheckImage(limits, image, f) == Err(InvalidImageUrl)
  {
  }

  /** A data URI whose media type has no '/' is rejected before any URL probe result is
      consulted; a string no classifier accepts is rejected as an invalid source. */
  lemma CheckImageSourceErrors(limits: Limits, image: string, f: ImageFacts)
    ensures ParseDataUri(image).Some? && MediaSubtype(ParseDataUri(image).value.mediaType).None? ==>
              CheckImage(limits, image, f) == Err(InvalidBase64Image)
    ensures ParseDataUri(image).None? && !IsPublicUrlImage(f.scheme, f.head) && !f.isLocal ==>
              CheckImage(limits, image, f) == Err(InvalidImageSource)
  {
  }

  /** Source precedence is base64, then url, then local; the file type comes from the last
      classifier that matched. */
  lemma CheckImagePrecedence(limits: Limits, image: string, f: ImageFacts)
    requires Classify(image, f).Ok?
    ensures var rawType := Classify(image, f).value.0;
            var source := Classify(image, f).value.1;
            var b64 := ParseDataUri(image).Some?;
            var url := IsPublicUrlImage(f.scheme, f.head);
            (source == SourceBase64 <==> b64) &&
            (source == SourceUrl <==> !b64 && url) &&
            (source == SourceLocal <==> !b64 && !url && f.isLocal) &&
            (f.isLocal ==> rawType == LocalFileType(image)) &&
            (!f.isLocal && url ==> rawType == UrlFileType(f.get).value) &&
            (!f.isLocal && !url ==> rawType == MediaSubtype(ParseDataUri(image).value.mediaType).value)
    ensures CheckImage(limits, image, f).Ok? ==>
              CheckImage(limits, image, f).value.source == Classify(image, f).value.1 &&
              CheckImage(limits, image, f).value.fileType == Lower(Classify(image, f).value.0)
  {
  }

  /** The subtype of "type/subtype" is the part after the slash. */
  lemma MediaSubtypeOf(kind: string, subtype: string)
    requires '/' !in kind && '/' !in subtype
    ensures MediaSubtype(kind + "/" + subtype) == Some(subtype)
  {
    SplitJoin([kind, subtype], '/');
    assert Join([kind, subtype], '/') == kind + "/" + subtype;
  }

  /** With more slashes, the subtype is still the piece between the first two. */
  lemma MediaSubtypeOfNested(kind: string, subtype: string, rest: string)
    requires '/' !in kind && '/' !in subtype
    ensures MediaSubtype(kind + "/" + subtype + "/" + rest) == Some(subtype)
  {
    var tail := Split(rest, '/');
    var inner := [subtype] + tail;
    var parts := [kind] + inner;
    JoinHead(subtype, tail, '/');
    JoinHead(kind, inner, '/');
    assert Join(parts, '/') == kind + "/" + (subtype + "/" + rest);
    assert kind + "/" + (subtype + "/" + rest) == kind + "/" + subtype + "/" + rest;
    assert forall i :: 0 <= i < |parts| ==> '/' !in parts[i] by {
      forall i | 0 <= i < |parts| ensures '/' !in parts[i] {
        if i >= 2 { assert parts[i] == tail[i - 2]; }
      }
    }
    SplitJoin(parts, '/');
  }


  /** A data URI that also passes the URL probe keeps source "base64", yet the file type that
      is checked and recorded is the one the URL's content type announces. This is the
      precedence logic under an arbitrary probe result: the stock `requests` has no adapter for
      `data:` and raises, so with it `is_public_url_image` is false for every data URI. */
  lemma DataUriAlsoUrl(limits: Limits, d: DataUri, f: ImageFacts)
    requires WellFormed(d) && '/' in d.mediaType
    requires IsPublicUrlImage(f.scheme, f.head) && !f.isLocal && f.get.Fetched? && UrlFileType(f.get).Some?
    ensures var r := CheckImage(limits, Render(d), f);
            var fileType := Lower(UrlFileType(f.get).value);
            (fileType !in limits.supportedExtensions ==> r == Err(UnsupportedFileType(fileType))) &&
            (r.Ok? ==> r.value.source == SourceBase64 && r.value.fileType == fileType)
  {
    ParseRenderRoundTrip(d);
    ClassifyDataUriAndUrl(Render(d), f);
  }

  lemma ClassifyDataUriAndUrl(image: string, f: ImageFacts)
    requires ParseDataUri(image).Some? && '/' in ParseDataUri(image).value.mediaType
    requires IsPublicUrlImage(f.scheme, f.head) && !f.isLocal && f.get.Fetched? && UrlFileType(f.get).Some?
    ensures Classify(image, f) == Ok((UrlFileType(f.get).value, SourceBase64))
  {
    assert MediaSubtype(ParseDataUri(image).value.mediaType).Some?;
  }

  // ---------------------------------------------------------------------------
  // _validate_query, the whole call

  predicate AllStrings(items: seq<PyValue>)
  {
    forall i :: 0 <= i < |items| ==> items[i].PyStr?
  }

  function Strings(items: seq<PyValue>): (r: seq<string>)
    requires AllStrings(items)
    ensures |r| == |items| && forall i :: 0 <= i < |items| ==> r[i] == items[i].s
  {
    seq(|items|, i requires 0 <= i < |items| => items[i].s)
  }

  function Checker(limits: Limits, facts: string -> ImageFacts): string -> Result<ImageInfo, Error>
  {
    image => CheckImage(limits, image, facts(image))
  }

  /** What `_validate_query` returns or raises, its checks in the order the source runs them. */
  function ValidateQuerySpec(limits: Limits, text: PyValue, images: PyValue, facts: string -> ImageFacts): (r: Result<seq<ImageInfo>, Error>)
    ensures r.Ok? ==> text.PyStr? && images.PyList? && AllStrings(images.items)
  {
    if !text.PyStr? || !images.PyList? then Err(InvalidInputTypes)
    else if !AllStrings(images.items) then Err(ImagesNotStrings)
    else
      var imgs := Strings(images.items);
      if |text.s| == 0 && |imgs| == 0 then Err(MissingInput)
      else if |text.s| > limits.maxTextLength then Err(TextTooLong)
      else if |imgs| > limits.maxImageUploads then Err(TooManyImages)
      else MapUntilError(imgs, Checker(limits, facts))
  }

  /** The type checks come first: a text that is not a string, an images argument that is not a
      list, or a list holding a non-string, is rejected whatever else holds. */
  lemma ValidateQueryTypeErrors(limits: Limits, text: PyValue, images: PyValue, facts: string -> ImageFacts)
    ensures !text.PyStr? || !images.PyList? ==> ValidateQuerySpec(limits, text, images, facts) == Err(InvalidInputTypes)
    ensures text.PyStr? && images.PyList? && (exists i :: 0 <= i < |images.items| && !images.items[i].PyStr?) ==>
              ValidateQuerySpec(limits, text, images, facts) == Err(ImagesNotStrings)
    ensures text == PyStr("") && images == PyList([]) ==> ValidateQuerySpec(limits, text, images, facts) == Err(MissingInput)
  {
  }

  /** The text ceiling is inclusive: a text of exactly the ceiling passes the text check,
      one character more is rejected. */
  lemma TextCeilingInclusive(limits: Limits, text: string, images: seq<PyValue>, facts: string -> ImageFacts)
    requires AllStrings(images) && (|text| > 0 || |images| > 0)
    ensures |text| > limits.maxTextLength ==> ValidateQuerySpec(limits, PyStr(text), PyList(images), facts) == Err(TextTooLong)
    ensures |text| == limits.maxTextLength && images == [] ==>
              ValidateQuerySpec(limits, PyStr(text), PyList(images), facts) == Ok([])
  {
    if |text| == limits.maxTextLength && images == [] {
      assert Strings(images) == [];
    }
  }

  /** Too many images is rejected before any image is classified or measured: the result does
      not depend on what probing the images would observe. Exactly the ceiling is let through
      to the per-image checks. */
  lemma ImageCountCheckedFirst(limits: Limits, text: string, images: seq<PyValue>, facts: string -> ImageFacts)
    requires AllStrings(images) && |text| <= limits.maxTextLength
    ensures |images| > limits.maxImageUploads ==>
              ValidateQuerySpec(limits, PyStr(text), PyList(images), facts) == Err(TooManyImages)
    ensures 0 < |images| == limits.maxImageUploads ==>
              ValidateQuerySpec(limits, PyStr(text), PyList(images), facts) == MapUntilError(Strings(images), Checker(limits, facts))
  {
  }

  /** On success there is one record per image, in input order, each keeping the image string,
      with a lower-case supported file type, a size within the ceiling and a known source. */
  lemma {:induction false} ValidateQuerySuccess(limits: Limits, text: PyValue, images: PyValue, facts: string -> ImageFacts)
    requires ValidateQuerySpec(limits, text, images, facts).Ok?
    ensures var infos := ValidateQuerySpec(limits, text, images, facts).value;
            |infos| == |images.items| &&
            forall i :: 0 <= i < |infos| ==>
              infos[i].image == images.items[i].s &&
              IsLower(infos[i].fileType) && infos[i].fileType in limits.supportedExtensions &&
              infos[i].size <= limits.maxImageSizeMb && IsSource(infos[i].source)
  {
    var imgs := Strings(images.items);
    var infos := ValidateQuerySpec(limits, text, images, facts).value;
    assert MapUntilError(imgs, Checker(limits, facts)) == Ok(infos);
    forall i | 0 <= i < |infos|
      ensures infos[i].image == images.items[i].s && IsLower(infos[i].fileType)
      ensures infos[i].fileType in limits.supportedExtensions
      ensures infos[i].size <= limits.maxImageSizeMb && IsSource(infos[i].source)
    {
      assert CheckImage(limits, imgs[i], facts(imgs[i])) == Ok(infos[i]);
    }
  }

  /** An image error is the error of the first image that fails; the images before it pass. */
  lemma ValidateQueryFirstFailure(limits: Limits, text: string, images: seq<PyValue>, facts: string -> ImageFacts)
    requires AllStrings(images) && (|text| > 0 || |images| > 0)
    requires |text| <= limits.maxTextLength && |images| <= limits.maxImageUploads
    requires ValidateQuerySpec(limits, PyStr(text), PyList(images), facts).Err?
    ensures var e := ValidateQuerySpec(limits, PyStr(text), PyList(images), facts).error;
            exists i :: 0 <= i < |images| &&
              CheckImage(limits, images[i].s, facts(images[i].s)) == Err(e) &&
              forall j :: 0 <= j < i ==> CheckImage(limits, images[j].s, facts(images[j].s)).Ok?
  {
    var imgs := Strings(images);
    var r := MapUntilError(imgs, Checker(limits, facts));
    var i :| 0 <= i < |imgs| && Checker(limits, facts)(imgs[i]) == Err(r.error) &&
             forall j :: 0 <= j < i ==> Checker(limits, facts)(imgs[j]).Ok?;
    assert CheckImage(limits, images[i].s, facts(images[i].s)) == Err(r.error);
    assert forall j :: 0 <= j < i ==> CheckImage(limits, images[j].s, facts(images[j].s)).Ok? by {
      forall j | 0 <= j < i ensures CheckImage(limits, images[j].s, facts(images[j].s)).Ok? {
        assert Checker(limits, facts)(imgs[j]).Ok?;
      }
    }
  }

  // ---------------------------------------------------------------------------
  // _process_response and _build

  /** The dictionary `_process_response` returns, or the KeyError of the first key it misses. */
  function Unwrap(response: Object): (r: Result<Object, Error>)
    ensures r.Ok? <==> forall i :: 0 <= i < |ResponseKeys| ==> ResponseKeys[i] in response
    ensures r.Ok? ==> "response" in response && "num_input_tokens" in response &&
                      "num_output_tokens" in response && "latency_ms" in response
    ensures r.Ok? ==> r.value.Keys == ResultKeys
    ensures r.Ok? ==> r.value["output"] == response["response"] && r.value["in_tokens"] == response["num_input_tokens"] &&
                      r.value["out_tokens"] == response["num_output_tokens"] && r.value["latency_ms"] == response["latency_ms"]
    ensures r.Err? ==> exists i :: 0 <= i < |ResponseKeys| && ResponseKeys[i] !in response &&
                        r.error == MissingKey(ResponseKeys[i]) &&
                        forall j :: 0 <= j < i ==> ResponseKeys[j] in response
  {
    if "response" !in response then
      assert ResponseKeys[0] == "response";
      Err(MissingKey("response"))
    else if "num_input_tokens" !in response then
      assert ResponseKeys[1] == "num_input_tokens";
      Err(MissingKey("num_input_tokens"))
    else if "num_output_tokens" !in response then
      assert ResponseKeys[2] == "num_output_tokens";
      Err(MissingKey("num_output_tokens"))
    else if "latency_ms" !in response then
      assert ResponseKeys[3] == "latency_ms";
      Err(MissingKey("latency_ms"))
    else Ok(map["output" := response["response"], "in_tokens" := response["num_input_tokens"],
                "out_tokens" := response["num_output_tokens"], "latency_ms" := response["latency_ms"]])
  }

  /** The entries of the response's "warnings", or the TypeError of iterating a non-iterable. */
  function WarningItems(response: Object): (r: Result<seq<Json>, Error>)
    ensures "warnings" !in response ==> r == Ok([])
    ensures "warnings" in response && response["warnings"].JArray? ==> r == Ok(response["warnings"].items)
  {
    Iterate(Get(response, "warnings", JArray([])))
  }

  /** `_process_response`: one warning per entry of "warnings", in order, then the four fields. */
  function ProcessSpec(response: Object): (p: Processed)
    ensures WarningItems(response).Ok? ==> p.warned == WarningItems(response).value && p.result == Unwrap(response)
    ensures WarningItems(response).Err? ==> p.warned == [] && p.result == Err(NotIterable)
  {
    match WarningItems(response)
    case Err(e) => Processed([], Err(e))
    case Ok(items) => Processed(items, Unwrap(response))
  }

  /** `_build`'s validation of the task description, and the body it posts. */
  function BuildBody(limits: Limits, taskDescription: string): (r: Result<Json, Error>)
    ensures |taskDescription| == 0 ==> r == Err(EmptyTaskDescription)
    ensures |taskDescription| > limits.maxTextLength ==> r == Err(TaskDescriptionTooLong)
    ensures r.Ok? <==> 0 < |taskDescription| <= limits.maxTextLength
    ensures r.Ok? ==> r.value.JObject? && Keys(r.value.entries) == ["request"] &&
                      Lookup(r.value.entries, "request") == Some(JString(taskDescription))
  {
    if |taskDescription| == 0 then Err(EmptyTaskDescription)
    else if |taskDescription| > limits.maxTextLength then Err(TaskDescriptionTooLong)
    else Ok(JObject([("request", JString(taskDescription))]))
  }

  /** `_build`'s return shape: `(response["name"], response["description"])`. */
  function BuildResult(response: Object): (r: Result<(Json, Json), Error>)
    ensures r.Ok? <==> "name" in response && "description" in response
    ensures r.Ok? ==> r.value == (response["name"], response["description"])
    ensures "name" !in response ==> r == Err(MissingKey("name"))
    ensures "name" in response && "description" !in response ==> r == Err(MissingKey("description"))
  {
    if "name" !in response then Err(MissingKey("name"))
    else if "description" !in response then Err(MissingKey("description"))
    else Ok((response["name"], response["description"]))
  }

  // ---------------------------------------------------------------------------
  // _query's body and batch_query's names

  function ImageList(urls: seq<string>): (r: seq<Json>)
    ensures |r| == |urls| && forall i :: 0 <= i < |urls| ==> r[i] == JString(urls[i])
  {
    seq(|urls|, i requires 0 <= i < |urls| => JString(urls[i]))
  }

  /** `{"file_type": file_type}`, the body of the presigned-link request. */
  function UploadLinkBody(fileType: string): (r: Json)
    ensures r.JObject? && Keys(r.entries) == ["file_type"]
    ensures r.JObject? && Lookup(r.entries, "file_type") == Some(JString(fileType))
  {
    JObject([("file_type", JString(fileType))])
  }

  /** `{"name": fn_name, "text": text_input, "images": image_urls}`. */
  function QueryBody(fnName: string, text: string, urls: seq<string>): (r: Json)
    ensures r.JObject? && Keys(r.entries) == ["name", "text", "images"]
  {
    JObject([("name", JString(fnName)), ("text", JString(text)), ("images", JArray(ImageList(urls)))])
  }

  lemma QueryBodyFields(fnName: string, text: string, urls: seq<string>)
    ensures var b := QueryBody(fnName, text, urls);
            b.JObject? && Keys(b.entries) == ["name", "text", "images"] &&
            Lookup(b.entries, "name") == Some(JString(fnName)) &&
            Lookup(b.entries, "text") == Some(JString(text)) &&
            Lookup(b.entries, "images") == Some(JArray(ImageList(urls)))
  {
    var entries := QueryBody(fnName, text, urls).entries;
    assert Keys(entries) == ["name", "text", "images"];
    assert entries[1..][1..] == [("images", JArray(ImageList(urls)))];
    assert Lookup(entries[1..], "images") == Lookup(entries[1..][1..], "images");
  }

  /** The name each input is queried with. */
  function ExpandNames(fnNames: NameArg, n: nat): (r: Result<seq<string>, Error>)
    ensures fnNames.OneName? ==> r.Ok? && |r.value| == n && forall i :: 0 <= i < n ==> r.value[i] == fnNames.name
    ensures fnNames.NameList? ==> (r.Ok? <==> |fnNames.names| == n)
    ensures fnNames.NameList? && r.Ok? ==> r.value == fnNames.names
    ensures r.Err? ==> r.error == NameCountMismatch
  {
    match fnNames
    case OneName(name) => Ok(seq(n, _ => name))
    case NameList(names) => if |names| != n then Err(NameCountMismatch) else Ok(names)
  }

  /** The arguments `aquery(fn_name, **fn_input)` receives, defaults filled in. */
  function TextArg(input: BatchInput): (r: PyValue)
    ensures input.text.None? ==> r == PyStr("")
    ensures input.text.Some? ==> r == input.text.value
  {
    if input.text.Some? then input.text.value else PyStr("")
  }

  function ImagesArg(input: BatchInput): (r: PyValue)
    ensures input.images.None? ==> r == PyList([])
    ensures input.images.Some? ==> r == input.images.value
  {
    if input.images.Some? then input.images.value else PyList([])
  }

  // ---------------------------------------------------------------------------
  // The client object

  class WecoAI {
    const apiKey: string
    const baseUrl: string
    const limits: Limits

    /** `__init__` once the key is resolved (ResolveApiKey); the HTTP clients are not modelled. */
    constructor (apiKey: string, limits: Limits)
      ensures this.apiKey == apiKey && this.baseUrl == BaseUrl && this.limits == limits
    {
      this.apiKey := apiKey;
      this.baseUrl := BaseUrl;
      this.limits := limits;
    }

    /** `_headers`: the bearer token and the JSON content type. */
    function Headers(): (h: map<string, string>)
      ensures h.Keys == {"Authorization", "Content-Type"}
      ensures BearerToken(h["Authorization"]) == Some(apiKey)
      ensures h["Content-Type"] == "application/json"
    {
      var auth := "Bearer " + apiKey;
      assert "Bearer " <= auth && auth[7..] == apiKey;
      map["Authorization" := auth, "Content-Type" := "application/json"]
    }

    /** `f"{self.base_url}/{endpoint}"`. */
    function EndpointUrl(endpoint: string): (url: string)
      ensures baseUrl + "/" <= url && url[|baseUrl| + 1..] == endpoint
    {
      var url := baseUrl + "/" + endpoint;
      assert url == (baseUrl + "/") + endpoint;
      url
    }

    /** Distinct endpoints give distinct URLs. */
    lemma EndpointUrlInjective(a: string, b: string)
      requires EndpointUrl(a) == EndpointUrl(b)
      ensures a == b
    {
      assert a == EndpointUrl(a)[|baseUrl| + 1..];
    }

    /** The POST `_make_request` sends for an endpoint and a body. */
    function MakeRequest(endpoint: string, body: Json): (r: Request)
      ensures baseUrl + "/" <= r.url && r.url[|baseUrl| + 1..] == endpoint
      ensures r.headers.Keys == {"Authorization", "Content-Type"}
      ensures BearerToken(r.headers["Authorization"]) == Some(apiKey) && r.headers["Content-Type"] == "application/json"
      ensures r.body == body
    {
      Request(EndpointUrl(endpoint), Headers(), body)
    }

    /** `_upload_image`: dispatch on the source, decode, normalise, save in the file type, ask
        the service for a presigned link for the normalised file type, PUT the image there,
        return the link. */
    function UploadImage(info: ImageInfo, world: World): (r: Result<string, Error>)
      ensures !IsSource(info.source) ==> r == Err(InvalidImageInput)
      ensures IsSource(info.source) && r.Err? ==>
                r.error in {ImageReadFailed, ImageSaveFailed, RequestFailed, MissingKey("url")}
      ensures r.Ok? ==>
                IsSource(info.source) && world.decode(info.image).Some? &&
                var fileType := JpegAlias(info.fileType);
                var processed := PreprocessImage(world.decode(info.image).value, info.fileType).0;
                var answer := world.post(MakeRequest("upload_link", UploadLinkBody(fileType)));
                world.encode(processed, fileType) &&
                answer.Some? && "url" in answer.value && answer.value["url"] == JString(r.value) &&
                world.put(r.value, "image/" + fileType, processed) && !HasTransparency(processed)
    {
      if !IsSource(info.source) then Err(InvalidImageInput)
      else match world.decode(info.image)
        case None => Err(ImageReadFailed)
        case Some(img) =>
          var (processed, fileType) := PreprocessImage(img, info.fileType);
          if !world.encode(processed, fileType) then Err(ImageSaveFailed)
          else match world.post(MakeRequest("upload_link", UploadLinkBody(fileType)))
            case None => Err(RequestFailed)
            case Some(answer) =>
              if "url" !in answer then Err(MissingKey("url"))
              else if !answer["url"].JString? then Err(RequestFailed)
              else if !world.put(answer["url"].s, "image/" + fileType, processed) then Err(RequestFailed)
              else Ok(answer["url"].s)
    }

    /** Each step of an upload in turn: a failed read, a failed save (before anything is sent),
        a failed link request, a missing link, and otherwise the link, returned exactly when
        the PUT succeeds. */
    lemma UploadImageSteps(info: ImageInfo, world: World)
      requires IsSource(info.source)
      ensures world.decode(info.image).None? ==> UploadImage(info, world) == Err(ImageReadFailed)
      ensures world.decode(info.image).Some? ==>
                var fileType := JpegAlias(info.fileType);
                var processed := PreprocessImage(world.decode(info.image).value, info.fileType).0;
                var answer := world.post(MakeRequest("upload_link", UploadLinkBody(fileType)));
                var r := UploadImage(info, world);
                (!world.encode(processed, fileType) ==> r == Err(ImageSaveFailed)) &&
                (world.encode(processed, fileType) && answer.None? ==> r == Err(RequestFailed)) &&
                (world.encode(processed, fileType) && answer.Some? && "url" !in answer.value ==>
                   r == Err(MissingKey("url"))) &&
                (world.encode(processed, fileType) && answer.Some? && "url" in answer.value &&
                 answer.value["url"].JString? ==>
                   (world.put(answer.value["url"].s, "image/" + fileType, processed) ==> r == Ok(answer.value["url"].s)) &&
                   (!world.put(answer.value["url"].s, "image/" + fileType, processed) ==> r == Err(RequestFailed)))
    {
    }

    /** One iteration of `_query`'s loop: URL images pass through, the others are uploaded. */
    function ImageUrl(index: nat, info: ImageInfo, world: World): (r: Result<string, Error>)
      ensures info.source == SourceUrl ==> r == Ok(info.image)
      ensures info.source == SourceBase64 || info.source == SourceLocal ==> r == UploadImage(info, world)
      ensures !IsSource(info.source) ==> r == Err(InvalidImageAtIndex(index))
    {
      if info.source == SourceUrl then Ok(info.image)
      else if info.source == SourceBase64 || info.source == SourceLocal then UploadImage(info, world)
      else Err(InvalidImageAtIndex(index))
    }

    function UrlFor(world: World): ((nat, ImageInfo)) -> Result<string, Error>
    {
      (p: (nat, ImageInfo)) => ImageUrl(p.0, p.1, world)
    }

    /** The `image_urls` list `_query` assembles. */
    function ImageUrls(infos: seq<ImageInfo>, world: World): (r: Result<seq<string>, Error>)
      ensures r.Ok? ==> |r.value| == |infos|
      ensures r.Err? ==> exists i :: 0 <= i < |infos| && ImageUrl(i, infos[i], world) == Err(r.error)
    {
      UrlsFailAt(infos, world);
      MapUntilError(Enumerate(infos), UrlFor(world))
    }

    lemma UrlsFailAt(infos: seq<ImageInfo>, world: World)
      ensures var r := MapUntilError(Enumerate(infos), UrlFor(world));
              r.Err? ==> exists i :: 0 <= i < |infos| && ImageUrl(i, infos[i], world) == Err(r.error)
    {
      var r := MapUntilError(Enumerate(infos), UrlFor(world));
      if r.Err? {
        var i :| 0 <= i < |infos| && UrlFor(world)(Enumerate(infos)[i]) == Err(r.error);
        assert Enumerate(infos)[i] == (i, infos[i]);
      }
    }

    /** `image_urls` has one entry per record, in order: a URL image's own string, or the link
        its upload returned. */
    lemma {:induction false} ImageUrlsAligned(infos: seq<ImageInfo>, world: World)
      requires ImageUrls(infos, world).Ok?
      ensures var urls := ImageUrls(infos, world).value;
              |urls| == |infos| &&
              forall i :: 0 <= i < |infos| ==>
                (infos[i].source == SourceUrl ==> urls[i] == infos[i].image) &&
                (infos[i].source != SourceUrl ==> UploadImage(infos[i], world) == Ok(urls[i]))
    {
      var urls := ImageUrls(infos, world).value;
      forall i | 0 <= i < |infos|
        ensures infos[i].source == SourceUrl ==> urls[i] == infos[i].image
        ensures infos[i].source != SourceUrl ==> UploadImage(infos[i], world) == Ok(urls[i])
      {
        assert Enumerate(infos)[i] == (i, infos[i]);
        assert UrlFor(world)(Enumerate(infos)[i]) == Ok(urls[i]);
      }
    }

    /** For validated records the two "invalid source" branches are unreachable. */
    lemma {:induction false} ImageUrlsOfValidated(infos: seq<ImageInfo>, world: World)
      requires forall i :: 0 <= i < |infos| ==> IsSource(infos[i].source)
      ensures ImageUrls(infos, world).Err? ==>
                !ImageUrls(infos, world).error.InvalidImageAtIndex? && ImageUrls(infos, world).error != InvalidImageInput
    {
      var r := ImageUrls(infos, world);
      if r.Err? {
        var i :| 0 <= i < |infos| && UrlFor(world)(Enumerate(infos)[i]) == Err(r.error);
        assert Enumerate(infos)[i] == (i, infos[i]);
        assert ImageUrl(i, infos[i], world) == Err(r.error);
        assert IsSource(infos[i].source) && infos[i].source != SourceUrl;
        assert UploadImage(infos[i], world) == Err(r.error);
      }
    }

    /** Everything `_query` does before the POST: validation, image URLs, the request. */
    function QueryRequest(fnName: string, text: PyValue, images: PyValue, world: World): (r: Result<Request, Error>)
      ensures ValidateQuerySpec(limits, text, images, world.facts).Err? ==>
                r == Err(ValidateQuerySpec(limits, text, images, world.facts).error)
      ensures r.Ok? ==> ValidateQuerySpec(limits, text, images, world.facts).Ok? && r.value.url == EndpointUrl("query")
      ensures ValidateQuerySpec(limits, text, images, world.facts).Ok? ==>
                var urls := ImageUrls(ValidateQuerySpec(limits, text, images, world.facts).value, world);
                (urls.Err? ==> r == Err(urls.error)) && (urls.Ok? ==> r.Ok?)
    {
      match ValidateQuerySpec(limits, text, images, world.facts)
      case Err(e) => Err(e)
      case Ok(infos) =>
        match ImageUrls(infos, world)
        case Err(e) => Err(e)
        case Ok(urls) => Ok(MakeRequest("query", QueryBody(fnName, text.s, urls)))
    }

    /** `_query`: what it warns and returns or raises. */
    function QuerySpec(fnName: string, text: PyValue, images: PyValue, world: World): (p: Processed)
      ensures QueryRequest(fnName, text, images, world).Err? ==>
                p == Processed([], Err(QueryRequest(fnName, text, images, world).error))
      ensures QueryRequest(fnName, text, images, world).Ok? &&
              world.post(QueryRequest(fnName, text, images, world).value).None? ==>
                p == Processed([], Err(RequestFailed))
      ensures QueryRequest(fnName, text, images, world).Ok? &&
              world.post(QueryRequest(fnName, text, images, world).value).Some? ==>
                p == ProcessSpec(world.post(QueryRequest(fnName, text, images, world).value).value)
      ensures p.result.Ok? ==> p.result.value.Keys == ResultKeys
    {
      match QueryRequest(fnName, text, images, world)
      case Err(e) => Processed([], Err(e))
      case Ok(request) =>
        match world.post(request)
        case None => Processed([], Err(RequestFailed))
        case Some(response) => ProcessSpec(response)
    }

    /** The query POST goes to the "query" endpoint with the caller's name and text and an image
        list as long as the validated one, in the same order. */
    lemma QueryRequestShape(fnName: string, text: PyValue, images: PyValue, world: World)
      requires QueryRequest(fnName, text, images, world).Ok?
      ensures var req := QueryRequest(fnName, text, images, world).value;
              var infos := ValidateQuerySpec(limits, text, images, world.facts).value;
              var urls := ImageUrls(infos, world).value;
              req.url == baseUrl + "/query" && BearerToken(req.headers["Authorization"]) == Some(apiKey) &&
              req.body == QueryBody(fnName, text.s, urls) &&
              |urls| == |images.items| &&
              forall i :: 0 <= i < |urls| ==>
                (infos[i].source == SourceUrl ==> urls[i] == images.items[i].s) &&
                (infos[i].source != SourceUrl ==> UploadImage(infos[i], world) == Ok(urls[i]))
    {
      var infos := ValidateQuerySpec(limits, text, images, world.facts).value;
      var urls := ImageUrls(infos, world).value;
      assert QueryRequest(fnName, text, images, world).value == MakeRequest("query", QueryBody(fnName, text.s, urls));
      ValidateQuerySuccess(limits, text, images, world.facts);
      ImageUrlsAligned(infos, world);
    }

    /** `_build`: validate, POST to "build", read the name and description. */
    function Build(taskDescription: string, world: World): (r: Result<(Json, Json), Error>)
      ensures |taskDescription| == 0 ==> r == Err(EmptyTaskDescription)
      ensures |taskDescription| > limits.maxTextLength ==> r == Err(TaskDescriptionTooLong)
      ensures r.Ok? ==>
                0 < |taskDescription| <= limits.maxTextLength &&
                var answer := world.post(MakeRequest("build", JObject([("request", JString(taskDescription))])));
                answer.Some? && r == BuildResult(answer.value)
      ensures 0 < |taskDescription| <= limits.maxTextLength ==>
                var answer := world.post(MakeRequest("build", JObject([("request", JString(taskDescription))])));
                (answer.None? ==> r == Err(RequestFailed)) && (answer.Some? ==> r == BuildResult(answer.value))
    {
      match BuildBody(limits, taskDescription)
      case Err(e) => Err(e)
      case Ok(body) =>
        match world.post(MakeRequest("build", body))
        case None => Err(RequestFailed)
        case Some(answer) => BuildResult(answer)
    }

    function QueryItem(world: World): ((string, BatchInput)) -> Result<Object, Error>
    {
      (p: (string, BatchInput)) => QuerySpec(p.0, TextArg(p.1), ImagesArg(p.1), world).result
    }

    /** `batch_query`: expand the names, pair them with the inputs, run every query. */
    function BatchQuery(fnNames: NameArg, inputs: seq<BatchInput>, world: World): (r: Result<seq<Object>, Error>)
      ensures fnNames.NameList? && |fnNames.names| != |inputs| ==> r == Err(NameCountMismatch)
      ensures r.Ok? ==> |r.value| == |inputs| && forall i :: 0 <= i < |r.value| ==> r.value[i].Keys == ResultKeys
    {
      match ExpandNames(fnNames, |inputs|)
      case Err(e) => Err(e)
      case Ok(names) => MapUntilError(Zip(names, inputs), QueryItem(world))
    }

    /** The name input i is queried with. */
    function NameAt(fnNames: NameArg, i: nat): string
      requires fnNames.NameList? ==> i < |fnNames.names|
    {
      if fnNames.OneName? then fnNames.name else fnNames.names[i]
    }

    /** Result i is the answer to (names[i], inputs[i]); a name list of the wrong length is
        rejected before anything is sent; otherwise a failure is the failure of some query. */
    lemma {:induction false} BatchQueryAligned(fnNames: NameArg, inputs: seq<BatchInput>, world: World)
      ensures fnNames.NameList? && |fnNames.names| != |inputs| ==> BatchQuery(fnNames, inputs, world) == Err(NameCountMismatch)
      ensures BatchQuery(fnNames, inputs, world).Ok? ==>
                var rs := BatchQuery(fnNames, inputs, world).value;
                |rs| == |inputs| &&
                forall i :: 0 <= i < |inputs| ==>
                  QuerySpec(NameAt(fnNames, i), TextArg(inputs[i]), ImagesArg(inputs[i]), world).result == Ok(rs[i])
      ensures BatchQuery(fnNames, inputs, world).Err? && BatchQuery(fnNames, inputs, world).error != NameCountMismatch ==>
                exists i :: 0 <= i < |inputs| &&
                  QuerySpec(NameAt(fnNames, i), TextArg(inputs[i]), ImagesArg(inputs[i]), world).result == Err(BatchQuery(fnNames, inputs, world).error)
      ensures (fnNames.NameList? ==> |fnNames.names| == |inputs|) && BatchQuery(fnNames, inputs, world).Err? ==>
                exists i :: 0 <= i < |inputs| &&
                  QuerySpec(NameAt(fnNames, i), TextArg(inputs[i]), ImagesArg(inputs[i]), world).result == Err(BatchQuery(fnNames, inputs, world).error)
      ensures (fnNames.NameList? ==> |fnNames.names| == |inputs|) &&
              (forall i :: 0 <= i < |inputs| ==> QuerySpec(NameAt(fnNames, i), TextArg(inputs[i]), ImagesArg(inputs[i]), world).result.Ok?) ==>
                BatchQuery(fnNames, inputs, world).Ok?
    {
      var expanded := ExpandNames(fnNames, |inputs|);
      if expanded.Ok? {
        var names := expanded.value;
        var pairs := Zip(names, inputs);
        var r := MapUntilError(pairs, QueryItem(world));
        forall i | 0 <= i < |inputs|
          ensures QueryItem(world)(pairs[i]) == QuerySpec(NameAt(fnNames, i), TextArg(inputs[i]), ImagesArg(inputs[i]), world).result
        {
          assert pairs[i] == (names[i], inputs[i]);
        }
        if r.Err? {
          var i :| 0 <= i < |pairs| && QueryItem(world)(pairs[i]) == Err(r.error);
          assert QuerySpec(NameAt(fnNames, i), TextArg(inputs[i]), ImagesArg(inputs[i]), world).result == Err(r.error);
        }
      }
    }

    // -------------------------------------------------------------------------
    // The imperative members: the loops of _validate_query, _query and _process_response

    /** The body of `_validate_query`'s loop for one image, with its early raises. */
    method ValidateImage(image: string, f: ImageFacts) returns (r: Result<ImageInfo, Error>)
      ensures r == CheckImage(limits, image, f)
    {
      var fileType: string := "";
      var isBase64, base64Info := IsBase64Image(image).0, IsBase64Image(image).1;
      if isBase64 {
        var subtype := MediaSubtype(base64Info.value.mediaType);
        if subtype.None? {
          return Err(InvalidBase64Image);
        }
        fileType := subtype.value;
      }
      var isPublicUrl := IsPublicUrlImage(f.scheme, f.head);
      if isPublicUrl {
        if f.get.FetchFailed? {
          return Err(RequestFailed);
        }
        var subtype := UrlFileType(f.get);
        if subtype.None? {
          return Err(InvalidImageUrl);
        }
        fileType := subtype.value;
      }
      var isLocal := f.isLocal;
      if isLocal {
        fileType := LocalFileType(image);
      }
      if !(isBase64 || isPublicUrl || isLocal) {
        return Err(InvalidImageSource);
      }
      var source: string;
      if isBase64 {
        source := SourceBase64;
      } else if isPublicUrl {
        source := SourceUrl;
      } else {
        source := SourceLocal;
      }
      fileType := Lower(fileType);
      if fileType !in limits.supportedExtensions {
        return Err(UnsupportedFileType(fileType));
      }
      var size := GetImageSize(source, f.size);
      if size.Err? {
        return Err(size.error);
      }
      if size.value > limits.maxImageSizeMb {
        return Err(ImageTooLarge);
      }
      r := Ok(ImageInfo(image, fileType, size.value, source));
    }

    /** `_validate_query`. */
    method ValidateQuery(text: PyValue, images: PyValue, facts: string -> ImageFacts) returns (r: Result<seq<ImageInfo>, Error>)
      ensures r == ValidateQuerySpec(limits, text, images, facts)
    {
      if !text.PyStr? || !images.PyList? {
        return Err(InvalidInputTypes);
      }
      var items := images.items;
      for i := 0 to |items|
        invariant AllStrings(items[..i])
      {
        if !items[i].PyStr? {
          return Err(ImagesNotStrings);
        }
      }
      assert items[..|items|] == items;
      var imgs := Strings(items);
      if |text.s| == 0 && |imgs| == 0 {
        return Err(MissingInput);
      }
      if |text.s| > limits.maxTextLength {
        return Err(TextTooLong);
      }
      if |imgs| > limits.maxImageUploads {
        return Err(TooManyImages);
      }
      r := ValidateImages(imgs, facts);
    }

    /** The second loop of `_validate_query`: one record per image, stopping at the first raise. */
    method ValidateImages(imgs: seq<string>, facts: string -> ImageFacts) returns (r: Result<seq<ImageInfo>, Error>)
      ensures r == MapUntilError(imgs, Checker(limits, facts))
    {
      var infos: seq<ImageInfo> := [];
      for k := 0 to |imgs|
        invariant MapUntilError(imgs[..k], Checker(limits, facts)) == Ok(infos)
      {
        var info := ValidateImage(imgs[k], facts(imgs[k]));
        assert info == Checker(limits, facts)(imgs[k]);
        MapUntilErrorExtend(imgs, Checker(limits, facts), k);
        if info.Err? {
          return Err(info.error);
        }
        infos := infos + [info.value];
      }
      assert imgs[..|imgs|] == imgs;
      r := Ok(infos);
    }

    /** `_query`'s loop building `image_urls`. */
    method BuildImageUrls(infos: seq<ImageInfo>, world: World) returns (r: Result<seq<string>, Error>)
      ensures r == ImageUrls(infos, world)
    {
      var urls: seq<string> := [];
      var pairs := Enumerate(infos);
      for i := 0 to |infos|
        invariant MapUntilError(pairs[..i], UrlFor(world)) == Ok(urls)
      {
        MapUntilErrorExtend(pairs, UrlFor(world), i);
        assert pairs[i] == (i, infos[i]);
        var url: string;
        var info := infos[i];
        if info.source == SourceUrl {
          url := info.image;
        } else if info.source == SourceBase64 || info.source == SourceLocal {
          var uploaded := UploadImage(info, world);
          if uploaded.Err? {
            return Err(uploaded.error);
          }
          url := uploaded.value;
        } else {
          return Err(InvalidImageAtIndex(i));
        }
        urls := urls + [url];
      }
      assert pairs[..|infos|] == pairs;
      r := Ok(urls);
    }

    /** `_process_response`: warn once per entry of "warnings", then build the result. */
    method ProcessResponse(response: Object) returns (warned: seq<Json>, r: Result<Object, Error>)
      ensures Processed(warned, r) == ProcessSpec(response)
    {
      var items := WarningItems(response);
      if items.Err? {
        return [], Err(items.error);
      }
      warned := [];
      for i := 0 to |items.value|
        invariant warned == items.value[..i]
      {
        warned := warned + [items.value[i]];   // warnings.warn(_warning)
      }
      assert items.value[..|items.value|] == items.value;
      if "response" !in response {
        return warned, Err(MissingKey("response"));
      }
      if "num_input_tokens" !in response {
        return warned, Err(MissingKey("num_input_tokens"));
      }
      if "num_output_tokens" !in response {
        return warned, Err(MissingKey("num_output_tokens"));
      }
      if "latency_ms" !in response {
        return warned, Err(MissingKey("latency_ms"));
      }
      r := Ok(map["output" := response["response"], "in_tokens" := response["num_input_tokens"],
                  "out_tokens" := response["num_output_tokens"], "latency_ms" := response["latency_ms"]]);
    }

    /** `_query` (the sync and async paths compute the same thing). */
    method Query(fnName: string, text: PyValue, images: PyValue, world: World) returns (warned: seq<Json>, r: Result<Object, Error>)
      ensures Processed(warned, r) == QuerySpec(fnName, text, images, world)
    {
      var infos := ValidateQuery(text, images, world.facts);
      if infos.Err? {
        return [], Err(infos.error);
      }
      var urls := BuildImageUrls(infos.value, world);
      if urls.Err? {
        return [], Err(urls.error);
      }
      var response := world.post(MakeRequest("query", QueryBody(fnName, text.s, urls.value)));
      if response.None? {
        return [], Err(RequestFailed);
      }
      warned, r := ProcessResponse(response.value);
    }
  }
}
