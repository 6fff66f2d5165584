# weco client input pipeline, in Dafny

This project models the client-side input pipeline of the `weco` Python client. The
`WecoAI` client validates a query's text and images before anything goes over the wire, in
this order:

1. argument types;
2. that some input is present;
3. an inclusive text-length ceiling;
4. an inclusive image-count ceiling;
5. per image: classification as a data URI, a public image URL or a local image file,
   file-type extraction, lower-casing, an allow-list check and a size ceiling.

The client then turns the validated images into a list of URLs. URL images pass through;
the others are uploaded to a presigned link. It posts `{name, text, images}` to the `query`
endpoint and unwraps the response envelope, emitting one warning per entry of `warnings`.
`build` posts a task description after two length checks. `batch_query` pairs function
names with inputs.

The helpers in `weco/utils.py` are modelled as well:

- the data-URI recogniser, a hand-written matcher for the regex
  `data:(?P<media_type>[\w/]+);(?P<source_type>\w+),(?P<encoding>.*)`, proved sound, complete
  and inverse to rendering;
- the public-URL decision over the result of a HEAD probe;
- the source dispatch of `get_image_size`;
- the image normaliser's RGB-flatten rule and its `jpg` → `jpeg` alias.

Everything outside the process is an input to a pure decision procedure:

- `ImageFacts`: what probing one image string observes (URL scheme, HEAD result, GET result,
  local-file check, measured size).
- `World`: the fact oracle, image decoding, saving an image in a file type, the POST to the service, and the presigned PUT.

The constants of `weco/constants.py` are the `Limits` parameter. That file is not part of
this model.

Modules:

- `Wrappers`: `Option`, `Result`.
- `Errors`: one constructor per raise site.
- `Traverse`: a loop that stops at the first error; `enumerate`; `zip`.
- `PyStrings`: `str.split`, indexing `[1]`, `str.lower`, `os.path.splitext`.
- `PyValues`: argument values, JSON values, `dict.get`, `for` iteration.
- `Utils`: `weco/utils.py`.
- `Client`: `weco/client.py`. This module holds the `WecoAI` class. Its fields are fixed at
  construction, so its loop-carrying methods change nothing and are each proved equal to a
  specification function.

## Model

| member | source | states |
|---|---|---|
| Client.ResolveApiKey | weco/client.py:45-51 | a string argument is the key; otherwise `WECO_API_KEY` from the environment; error exactly when neither is available |
| Client.WecoAI.constructor | weco/client.py:52-54 | the key and limits are kept and the base URL is `https://function.api.weco.ai` |
| Client.WecoAI.Headers | weco/client.py:77-82 | exactly the two headers; the bearer token read back from `Authorization` is the API key; JSON content type |
| Client.WecoAI.EndpointUrl | weco/client.py:101 | the URL is the base URL, a `/`, then exactly the endpoint name |
| Client.WecoAI.EndpointUrlInjective | weco/client.py:101 | distinct endpoints give distinct URLs |
| Client.WecoAI.MakeRequest | weco/client.py:101-119 | the POST URL is the base URL, a `/`, then exactly the endpoint; exactly the two headers, the bearer token read back from `Authorization` being the API key, JSON content type; the body is the given one |
| Client.WarningItems | weco/client.py:139 | no `warnings` key gives no warnings; an array gives its items; otherwise what iterating the value yields, or an error |
| Client.Unwrap | weco/client.py:142-147 | success exactly when all four response keys are present; the result has exactly keys `output`, `in_tokens`, `out_tokens`, `latency_ms` carrying `response`, `num_input_tokens`, `num_output_tokens`, `latency_ms`; otherwise the KeyError of the first missing key in that order |
| Client.ProcessSpec | weco/client.py:139-147 | one warning per entry of `warnings`, in order, then the unwrapped envelope; a non-iterable `warnings` raises before anything is warned |
| Client.WecoAI.ProcessResponse | weco/client.py:139-147 | the loop emits exactly the warnings and result of `ProcessSpec` |
| Client.BuildBody | weco/client.py:170-176 | an empty description and one over the ceiling are rejected, in that order; accepted exactly when 0 < length ≤ ceiling (inclusive); the body is `{"request": description}` |
| Client.BuildResult | weco/client.py:186-188 | returns (`name`, `description`) from the response; KeyError on `name` first, then `description` |
| Client.WecoAI.Build | weco/client.py:169-188 | the two length errors; on success the description was within bounds and the result is read from the answer to the `build` POST; conversely a description within bounds gives the request error when the POST fails and otherwise the result read from its answer |
| Client.MediaSubtype | weco/client.py:317 | `split("/")[1]` exists exactly when the string contains `/` |
| Client.MediaSubtypeOf | weco/client.py:317 | the subtype of `kind/subtype` is `subtype` |
| Client.MediaSubtypeOfNested | weco/client.py:317 | with further slashes, the subtype of `kind/subtype/rest` is still `subtype` |
| Client.LocalFileType | weco/client.py:336 | the extension without its dot holds no `.` and no `/` |
| Client.LocalFileTypeOf | weco/client.py:336 | a path `root.ext`, with ext free of `.` and `/` and a root whose last component is not all dots, has file type `ext` |
| Client.LocalFileTypeNone | weco/client.py:336 | a path whose last component has no character other than `.` before its last dot has the empty file type |
| Client.UrlFileType | weco/client.py:328 | a fetched URL has a file type exactly when its content type is present and holds a `/` |
| Client.Classify | weco/client.py:314-348 | a classified image has a known source; the only classification errors are the bad-media-type, request, bad-content-type and invalid-source errors |
| Client.ClassifyAccepts | weco/client.py:314-339 | classification succeeds exactly when a data URI's media type, if any, has a `/`, a URL that passes the probe was fetched with a content type holding a `/`, and some classifier matched |
| Client.Admit | weco/client.py:349-361 | an accepted record keeps the image and source and has the lower-cased, allow-listed file type and a size within the ceiling; a lower-cased type outside the allow-list is the unsupported-type error |
| Client.CheckImage | weco/client.py:314-361 | an accepted image keeps its string, has a known source, a lower-case allow-listed file type and a size within the ceiling; an unsupported-type error names a type outside the allow-list |
| Client.CheckImageAdmission | weco/client.py:314-361 | a classification error is passed through; after a successful classification an unsupported lower-cased type, an unreadable size and a size over the ceiling give their errors, and otherwise the record (image, lower-cased type, size, source) is accepted |
| Client.CheckImageUrlErrors | weco/client.py:323-331 | for a URL image (not a data URI with a bad media type) a failed GET is the request error, and a content type missing or without `/` is the invalid-URL error |
| Client.CheckImageSourceErrors | weco/client.py:314-339 | a data URI whose media type has no `/` is rejected whatever the URL probe says; a string no classifier accepts is an invalid source |
| Client.CheckImagePrecedence | weco/client.py:314-350 | for every successful classification: source precedence base64 > url > local, and the raw file type comes from the last matching classifier (local, then url, then base64); an accepted record carries that source and the lower-cased raw type |
| Client.DataUriAlsoUrl | weco/client.py:314-351 | under an arbitrary probe result, a data URI that also passes the URL probe is recorded as base64 but checked and recorded with the URL's content-type subtype |
| Client.WecoAI.ValidateImage | weco/client.py:314-361 | the per-image loop body with its reassignments and early raises computes `CheckImage` |
| Client.ValidateQuerySpec | weco/client.py:293-363 | success only for a string text and a list of strings |
| Client.ValidateQueryTypeErrors | weco/client.py:293-301 | a non-string text or non-list images raises the type error; a non-string element raises the element error; empty text with no images raises the missing-input error |
| Client.TextCeilingInclusive | weco/client.py:303-305 | text longer than the ceiling is rejected; text of exactly the ceiling is accepted |
| Client.ImageCountCheckedFirst | weco/client.py:307-313 | more images than the ceiling is rejected whatever probing the images would observe; exactly the ceiling proceeds to the per-image checks |
| Client.ValidateQuerySuccess | weco/client.py:312-363 | on success one record per image in input order, each with the original string, a lower-case allow-listed file type, a size within the ceiling and a known source |
| Client.ValidateQueryFirstFailure | weco/client.py:312-361 | an image error is the error of the first failing image; every image before it passes |
| Client.WecoAI.ValidateQuery | weco/client.py:293-363 | the method with its two loops returns exactly `ValidateQuerySpec` |
| Client.WecoAI.ValidateImages | weco/client.py:312-363 | the per-image loop returns the records of all images or the first failure |
| Client.UploadLinkBody | weco/client.py:259 | the presigned-link request body has exactly the key `file_type`, holding the file type |
| Client.WecoAI.UploadImage | weco/client.py:235-270 | an unknown source raises; with a known source the only errors are read, save, request and missing-`url`; on success the image was decoded, the flattened image saved in the jpeg-aliased type, the link requested for that type, the image PUT there as `image/<type>`, and the link is returned |
| Client.WecoAI.UploadImageSteps | weco/client.py:235-270 | step by step for a known source: an unreadable image is the read error, a failed save the save error before anything is sent, a failed link request the request error, a missing `url` the KeyError; with a string link the result is that link exactly when the PUT succeeds, and the request error otherwise |
| Client.WecoAI.ImageUrl | weco/client.py:397-402 | a url record passes its string through; base64 and local records are uploaded; any other source raises with its index |
| Client.WecoAI.ImageUrls | weco/client.py:395-403 | on success one URL per record; a failure is the failure of some record's step |
| Client.WecoAI.ImageUrlsAligned | weco/client.py:395-403 | `image_urls` has one entry per record in order; url entries are the original string, the others the upload result |
| Client.WecoAI.ImageUrlsOfValidated | weco/client.py:396-402 | for validated records neither the index error nor the invalid-source error can arise |
| Client.WecoAI.BuildImageUrls | weco/client.py:395-403 | the loop computes the same list (or first error) as `ImageUrls` |
| Client.ImageList | weco/client.py:407 | the images field has one JSON string per URL, in order |
| Client.QueryBody | weco/client.py:407 | the body is an object with exactly the keys `name`, `text`, `images`, in that order |
| Client.QueryBodyFields | weco/client.py:407 | the body has exactly the keys `name`, `text`, `images`, in that order, with the given values |
| Client.WecoAI.QueryRequest | weco/client.py:391-408 | a validation error is raised before anything else; for validated input an image-URL error is raised next, and otherwise a request is built; a request is built only for validated input and goes to the `query` endpoint |
| Client.WecoAI.QuerySpec | weco/client.py:391-419 | errors before the POST and a failed POST raise with no warning; an answered POST gives exactly the warnings and result of `_process_response` on the answer; a returned result has exactly the four result keys |
| Client.WecoAI.QueryRequestShape | weco/client.py:391-408 | the query POST goes to `<base>/query` with the client's bearer token and body `{name, text, images}`, whose images are one per input image in order, url images unchanged and the rest their upload links |
| Client.WecoAI.Query | weco/client.py:391-419 | validation, URL assembly, POST and unwrapping compose to `QuerySpec` |
| Client.ExpandNames | weco/client.py:494-497 | a single name is repeated once per input; a list is kept exactly when its length matches, and is rejected otherwise |
| Client.TextArg | weco/client.py:422 | an absent text defaults to `""`, a given one is passed unchanged |
| Client.ImagesArg | weco/client.py:422 | absent images default to `[]`, given ones are passed unchanged |
| Client.WecoAI.BatchQuery | weco/client.py:494-506 | a name list of the wrong length is rejected; on success one result per input, each with exactly the four result keys |
| Client.WecoAI.BatchQueryAligned | weco/client.py:494-506 | a mismatched name list is rejected; with a single name or a list of the right length, any failure is the failure of some input's query, and the batch succeeds when every query does; on success result i is the answer to (name i, input i) |
| Utils.ParseDataUri | weco/utils.py:52-55 | every result is a match of the pattern at the start of the string with those groups |
| Utils.ParseDataUriComplete | weco/utils.py:52-55 | every match is found with exactly its groups |
| Utils.ParseRenderRoundTrip | weco/utils.py:52-55 | `data:m;s,p` with m over `[\w/]+`, s over `\w+`, p without newline parses back to (m, s, p) |
| Utils.ParseDataUriNone | weco/utils.py:52-57 | no result exactly when no groups make the string match |
| Utils.IsBase64Image | weco/utils.py:39-57 | `(True, groups)` exactly when the string matches, with matching groups; `(False, None)` otherwise |
| Utils.IsPublicUrlImage | weco/utils.py:74-93 | true exactly when the scheme is present and non-empty, the probe returned 200, and the content type is present, non-empty and starts with `image`; false on any exception |
| Utils.GetImageSize | weco/utils.py:118-134 | an unknown source raises `Invalid image input`; for a known source the size is the measured one, or the read fails |
| Utils.HasTransparency | weco/utils.py:157 | only the modes `RGBA`, `LA` and `P` can carry transparency; an RGB image never does |
| Utils.ConvertToRgb | weco/utils.py:158 | the converted image is RGB and keeps its size |
| Utils.PreprocessImage | weco/utils.py:155-163 | the result has no transparency; an image with an alpha channel or a transparent palette becomes its RGB conversion, any other is unchanged; size unchanged; the file type is the jpg alias |
| Utils.JpegAlias | weco/utils.py:161-162 | `jpg` becomes `jpeg`, every other type is kept, and the result is never `jpg` |
| Utils.JpegAliasOnlyJpg | weco/utils.py:161-163 | only `jpg` is rewritten; `JPG` is left as it is |
| Utils.JpegAliasIdempotent | weco/utils.py:161-163 | aliasing twice equals aliasing once |
| Utils.PreprocessIdempotent | weco/utils.py:155-163 | normalising a normalised image changes nothing |
| PyStrings.SecondPiece | weco/client.py:317 | `split(sep)[1]` exists exactly when the separator occurs, and holds no separator |
| PyStrings.Split | weco/client.py:317 | the pieces hold no separator and join back to the string |
| PyStrings.SplitJoin | weco/client.py:317 | splitting a join of separator-free pieces gives the pieces back |
| PyStrings.Lower | weco/client.py:350 | the result is lower-case, maps each character, and is the identity on lower-case strings |
| PyStrings.RFind | weco/client.py:336 | the index of the last occurrence of the character, or -1 when it does not occur |
| PyStrings.SplitExt | weco/client.py:336 | root + extension is the path; the extension is empty or one dot followed by no dot and no `/` |
| PyStrings.SplitExtCases | weco/client.py:336 | there is an extension exactly when the last component has a non-dot character before its last dot, and it is then everything from that dot; otherwise the root is the whole path |
| PyStrings.SplitExtOf | weco/client.py:336 | `root.ext`, with ext free of `.` and `/` and a root whose last component is not all dots, splits into `root` and `.ext` |
| PyValues.Get | weco/client.py:139 | `dict.get`: the value under a present key, the default otherwise |
| PyValues.Iterate | weco/client.py:139 | arrays yield their items, strings their characters, objects their keys; anything else is a TypeError |
| Traverse.Enumerate | weco/client.py:396 | entry i is the pair (i, element i), one per element |
| Traverse.Zip | weco/client.py:502 | entry i is the pair of the two elements i, as long as the shorter sequence |
| Traverse.MapUntilError | weco/client.py:313-361 | all results in order when every step succeeds; otherwise the error of the first failing step, all steps before it succeeding |

## Left out

- HTTP transport (httpx, requests, `raise_for_status`, JSON decoding) is an oracle: a POST either yields a JSON object or fails with one request error. A response body that is JSON but not an object is not modelled.
- The async and sync dual paths are one model. `asyncio.gather` concurrency is not modelled, nor the event-loop handling in `__del__` or the HTTP client setup in `__init__`.
- Client.WecoAI.BatchQueryAligned: when several queries fail, `asyncio.gather` raises whichever fails first in time. The model picks the lowest index, and the contract only promises the error of some failing input.
- `batch_query` inputs are modelled as the two keywords `text_input` and `images_input`. An input dict with other keys, which Python rejects with TypeError, is not represented.
- PIL decode and encode, `base64.b64decode`, and the MB figure (`tell() / 1000000`, floating point) are oracles. The size is an opaque real compared with the ceiling.
- The filesystem (`os.path.exists`, `Image.open` in `is_local_image`, file reads) is the `isLocal` fact and the decode oracle. The environment variable read is a map lookup.
- Client.WecoAI.UploadImage: `processed_img.save` is an oracle that says only whether saving succeeds; the encoded bytes are not modelled and the PUT receives the normalised image. A failed download of a url-sourced image and a failed decode both appear as the read error. A `url` value that is not a string, and a failed PUT, both appear as the request error.
- `urlparse` is an oracle giving the scheme, or nothing where it raises.
- The probe oracle `World.facts` is a function of the image string, so two equal strings in one images list observe the same probe results. The source probes each entry again, and the network may answer differently each time.
- The decode oracle `World.decode` takes only the image string and ignores the record's source. The source reads the bytes by source: base64 decoding, an HTTP GET or a file read.
- `generate_random_base16_code` (weco/utils.py:166-180) is random and unused by the pipeline.
- `weco/functional.py` and the tests are not part of this model. They target a different revision of the client's signatures.
- `weco/constants.py` is not part of this model; its four values are the `Limits` parameter.
- `\w` in the data-URI pattern and `str.lower` are modelled on ASCII only. Python's Unicode word characters and case mapping are wider.
- `os.path.splitext` is modelled with POSIX separators only.
- The warnings module's filtering and deduplication are not modelled: every entry counts as one emitted warning.
- The keys of `img.info` beyond `transparency` are not inspected. `img.convert("RGB")` is modelled as changing only the mode.
- The error messages say "must be less than" while all four ceilings accept a value equal to the limit: the task-description length (weco/client.py:172-173), the text length (304-305), the image count (308-309) and the image size (358-359). The model follows the code.
