/** weco/utils.py: recognising data URIs, the public-URL decision, the size-measurement
    dispatch and the image normaliser. File and network access enter as parameters. */
module Utils {
  import opened Wrappers
  import opened Errors

  // ---------------------------------------------------------------------------
  // is_base64_image: re.match(r"data:(?P<media_type>[\w/]+);(?P<source_type>\w+),(?P<encoding>.*)", s)

  /** The three named groups of a data-URI match. */
  datatype DataUri = DataUri(mediaType: string, sourceType: string, encoding: string)

  /** The character classes of the pattern: `[\w/]`, `\w` and `.`. */
  datatype CharClass = MediaTypeChars | WordChars | AnyButNewline

  predicate IsWordChar(c: char)
  {
    'a' <= c <= 'z' || 'A' <= c <= 'Z' || '0' <= c <= '9' || c == '_'
  }

  predicate InClass(c: char, k: CharClass)
  {
    match k
    case MediaTypeChars => IsWordChar(c) || c == '/'
    case WordChars => IsWordChar(c)
    case AnyButNewline => c != '\n'
  }

  predicate AllIn(s: string, k: CharClass)
  {
    forall i :: 0 <= i < |s| ==> InClass(s[i], k)
  }

  /** Length of the longest prefix of s whose characters are all in k: a greedy `k*`. */
  function Span(s: string, k: CharClass): (n: nat)
    ensures n <= |s| && AllIn(s[..n], k)
    ensures n < |s| ==> !InClass(s[n], k)
    decreases |s|
  {
    if s == [] || !InClass(s[0], k) then 0
    else
      var n := 1 + Span(s[1..], k);
      assert s[..n] == [s[0]] + s[1..][..n - 1];
      n
  }

  /** Group values the pattern can capture: non-empty `[\w/]+`, non-empty `\w+`, no newline in `.*`. */
  predicate WellFormed(d: DataUri)
  {
    |d.mediaType| > 0 && AllIn(d.mediaType, MediaTypeChars) &&
    |d.sourceType| > 0 && AllIn(d.sourceType, WordChars) &&
    AllIn(d.encoding, AnyButNewline)
  }

  /** The data URI whose groups are d. */
  function Render(d: DataUri): string
  {
    "data:" + d.mediaType + ";" + d.sourceType + "," + d.encoding
  }

  /** s matches the pattern from its first character with groups d. `re.match` anchors only at
      the start, and the greedy `.*` stops at the first newline or at the end. */
  predicate MatchesWith(s: string, d: DataUri)
  {
    var text := Render(d);
    WellFormed(d) && text <= s && (|s| == |text| || s[|text|] == '\n')
  }

  /** The hand-written matcher for the pattern. */
  function ParseDataUri(s: string): (r: Option<DataUri>)
    ensures r.Some? ==> MatchesWith(s, r.value)
  {
    if !("data:" <= s) then None
    else
      var rest := s[5..];
      var m := Span(rest, MediaTypeChars);
      if m == 0 || m == |rest| || rest[m] != ';' then None
      else
        var rest2 := rest[m + 1..];
        var k := Span(rest2, WordChars);
        if k == 0 || k == |rest2| || rest2[k] != ',' then None
        else
          var rest3 := rest2[k + 1..];
          var e := Span(rest3, AnyButNewline);
          var d := DataUri(rest[..m], rest2[..k], rest3[..e]);
          PiecesMatch(s, rest, m, rest2, k, rest3, e);
          Some(d)
  }

  /** The pieces ParseDataUri cuts s into reassemble to a match. */
  lemma PiecesMatch(s: string, rest: string, m: nat, rest2: string, k: nat, rest3: string, e: nat)
    requires "data:" <= s && rest == s[5..]
    requires 0 < m < |rest| && rest[m] == ';' && AllIn(rest[..m], MediaTypeChars) && rest2 == rest[m + 1..]
    requires 0 < k < |rest2| && rest2[k] == ',' && AllIn(rest2[..k], WordChars) && rest3 == rest2[k + 1..]
    requires e <= |rest3| && AllIn(rest3[..e], AnyButNewline) && (e < |rest3| ==> !InClass(rest3[e], AnyButNewline))
    ensures MatchesWith(s, DataUri(rest[..m], rest2[..k], rest3[..e]))
  {
    Reassemble(s, rest, m, rest2, k, rest3, e);
  }

  lemma Reassemble(s: string, rest: string, m: nat, rest2: string, k: nat, rest3: string, e: nat)
    requires "data:" <= s && rest == s[5..]
    requires 0 < m < |rest| && rest[m] == ';' && rest2 == rest[m + 1..]
    requires 0 < k < |rest2| && rest2[k] == ',' && rest3 == rest2[k + 1..]
    requires e <= |rest3|
    ensures Render(DataUri(rest[..m], rest2[..k], rest3[..e])) <= s
    ensures |s| == |Render(DataUri(rest[..m], rest2[..k], rest3[..e]))| ||
            s[|Render(DataUri(rest[..m], rest2[..k], rest3[..e]))|] == rest3[e]
  {
    var d := DataUri(rest[..m], rest2[..k], rest3[..e]);
    RenderNested(d);
    RenderedPrefix(s, rest, m, rest2, k, rest3, e);
    if |s| != |Render(d)| {
      assert |Render(d)| == 5 + (m + 1) + (k + 1) + e;
      assert s[|Render(d)|] == rest[(m + 1) + (k + 1) + e];
      assert rest[(m + 1) + (k + 1) + e] == rest2[(k + 1) + e];
    }
  }

  /** The prefix relation, built from the innermost piece outwards. */
  lemma RenderedPrefix(s: string, rest: string, m: nat, rest2: string, k: nat, rest3: string, e: nat)
    requires "data:" <= s && rest == s[5..]
    requires 0 < m < |rest| && rest[m] == ';' && rest2 == rest[m + 1..]
    requires 0 < k < |rest2| && rest2[k] == ',' && rest3 == rest2[k + 1..]
    requires e <= |rest3|
    ensures "data:" + (rest[..m] + (";" + (rest2[..k] + ("," + rest3[..e])))) <= s
  {
    Peel(rest2, k, rest3[..e]);
    assert [rest2[k]] == ",";
    Peel(rest, m, rest2[..k] + ("," + rest3[..e]));
    assert [rest[m]] == ";";
    PeelFront(s, 5, rest[..m] + (";" + (rest2[..k] + ("," + rest3[..e]))));
    assert s[..5] == "data:";
  }

  /** A prefix of what follows position i, behind the text up to and including i. */
  lemma Peel(whole: string, i: nat, inner: string)
    requires i < |whole| && inner <= whole[i + 1..]
    ensures whole[..i] + ([whole[i]] + inner) <= whole
  {
  }

  lemma PeelFront(whole: string, i: nat, inner: string)
    requires i <= |whole| && inner <= whole[i..]
    ensures whole[..i] + inner <= whole
  {
  }

  /** Render's pieces, nested to the right. */
  lemma RenderNested(d: DataUri)
    ensures Render(d) == "data:" + (d.mediaType + (";" + (d.sourceType + ("," + d.encoding))))
  {
  }

  /** A greedy span over `prefix + tail` stops where the class ends. */
  lemma {:induction false} SpanStopsAt(prefix: string, tail: string, k: CharClass)
    requires AllIn(prefix, k) && (tail == [] || !InClass(tail[0], k))
    ensures Span(prefix + tail, k) == |prefix|
    decreases |prefix|
  {
    var s := prefix + tail;
    if prefix != [] {
      assert s[0] == prefix[0] && InClass(s[0], k);
      assert s[1..] == prefix[1..] + tail;
      assert AllIn(prefix[1..], k) by {
        forall i | 0 <= i < |prefix[1..]| ensures InClass(prefix[1..][i], k) {
          assert prefix[1..][i] == prefix[i + 1];
        }
      }
      SpanStopsAt(prefix[1..], tail, k);
      assert Span(s, k) == 1 + Span(s[1..], k);
    } else {
      assert s == tail;
    }
  }

  /** Every match is found, with exactly its groups: the pattern matches at most one way. */
  lemma ParseDataUriComplete(s: string, d: DataUri)
    requires MatchesWith(s, d)
    ensures ParseDataUri(s) == Some(d)
  {
    var tail := s[|Render(d)|..];
    var m, k := |d.mediaType|, |d.sourceType|;
    var after1 := ";" + d.sourceType + "," + d.encoding + tail;
    var after2 := "," + d.encoding + tail;
    Decompose(s, d, tail);
    SpanStopsAt(d.mediaType, after1, MediaTypeChars);
    SpanStopsAt(d.sourceType, after2, WordChars);
    SpanStopsAt(d.encoding, tail, AnyButNewline);
    var rest := s[5..];
    assert Span(rest, MediaTypeChars) == m && rest[m] == ';' && rest[..m] == d.mediaType;
    var rest2 := rest[m + 1..];
    assert Span(rest2, WordChars) == k && rest2[k] == ',' && rest2[..k] == d.sourceType;
    var rest3 := rest2[k + 1..];
    assert Span(rest3, AnyButNewline) == |d.encoding| && rest3[..|d.encoding|] == d.encoding;
    UnfoldParse(s, rest, m, rest2, k, rest3, |d.encoding|);
  }

  /** ParseDataUri on a string whose three spans are known. */
  lemma UnfoldParse(s: string, rest: string, m: nat, rest2: string, k: nat, rest3: string, e: nat)
    requires "data:" <= s && rest == s[5..]
    requires Span(rest, MediaTypeChars) == m && 0 < m < |rest| && rest[m] == ';' && rest2 == rest[m + 1..]
    requires Span(rest2, WordChars) == k && 0 < k < |rest2| && rest2[k] == ',' && rest3 == rest2[k + 1..]
    requires Span(rest3, AnyButNewline) == e
    ensures ParseDataUri(s) == Some(DataUri(rest[..m], rest2[..k], rest3[..e]))
  {
  }

  /** Where the pieces of a rendered data URI sit inside a string that starts with it. */
  lemma Decompose(s: string, d: DataUri, tail: string)
    requires Render(d) <= s && tail == s[|Render(d)|..]
    ensures "data:" <= s
    ensures s[5..] == d.mediaType + (";" + d.sourceType + "," + d.encoding + tail)
    ensures s[5..][|d.mediaType| + 1..] == d.sourceType + ("," + d.encoding + tail)
    ensures s[5..][|d.mediaType| + 1..][|d.sourceType| + 1..] == d.encoding + tail
  {
    assert s == Render(d) + tail;
  }

  /** Round trip: rendering well-formed groups and matching gives the same groups back. */
  lemma ParseRenderRoundTrip(d: DataUri)
    requires WellFormed(d)
    ensures ParseDataUri(Render(d)) == Some(d)
  {
    ParseDataUriComplete(Render(d), d);
  }

  /** No result exactly when the string matches with no groups at all. */
  lemma ParseDataUriNone(s: string)
    ensures ParseDataUri(s).None? <==> forall d :: !MatchesWith(s, d)
  {
    if ParseDataUri(s).None? {
      forall d ensures !MatchesWith(s, d) {
        if MatchesWith(s, d) { ParseDataUriComplete(s, d); }
      }
    }
  }

  /** `is_base64_image`: `(True, groups)` on a match, `(False, None)` otherwise. */
  function IsBase64Image(s: string): (r: (bool, Option<DataUri>))
    ensures r.0 <==> r.1.Some?
    ensures r.1.Some? <==> exists d :: MatchesWith(s, d)
    ensures r.1.Some? ==> MatchesWith(s, r.1.value)
  {
    var p := ParseDataUri(s);
    ParseDataUriNone(s);
    (p.Some?, p)
  }

  // ---------------------------------------------------------------------------
  // is_public_url_image

  /** What `requests.head(url)` produced: an exception, or a status and a content-type header. */
  datatype HeadProbe = HeadRaised | HeadResponse(status: int, contentType: Option<string>)

  /** `scheme` is `urlparse(url).scheme`, or `None` where `urlparse` raises. */
  function IsPublicUrlImage(scheme: Option<string>, head: HeadProbe): (r: bool)
    ensures r <==> scheme.Some? && scheme.value != "" &&
                   head.HeadResponse? && head.status == 200 &&
                   head.contentType.Some? && "image" <= head.contentType.value
  {
    if scheme.None? then false                      // urlparse raised
    else if scheme.value == "" then false           // not a URL
    else match head
      case HeadRaised => false                      // the probe raised
      case HeadResponse(status, contentType) =>
        if status != 200 then false
        else if contentType.None? || contentType.value == "" then false
        else if !("image" <= contentType.value) then false
        else true
  }

  // ---------------------------------------------------------------------------
  // get_image_size: the dispatch on the source name

  const SourceBase64 := "base64"
  const SourceUrl := "url"
  const SourceLocal := "local"

  predicate IsSource(source: string)
  {
    source == SourceBase64 || source == SourceUrl || source == SourceLocal
  }

  /** `measured` is the size in MB of the re-encoded image the chosen branch read,
      or `None` when reading or decoding failed. */
  function GetImageSize(source: string, measured: Option<real>): (r: Result<real, Error>)
    ensures !IsSource(source) ==> r == Err(InvalidImageInput)
    ensures IsSource(source) ==> (r.Ok? <==> measured.Some?)
    ensures r.Ok? ==> IsSource(source) && r.value == measured.value
    ensures IsSource(source) && r.Err? ==> r.error == ImageReadFailed
  {
    if !IsSource(source) then Err(InvalidImageInput)
    else if measured.None? then Err(ImageReadFailed)
    else Ok(measured.value)
  }

  // ---------------------------------------------------------------------------
  // preprocess_image

  /** A PIL image as the normaliser sees it: its mode, the keys of its `info`, and its size. */
  datatype PilImage = PilImage(mode: string, infoKeys: set<string>, width: nat, height: nat)

  /** An alpha channel, or a palette with a transparency entry. */
  predicate HasTransparency(img: PilImage): (b: bool)
    ensures b ==> img.mode in {"RGBA", "LA", "P"}
    ensures img.mode == "RGB" ==> !b
  {
    img.mode == "RGBA" || img.mode == "LA" || (img.mode == "P" && "transparency" in img.infoKeys)
  }

  /** `img.convert("RGB")`: the alpha is dropped, the size and the info keys stay. */
  function ConvertToRgb(img: PilImage): (r: PilImage)
    ensures r.mode == "RGB" && r.width == img.width && r.height == img.height
  {
    img.(mode := "RGB")
  }

  /** The file-type alias PIL needs: "jpg" is saved as "jpeg". */
  function JpegAlias(fileType: string): (r: string)
    ensures r != "jpg"
    ensures fileType == "jpg" ==> r == "jpeg"
    ensures fileType != "jpg" ==> r == fileType
  {
    if fileType == "jpg" then "jpeg" else fileType
  }

  function PreprocessImage(img: PilImage, fileType: string): (r: (PilImage, string))
    ensures !HasTransparency(r.0)
    ensures r.0 != img <==> HasTransparency(img)
    ensures HasTransparency(img) ==> r.0 == ConvertToRgb(img) && r.0.mode == "RGB"
    ensures r.0.width == img.width && r.0.height == img.height
    ensures r.1 == JpegAlias(fileType)
  {
    var image := if HasTransparency(img) then ConvertToRgb(img) else img;
    (image, JpegAlias(fileType))
  }

  /** The alias rewrites "jpg" and nothing else, not even "JPG". */
  lemma JpegAliasOnlyJpg(fileType: string)
    ensures JpegAlias(fileType) != fileType <==> fileType == "jpg"
    ensures JpegAlias("JPG") == "JPG"
  {
  }

  lemma JpegAliasIdempotent(fileType: string)
    ensures JpegAlias(JpegAlias(fileType)) == JpegAlias(fileType)
  {
  }

  /** Normalising a normalised image changes nothing. */
  lemma PreprocessIdempotent(img: PilImage, fileType: string)
    ensures PreprocessImage(PreprocessImage(img, fileType).0, PreprocessImage(img, fileType).1)
            == PreprocessImage(img, fileType)
  {
  }
}
