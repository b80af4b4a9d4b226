/**
 * The file part the scan screen uploads: its name is the URI's last path
 * segment and its MIME type comes from the name's trailing `.ext`. The
 * upload itself and the loading flags are not modelled.
 */
module ScanReceipt {
  import opened Wrappers

  /** The regex class `\w`: ASCII letters, digits and underscore. */
  predicate IsWordChar(c: char) {
    'a' <= c <= 'z' || 'A' <= c <= 'Z' || '0' <= c <= '9' || c == '_'
  }

  /** `uri.split('/').pop()`: the text after the last '/', or all of it when there is none. */
  function LastSegment(uri: string): (r: string)
    ensures |r| <= |uri| && r == uri[|uri| - |r|..]
    ensures '/' !in r
    ensures |r| < |uri| ==> uri[|uri| - |r| - 1] == '/'
  {
    if uri == [] || uri[|uri| - 1] == '/' then []
    else
      var front := LastSegment(uri[..|uri| - 1]);
      assert uri[..|uri| - 1][|uri| - 1 - |front|..] + [uri[|uri| - 1]] == uri[|uri| - |front| - 1..];
      front + [uri[|uri| - 1]]
  }

  /** The longest run of word characters that ends `s`. */
  function TrailingWord(s: string): (r: string)
    ensures |r| <= |s| && r == s[|s| - |r|..]
    ensures forall k | 0 <= k < |r| :: IsWordChar(r[k])
    ensures |r| < |s| ==> !IsWordChar(s[|s| - |r| - 1])
  {
    if s == [] || !IsWordChar(s[|s| - 1]) then []
    else
      var front := TrailingWord(s[..|s| - 1]);
      assert s[..|s| - 1][|s| - 1 - |front|..] + [s[|s| - 1]] == s[|s| - |front| - 1..];
      front + [s[|s| - 1]]
  }

  /** `/\.(\w+)$/` matches `name` with its '.' at `i`. */
  predicate ExtensionAt(name: string, i: int) {
    0 <= i < |name| - 1 && name[i] == '.' && forall k | i < k < |name| :: IsWordChar(name[k])
  }

  /** The regex's capture group, when it matches. */
  function Extension(name: string): (r: Option<string>)
    ensures r.Some? ==> r.value != [] && |r.value| < |name|
  {
    var w := TrailingWord(name);
    if w != [] && |w| < |name| && name[|name| - |w| - 1] == '.' then Some(w) else None
  }

  /** A '.' that starts a match is the one just before the trailing word, so Extension captures what follows it. */
  lemma MatchGivesExtension(name: string, i: int)
    requires ExtensionAt(name, i)
    ensures Extension(name) == Some(name[i + 1..])
  {
    var w := TrailingWord(name);
    assert !IsWordChar(name[i]);
    assert |name| - |w| == i + 1;
  }

  /**
   * Extension is the regex's capture: a position starts a match exactly
   * when Extension found something and the position is the '.' before it.
   * Since '.' is not a word character, at most one position matches.
   */
  lemma ExtensionIsRegexCapture(name: string)
    ensures forall i :: ExtensionAt(name, i) <==>
      Extension(name).Some? && i == |name| - |Extension(name).value| - 1
    ensures Extension(name).Some? ==> Extension(name).value == name[|name| - |Extension(name).value|..]
  {
    forall i | ExtensionAt(name, i)
      ensures Extension(name).Some? && i == |name| - |Extension(name).value| - 1
    {
      MatchGivesExtension(name, i);
    }
    if Extension(name).Some? {
      var w := Extension(name).value;
      var start := |name| - |w|;
      forall k | start <= k < |name| ensures IsWordChar(name[k]) {
        assert name[k] == w[k - start];
      }
      assert ExtensionAt(name, start - 1);
    }
  }

  const ImagePrefix := "image/"
  const DefaultMimeType := ImagePrefix + "jpeg"

  /** The upload's type: `image/` and the extension, or image/jpeg without one. */
  function MimeType(filename: string): (r: string)
    ensures |r| > |ImagePrefix| && r[..|ImagePrefix|] == ImagePrefix
    ensures Extension(filename).Some? ==> r == ImagePrefix + Extension(filename).value
    ensures Extension(filename).None? ==> r == DefaultMimeType
  {
    match Extension(filename)
    case Some(ext) => ImagePrefix + ext
    case None => DefaultMimeType
  }

  /** The segment after a final '/' is the file name. */
  lemma {:induction false} LastSegmentOf(dir: string, name: string)
    requires '/' !in name
    ensures LastSegment(dir + "/" + name) == name
    decreases |name|
  {
    if name == [] {
      assert dir + "/" + name == dir + "/";
    } else {
      var front := name[..|name| - 1];
      assert (dir + "/" + name)[..|dir + "/" + name| - 1] == dir + "/" + front;
      LastSegmentOf(dir, front);
    }
  }

  /** A run of word characters after a non-word character (or at the start) is the trailing word. */
  lemma {:induction false} TrailingWordOf(prefix: string, word: string)
    requires prefix == [] || !IsWordChar(prefix[|prefix| - 1])
    requires forall k | 0 <= k < |word| :: IsWordChar(word[k])
    ensures TrailingWord(prefix + word) == word
    decreases |word|
  {
    if word == [] {
      assert prefix + word == prefix;
    } else {
      var front := word[..|word| - 1];
      assert (prefix + word)[..|prefix + word| - 1] == prefix + front;
      TrailingWordOf(prefix, front);
    }
  }

  /** A name ending in '.' and a non-empty run of word characters gets that run as its type. */
  lemma DottedName(base: string, ext: string)
    requires ext != [] && forall k | 0 <= k < |ext| :: IsWordChar(ext[k])
    ensures MimeType(base + "." + ext) == ImagePrefix + ext
  {
    TrailingWordOf(base + ".", ext);
  }

  /** A name whose trailing word follows some other non-word character, or a bare trailing '.', falls back to image/jpeg. */
  lemma UndottedName(base: string, c: char, word: string)
    requires !IsWordChar(c) && (c != '.' || word == [])
    requires forall k | 0 <= k < |word| :: IsWordChar(word[k])
    ensures MimeType(base + [c] + word) == DefaultMimeType
  {
    TrailingWordOf(base + [c], word);
  }

  /** `a.b.jpg` in a directory is uploaded as image/jpg: only the run after the final '.' counts. */
  lemma NestedDotsExample()
    ensures MimeType(LastSegment("file:///tmp/a.b.jpg")) == ImagePrefix + "jpg"
  {
    assert "file:///tmp/a.b.jpg" == "file:///tmp" + "/" + "a.b.jpg";
    LastSegmentOf("file:///tmp", "a.b.jpg");
    assert "a.b.jpg" == "a.b" + "." + "jpg";
    DottedName("a.b", "jpg");
  }

  /** A suffix with a non-word character, or nothing after the dot, falls back to image/jpeg. */
  lemma FallbackExamples()
    ensures MimeType("a.jp-g") == DefaultMimeType
    ensures MimeType("photo.") == DefaultMimeType
  {
    assert "a.jp-g" == "a.jp" + ['-'] + "g";
    UndottedName("a.jp", '-', "g");
    assert "photo." == "photo" + ['.'] + "";
    UndottedName("photo", '.', "");
  }

  /** The picked image; only its URI matters here. */
  datatype ImageAsset = ImageAsset(uri: string)

  /** The form-data part sent to the scan endpoint. */
  datatype UploadPart = UploadPart(uri: string, name: string, mimeType: string)

  datatype ScanError = NoImageSelected

  /** scanReceipt up to the request: no image stops it; otherwise the part carries the URI, its last segment and the derived type. */
  function PrepareUpload(image: Option<ImageAsset>): (r: Result<UploadPart, ScanError>)
    ensures image.None? <==> r == Failure(NoImageSelected)
    ensures r.Success? ==>
      && r.value.uri == image.value.uri
      && r.value.name == LastSegment(image.value.uri)
      && '/' !in r.value.name
      && r.value.mimeType == MimeType(r.value.name)
      && r.value.mimeType[..|ImagePrefix|] == ImagePrefix
  {
    match image
    case None => Failure(NoImageSelected)
    case Some(asset) =>
      var filename := LastSegment(asset.uri);
      Success(UploadPart(asset.uri, filename, MimeType(filename)))
  }
}
