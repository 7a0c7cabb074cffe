/** A reader for the concat manifest: it splits the text into lines, recognises the
    `file '<path>'` and `duration <d>` directives, and attaches each duration to the file
    line just before it. It is the partner of the writer: reading back what
    `createConcatFile` wrote gives one timed entry per image and the untimed repeat of the
    last image. */
module ConcatReader {
  import opened Wrappers
  import opened Paths
  import opened Lines
  import opened ConcatManifest

  /** The characters JavaScript's number-to-text conversion can produce: digits, point,
      signs, exponent marker, and the letters of `Infinity` and `NaN`. */
  const NumberChars: string := "0123456789.+-eInfityNa"

  /** A duration token as the handler prints it: non-empty, made of `NumberChars`. */
  predicate NumberToken(v: string)
  {
    |v| > 0 && forall i :: 0 <= i < |v| ==> v[i] in NumberChars
  }

  /** One manifest directive. */
  datatype Directive = File(path: string) | Duration(value: string)

  /** One entry of the playlist: a file and the duration attached to it, if any. */
  datatype Entry = Entry(path: string, duration: Option<string>)

  /** Recognise one line. The path of a file line is read between the opening and the
      closing quote, and only when it holds no quote itself: the writer does not escape
      quotes, so a quoted path is ambiguous and is rejected. */
  function ParseLine(line: string): Option<Directive>
  {
    if |line| >= 7 && line[..6] == "file '" && line[|line| - 1] == '\''
       && '\'' !in line[6..|line| - 1] then
      Some(File(line[6..|line| - 1]))
    else if IsDurationLine(line) && NumberToken(line[9..]) then
      Some(Duration(line[9..]))
    else
      None
  }

  /** `x` in front of the list held by `rest`, if there is one. */
  function Prepend<T>(x: T, rest: Option<seq<T>>): Option<seq<T>>
  {
    match rest
    case Some(xs) => Some([x] + xs)
    case None => None
  }

  /** Recognise every line; one unrecognised line makes the whole list unreadable. */
  function ParseLines(lines: seq<string>): (r: Option<seq<Directive>>)
    ensures r.Some? <==> forall k :: 0 <= k < |lines| ==> ParseLine(lines[k]).Some?
    ensures r.Some? ==> |r.value| == |lines|
    ensures r.Some? ==> forall k :: 0 <= k < |lines| ==> r.value[k] == ParseLine(lines[k]).value
    decreases |lines|
  {
    if lines == [] then Some([])
    else
      match ParseLine(lines[0])
      case None => None
      case Some(d) =>
        var rest := ParseLines(lines[1..]);
        assert forall k :: 1 <= k < |lines| ==> lines[1..][k - 1] == lines[k];
        Prepend(d, rest)
  }

  /** Group directives into playlist entries: every file directive opens an entry, a
      duration directive right after it sets that entry's duration. A duration with no
      file before it makes the manifest unreadable. */
  function Entries(ds: seq<Directive>): Option<seq<Entry>>
    decreases |ds|
  {
    if ds == [] then Some([])
    else
      match ds[0]
      case Duration(_) => None
      case File(p) =>
        if |ds| >= 2 && ds[1].Duration? then
          Prepend(Entry(p, Some(ds[1].value)), Entries(ds[2..]))
        else
          Prepend(Entry(p, None), Entries(ds[1..]))
  }

  /** Read a whole manifest text. */
  function ReadManifest(text: string): Option<seq<Entry>>
  {
    match ParseLines(SplitLines(text))
    case Some(ds) => Entries(ds)
    case None => None
  }

  /** Every image, normalised, shown for `duration`, in input order. */
  function Timed(images: seq<string>, duration: string): seq<Entry>
    decreases |images|
  {
    if images == [] then []
    else [Entry(NormalizeSeparators(images[0]), Some(duration))] + Timed(images[1..], duration)
  }

  /** What the manifest is meant to say: each image for `duration`, then the last image
      once more with no duration of its own. */
  function Playlist(images: seq<string>, duration: string): seq<Entry>
    requires |images| >= 1
  {
    Timed(images, duration) + [Entry(NormalizeSeparators(images[|images| - 1]), None)]
  }

  /** A path with no quote reads back from its file line. */
  lemma ParseFileLine(path: string)
    requires '\'' !in path
    ensures ParseLine(FileLine(path)) == Some(File(path))
  {
  }

  /** A duration token reads back from its duration line. */
  lemma ParseDurationLine(duration: string)
    requires NumberToken(duration)
    ensures ParseLine(DurationLine(duration)) == Some(Duration(duration))
  {
  }

  /** The writer does not escape quotes: a path holding one yields a file line the reader
      refuses. */
  lemma QuotedPathUnreadable(path: string)
    requires '\'' in path
    ensures ParseLine(FileLine(path)) == None
  {
    var line := FileLine(path);
    assert line[6..|line| - 1] == path;
    assert line[0] == 'f';
  }

  /** The shape of the manifest at directive level: a file and a duration per image,
      then the last file again. */
  predicate ManifestShape(ds: seq<Directive>, images: seq<string>, duration: string)
    requires |images| >= 1
  {
    && |ds| == 2 * |images| + 1
    && (forall i :: 0 <= i < |images| ==> ds[2 * i] == File(NormalizeSeparators(images[i])))
    && (forall k :: 0 <= k < 2 * |images| && k % 2 == 1 ==> ds[k] == Duration(duration))
    && ds[2 * |images|] == File(NormalizeSeparators(images[|images| - 1]))
  }

  /** The manifest's lines parse into directives of the manifest shape. */
  lemma ParseManifestLines(images: seq<string>, duration: string)
    requires |images| >= 1
    requires forall i :: 0 <= i < |images| ==> '\'' !in images[i]
    requires NumberToken(duration)
    ensures ParseLines(ManifestLines(images, duration)).Some?
    ensures ManifestShape(ParseLines(ManifestLines(images, duration)).value, images, duration)
  {
    var lines := ManifestLines(images, duration);
    forall k | 0 <= k < |lines|
      ensures ParseLine(lines[k]).Some?
      ensures k % 2 == 1 && k < 2 * |images| ==> ParseLine(lines[k]).value == Duration(duration)
      ensures k % 2 == 0 && k < 2 * |images| ==>
                ParseLine(lines[k]).value == File(NormalizeSeparators(images[k / 2]))
      ensures k == 2 * |images| ==>
                ParseLine(lines[k]).value == File(NormalizeSeparators(images[|images| - 1]))
    {
      var i := k / 2;
      if k == 2 * |images| {
        NormalizeKeeps(images[|images| - 1], '\'');
        ParseFileLine(NormalizeSeparators(images[|images| - 1]));
      } else if k % 2 == 0 {
        assert k == 2 * i && i < |images|;
        NormalizeKeeps(images[i], '\'');
        ParseFileLine(NormalizeSeparators(images[i]));
      } else {
        assert k == 2 * i + 1 && i < |images|;
        ParseDurationLine(duration);
      }
    }
    var ds := ParseLines(lines).value;
    forall i | 0 <= i < |images|
      ensures ds[2 * i] == File(NormalizeSeparators(images[i]))
    {
      assert (2 * i) / 2 == i;
    }
  }

  /** Grouping the directives from the `j`-th image on yields the timed entries of the
      remaining images, then the untimed repeat of the last one. */
  lemma {:induction false} EntriesFrom(ds: seq<Directive>, images: seq<string>, duration: string, j: nat)
    requires |images| >= 1
    requires ManifestShape(ds, images, duration)
    requires j <= |images|
    ensures Entries(ds[2 * j..]) ==
            Some(Timed(images[j..], duration) + [Entry(NormalizeSeparators(images[|images| - 1]), None)])
    decreases |images| - j
  {
    var last := Entry(NormalizeSeparators(images[|images| - 1]), None);
    if j == |images| {
      var tail := ds[2 * j..];
      assert tail == [File(NormalizeSeparators(images[|images| - 1]))];
      assert tail[1..] == [];
      assert Entries(tail[1..]) == Some([]);
      assert Entries(tail) == Some([last] + []);
      assert images[j..] == [];
      assert Timed(images[j..], duration) == [];
      assert [last] + [] == [] + [last];
    } else {
      var tail := ds[2 * j..];
      assert tail[0] == ds[2 * j] == File(NormalizeSeparators(images[j]));
      assert tail[1] == ds[2 * j + 1] == Duration(duration);
      assert tail[2..] == ds[2 * (j + 1)..];
      EntriesFrom(ds, images, duration, j + 1);
      assert images[j..][1..] == images[j + 1..];
      var e := Entry(NormalizeSeparators(images[j]), Some(duration));
      assert Timed(images[j..], duration) == [e] + Timed(images[j + 1..], duration);
      assert [e] + (Timed(images[j + 1..], duration) + [last])
          == Timed(images[j..], duration) + [last];
    }
  }

  /** The manifest reads back as the intended playlist: per image, in input order, the
      normalised path with the duration passed in, then the last image again with no
      duration. This holds whenever no path holds a newline or a quote, the two characters
      the writer does not escape. */
  lemma ManifestReadsBack(images: seq<string>, duration: string)
    requires |images| >= 1
    requires forall i :: 0 <= i < |images| ==> '\n' !in images[i] && '\'' !in images[i]
    requires NumberToken(duration)
    ensures ReadManifest(ManifestText(images, duration)) == Some(Playlist(images, duration))
  {
    var lines := ManifestLines(images, duration);
    assert '\n' !in duration by {
      assert '\n' !in NumberChars;
    }
    ParseManifestLines(images, duration);
    var ds := ParseLines(lines).value;
    EntriesFrom(ds, images, duration, 0);
    assert ds[2 * 0..] == ds;
    assert images[0..] == images;
  }
}
