/** The playlist `createConcatFile` writes for FFmpeg's concat demuxer: per image a
    `file '<path>'` line and a `duration <d>` line, then the last image once more with no
    duration line. The duration is an opaque token, the text JavaScript prints for the
    per-image duration number. */
module ConcatManifest {
  import opened Paths
  import opened Lines

  /** `file '<path>'`, without its newline. */
  function FileLine(path: string): string
  {
    "file '" + path + "'"
  }

  /** `duration <d>`, without its newline. */
  function DurationLine(duration: string): string
  {
    "duration " + duration
  }

  /** A line that opens with the `duration ` keyword. */
  predicate IsDurationLine(line: string)
  {
    |line| >= 9 && line[..9] == "duration "
  }

  /** The lines the loop over `images` emits, in input order. */
  function PairLines(images: seq<string>, duration: string): (lines: seq<string>)
    ensures |lines| == 2 * |images|
    ensures forall i :: 0 <= i < |images| ==>
              lines[2 * i] == FileLine(NormalizeSeparators(images[i]))
    ensures forall k :: 0 <= k < |lines| && k % 2 == 1 ==> lines[k] == DurationLine(duration)
    decreases |images|
  {
    if images == [] then []
    else
      var rest := PairLines(images[1..], duration);
      var lines := [FileLine(NormalizeSeparators(images[0])), DurationLine(duration)] + rest;
      assert forall i :: 1 <= i < |images| ==>
        lines[2 * i] == rest[2 * (i - 1)] && images[1..][i - 1] == images[i];
      assert forall k :: 2 <= k < |lines| ==> lines[k] == rest[k - 2];
      lines
  }

  /** The manifest as a list of lines. Only defined for at least one image: with none,
      `images[images.length - 1]` is undefined and the source throws. */
  function ManifestLines(images: seq<string>, duration: string): (lines: seq<string>)
    requires |images| >= 1
    ensures |lines| == 2 * |images| + 1
    ensures forall i :: 0 <= i < |images| ==>
              && lines[2 * i] == FileLine(NormalizeSeparators(images[i]))
              && lines[2 * i + 1] == DurationLine(duration)
    ensures lines[|lines| - 1] == FileLine(NormalizeSeparators(images[|images| - 1]))
    ensures lines[|lines| - 1] == lines[|lines| - 3]
  {
    PairLines(images, duration) + [FileLine(NormalizeSeparators(images[|images| - 1]))]
  }

  /** The manifest text, every line newline-terminated. When neither the image paths nor
      the duration hold a newline, the text splits back into exactly the manifest's lines. */
  function ManifestText(images: seq<string>, duration: string): (text: string)
    requires |images| >= 1
    ensures (forall i :: 0 <= i < |images| ==> '\n' !in images[i]) && '\n' !in duration ==>
              SplitLines(text) == ManifestLines(images, duration)
  {
    ManifestSplitsIntoLines(images, duration);
    Unlines(ManifestLines(images, duration))
  }

  /** No line of the manifest holds a newline of its own when no image path and not the
      duration does. */
  lemma ManifestSingleLines(images: seq<string>, duration: string)
    requires |images| >= 1
    requires forall i :: 0 <= i < |images| ==> '\n' !in images[i]
    requires '\n' !in duration
    ensures SingleLines(ManifestLines(images, duration))
  {
    var lines := ManifestLines(images, duration);
    forall k | 0 <= k < |lines|
      ensures '\n' !in lines[k]
    {
      var i := k / 2;
      if k == |lines| - 1 {
        NormalizeKeeps(images[|images| - 1], '\n');
      } else if k % 2 == 0 {
        assert k == 2 * i && i < |images|;
        NormalizeKeeps(images[i], '\n');
      } else {
        assert k == 2 * i + 1 && i < |images|;
        assert lines[k] == DurationLine(duration);
      }
    }
  }

  lemma ManifestSplitsIntoLines(images: seq<string>, duration: string)
    requires |images| >= 1
    ensures (forall i :: 0 <= i < |images| ==> '\n' !in images[i]) && '\n' !in duration ==>
              SplitLines(Unlines(ManifestLines(images, duration))) == ManifestLines(images, duration)
  {
    if (forall i :: 0 <= i < |images| ==> '\n' !in images[i]) && '\n' !in duration {
      ManifestSingleLines(images, duration);
      SplitUnlines(ManifestLines(images, duration));
    }
  }

  /** The number of `duration` lines in `lines`. */
  function CountDurationLines(lines: seq<string>): nat
  {
    if lines == [] then 0
    else (if IsDurationLine(lines[0]) then 1 else 0) + CountDurationLines(lines[1..])
  }

  lemma {:induction false} CountAppend(a: seq<string>, b: seq<string>)
    ensures CountDurationLines(a + b) == CountDurationLines(a) + CountDurationLines(b)
    decreases |a|
  {
    if a == [] {
      assert a + b == b;
    } else {
      assert (a + b)[1..] == a[1..] + b;
      CountAppend(a[1..], b);
    }
  }

  /** A file line is never mistaken for a duration line. */
  lemma FileLineIsNotDuration(path: string)
    ensures !IsDurationLine(FileLine(path))
  {
    assert FileLine(path)[0] == 'f';
  }

  lemma DurationLineIsDuration(duration: string)
    ensures IsDurationLine(DurationLine(duration))
  {
  }

  lemma {:induction false} PairDurationCount(images: seq<string>, duration: string)
    ensures CountDurationLines(PairLines(images, duration)) == |images|
    decreases |images|
  {
    if images != [] {
      var f := FileLine(NormalizeSeparators(images[0]));
      var d := DurationLine(duration);
      var rest := PairLines(images[1..], duration);
      assert PairLines(images, duration) == [f, d] + rest;
      FileLineIsNotDuration(NormalizeSeparators(images[0]));
      DurationLineIsDuration(duration);
      assert CountDurationLines([f, d]) == 1 by {
        assert [d][1..] == [];
        assert CountDurationLines([d]) == 1;
        assert [f, d][1..] == [d];
      }
      CountAppend([f, d], rest);
      PairDurationCount(images[1..], duration);
    }
  }

  /** Of the 2N+1 lines, exactly N are duration lines, and each of them carries the
      duration passed in. */
  lemma {:induction false} ManifestDurations(images: seq<string>, duration: string)
    requires |images| >= 1
    ensures CountDurationLines(ManifestLines(images, duration)) == |images|
    ensures forall k :: 0 <= k < 2 * |images| + 1 && IsDurationLine(ManifestLines(images, duration)[k]) ==>
              ManifestLines(images, duration)[k] == DurationLine(duration)
  {
    var lines := ManifestLines(images, duration);
    var last := FileLine(NormalizeSeparators(images[|images| - 1]));
    PairDurationCount(images, duration);
    FileLineIsNotDuration(NormalizeSeparators(images[|images| - 1]));
    assert CountDurationLines([last]) == 0 by {
      assert [last][1..] == [];
    }
    CountAppend(PairLines(images, duration), [last]);
    forall k | 0 <= k < 2 * |images| + 1
      ensures IsDurationLine(lines[k]) ==> lines[k] == DurationLine(duration)
    {
      var i := k / 2;
      if k == 2 * |images| {
        FileLineIsNotDuration(NormalizeSeparators(images[|images| - 1]));
      } else if k % 2 == 0 {
        assert k == 2 * i && i < |images|;
        FileLineIsNotDuration(NormalizeSeparators(images[i]));
      }
    }
  }

  lemma {:induction false} PairLinesSnoc(images: seq<string>, image: string, duration: string)
    ensures PairLines(images + [image], duration) ==
            PairLines(images, duration) + [FileLine(NormalizeSeparators(image)), DurationLine(duration)]
    decreases |images|
  {
    if images == [] {
      assert images + [image] == [image];
      assert [image][1..] == [];
    } else {
      assert (images + [image])[1..] == images[1..] + [image];
      PairLinesSnoc(images[1..], image, duration);
    }
  }

  lemma UnlinesPair(a: string, b: string)
    ensures Unlines([a, b]) == a + "\n" + b + "\n"
  {
    assert [b][1..] == [];
    assert Unlines([b]) == b + "\n";
    assert [a, b][1..] == [b];
  }

  /** One turn of the loop: the prefix of one more image adds that image's two lines. */
  lemma PairTextStep(images: seq<string>, index: nat, duration: string)
    requires index < |images|
    ensures Unlines(PairLines(images[..index + 1], duration)) ==
            Unlines(PairLines(images[..index], duration))
              + FileLine(NormalizeSeparators(images[index])) + "\n"
              + DurationLine(duration) + "\n"
  {
    var f := FileLine(NormalizeSeparators(images[index]));
    var d := DurationLine(duration);
    UnlinesPair(f, d);
    assert images[..index + 1] == images[..index] + [images[index]];
    PairLinesSnoc(images[..index], images[index], duration);
    UnlinesAppend(PairLines(images[..index], duration), [f, d]);
  }

  /** The manifest text is the text of the pairs followed by the repeated last file line. */
  lemma ManifestTextSplit(images: seq<string>, duration: string)
    requires |images| >= 1
    ensures ManifestText(images, duration) ==
            Unlines(PairLines(images, duration))
              + FileLine(NormalizeSeparators(images[|images| - 1])) + "\n"
  {
    var f := FileLine(NormalizeSeparators(images[|images| - 1]));
    assert Unlines([f]) == f + "\n" by {
      assert [f][1..] == [];
    }
    UnlinesAppend(PairLines(images, duration), [f]);
  }

  /** `createConcatFile`'s construction of `content`: the `forEach` appends a file line and a
      duration line per image, then the last image is appended again on its own. */
  method BuildConcatContent(images: seq<string>, duration: string) returns (content: string)
    requires |images| >= 1
    ensures content == ManifestText(images, duration)
  {
    content := "";
    var index := 0;
    while index < |images|
      invariant 0 <= index <= |images|
      invariant content == Unlines(PairLines(images[..index], duration))
    {
      var normalizedPath := NormalizeSeparators(images[index]);
      PairTextStep(images, index, duration);
      content := content + FileLine(normalizedPath) + "\n";
      content := content + DurationLine(duration) + "\n";
      index := index + 1;
    }
    assert images[..index] == images;
    var lastImage := NormalizeSeparators(images[|images| - 1]);
    ManifestTextSplit(images, duration);
    content := content + FileLine(lastImage) + "\n";
  }

  /** The written manifest holds no backslash, provided the duration token holds none
      (a printed JavaScript number never does). */
  lemma ManifestHasNoBackslash(images: seq<string>, duration: string)
    requires |images| >= 1
    requires '\\' !in duration
    ensures '\\' !in ManifestText(images, duration)
  {
    var lines := ManifestLines(images, duration);
    forall k | 0 <= k < |lines|
      ensures '\\' !in lines[k]
    {
      var i := k / 2;
      if k == |lines| - 1 {
        assert '\\' !in NormalizeSeparators(images[|images| - 1]);
      } else if k % 2 == 0 {
        assert k == 2 * i && i < |images|;
        assert '\\' !in NormalizeSeparators(images[i]);
      } else {
        assert k == 2 * i + 1 && i < |images|;
        assert lines[2 * i + 1] == DurationLine(duration);
      }
    }
    UnlinesChars(lines, '\\');
  }
}
