/** `parse_medium_filename`: Medium names each exported post
    `<date|draft>_<slug>-<uuid>.html`; the parser recovers the four parts. */
module MediumFilename {
  import opened Common
  import opened Strings

  /** The tuple `(uuid, slug, date, status)`; `date` is `None` for drafts. */
  datatype PostName = PostName(uuid: string, slug: string, date: Option<string>, status: string)

  /** `date, slug = filename.split("_")` raises unless the split gives exactly
      two pieces; the error records how many it gave. */
  datatype FilenameError = WrongPieceCount(pieces: nat)

  function ParseMediumFilename(filename: string): (r: Result<PostName, FilenameError>)
    ensures r.Success? <==> Count(filename, '_') == 1
    ensures r.Failure? ==> r.error.pieces == Count(filename, '_') + 1
    ensures r.Success? ==> r.value.status in {"draft", "published"}
    ensures r.Success? ==> (r.value.status == "draft" <==> r.value.date.None?)
    ensures r.Success? ==> '-' !in r.value.uuid && '.' !in r.value.uuid && '.' !in r.value.slug
  {
    var halves := Split(filename, '_');
    if |halves| != 2 then Failure(WrongPieceCount(|halves|))
    else
      var date := halves[0];
      var dotted := Split(halves[1], '.');
      var base := dotted[0];
      var parts := Split(base, '-');
      var uuid := parts[|parts| - 1];
      var slug := Join("-", parts[..|parts| - 1]);
      SplitAvoids(base, '-', '.');
      JoinAvoids("-", parts[..|parts| - 1], '.');
      if date == "draft" then Success(PostName(uuid, slug, None, "draft"))
      else Success(PostName(uuid, slug, Some(date), "published"))
  }

  /** Composing a filename in the export's pattern and parsing it recovers the
      pieces: the date (or `draft`) before the underscore, the uuid as the last
      hyphen-separated token before the first dot, and the rest as the slug. */
  lemma ParseComposed(filename: string, date: string, slug: string, uuid: string, ext: string)
    requires filename == date + "_" + slug + "-" + uuid + "." + ext
    requires '_' !in date && '_' !in slug && '_' !in uuid && '_' !in ext
    requires '.' !in slug && '.' !in uuid && '-' !in uuid
    ensures ParseMediumFilename(filename) ==
      if date == "draft" then Success(PostName(uuid, slug, None, "draft"))
      else Success(PostName(uuid, slug, Some(date), "published"))
  {
    var base := slug + "-" + uuid;
    var tail := base + "." + ext;
    assert filename == date + ['_'] + tail;
    assert '_' !in tail;
    SplitWhole(tail, '_');
    SplitAfterPiece(date, tail, '_');
    assert '.' !in base;
    assert tail == base + ['.'] + ext;
    SplitAfterPiece(base, ext, '.');
    assert base == slug + ['-'] + uuid;
    SplitConcat(slug, uuid, '-');
    SplitWhole(uuid, '-');
    var parts := Split(base, '-');
    assert parts == Split(slug, '-') + [uuid];
    assert parts[..|parts| - 1] == Split(slug, '-');
    JoinSplit(slug, '-');
  }
}

/** The two filenames the repository's tests check. */
module MediumFilenameExamples {
  import opened Common
  import opened MediumFilename

  /** The published post of the repository's test,
      `2016-06-13_Machine-Learning-is-Fun--Part-3--Deep-Learning-and-Convolutional-Neural-Networks-f40359318721.html`.
      The literal is passed in as pieces so that the proof goes through
      `ParseComposed` rather than evaluating the parser on the literal. */
  lemma PublishedExample(date: string, s1: string, s2: string, s3: string, uuid: string)
    requires date == "2016-06-13" && uuid == "f40359318721"
    requires s1 == "Machine-Learning-is-Fun--" && s2 == "Part-3--Deep-Learning-and-"
    requires s3 == "Convolutional-Neural-Networks"
    ensures ParseMediumFilename(date + "_" + (s1 + s2 + s3) + "-" + uuid + "." + "html")
      == Success(PostName(uuid, s1 + s2 + s3, Some("2016-06-13"), "published"))
  {
    var slug := s1 + s2 + s3;
    PublishedPieces(date, s1, s2, s3, uuid);
    ParseComposed(date + "_" + slug + "-" + uuid + "." + "html", date, slug, uuid, "html");
  }

  lemma PublishedPieces(date: string, s1: string, s2: string, s3: string, uuid: string)
    requires date == "2016-06-13" && uuid == "f40359318721"
    requires s1 == "Machine-Learning-is-Fun--" && s2 == "Part-3--Deep-Learning-and-"
    requires s3 == "Convolutional-Neural-Networks"
    ensures '_' !in date && '_' !in s1 + s2 + s3 && '_' !in uuid && '_' !in "html"
    ensures '.' !in s1 + s2 + s3 && '.' !in uuid && '-' !in uuid && date != "draft"
  {
    SlugPiecesAvoid(s1, s2, s3);
    ConcatAvoids(s1, s2, s3, '_');
    ConcatAvoids(s1, s2, s3, '.');
    assert |date| != |"draft"|;
  }

  lemma SlugPiecesAvoid(s1: string, s2: string, s3: string)
    requires s1 == "Machine-Learning-is-Fun--" && s2 == "Part-3--Deep-Learning-and-"
    requires s3 == "Convolutional-Neural-Networks"
    ensures '_' !in s1 && '_' !in s2 && '_' !in s3
    ensures '.' !in s1 && '.' !in s2 && '.' !in s3
  {
    FirstPieceAvoids(s1);
    SecondPieceAvoids(s2);
    ThirdPieceAvoids(s3);
  }

  lemma FirstPieceAvoids(s: string)
    requires s == "Machine-Learning-is-Fun--"
    ensures '_' !in s && '.' !in s
  {
  }

  lemma SecondPieceAvoids(s: string)
    requires s == "Part-3--Deep-Learning-and-"
    ensures '_' !in s && '.' !in s
  {
  }

  lemma ThirdPieceAvoids(s: string)
    requires s == "Convolutional-Neural-Networks"
    ensures '_' !in s && '.' !in s
  {
  }

  lemma ConcatAvoids(a: string, b: string, d: string, c: char)
    requires c !in a && c !in b && c !in d
    ensures c !in a + b + d
  {
  }

  /** The draft post of the repository's test. */
  lemma DraftExample(filename: string)
    requires filename == "draft_test-7e48eb14931e.html"
    ensures ParseMediumFilename(filename) == Success(PostName("7e48eb14931e", "test", None, "draft"))
  {
    DraftComposed(filename, "draft", "test", "7e48eb14931e", "html");
    ParseComposed(filename, "draft", "test", "7e48eb14931e", "html");
  }

  lemma DraftComposed(filename: string, kind: string, slug: string, uuid: string, ext: string)
    requires filename == "draft_test-7e48eb14931e.html"
    requires kind == "draft" && slug == "test" && uuid == "7e48eb14931e" && ext == "html"
    ensures filename == kind + "_" + slug + "-" + uuid + "." + ext
    ensures '_' !in kind && '_' !in slug && '_' !in uuid && '_' !in ext
    ensures '.' !in slug && '.' !in uuid && '-' !in uuid
  {
    DraftJoined(filename, kind, slug, uuid, ext);
    DraftPiecesAvoid(kind, slug, uuid, ext);
  }

  lemma DraftJoined(filename: string, kind: string, slug: string, uuid: string, ext: string)
    requires filename == "draft_test-7e48eb14931e.html"
    requires kind == "draft" && slug == "test" && uuid == "7e48eb14931e" && ext == "html"
    ensures filename == kind + "_" + slug + "-" + uuid + "." + ext
  {
  }

  lemma DraftPiecesAvoid(kind: string, slug: string, uuid: string, ext: string)
    requires kind == "draft" && slug == "test" && uuid == "7e48eb14931e" && ext == "html"
    ensures '_' !in kind && '_' !in slug && '_' !in uuid && '_' !in ext
    ensures '.' !in slug && '.' !in uuid && '-' !in uuid
  {
  }
}
