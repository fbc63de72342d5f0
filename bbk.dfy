/** The runner: it builds the measurement program's argument vector, runs the
    program, and parses the one CSV line it prints into a measurement record.
    The float type `F` and the reading of float text are left abstract. */
module Bbk {
  import opened Text

  /** One parsed measurement: three floats, three verbatim text fields and
      the measurement's 64-bit identifier. */
  datatype BbkOutput<F> = BbkOutput(
    download: F,
    upload: F,
    ping: F,
    server: string,
    isp: string,
    supportId: string,
    measurementId: U64)

  datatype BbkError =
    | FloatParseError(floatKind: FloatErrorKind)
    | IntParseError(intKind: IntErrorKind)
    | StringParseError
    | ProgramError

  /** How a call ends: it returns a result, or it panics (the line did not
      hold exactly seven pieces and the fixed-size destructuring unwraps an error). */
  datatype Outcome<T> = Returned(result: Result<T, BbkError>) | Panicked

  /** The number of comma-separated pieces of a measurement line. */
  const FIELD_COUNT: nat := 7

  // ---------------------------------------------------------------------------
  // Parsing one measurement line

  /** A float field: trimmed, read, and a failure turned into FloatParseError. */
  function FloatField<F>(read: string -> Option<F>, piece: string): (r: Result<F, BbkError>)
    ensures r.Ok? ==> ParseF64(read, Trim(piece)) == Ok(r.value)
    ensures r.Err? ==> ParseF64(read, Trim(piece)).Err? && r.error == FloatParseError(ParseF64(read, Trim(piece)).error)
  {
    match ParseF64(read, Trim(piece))
    case Ok(f) => Ok(f)
    case Err(kind) => Err(FloatParseError(kind))
  }

  /** A field whose trimmed text is read as `f` yields `f`. */
  lemma FloatFieldOk<F>(read: string -> Option<F>, piece: string, f: F)
    requires Trim(piece) != [] && read(Trim(piece)) == Some(f)
    ensures FloatField(read, piece) == Ok(f)
  {
  }

  /** A blank or all-whitespace float piece trims to nothing and fails with
      kind Empty, whatever `read` would make of the empty text. */
  lemma FloatFieldBlank<F>(read: string -> Option<F>, piece: string)
    requires AllWhitespace(piece)
    ensures FloatField(read, piece) == Err(FloatParseError(FloatErrorKind.Empty))
  {
  }

  /** The measurement-id field: trimmed, parsed as u64, and a failure turned
      into IntParseError. */
  function IdField(piece: string): (r: Result<U64, BbkError>)
    ensures r.Ok? ==> ParseU64(Trim(piece)) == Ok(r.value)
    ensures r.Err? ==> ParseU64(Trim(piece)).Err? && r.error == IntParseError(ParseU64(Trim(piece)).error)
  {
    match ParseU64(Trim(piece))
    case Ok(n) => Ok(n)
    case Err(kind) => Err(IntParseError(kind))
  }

  /** The record built from the seven pieces, fields taken in declaration
      order so that the first field that fails decides the error. */
  function FromPieces<F>(pieces: seq<string>, read: string -> Option<F>): (r: Result<BbkOutput<F>, BbkError>)
    requires |pieces| == FIELD_COUNT
    ensures r.Ok? ==>
      && FloatField(read, pieces[0]) == Ok(r.value.download)
      && FloatField(read, pieces[1]) == Ok(r.value.upload)
      && FloatField(read, pieces[2]) == Ok(r.value.ping)
      && r.value.server == pieces[3] && r.value.isp == pieces[4] && r.value.supportId == pieces[5]
      && IdField(pieces[6]) == Ok(r.value.measurementId)
    ensures r.Err? ==> r.error.FloatParseError? || r.error.IntParseError?
  {
    var download :- FloatField(read, pieces[0]);
    var upload :- FloatField(read, pieces[1]);
    var ping :- FloatField(read, pieces[2]);
    var measurementId :- IdField(pieces[6]);
    Ok(BbkOutput(download, upload, ping, pieces[3], pieces[4], pieces[5], measurementId))
  }

  /** When the four numeric pieces all parse, the record holds their values
      and the text pieces. */
  lemma FromPiecesOk<F>(pieces: seq<string>, read: string -> Option<F>, o: BbkOutput<F>)
    requires |pieces| == FIELD_COUNT
    requires FloatField(read, pieces[0]) == Ok(o.download)
    requires FloatField(read, pieces[1]) == Ok(o.upload)
    requires FloatField(read, pieces[2]) == Ok(o.ping)
    requires IdField(pieces[6]) == Ok(o.measurementId)
    requires o.server == pieces[3] && o.isp == pieces[4] && o.supportId == pieces[5]
    ensures FromPieces(pieces, read) == Ok(o)
  {
  }

  /** `BbkOutput::from_str`. It panics unless the line holds exactly six commas.
      On success the text fields are the fourth to sixth pieces verbatim and
      the numeric fields are read from the trimmed first, second, third and
      seventh pieces. It never reports a process or decoding error. */
  function FromStr<F>(s: string, read: string -> Option<F>): (r: Outcome<BbkOutput<F>>)
    ensures r.Panicked? <==> multiset(s)[','] != FIELD_COUNT - 1
    ensures r.Returned? ==> r.result.Err? || Parses(s, read, r.result.value)
    ensures r.Returned? && r.result.Err? ==> r.result.error.FloatParseError? || r.result.error.IntParseError?
  {
    SplitCount(s, ',');
    var pieces := Split(s, ',');
    if |pieces| != FIELD_COUNT then Panicked else Returned(FromPieces(pieces, read))
  }

  /** `o` is what the seven pieces of `s` say: the numeric pieces parsed after
      trimming, the text pieces exactly as written, and none holding a comma. */
  ghost predicate Parses<F>(s: string, read: string -> Option<F>, o: BbkOutput<F>)
  {
    var pieces := Split(s, ',');
    && |pieces| == FIELD_COUNT
    && ParseF64(read, Trim(pieces[0])) == Ok(o.download)
    && ParseF64(read, Trim(pieces[1])) == Ok(o.upload)
    && ParseF64(read, Trim(pieces[2])) == Ok(o.ping)
    && o.server == pieces[3] && o.isp == pieces[4] && o.supportId == pieces[5]
    && ',' !in o.server && ',' !in o.isp && ',' !in o.supportId
    && ParseU64(Trim(pieces[6])) == Ok(o.measurementId)
  }

  /** The order in which the fields are checked: download, upload, ping, then
      the measurement id; the first that fails is the error, and the line
      parses exactly when all four do. */
  lemma FromStrErrorOrder<F>(s: string, read: string -> Option<F>)
    requires |Split(s, ',')| == FIELD_COUNT
    ensures var p := Split(s, ',');
      var d, u, g, m := ParseF64(read, Trim(p[0])), ParseF64(read, Trim(p[1])),
                        ParseF64(read, Trim(p[2])), ParseU64(Trim(p[6]));
      var r := FromStr(s, read).result;
      && (r.Ok? <==> d.Ok? && u.Ok? && g.Ok? && m.Ok?)
      && (d.Err? ==> r == Err(FloatParseError(d.error)))
      && (d.Ok? && u.Err? ==> r == Err(FloatParseError(u.error)))
      && (d.Ok? && u.Ok? && g.Err? ==> r == Err(FloatParseError(g.error)))
      && (d.Ok? && u.Ok? && g.Ok? && m.Err? ==> r == Err(IntParseError(m.error)))
  {
  }

  /** The line the measurement program prints for `o`, given how it spells a float. */
  function Format<F>(o: BbkOutput<F>, show: F -> string): string
  {
    Join(FormatPieces(o, show), ',')
  }

  /** The spelling of `f` is read back as `f`, holds no comma and has no
      whitespace at either end. */
  ghost predicate ReadsBack<F>(show: F -> string, read: string -> Option<F>, f: F)
  {
    var t := show(f);
    && t != [] && ',' !in t && read(t) == Some(f)
    && !IsWhitespace(t[0]) && !IsWhitespace(t[|t| - 1])
  }

  /** Parsing the printed line gives the record back, provided the text
      fields hold no comma and each float's spelling is read back as that
      float and carries no surrounding whitespace. */
  lemma FromStrFormat<F>(o: BbkOutput<F>, show: F -> string, read: string -> Option<F>)
    requires ',' !in o.server && ',' !in o.isp && ',' !in o.supportId
    requires ReadsBack(show, read, o.download) && ReadsBack(show, read, o.upload) && ReadsBack(show, read, o.ping)
    ensures FromStr(Format(o, show), read) == Returned(Ok(o))
  {
    var pieces := FormatPieces(o, show);
    FormatSplits(o, show);
    FormatPiecesParse(o, show, read);
  }

  /** The seven pieces of the printed line. */
  function FormatPieces<F>(o: BbkOutput<F>, show: F -> string): (pieces: seq<string>)
    ensures |pieces| == FIELD_COUNT
  {
    [show(o.download), show(o.upload), show(o.ping), o.server, o.isp, o.supportId, Decimal(o.measurementId)]
  }

  lemma FormatSplits<F>(o: BbkOutput<F>, show: F -> string)
    requires ',' !in o.server && ',' !in o.isp && ',' !in o.supportId
    requires ',' !in show(o.download) && ',' !in show(o.upload) && ',' !in show(o.ping)
    ensures Split(Format(o, show), ',') == FormatPieces(o, show)
  {
    var id := Decimal(o.measurementId);
    assert ',' !in id by {
      forall i | 0 <= i < |id| ensures id[i] != ',' {
        assert IsDigit(id[i]);
      }
    }
    SplitJoin(FormatPieces(o, show), ',');
  }

  lemma FormatPiecesParse<F>(o: BbkOutput<F>, show: F -> string, read: string -> Option<F>)
    requires ReadsBack(show, read, o.download) && ReadsBack(show, read, o.upload) && ReadsBack(show, read, o.ping)
    ensures FromPieces(FormatPieces(o, show), read) == Ok(o)
  {
    var pieces := FormatPieces(o, show);
    Trimmed(pieces[0]);
    Trimmed(pieces[1]);
    Trimmed(pieces[2]);
    Trimmed(pieces[6]);
    FloatFieldOk(read, pieces[0], o.download);
    FloatFieldOk(read, pieces[1], o.upload);
    FloatFieldOk(read, pieces[2], o.ping);
    ParseDecimal(o.measurementId);
    FromPiecesOk(pieces, read, o);
  }

  /** A string that neither starts nor ends with whitespace is its own trim. */
  lemma Trimmed(x: string)
    requires x != [] && !IsWhitespace(x[0]) && !IsWhitespace(x[|x| - 1])
    ensures Trim(x) == x
  {
    assert x == [] + x + [];
    TrimPadded([], x, []);
  }

  /** The numeric pieces count only through their trimmed text: pieces that
      differ only in surrounding whitespace on those fields parse alike. */
  lemma FromStrTrimsNumbers<F>(pieces: seq<string>, padded: seq<string>, read: string -> Option<F>)
    requires |pieces| == FIELD_COUNT && |padded| == FIELD_COUNT
    requires forall i :: 0 <= i < FIELD_COUNT ==> ',' !in pieces[i] && ',' !in padded[i]
    requires Trim(padded[0]) == Trim(pieces[0]) && Trim(padded[1]) == Trim(pieces[1])
    requires Trim(padded[2]) == Trim(pieces[2]) && Trim(padded[6]) == Trim(pieces[6])
    requires padded[3] == pieces[3] && padded[4] == pieces[4] && padded[5] == pieces[5]
    ensures FromStr(Join(padded, ','), read) == FromStr(Join(pieces, ','), read)
  {
    SplitJoin(padded, ',');
    SplitJoin(pieces, ',');
    FromPiecesSameFields(pieces, padded, read);
  }

  lemma FromPiecesSameFields<F>(pieces: seq<string>, padded: seq<string>, read: string -> Option<F>)
    requires |pieces| == FIELD_COUNT && |padded| == FIELD_COUNT
    requires Trim(padded[0]) == Trim(pieces[0]) && Trim(padded[1]) == Trim(pieces[1])
    requires Trim(padded[2]) == Trim(pieces[2]) && Trim(padded[6]) == Trim(pieces[6])
    requires padded[3] == pieces[3] && padded[4] == pieces[4] && padded[5] == pieces[5]
    ensures FromPieces(padded, read) == FromPieces(pieces, read)
  {
    assert FloatField(read, padded[0]) == FloatField(read, pieces[0]);
    assert FloatField(read, padded[1]) == FloatField(read, pieces[1]);
    assert FloatField(read, padded[2]) == FloatField(read, pieces[2]);
    assert IdField(padded[6]) == IdField(pieces[6]);
  }

  /** Join spelled out for a line of seven pieces. */
  lemma JoinSeven(p: seq<string>, sep: char)
    requires |p| == FIELD_COUNT
    ensures Join(p, sep) == p[0] + [sep] + p[1] + [sep] + p[2] + [sep] + p[3] + [sep] + p[4] + [sep] + p[5] + [sep] + p[6]
  {
    assert Join(p[6..], sep) == p[6];
    assert p[5..][1..] == p[6..];
    assert Join(p[5..], sep) == p[5] + [sep] + Join(p[6..], sep);
    assert p[4..][1..] == p[5..];
    assert Join(p[4..], sep) == p[4] + [sep] + Join(p[5..], sep);
    assert p[3..][1..] == p[4..];
    assert Join(p[3..], sep) == p[3] + [sep] + Join(p[4..], sep);
    assert p[2..][1..] == p[3..];
    assert Join(p[2..], sep) == p[2] + [sep] + Join(p[3..], sep);
    assert p[1..][1..] == p[2..];
    assert Join(p[1..], sep) == p[1] + [sep] + Join(p[2..], sep);
  }

  /** The line the unit test parses and the integration test's stub program prints. */
  const EXAMPLE_LINE: string :=
    "250.445" + "," + "254.074" + "," + "4.47409" + "," + "anycast-global-ipv4.bredbandskollen.se"
    + "," + "ISP AB" + "," + "support_id" + "," + "11111111"

  /** The same line with a download field that is not a number. */
  const NOT_A_FLOAT_LINE: string :=
    "not a float" + "," + "254.074" + "," + "4.47409" + "," + "anycast-global-ipv4.bredbandskollen.se"
    + "," + "ISP AB" + "," + "support_id" + "," + "11111111"

  const EXAMPLE_PIECES: seq<string> :=
    ["250.445", "254.074", "4.47409", "anycast-global-ipv4.bredbandskollen.se", "ISP AB", "support_id", "11111111"]

  lemma ExampleJoins()
    ensures Join(EXAMPLE_PIECES, ',') == EXAMPLE_LINE
  {
    JoinSeven(EXAMPLE_PIECES, ',');
  }

  lemma NotAFloatJoins()
    ensures Join(EXAMPLE_PIECES[0 := "not a float"], ',') == NOT_A_FLOAT_LINE
  {
    JoinSeven(EXAMPLE_PIECES[0 := "not a float"], ',');
  }

  /** The example line splits into the pieces the unit test names. */
  lemma ExampleSplits(line: string)
    requires line == EXAMPLE_LINE
    ensures var pieces := Split(line, ',');
      && |pieces| == FIELD_COUNT
      && pieces[0] == "250.445" && pieces[1] == "254.074" && pieces[2] == "4.47409"
      && pieces[3] == "anycast-global-ipv4.bredbandskollen.se" && pieces[4] == "ISP AB"
      && pieces[5] == "support_id" && pieces[6] == "11111111"
  {
    ExampleSplitsWhole();
    ExamplePiecesAt(Split(line, ','));
  }

  lemma ExampleSplitsWhole()
    ensures Split(EXAMPLE_LINE, ',') == EXAMPLE_PIECES
  {
    ExampleJoins();
    ExampleCommaFree(EXAMPLE_PIECES);
    SplitJoin(EXAMPLE_PIECES, ',');
  }

  /** None of the example's pieces holds a comma. */
  lemma ExampleCommaFree(pieces: seq<string>)
    requires |pieces| == FIELD_COUNT
    requires pieces[0] in ["250.445", "not a float"] && pieces[1] == "254.074" && pieces[2] == "4.47409"
    requires pieces[3] == "anycast-global-ipv4.bredbandskollen.se" && pieces[4] == "ISP AB"
    requires pieces[5] == "support_id" && pieces[6] in ["11111111", "11111111\n"]
    ensures forall i :: 0 <= i < |pieces| ==> ',' !in pieces[i]
  {
    CommaFree7(pieces);
  }

  /** Spelled out per index so that the solver never unfolds the literal
      pieces inside a quantifier, which is far more expensive. */
  lemma CommaFree7(pieces: seq<string>)
    requires |pieces| == FIELD_COUNT
    requires ',' !in pieces[0] && ',' !in pieces[1] && ',' !in pieces[2] && ',' !in pieces[3]
    requires ',' !in pieces[4] && ',' !in pieces[5] && ',' !in pieces[6]
    ensures forall i :: 0 <= i < |pieces| ==> ',' !in pieces[i]
  {
    forall i | 0 <= i < |pieces| ensures ',' !in pieces[i] {
      if i == 0 {} else if i == 1 {} else if i == 2 {} else if i == 3 {} else if i == 4 {} else if i == 5 {} else {}
    }
  }

  /** Reads the pieces off the literal display one index at a time; kept
      apart so that the display is not in scope of the split proof. */
  lemma ExamplePiecesAt(pieces: seq<string>)
    requires pieces == EXAMPLE_PIECES
    ensures && |pieces| == FIELD_COUNT
      && pieces[0] == "250.445" && pieces[1] == "254.074" && pieces[2] == "4.47409"
      && pieces[3] == "anycast-global-ipv4.bredbandskollen.se" && pieces[4] == "ISP AB"
      && pieces[5] == "support_id" && pieces[6] == "11111111"
  {
  }

  lemma NotAFloatSplits(line: string)
    requires line == NOT_A_FLOAT_LINE
    ensures var pieces := Split(line, ',');
      |pieces| == FIELD_COUNT && pieces[0] == "not a float"
  {
    NotAFloatJoins();
    ExampleCommaFree(EXAMPLE_PIECES[0 := "not a float"]);
    SplitJoin(EXAMPLE_PIECES[0 := "not a float"], ',');
  }

  /** The example's float pieces are already trimmed, so each is read as written. */
  lemma ExampleFloat<F>(x: string, read: string -> Option<F>, f: F)
    requires x == "250.445" || x == "254.074" || x == "4.47409"
    requires read(x) == Some(f)
    ensures FloatField(read, x) == Ok(f)
  {
    FloatFieldOk(read, x, f) by { Trimmed(x); }
  }

  /** The example's id piece, built digit by digit. */
  lemma ExampleId(x: string)
    requires x == "11111111"
    ensures IdField(x) == Ok(11111111)
  {
    var s1 := "1";
    assert Value(s1) == 1 by { assert s1[..0] == []; }
    ValueSnoc(s1, '1');
    var s2 := s1 + "1";
    ValueSnoc(s2, '1');
    var s3 := s2 + "1";
    ValueSnoc(s3, '1');
    var s4 := s3 + "1";
    ValueSnoc(s4, '1');
    var s5 := s4 + "1";
    ValueSnoc(s5, '1');
    var s6 := s5 + "1";
    ValueSnoc(s6, '1');
    var s7 := s6 + "1";
    ValueSnoc(s7, '1');
    var s := s7 + "1";
    assert s == x;
    Trimmed(x);
  }

  lemma ExamplePieces<F>(pieces: seq<string>, read: string -> Option<F>, d: F, u: F, p: F)
    requires |pieces| == FIELD_COUNT
    requires pieces[0] == "250.445" && pieces[1] == "254.074" && pieces[2] == "4.47409"
    requires IdField(pieces[6]) == Ok(11111111)
    requires read("250.445") == Some(d) && read("254.074") == Some(u) && read("4.47409") == Some(p)
    ensures FromPieces(pieces, read) == Ok(BbkOutput(d, u, p, pieces[3], pieces[4], pieces[5], 11111111))
  {
    ExampleFloat(pieces[0], read, d);
    ExampleFloat(pieces[1], read, u);
    ExampleFloat(pieces[2], read, p);
    FromPiecesOk(pieces, read, BbkOutput(d, u, p, pieces[3], pieces[4], pieces[5], 11111111));
  }

  /** The line of the unit test parses to the record it expects. */
  lemma FromStrExample<F>(line: string, read: string -> Option<F>, d: F, u: F, p: F)
    requires line == EXAMPLE_LINE
    requires read("250.445") == Some(d) && read("254.074") == Some(u) && read("4.47409") == Some(p)
    ensures FromStr(line, read)
         == Returned(Ok(BbkOutput(d, u, p, "anycast-global-ipv4.bredbandskollen.se", "ISP AB", "support_id", 11111111)))
  {
    ExampleSplits(line);
    ExampleId(Split(line, ',')[6]);
    ExamplePieces(Split(line, ','), read, d, u, p);
  }

  /** The integration test's stub prints the line with the newline `echo`
      adds; it lands in the last piece, which is trimmed, so the line parses alike. */
  lemma FromStrEchoedExample<F>(line: string, read: string -> Option<F>, d: F, u: F, p: F)
    requires line == EXAMPLE_LINE + "\n"
    requires read("250.445") == Some(d) && read("254.074") == Some(u) && read("4.47409") == Some(p)
    ensures FromStr(line, read)
         == Returned(Ok(BbkOutput(d, u, p, "anycast-global-ipv4.bredbandskollen.se", "ISP AB", "support_id", 11111111)))
  {
    EchoedSplits(line);
    EchoedId(Split(line, ',')[6]);
    ExamplePieces(Split(line, ','), read, d, u, p);
  }

  lemma EchoedSplits(line: string)
    requires line == EXAMPLE_LINE + "\n"
    ensures var pieces := Split(line, ',');
      && |pieces| == FIELD_COUNT
      && pieces[0] == "250.445" && pieces[1] == "254.074" && pieces[2] == "4.47409"
      && pieces[3] == "anycast-global-ipv4.bredbandskollen.se" && pieces[4] == "ISP AB"
      && pieces[5] == "support_id" && pieces[6] == "11111111\n"
  {
    EchoedSplitsWhole();
    EchoedPiecesAt(Split(line, ','));
  }

  /** As ExamplePiecesAt, for the echoed line. */
  lemma EchoedPiecesAt(pieces: seq<string>)
    requires pieces == EXAMPLE_PIECES[6 := "11111111\n"]
    ensures && |pieces| == FIELD_COUNT
      && pieces[0] == "250.445" && pieces[1] == "254.074" && pieces[2] == "4.47409"
      && pieces[3] == "anycast-global-ipv4.bredbandskollen.se" && pieces[4] == "ISP AB"
      && pieces[5] == "support_id" && pieces[6] == "11111111\n"
  {
  }

  lemma EchoedSplitsWhole()
    ensures Split(EXAMPLE_LINE + "\n", ',') == EXAMPLE_PIECES[6 := "11111111\n"]
  {
    var echoed := EXAMPLE_PIECES[6 := "11111111\n"];
    EchoedJoins(echoed);
    ExampleCommaFree(echoed);
    SplitJoin(echoed, ',');
  }

  lemma EchoedJoins(echoed: seq<string>)
    requires echoed == EXAMPLE_PIECES[6 := "11111111\n"]
    ensures Join(echoed, ',') == EXAMPLE_LINE + "\n"
  {
    JoinSeven(echoed, ',');
    var front := "250.445" + "," + "254.074" + "," + "4.47409" + "," + "anycast-global-ipv4.bredbandskollen.se"
      + "," + "ISP AB" + "," + "support_id" + ",";
    assert "11111111\n" == "11111111" + "\n";
    assert front + ("11111111" + "\n") == (front + "11111111") + "\n";
  }

  /** The newline `echo` adds to the id piece is trimmed away. */
  lemma EchoedId(y: string)
    requires y == "11111111\n"
    ensures IdField(y) == Ok(11111111)
  {
    var x := "11111111";
    assert AllWhitespace("\n");
    assert y == [] + x + "\n";
    TrimPadded([], x, "\n");
    ExampleId(x);
  }

  /** The unit test with an invalid download piece: a download piece that is not a float fails with
      FloatParseError although every other piece is valid. */
  lemma FromStrNotAFloat<F>(line: string, read: string -> Option<F>)
    requires line == NOT_A_FLOAT_LINE
    requires read("not a float") == None
    ensures FromStr(line, read) == Returned(Err(FloatParseError(FloatErrorKind.Invalid)))
  {
    NotAFloatSplits(line);
    NotAFloatPiece(Split(line, ',')[0], read);
  }

  lemma NotAFloatPiece<F>(x: string, read: string -> Option<F>)
    requires x == "not a float" && read(x) == None
    ensures FloatField(read, x) == Err(FloatParseError(FloatErrorKind.Invalid))
  {
    Trimmed(x);
  }

  // ---------------------------------------------------------------------------
  // Running the program

  /** The runner's configuration: the program to start and the user's extra arguments. */
  datatype Bbk = Bbk(path: string, args: seq<string>)

  /** The flags always passed after the user's arguments. */
  const DEFAULT_ARGS: seq<string> := ["--csv", "--speedlimit=1", "--duration=1"]

  /** The argument vector: the user's arguments in their order, then the defaults. */
  function Arguments(b: Bbk): (argv: seq<string>)
    ensures |argv| == |b.args| + |DEFAULT_ARGS|
    ensures argv[..|b.args|] == b.args
    ensures argv[|b.args|..] == DEFAULT_ARGS
  {
    b.args + DEFAULT_ARGS
  }

  type Byte = b: int | 0 <= b < 0x100

  /** What starting the program yields: it could not be started, or it ran
      to an exit status with the bytes it wrote to standard output. */
  datatype Spawn = SpawnFailed | Exited(status: int, stdout: seq<Byte>)

  /** The runner's surroundings: the process starter (program, argv), the
      UTF-8 decoder, and the reading of float text. */
  datatype Host<F> = Host(
    exec: (string, seq<string>) -> Spawn,
    utf8: seq<Byte> -> Option<string>,
    read: string -> Option<F>)

  /** `Bbk::run_bbk`: start the program with Arguments(b); a start failure
      is ProgramError; output that is not UTF-8 is StringParseError; otherwise
      the decoded output is parsed. The exit status is never looked at. */
  function RunBbk<F>(b: Bbk, host: Host<F>): (r: Outcome<BbkOutput<F>>)
    ensures r == Returned(Err(ProgramError)) <==> host.exec(b.path, Arguments(b)).SpawnFailed?
    ensures r == Returned(Err(StringParseError)) <==>
      host.exec(b.path, Arguments(b)).Exited? && host.utf8(host.exec(b.path, Arguments(b)).stdout).None?
    ensures r.Returned? && r.result.Ok? ==>
      && host.exec(b.path, Arguments(b)).Exited?
      && var text := host.utf8(host.exec(b.path, Arguments(b)).stdout);
         text.Some? && Parses(text.value, host.read, r.result.value)
    ensures host.exec(b.path, Arguments(b)).Exited? && host.utf8(host.exec(b.path, Arguments(b)).stdout).Some? ==>
      r == FromStr(host.utf8(host.exec(b.path, Arguments(b)).stdout).value, host.read)
  {
    match host.exec(b.path, Arguments(b))
    case SpawnFailed => Returned(Err(ProgramError))
    case Exited(_, stdout) =>
      match host.utf8(stdout)
      case None => Returned(Err(StringParseError))
      case Some(text) => FromStr(text, host.read)
  }

  /** Only standard output matters: two runs that print the same bytes give
      the same result whatever their exit statuses. */
  lemma RunBbkIgnoresStatus<F>(b: Bbk, h1: Host<F>, h2: Host<F>)
    requires h1.utf8 == h2.utf8 && h1.read == h2.read
    requires h1.exec(b.path, Arguments(b)).Exited? && h2.exec(b.path, Arguments(b)).Exited?
    requires h1.exec(b.path, Arguments(b)).stdout == h2.exec(b.path, Arguments(b)).stdout
    ensures RunBbk(b, h1) == RunBbk(b, h2)
  {
  }
}
