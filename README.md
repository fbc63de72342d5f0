# bbk-exporter, modelled in Dafny

bbk-exporter is a Prometheus exporter for the Bredbandskollen (bbk) speed
test. On every `GET /metrics` it starts the command-line speed-test program,
parses the one CSV line the program prints into a measurement, writes the
download speed, upload speed and latency into three gauge families keyed by
`(server, network_operator)`, and answers with the text exposition of every
gauge. Any other request is answered 404.

The model has three modules:

- `Text` (text.dfy): the parts of Rust's standard library the parser relies on.
  These are `str::split` with a one-character pattern, `str::trim` with the
  Unicode White_Space set, `u64::from_str` with its error kinds and its
  left-to-right digit loop, and `f64::from_str`. Float reading is an
  uninterpreted partial function `read` that the caller passes in.
- `Bbk` (bbk.dfy): `src/bbk.rs`. It holds the measurement record, the error
  variants, `BbkOutput::from_str` and `Bbk::run_bbk`. A line that does not
  split into exactly seven pieces makes `from_str` panic at its `unwrap`.
  That case is the separate `Panicked` outcome. Starting the program and
  decoding its output are functions passed in through `Host`.
- `Exporter` (exporter.dfy): `exporter/src/lib.rs`. It holds the three gauge
  families and the `Exporter` class, whose map fields are the process-wide
  gauges.
  - `Metrics` runs the program once, then updates the maps in place and
    answers.
  - `Handle` routes a request.
  - Each method is proved against the pure transition `Scrape`. A ghost log
    of recorded measurements ties the maps to `Replay` of that log.

Gauge values have the abstract type `F`. The model only stores them and never
computes with them.

`f64::from_str` accepts `inf` and `NaN`. The model's `read` is
unconstrained, so the model makes no claim that a parsed number is finite.

Two functions of the model carry no contract of their own and are described
through the lemmas and methods about them. `Exporter.Record` is the three
`with_label_values(..).set(..)` calls (exporter/src/lib.rs:64-72). Its rows
are `Exporter.RecordOverwrites`, `Exporter.RecordIdempotent`,
`Exporter.RecordCommutes` and `Exporter.RecordKeepsAligned`.
`Exporter.IsScrape` is the match on method and path
(exporter/src/lib.rs:91). Its row is `Exporter.Exporter.Handle`.

## Model

| member | source | states |
|---|---|---|
| Text.Split | src/bbk.rs:47 | `split(",")` yields at least one piece, and no piece contains the separator |
| Text.SplitCount | src/bbk.rs:47 | a line with n separators splits into exactly n + 1 pieces |
| Text.JoinSplit | src/bbk.rs:47 | rejoining the pieces with the separator gives back the original line |
| Text.SplitJoin | src/bbk.rs:47 | pieces that contain no separator are recovered by splitting their join |
| Text.Trim | src/bbk.rs:50-56 | trim is no longer than its input; it is empty exactly when the input is all whitespace; otherwise it neither starts nor ends with whitespace |
| Text.TrimUnique | src/bbk.rs:50-56 | whitespace + r + whitespace trims to r whenever r is empty or has no whitespace at its ends, so trim is fully characterised |
| Text.TrimPadded | src/bbk.rs:50-56 | adding whitespace on either side of a piece does not change its trim |
| Text.Accumulate | src/bbk.rs:56 | the u64 digit loop succeeds exactly when every character is a digit and the value fits in 64 bits; the result is that value; an all-digit input fails only with PosOverflow |
| Text.FirstBadDigit | src/bbk.rs:56 | a non-digit reached while the digits before it fit in 64 bits gives InvalidDigit, whatever follows it |
| Text.ParseU64 | src/bbk.rs:56 | `u64::from_str` succeeds exactly when the input, after one optional leading `+`, is a non-empty digit string whose value fits in 64 bits; it returns that value; it fails with Empty exactly on the empty string |
| Text.ParseDecimal | src/bbk.rs:56 | reading the decimal spelling of any 64-bit value gives that value back |
| Text.ParseF64 | src/bbk.rs:50-52 | float parsing succeeds exactly on non-empty text that `read` accepts, with `read`'s value; it fails with Empty exactly on the empty string |
| Bbk.FloatField | src/bbk.rs:50-52 | a float field succeeds exactly with the f64 parse of its trimmed piece; a failure becomes FloatParseError carrying the float error's kind |
| Bbk.FloatFieldBlank | src/bbk.rs:50-52 | an empty or all-whitespace float piece fails with FloatParseError of kind Empty, whatever `read` says about empty text |
| Bbk.FloatFieldOk | src/bbk.rs:50-52 | a piece whose non-empty trimmed text is read as f yields f |
| Bbk.IdField | src/bbk.rs:56 | the measurement id is the u64 parse of the trimmed piece; a failure becomes IntParseError carrying the int error's kind |
| Bbk.FromPieces | src/bbk.rs:49-57 | on success the numeric fields come from pieces 1-3 and 7, and server, isp and support_id are pieces 4-6 verbatim; every error is a float or an int parse error |
| Bbk.FromPiecesOk | src/bbk.rs:49-57 | when all four numeric pieces parse, the record is exactly those values plus the three verbatim pieces |
| Bbk.FromStr | src/bbk.rs:38-58 | `from_str` panics exactly when the line does not contain six commas; a success satisfies `Parses`, so the text fields are the verbatim, comma-free pieces 4-6 and the numbers are the f64 and u64 parses of the trimmed pieces; an error is only a float or an int parse error |
| Bbk.FromStrErrorOrder | src/bbk.rs:49-57 | the fields are checked in the order download, upload, ping, measurement_id; the first failure is the error (FloatParseError for the floats, IntParseError for the id); the line parses exactly when all four do |
| Bbk.FromStrFormat | src/bbk.rs:38-58 | a record printed as a CSV line parses back to the same record, provided its text fields are comma-free and its float spellings read back without surrounding whitespace |
| Bbk.FromStrTrimsNumbers | src/bbk.rs:50-56 | extra whitespace around the numeric pieces does not change the parse; the text pieces are compared verbatim |
| Bbk.FromStrExample | src/bbk.rs:86-100 | the unit-test line parses to server `anycast-global-ipv4.bredbandskollen.se`, isp `ISP AB`, support_id `support_id` and measurement_id 11111111, with the three floats as `read` gives them |
| Bbk.FromStrEchoedExample | exporter/tests/integration_test.rs:15 | the same line followed by the newline that `echo` adds gives the same record, because the last piece is trimmed |
| Bbk.FromStrNotAFloat | src/bbk.rs:101-110 | a line whose first piece is `not a float` fails with FloatParseError even though every other piece is valid |
| Bbk.Arguments | src/bbk.rs:69-70 | the argument vector is three longer than the user's arguments; it starts with the user's arguments in order and ends with `--csv`, `--speedlimit=1`, `--duration=1` |
| Bbk.RunBbk | src/bbk.rs:68-79 | a start failure is exactly ProgramError; output that is not UTF-8 is exactly StringParseError; output that decodes is handed to `from_str`, whose result (record, field error or panic) is the run's result; a success means the program ran and its decoded output parses to the record |
| Bbk.RunBbkIgnoresStatus | src/bbk.rs:73-76 | two runs that print the same bytes give the same result whatever their exit statuses |
| Exporter.FamiliesRegistrable | exporter/src/lib.rs:20-38 | the three registered families have distinct metric names and are all keyed by the label names `server`, `network_operator` |
| Exporter.LabelsInDeclaredOrder | exporter/src/lib.rs:64-72 | the label values passed by position are server then isp, and each lines up with the declared label name at that position, so the key is (server, network_operator) |
| Exporter.RecordOverwrites | exporter/src/lib.rs:64-72 | a successful scrape adds its `(server, isp)` pair to each family's keys; at that pair the three families hold download, upload and ping; every other pair keeps its entries; no pair is removed |
| Exporter.RecordIdempotent | exporter/src/lib.rs:64-72 | writing the same measurement twice leaves the same gauges as writing it once |
| Exporter.RecordCommutes | exporter/src/lib.rs:64-72 | writes under different label pairs do not interfere, so their order does not matter |
| Exporter.RecordKeepsAligned | exporter/src/lib.rs:64-72 | a write keeps the three families' key sets equal |
| Exporter.ReplayKeys | exporter/src/lib.rs:64-72 | after a sequence of successful scrapes, each family's keys are its initial keys plus the pair of every measurement, so key sets only grow |
| Exporter.ReplayAligned | exporter/src/lib.rs:20-38 | starting from the freshly registered empty families, the three families always have identical key sets: the pairs of the measurements recorded so far |
| Exporter.ReplayLatest | exporter/src/lib.rs:64-72 | last write wins: at a measurement's pair, when no later measurement has that pair, the families hold that measurement's values |
| Exporter.ReplayUntouched | exporter/src/lib.rs:64-72 | a pair no measurement was recorded under keeps what it held |
| Exporter.Scrape | exporter/src/lib.rs:47-85 | a failed run gives 500 `Failure while running bbk` with every gauge unchanged; a panic aborts with every gauge unchanged; a success overwrites the gauges; the reply is 200 with the exposition content type exactly when the run succeeded and encoding succeeded; it is 500 exactly when the run failed or encoding failed |
| Exporter.EncodeFailureKeepsWrites | exporter/src/lib.rs:64-78 | when encoding fails after a successful run, the reply is 500 but the new gauge values stay committed |
| Exporter.Exporter.constructor | exporter/src/lib.rs:20-38 | the registered families start empty and nothing has been run or recorded |
| Exporter.Exporter.Set | exporter/src/lib.rs:64-72 | the three fields are overwritten at the measurement's pair (the new state is Record of the old one); the measurement is appended to the log and the families stay aligned |
| Exporter.Exporter.Apply | exporter/src/lib.rs:53-84 | after the run, the new state and the reply are those of Scrape; a measurement is logged only on success; the invariant is kept |
| Exporter.Exporter.Metrics | exporter/src/lib.rs:47-85 | `metrics` starts the configured program with Arguments(config) once; the new state and the reply are Scrape of the old state and that run; the invariant (gauges = Replay of the recorded measurements, families aligned) is kept |
| Exporter.Exporter.Handle | exporter/src/lib.rs:87-101 | GET `/metrics` behaves as Metrics; every other request gets 404 `Not found`, starts no program and changes no gauge |

## Left out

- The HTTP server, its connection loop and task spawning (`run_exporter`, exporter/src/lib.rs:116-161) are left out. They are network I/O and concurrency. Concurrent scrapes that race on the same label pair are therefore not modelled: each scrape is one atomic step.
- Starting the program and logging are left out. `Command::output` is the `exec` parameter of `Host`, and the `println!`/`eprintln!` calls have no effect in the model.
- Floating-point parsing and values are left out. `f64::from_str` beyond its empty-input case is the uninterpreted `read`, and gauge values are the opaque type `F`.
- UTF-8 decoding is the `utf8` parameter of `Host`. It is not a decoder.
- Prometheus gathering and text encoding (`prometheus::gather`, `TextEncoder`) are library code. Together they are the `render` parameter, which returns None when encoding fails. As a result, the sorted family and label order of the exposition text is not modelled. Registering a family and its `unwrap` are not modelled either. The content type is the constant the library defines for text format 0.0.4.
- Exporter.Scrape: a panic in `from_str` is modelled as the reply `Aborted`, a dropped connection. How hyper turns the panicking task into a connection error is not modelled.
- The request is only its method and its URI path. URI parsing and query strings are not modelled.
- The command-line entry points (exporter/src/main.rs, src/main.rs) only wire command-line flags into `run_exporter`. src/main.rs is not part of this model: it calls `run_exporter` with two arguments while the library takes three.
