/** The exporter's HTTP side: the routing of a request and the scrape that
    runs the measurement program and writes its results into the three gauge
    families (exporter/src/lib.rs). */
module Exporter {
  import opened Text
  import opened Bbk

  // ---------------------------------------------------------------------------
  // Gauge families

  /** A gauge family as it is declared and registered: metric name, help
      text and label names. */
  datatype GaugeFamily = GaugeFamily(name: string, help: string, labelNames: seq<string>)

  /** Every family is keyed by the test server first, the network operator second. */
  const LABEL_NAMES: seq<string> := ["server", "network_operator"]

  const DOWNLOAD_FAMILY: GaugeFamily := GaugeFamily("bbk_download_speed_mbps", "Download speed in Mbit/s", LABEL_NAMES)
  const UPLOAD_FAMILY: GaugeFamily := GaugeFamily("bbk_upload_speed_mbps", "Upload speed in Mbit/s", LABEL_NAMES)
  const LATENCY_FAMILY: GaugeFamily := GaugeFamily("bbk_latency_ms", "Latency to test server in ms", LABEL_NAMES)

  /** A label pair: (server, network_operator). */
  type Labels = (string, string)

  /** The values of the three families, each a map from label pair to value. */
  datatype Gauges<F> = Gauges(download: map<Labels, F>, upload: map<Labels, F>, latency: map<Labels, F>)

  /** The families as registered at start-up, before any scrape. */
  function NoGauges<F>(): Gauges<F>
  {
    Gauges(map[], map[], map[])
  }

  /** The three families have been written at exactly the same label pairs. */
  ghost predicate Aligned<F>(g: Gauges<F>)
  {
    g.download.Keys == g.upload.Keys && g.upload.Keys == g.latency.Keys
  }

  /** The three families, as they are registered. */
  const FAMILIES: seq<GaugeFamily> := [DOWNLOAD_FAMILY, UPLOAD_FAMILY, LATENCY_FAMILY]

  /** The three families' metric names differ, and each is keyed by the
      same two label names. */
  lemma FamiliesRegistrable()
    ensures forall i, j :: 0 <= i < j < |FAMILIES| ==> FAMILIES[i].name != FAMILIES[j].name
    ensures forall i :: 0 <= i < |FAMILIES| ==> FAMILIES[i].labelNames == LABEL_NAMES
  {
  }

  /** The value a measurement gives to the label called `name`. */
  function LabelValue<F>(o: BbkOutput<F>, name: string): Option<string>
  {
    if name == "server" then Some(o.server)
    else if name == "network_operator" then Some(o.isp)
    else None
  }

  /** The label values of a measurement as `with_label_values` receives them:
      by position, server first, then the network operator. */
  function LabelValues<F>(o: BbkOutput<F>): seq<string>
  {
    [o.server, o.isp]
  }

  /** The label pair a measurement is recorded under. */
  function LabelsOf<F>(o: BbkOutput<F>): Labels
  {
    (LabelValues(o)[0], LabelValues(o)[1])
  }

  /** The positional label values line up with the declared label names:
      the value at each position is the one that name stands for. */
  lemma LabelsInDeclaredOrder<F>(o: BbkOutput<F>)
    ensures |LabelValues(o)| == |LABEL_NAMES|
    ensures forall i :: 0 <= i < |LABEL_NAMES| ==> LabelValue(o, LABEL_NAMES[i]) == Some(LabelValues(o)[i])
    ensures LabelsOf(o) == (LabelValue(o, "server").value, LabelValue(o, "network_operator").value)
  {
  }

  /** What the three families hold at one label pair. */
  function Entry<F>(g: Gauges<F>, k: Labels): (Option<F>, Option<F>, Option<F>)
  {
    (if k in g.download then Some(g.download[k]) else None,
     if k in g.upload then Some(g.upload[k]) else None,
     if k in g.latency then Some(g.latency[k]) else None)
  }

  /** The three `with_label_values(..).set(..)` calls of one successful
      scrape, as a value: each family is overwritten at the measurement's
      label pair. */
  function Record<F>(g: Gauges<F>, o: BbkOutput<F>): Gauges<F>
  {
    var k := LabelsOf(o);
    Gauges(g.download[k := o.download], g.upload[k := o.upload], g.latency[k := o.ping])
  }

  /** A recorded measurement is an absolute overwrite at its own label pair,
      in all three families, and nowhere else; no pair is removed. */
  lemma RecordOverwrites<F>(g: Gauges<F>, o: BbkOutput<F>)
    ensures Record(g, o).download.Keys == g.download.Keys + {LabelsOf(o)}
    ensures Record(g, o).upload.Keys == g.upload.Keys + {LabelsOf(o)}
    ensures Record(g, o).latency.Keys == g.latency.Keys + {LabelsOf(o)}
    ensures Entry(Record(g, o), LabelsOf(o)) == (Some(o.download), Some(o.upload), Some(o.ping))
    ensures forall k :: k != LabelsOf(o) ==> Entry(Record(g, o), k) == Entry(g, k)
  {
  }

  /** Writing the same measurement twice leaves what writing it once leaves. */
  lemma RecordIdempotent<F>(g: Gauges<F>, o: BbkOutput<F>)
    ensures Record(Record(g, o), o) == Record(g, o)
  {
  }

  /** Measurements under different label pairs do not interfere: their
      order does not matter. */
  lemma RecordCommutes<F>(g: Gauges<F>, a: BbkOutput<F>, b: BbkOutput<F>)
    requires LabelsOf(a) != LabelsOf(b)
    ensures Record(Record(g, a), b) == Record(Record(g, b), a)
  {
    var ka, kb := LabelsOf(a), LabelsOf(b);
    UpdatesCommute(g.download, ka, a.download, kb, b.download);
    UpdatesCommute(g.upload, ka, a.upload, kb, b.upload);
    UpdatesCommute(g.latency, ka, a.ping, kb, b.ping);
  }

  lemma UpdatesCommute<V>(m: map<Labels, V>, k1: Labels, v1: V, k2: Labels, v2: V)
    requires k1 != k2
    ensures m[k1 := v1][k2 := v2] == m[k2 := v2][k1 := v1]
  {
  }

  /** A write at one pair in all three families keeps them aligned. */
  lemma RecordKeepsAligned<F>(g: Gauges<F>, o: BbkOutput<F>)
    requires Aligned(g)
    ensures Aligned(Record(g, o))
  {
  }

  /** The gauges after the successful scrapes `runs`, oldest first. */
  function Replay<F>(g: Gauges<F>, runs: seq<BbkOutput<F>>): Gauges<F>
    decreases |runs|
  {
    if runs == [] then g else Record(Replay(g, runs[..|runs| - 1]), runs[|runs| - 1])
  }

  /** Recording one more measurement after a replay. */
  lemma ReplaySnoc<F>(runs: seq<BbkOutput<F>>, o: BbkOutput<F>)
    ensures Replay(NoGauges(), runs + [o]) == Record(Replay(NoGauges(), runs), o)
  {
    assert (runs + [o])[..|runs|] == runs;
  }

  /** The label pairs the measurements `runs` were recorded under. */
  ghost function KeysOf<F>(runs: seq<BbkOutput<F>>): set<Labels>
  {
    set i | 0 <= i < |runs| :: LabelsOf(runs[i])
  }

  /** Each family's pairs are those it started with plus the pair of every
      measurement: key sets only grow. */
  lemma {:induction false} ReplayKeys<F>(g: Gauges<F>, runs: seq<BbkOutput<F>>)
    ensures Replay(g, runs).download.Keys == g.download.Keys + KeysOf(runs)
    ensures Replay(g, runs).upload.Keys == g.upload.Keys + KeysOf(runs)
    ensures Replay(g, runs).latency.Keys == g.latency.Keys + KeysOf(runs)
    decreases |runs|
  {
    if runs != [] {
      ReplayKeys(g, runs[..|runs| - 1]);
      KeysOfSnoc(runs);
    }
  }

  lemma KeysOfSnoc<F>(runs: seq<BbkOutput<F>>)
    requires runs != []
    ensures KeysOf(runs) == KeysOf(runs[..|runs| - 1]) + {LabelsOf(runs[|runs| - 1])}
  {
    var init := runs[..|runs| - 1];
    forall k | k in KeysOf(runs) ensures k in KeysOf(init) + {LabelsOf(runs[|runs| - 1])} {
      var i :| 0 <= i < |runs| && LabelsOf(runs[i]) == k;
      if i < |runs| - 1 {
        assert init[i] == runs[i];
      }
    }
    forall k | k in KeysOf(init) ensures k in KeysOf(runs) {
      var i :| 0 <= i < |init| && LabelsOf(init[i]) == k;
      assert runs[i] == init[i];
    }
  }

  /** Starting from the registered, empty families, the three families always
      hold exactly the pairs of the measurements recorded so far. */
  lemma ReplayAligned<F>(runs: seq<BbkOutput<F>>)
    ensures Aligned(Replay(NoGauges(), runs))
    ensures Replay(NoGauges(), runs).download.Keys == KeysOf(runs)
  {
    ReplayKeys(NoGauges(), runs);
  }

  /** Last write wins: at the pair of measurement `i`, when no later
      measurement has that pair, the families hold that measurement's values. */
  lemma {:induction false} ReplayLatest<F>(g: Gauges<F>, runs: seq<BbkOutput<F>>, i: nat)
    requires i < |runs|
    requires forall j :: i < j < |runs| ==> LabelsOf(runs[j]) != LabelsOf(runs[i])
    ensures Entry(Replay(g, runs), LabelsOf(runs[i])) == (Some(runs[i].download), Some(runs[i].upload), Some(runs[i].ping))
    decreases |runs|
  {
    var last := |runs| - 1;
    if i < last {
      var init := runs[..last];
      assert init[i] == runs[i];
      forall j | i < j < |init| ensures LabelsOf(init[j]) != LabelsOf(init[i]) {
        assert init[j] == runs[j];
      }
      ReplayLatest(g, init, i);
    }
  }

  /** A pair no measurement was recorded under keeps what it held. */
  lemma {:induction false} ReplayUntouched<F>(g: Gauges<F>, runs: seq<BbkOutput<F>>, k: Labels)
    requires forall j :: 0 <= j < |runs| ==> LabelsOf(runs[j]) != k
    ensures Entry(Replay(g, runs), k) == Entry(g, k)
    decreases |runs|
  {
    if runs != [] {
      var init := runs[..|runs| - 1];
      forall j | 0 <= j < |init| ensures LabelsOf(init[j]) != k {
        assert init[j] == runs[j];
      }
      ReplayUntouched(g, init, k);
    }
  }

  // ---------------------------------------------------------------------------
  // Requests and responses

  /** The request methods hyper distinguishes. */
  datatype Method = Get | Head | Post | Put | Delete | Connect | Options | Trace | Patch | Extension(name: string)

  /** The parts of a request the exporter looks at: its method and the path of its URI. */
  datatype Request = Request(verb: Method, path: string)

  const OK: nat := 200
  const NOT_FOUND: nat := 404
  const INTERNAL_SERVER_ERROR: nat := 500

  const NOT_FOUND_BODY: string := "Not found"
  const FAILURE_BODY: string := "Failure while running bbk"

  /** The content type of the Prometheus text exposition format, version 0.0.4. */
  const TEXT_FORMAT: string := "text/plain; version=0.0.4"

  /** A response, or a connection dropped because the handler panicked. */
  datatype Response = Response(status: nat, contentType: Option<string>, body: string) | Aborted

  function NotFoundResponse(): Response
  {
    Response(NOT_FOUND, None, NOT_FOUND_BODY)
  }

  function FailureResponse(): Response
  {
    Response(INTERNAL_SERVER_ERROR, None, FAILURE_BODY)
  }

  /** The only request that runs a measurement: GET on `/metrics`. */
  predicate IsScrape(req: Request)
  {
    req.verb == Get && req.path == "/metrics"
  }

  // ---------------------------------------------------------------------------
  // One scrape

  /** `metrics` as a transition: the gauges after the scrape and the reply,
      given the outcome of the run and the encoder `render` (None when
      encoding fails). */
  function Scrape<F>(g: Gauges<F>, run: Outcome<BbkOutput<F>>, render: Gauges<F> -> Option<string>): (r: (Gauges<F>, Response))
    ensures run.Panicked? ==> r == (g, Aborted)
    ensures run.Returned? && run.result.Err? ==> r == (g, FailureResponse())
    ensures run.Returned? && run.result.Ok? ==> r.0 == Record(g, run.result.value)
    ensures r.1.Response? && r.1.status == OK <==> run.Returned? && run.result.Ok? && render(r.0).Some?
    ensures r.1.Response? && r.1.status == OK ==> r.1 == Response(OK, Some(TEXT_FORMAT), render(r.0).value)
    ensures r.1 == FailureResponse() <==> run.Returned? && (run.result.Err? || render(r.0).None?)
  {
    match run
    case Panicked => (g, Aborted)
    case Returned(Err(_)) => (g, FailureResponse())
    case Returned(Ok(o)) =>
      var g' := Record(g, o);
      match render(g')
      case None => (g', FailureResponse())
      case Some(body) => (g', Response(OK, Some(TEXT_FORMAT), body))
  }

  /** An encoding failure comes after the writes: the reply is 500 and yet
      the measurement stays recorded. */
  lemma EncodeFailureKeepsWrites<F>(g: Gauges<F>, o: BbkOutput<F>, render: Gauges<F> -> Option<string>)
    requires render(Record(g, o)).None?
    ensures Scrape(g, Returned(Ok(o)), render) == (Record(g, o), FailureResponse())
  {
  }

  /** The measurements a run adds to the log of recorded measurements. */
  function Recorded<F>(run: Outcome<BbkOutput<F>>): (log: seq<BbkOutput<F>>)
    ensures |log| <= 1
    ensures log != [] <==> run.Returned? && run.result.Ok?
    ensures log != [] ==> log[0] == run.result.value
  {
    if run.Returned? && run.result.Ok? then [run.result.value] else []
  }

  /** The exporter: its configuration and the process-wide gauge families,
      updated in place by each scrape. */
  class Exporter<F> {
    const config: Bbk
    var download: map<Labels, F>
    var upload: map<Labels, F>
    var latency: map<Labels, F>

    /** The measurements written so far, oldest first. */
    ghost var recorded: seq<BbkOutput<F>>
    /** The programs started so far, with their argument vectors. */
    ghost var started: seq<(string, seq<string>)>

    function State(): Gauges<F>
      reads this
    {
      Gauges(download, upload, latency)
    }

    /** The gauges are what the recorded measurements wrote into the
        registered families; hence the families stay aligned. */
    ghost predicate Valid()
      reads this
    {
      && State() == Replay(NoGauges(), recorded)
      && Aligned(State())
    }

    constructor (config: Bbk)
      ensures this.config == config
      ensures State() == NoGauges() && recorded == [] && started == []
      ensures Valid()
    {
      this.config := config;
      download, upload, latency := map[], map[], map[];
      recorded, started := [], [];
    }

    /** `metrics`: run the program once, then let its outcome decide the
        writes and the reply. */
    method Metrics(host: Host<F>, render: Gauges<F> -> Option<string>) returns (resp: Response)
      requires Valid()
      modifies this
      ensures Valid()
      ensures started == old(started) + [(config.path, Arguments(config))]
      ensures recorded == old(recorded) + Recorded(RunBbk(config, host))
      ensures (State(), resp) == Scrape(old(State()), RunBbk(config, host), render)
    {
      var run := RunBbk(config, host);
      started := started + [(config.path, Arguments(config))];
      resp := Apply(run, render);
    }

    /** The part of `metrics` after the run: a failed run answers 500 before
        any write; a successful one overwrites the three families at its
        label pair and then encodes them, answering 500 if encoding fails. */
    method Apply(run: Outcome<BbkOutput<F>>, render: Gauges<F> -> Option<string>) returns (resp: Response)
      requires Valid()
      modifies this
      ensures Valid()
      ensures started == old(started)
      ensures recorded == old(recorded) + Recorded(run)
      ensures (State(), resp) == Scrape(old(State()), run, render)
    {
      if run.Panicked? {
        return Aborted;
      }
      if run.result.Err? {
        return FailureResponse();
      }
      Set(run.result.value);
      var body := render(State());
      if body.None? {
        return FailureResponse();
      }
      return Response(OK, Some(TEXT_FORMAT), body.value);
    }

    /** The three `with_label_values(..).set(..)` calls: each family is
        overwritten at the measurement's label pair. */
    method Set(o: BbkOutput<F>)
      requires Valid()
      modifies this
      ensures Valid()
      ensures started == old(started)
      ensures recorded == old(recorded) + [o]
      ensures State() == Record(old(State()), o)
    {
      var key := LabelsOf(o);
      download := download[key := o.download];
      upload := upload[key := o.upload];
      latency := latency[key := o.ping];
      recorded := recorded + [o];
      ReplaySnoc(old(recorded), o);
      RecordKeepsAligned(old(State()), o);
    }

    /** `handle`: GET on `/metrics` scrapes; every other request is answered
        404 "Not found" without starting the program or touching a gauge. */
    method Handle(req: Request, host: Host<F>, render: Gauges<F> -> Option<string>) returns (resp: Response)
      requires Valid()
      modifies this
      ensures Valid()
      ensures !IsScrape(req) ==> resp == NotFoundResponse() && unchanged(this)
      ensures IsScrape(req) ==>
        && started == old(started) + [(config.path, Arguments(config))]
        && recorded == old(recorded) + Recorded(RunBbk(config, host))
        && (State(), resp) == Scrape(old(State()), RunBbk(config, host), render)
    {
      if IsScrape(req) {
        resp := Metrics(host, render);
      } else {
        resp := NotFoundResponse();
      }
    }
  }
}
