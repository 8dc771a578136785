/**
 * The HTTP handler of the back end: it turns every CVE item of an NVD CVE API 2.0
 * response into one call of the database function add_vulnerability, and then answers
 * with the rows a query returns, as a JSON list.
 *
 * The network fetch, the transaction and the query are not modelled: each insert's
 * outcome and each scanned row are given to the methods as sequences.
 */
module Server {

  datatype Option<T> = None | Some(value: T)

  // ---------------------------------------------------------------------------
  // The decoded NVD response (VulnrResponse). Scores are opaque reals: they are
  // only ever selected, never computed.
  // ---------------------------------------------------------------------------

  datatype CvssData = CvssData(baseScore: real)
  datatype CvssMetric = CvssMetric(cvssData: CvssData)
  datatype Description = Description(lang: string, value: string)
  datatype Metrics = Metrics(cvssMetricV2: seq<CvssMetric>, cvssMetricV31: seq<CvssMetric>)
  datatype Cve = Cve(
    id: string,
    published: string,
    vulnStatus: string,
    descriptions: seq<Description>,
    metrics: Metrics)
  datatype Entry = Entry(cve: Cve)
  datatype VulnrResponse = VulnrResponse(vulnerabilities: seq<Entry>)

  /** A stored row, as the handler scans it back and serialises it. */
  datatype Vulnerability = Vulnerability(
    id: int,
    cveId: string,
    published: string,
    status: string,
    description: string,
    cvssScore: real)

  /** The five arguments of one `SELECT add_vulnerability($1, ..., $5)`, in order. */
  datatype AddVulnerability = AddVulnerability(
    cveId: string,
    published: string,
    description: string,
    status: string,
    cvssScore: real)

  /** The score an entry gets when NVD reports no CVSS v2 and no CVSS v3.1 metric. */
  const DefaultScore: real := 0.0

  // ---------------------------------------------------------------------------
  // Score selection
  // ---------------------------------------------------------------------------

  /** The base scores of a metric list, in list order. */
  function BaseScores(ms: seq<CvssMetric>): (r: seq<real>)
    ensures |r| == |ms|
    ensures forall i :: 0 <= i < |ms| ==> r[i] == ms[i].cvssData.baseScore
  {
    if ms == [] then [] else [ms[0].cvssData.baseScore] + BaseScores(ms[1..])
  }

  /**
   * Every score the entry could be given, in priority order: all v2 scores, then
   * all v3.1 scores, then the default. The chosen score is the first of these.
   */
  function ScoreCandidates(m: Metrics): (c: seq<real>)
    ensures |c| == |m.cvssMetricV2| + |m.cvssMetricV31| + 1
    ensures c[|c| - 1] == DefaultScore
  {
    BaseScores(m.cvssMetricV2) + BaseScores(m.cvssMetricV31) + [DefaultScore]
  }

  /** The score stored for an entry: first v2 metric, else first v3.1 metric, else 0.0. */
  function CvssScore(m: Metrics): (score: real)
    ensures score == ScoreCandidates(m)[0]
  {
    if |m.cvssMetricV2| > 0 then m.cvssMetricV2[0].cvssData.baseScore
    else if |m.cvssMetricV31| > 0 then m.cvssMetricV31[0].cvssData.baseScore
    else DefaultScore
  }

  /** The three cases of the selection, each stated on its own. */
  lemma ScorePriority(m: Metrics)
    ensures m.cvssMetricV2 != [] ==> CvssScore(m) == m.cvssMetricV2[0].cvssData.baseScore
    ensures m.cvssMetricV2 == [] && m.cvssMetricV31 != [] ==>
              CvssScore(m) == m.cvssMetricV31[0].cvssData.baseScore
    ensures m.cvssMetricV2 == [] && m.cvssMetricV31 == [] ==> CvssScore(m) == 0.0
  {
  }

  /** A v2 metric decides the score whatever the v3.1 list holds. */
  lemma V2OverridesV31(m: Metrics, other: seq<CvssMetric>)
    requires m.cvssMetricV2 != []
    ensures CvssScore(m.(cvssMetricV31 := other)) == CvssScore(m)
  {
  }

  /** The stored score is one NVD reported for the entry, or the default. */
  lemma {:induction false} ScoreIsReported(m: Metrics)
    ensures CvssScore(m) in ScoreCandidates(m)
    ensures CvssScore(m) == DefaultScore
            || (exists i :: 0 <= i < |m.cvssMetricV2| && CvssScore(m) == m.cvssMetricV2[i].cvssData.baseScore)
            || (exists i :: 0 <= i < |m.cvssMetricV31| && CvssScore(m) == m.cvssMetricV31[i].cvssData.baseScore)
  {
    var c := ScoreCandidates(m);
    assert c[0] in c;
    if m.cvssMetricV2 != [] {
      assert CvssScore(m) == m.cvssMetricV2[0].cvssData.baseScore;
    } else if m.cvssMetricV31 != [] {
      assert CvssScore(m) == m.cvssMetricV31[0].cvssData.baseScore;
    }
  }

  // ---------------------------------------------------------------------------
  // The insert loop
  // ---------------------------------------------------------------------------

  /**
   * The positions, among the first n insert attempts, whose insert failed, in
   * increasing order: this is what the loop logs.
   */
  function FailedIndices(execOk: seq<bool>, n: nat): seq<nat>
    requires n <= |execOk|
  {
    if n == 0 then []
    else FailedIndices(execOk, n - 1) + (if execOk[n - 1] then [] else [n - 1])
  }

  /** A logged position is exactly a failed attempt, and each is logged once, in order. */
  lemma {:induction false} FailedIndicesSpec(execOk: seq<bool>, n: nat)
    requires n <= |execOk|
    ensures forall i: nat :: i in FailedIndices(execOk, n) <==> i < n && !execOk[i]
    ensures forall j, k :: 0 <= j < k < |FailedIndices(execOk, n)| ==>
              FailedIndices(execOk, n)[j] < FailedIndices(execOk, n)[k]
    ensures forall j :: 0 <= j < |FailedIndices(execOk, n)| ==> FailedIndices(execOk, n)[j] < n
  {
    if n > 0 {
      FailedIndicesSpec(execOk, n - 1);
    }
  }

  /**
   * The loop over the response entries. Each entry, in response order, gives one
   * call of add_vulnerability; execOk[i] is whether the i-th call succeeded. A failed
   * call is logged (its position goes into `logged`) and the loop goes on.
   */
  method Ingest(response: VulnrResponse, execOk: seq<bool>)
    returns (calls: seq<AddVulnerability>, logged: seq<nat>)
    requires |execOk| == |response.vulnerabilities|
    requires forall i :: 0 <= i < |response.vulnerabilities| ==>
               response.vulnerabilities[i].cve.descriptions != []
    ensures |calls| == |response.vulnerabilities|
    ensures forall i :: 0 <= i < |calls| ==>
              calls[i].cveId == response.vulnerabilities[i].cve.id &&
              calls[i].published == response.vulnerabilities[i].cve.published &&
              calls[i].description == response.vulnerabilities[i].cve.descriptions[0].value &&
              calls[i].status == response.vulnerabilities[i].cve.vulnStatus &&
              calls[i].cvssScore == CvssScore(response.vulnerabilities[i].cve.metrics)
    ensures logged == FailedIndices(execOk, |execOk|)
  {
    calls, logged := [], [];
    var entries := response.vulnerabilities;
    for i := 0 to |entries|
      invariant |calls| == i
      invariant forall k :: 0 <= k < i ==>
                  calls[k].cveId == entries[k].cve.id &&
                  calls[k].published == entries[k].cve.published &&
                  calls[k].description == entries[k].cve.descriptions[0].value &&
                  calls[k].status == entries[k].cve.vulnStatus &&
                  calls[k].cvssScore == CvssScore(entries[k].cve.metrics)
      invariant logged == FailedIndices(execOk, i)
    {
      var cve := entries[i].cve;
      var cveId := cve.id;
      var published := cve.published;
      var description := cve.descriptions[0].value;
      var status := cve.vulnStatus;
      var cvssScore := DefaultScore;
      if |cve.metrics.cvssMetricV2| > 0 {
        cvssScore := cve.metrics.cvssMetricV2[0].cvssData.baseScore;
      } else if |cve.metrics.cvssMetricV31| > 0 {
        cvssScore := cve.metrics.cvssMetricV31[0].cvssData.baseScore;
      }
      calls := calls + [AddVulnerability(cveId, published, description, status, cvssScore)];
      if !execOk[i] {
        logged := logged + [i];
        continue;
      }
    }
  }

  // ---------------------------------------------------------------------------
  // Reading the rows back
  // ---------------------------------------------------------------------------

  /** What one `rows.Scan` gives: a row, or the error it reported. */
  datatype ScanResult = Scanned(row: Vulnerability) | ScanFailed(message: string)

  /** The JSON value written for the accumulated slice. */
  datatype Json = Null | Array(items: seq<Vulnerability>)

  /** What the handler answers: a JSON body, or a 500 with the error text. */
  datatype Response = Ok(body: Json) | InternalServerError(message: string)

  /**
   * How the client reads a body: the list when the body is a JSON array, and nothing
   * otherwise (slicing `null` throws on the client).
   */
  function Items(body: Json): Option<seq<Vulnerability>>
  {
    match body
    case Array(items) => Some(items)
    case Null => None
  }

  /**
   * The encoding as written: the slice is declared without being made, so it stays
   * nil until the first append, and a nil slice is written as null. The client gets
   * the list back only when it is non-empty.
   */
  function EncodeAsWritten(list: seq<Vulnerability>): (body: Json)
    ensures list != [] ==> Items(body) == Some(list)
    ensures list == [] ==> Items(body) == None
  {
    if list == [] then Null else Array(list)
  }

  /** Counterexample: with no rows the body as written is null, not an empty list. */
  lemma NoRowsEncodesNull()
    ensures EncodeAsWritten([]) == Null
    ensures Items(EncodeAsWritten([])) == None
    ensures Items(Encode([])) == Some([])
  {
  }

  /** The intended encoding: every list, the empty one included, reaches the client. */
  function Encode(list: seq<Vulnerability>): (body: Json)
    ensures Items(body) == Some(list)
  {
    Array(list)
  }

  /** How the `rows.Next()` loop ends: every row scanned, or the error that stopped it. */
  datatype ReadResult = AllRows(list: seq<Vulnerability>) | ReadFailed(message: string)

  /**
   * The `rows.Next()` loop and the `rows.Err()` check. rows are the scan results in
   * row order, up to where iteration stopped; iterErr is what `rows.Err()` reports
   * afterwards. The first scan error ends the loop; otherwise an iteration error
   * does; otherwise every row is kept, in row order.
   */
  method ReadRows(rows: seq<ScanResult>, iterErr: Option<string>) returns (result: ReadResult)
    ensures result.AllRows? <==> (forall i :: 0 <= i < |rows| ==> rows[i].Scanned?) && iterErr.None?
    ensures result.AllRows? ==>
              |result.list| == |rows| &&
              forall i :: 0 <= i < |rows| ==> rows[i] == Scanned(result.list[i])
    ensures forall i :: 0 <= i < |rows| && rows[i].ScanFailed? &&
                        (forall j :: 0 <= j < i ==> rows[j].Scanned?) ==>
              result == ReadFailed(rows[i].message)
    ensures (forall i :: 0 <= i < |rows| ==> rows[i].Scanned?) && iterErr.Some? ==>
              result == ReadFailed(iterErr.value)
  {
    var vulnerabilities: seq<Vulnerability> := [];
    var i := 0;
    while i < |rows|
      invariant 0 <= i <= |rows|
      invariant forall j :: 0 <= j < i ==> rows[j].Scanned?
      invariant |vulnerabilities| == i
      invariant forall j :: 0 <= j < i ==> rows[j] == Scanned(vulnerabilities[j])
    {
      match rows[i] {
        case ScanFailed(message) =>
          return ReadFailed(message);
        case Scanned(v) =>
          vulnerabilities := vulnerabilities + [v];
      }
      i := i + 1;
    }
    if iterErr.Some? {
      return ReadFailed(iterErr.value);
    }
    result := AllRows(vulnerabilities);
  }

  /**
   * The end of the handler as written: a 500 with the error text when the loop
   * failed, otherwise the slice, encoded as written. With no rows the body is null.
   */
  method Collect(rows: seq<ScanResult>, iterErr: Option<string>) returns (response: Response)
    ensures response.Ok? <==> (forall i :: 0 <= i < |rows| ==> rows[i].Scanned?) && iterErr.None?
    ensures response.Ok? && rows != [] ==>
              Items(response.body).Some? && |Items(response.body).value| == |rows| &&
              forall i :: 0 <= i < |rows| ==> rows[i] == Scanned(Items(response.body).value[i])
    ensures rows == [] && iterErr.None? ==> response == Ok(Null)
    ensures forall i :: 0 <= i < |rows| && rows[i].ScanFailed? &&
                        (forall j :: 0 <= j < i ==> rows[j].Scanned?) ==>
              response == InternalServerError(rows[i].message)
    ensures (forall i :: 0 <= i < |rows| ==> rows[i].Scanned?) && iterErr.Some? ==>
              response == InternalServerError(iterErr.value)
  {
    var result := ReadRows(rows, iterErr);
    match result {
      case ReadFailed(message) =>
        response := InternalServerError(message);
      case AllRows(vulnerabilities) =>
        response := Ok(EncodeAsWritten(vulnerabilities));
    }
  }

  /**
   * The end of the handler as intended: the same, except that every list, the empty
   * one included, is answered as a JSON array the client can read.
   */
  method CollectIntended(rows: seq<ScanResult>, iterErr: Option<string>) returns (response: Response)
    ensures response.Ok? <==> (forall i :: 0 <= i < |rows| ==> rows[i].Scanned?) && iterErr.None?
    ensures response.Ok? ==>
              Items(response.body).Some? && |Items(response.body).value| == |rows| &&
              forall i :: 0 <= i < |rows| ==> rows[i] == Scanned(Items(response.body).value[i])
    ensures forall i :: 0 <= i < |rows| && rows[i].ScanFailed? &&
                        (forall j :: 0 <= j < i ==> rows[j].Scanned?) ==>
              response == InternalServerError(rows[i].message)
    ensures (forall i :: 0 <= i < |rows| ==> rows[i].Scanned?) && iterErr.Some? ==>
              response == InternalServerError(iterErr.value)
  {
    var result := ReadRows(rows, iterErr);
    match result {
      case ReadFailed(message) =>
        response := InternalServerError(message);
      case AllRows(vulnerabilities) =>
        response := Ok(Encode(vulnerabilities));
    }
  }
}
