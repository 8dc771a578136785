/**
 * The list view of the front end: a search button that fetches the stored
 * vulnerabilities, a busy flag that disables the button while the request is
 * pending, and a table with one row per fetched record.
 *
 * The HTTP request is not modelled: its outcome is given to the view.
 */
module Client {

  /** One record of the fetched list (IVulnerability). */
  datatype Vulnerability = Vulnerability(
    id: int,
    cveId: string,
    published: string,
    status: string,
    description: string,
    cvssScore: real)

  /**
   * How the awaited GET ends: with its payload, or by throwing. A payload that makes
   * `data.slice` throw is a Failure too.
   */
  datatype FetchOutcome = Success(data: seq<Vulnerability>) | Failure

  /** The observable effects of a search, in the order they happen. */
  datatype Effect =
    | SetLoading(value: bool)
    | Get(url: string)
    | SetVulnerabilities(list: seq<Vulnerability>)
    | ConsoleError
    | Alert(message: string)

  /** One table row: the React key and the cells, left to right. */
  datatype Row = Row(
    key: int,
    cveId: string,
    published: string,
    description: string,
    status: string,
    score: real)

  /** How many fetched records the view keeps. */
  const MaxRows: nat := 100
  /** The single message every failed search shows. */
  const AlertMessage: string := "Something went wrong."
  /** The resource path appended to the configured server base URL. */
  const ResourcePath: string := "/api/vulnerabilities"

  /** `s.slice(0, n)`: the longest prefix of s with at most n elements. */
  function Take<T>(s: seq<T>, n: nat): (r: seq<T>)
    ensures r <= s
    ensures |r| == if |s| <= n then |s| else n
  {
    if |s| <= n then s else s[..n]
  }

  /** A record of at most n keeps every element; a longer one keeps exactly n. */
  lemma TakeKeepsShort<T>(s: seq<T>, n: nat)
    ensures |s| <= n ==> Take(s, n) == s
    ensures |s| > n ==> |Take(s, n)| == n
    ensures forall i :: 0 <= i < |Take(s, n)| ==> Take(s, n)[i] == s[i]
  {
  }

  function RowOf(v: Vulnerability): Row
  {
    Row(v.id, v.cveId, v.published, v.description, v.status, v.cvssScore)
  }

  /** The table body: one row per record, in record order. */
  function Rows(vs: seq<Vulnerability>): (rows: seq<Row>)
    ensures |rows| == |vs|
    ensures forall i :: 0 <= i < |vs| ==> rows[i] == RowOf(vs[i])
  {
    if vs == [] then [] else [RowOf(vs[0])] + Rows(vs[1..])
  }

  /** Rendering the kept records is keeping the first rows of the rendered records. */
  lemma RowsTake(vs: seq<Vulnerability>, n: nat)
    ensures Rows(Take(vs, n)) == Take(Rows(vs), n)
  {
    var l, r := Rows(Take(vs, n)), Take(Rows(vs), n);
    assert |l| == |r|;
    forall i | 0 <= i < |l| ensures l[i] == r[i] {
      assert Take(vs, n)[i] == vs[i];
    }
  }

  /** The alert messages of a trace, in order. */
  function AlertsIn(t: seq<Effect>): seq<string>
  {
    if t == [] then []
    else (if t[0].Alert? then [t[0].message] else []) + AlertsIn(t[1..])
  }

  lemma {:induction false} AlertsInAppend(a: seq<Effect>, b: seq<Effect>)
    ensures AlertsIn(a + b) == AlertsIn(a) + AlertsIn(b)
  {
    if a == [] {
      assert a + b == b;
    } else {
      assert (a + b)[1..] == a[1..] + b;
      AlertsInAppend(a[1..], b);
    }
  }

  /** The effects of a search after its request was issued, up to the finally block. */
  function Settled(outcome: FetchOutcome): seq<Effect>
  {
    match outcome
    case Success(data) => [SetVulnerabilities(Take(data, MaxRows)), SetLoading(false)]
    case Failure => [ConsoleError, Alert(AlertMessage), SetLoading(false)]
  }

  /** A failed search raises exactly one alert, with the fixed message; a successful one none. */
  lemma {:induction false} SettledAlerts(outcome: FetchOutcome)
    ensures AlertsIn(Settled(outcome)) == if outcome.Failure? then [AlertMessage] else []
    ensures Settled(outcome)[|Settled(outcome)| - 1] == SetLoading(false)
  {
    match outcome
    case Success(data) =>
      var s := Settled(outcome);
      assert s[1..] == [SetLoading(false)] && s[1..][1..] == [];
      assert AlertsIn(s[1..]) == [];
    case Failure =>
      var s := Settled(outcome);
      assert s[1..] == [Alert(AlertMessage), SetLoading(false)];
      assert s[1..][1..] == [SetLoading(false)] && s[1..][1..][1..] == [];
      assert AlertsIn(s[1..][1..]) == [];
      assert AlertsIn(s[1..]) == [AlertMessage];
  }

  /**
   * The App component's state. `onSearch` is split at its `await`: BeginSearch runs
   * up to the request, SettleSearch runs once the request ends. inFlight counts the
   * requests issued and not yet ended; trace records the effects.
   */
  class App {
    const baseUrl: string
    var isLoading: bool
    var vulnerabilities: seq<Vulnerability>
    ghost var inFlight: nat
    ghost var trace: seq<Effect>

    /** The busy flag is raised exactly while the one pending request is in flight. */
    ghost predicate Valid()
      reads this
    {
      inFlight <= 1 && (isLoading <==> inFlight == 1)
    }

    /** The initial `useState` values: not loading, no records. */
    constructor (baseUrl: string)
      ensures this.baseUrl == baseUrl
      ensures !isLoading && vulnerabilities == []
      ensures inFlight == 0 && trace == []
      ensures Valid()
    {
      this.baseUrl := baseUrl;
      isLoading := false;
      vulnerabilities := [];
      inFlight := 0;
      trace := [];
    }

    /** The search button's `disabled` attribute: set exactly while a request is pending. */
    function Disabled(): (d: bool)
      reads this
      ensures Valid() ==> (d <==> inFlight == 1)
    {
      isLoading
    }

    /** The table body rendered from the current state. */
    function RenderedRows(): (rows: seq<Row>)
      reads this
      ensures |rows| == |vulnerabilities|
      ensures forall i :: 0 <= i < |rows| ==> rows[i] == RowOf(vulnerabilities[i])
    {
      Rows(vulnerabilities)
    }

    /** `onSearch` up to its `await`: raise the busy flag, then issue the GET. */
    method BeginSearch()
      modifies this
      ensures isLoading && vulnerabilities == old(vulnerabilities)
      ensures inFlight == old(inFlight) + 1
      ensures trace == old(trace) + [SetLoading(true), Get(baseUrl + ResourcePath)]
    {
      isLoading := true;
      trace := trace + [SetLoading(true)];
      trace := trace + [Get(baseUrl + ResourcePath)];
      inFlight := inFlight + 1;
    }

    /**
     * `onSearch` after its `await`: keep the first MaxRows records on success; log and
     * alert on failure, leaving the records alone; clear the busy flag either way.
     */
    method SettleSearch(outcome: FetchOutcome)
      requires inFlight > 0
      modifies this
      ensures !isLoading
      ensures inFlight == old(inFlight) - 1
      ensures vulnerabilities ==
                if outcome.Success? then Take(outcome.data, MaxRows) else old(vulnerabilities)
      ensures trace == old(trace) + Settled(outcome)
      ensures old(Valid()) ==> Valid()
    {
      match outcome {
        case Success(data) =>
          var list := Take(data, MaxRows);
          vulnerabilities := list;
          trace := trace + [SetVulnerabilities(list)];
        case Failure =>
          trace := trace + [ConsoleError];
          trace := trace + [Alert(AlertMessage)];
      }
      isLoading := false;
      trace := trace + [SetLoading(false)];
      inFlight := inFlight - 1;
    }

    /** A whole call of `onSearch`, from the click to the end of its finally block. */
    method OnSearch(outcome: FetchOutcome)
      modifies this
      ensures !isLoading && inFlight == old(inFlight)
      ensures vulnerabilities ==
                if outcome.Success? then Take(outcome.data, MaxRows) else old(vulnerabilities)
      ensures trace == old(trace) + [SetLoading(true), Get(baseUrl + ResourcePath)] + Settled(outcome)
      ensures AlertsIn(trace) ==
                AlertsIn(old(trace)) + if outcome.Failure? then [AlertMessage] else []
      ensures old(Valid()) && !old(isLoading) ==> Valid()
    {
      BeginSearch();
      SettleSearch(outcome);
      ghost var start := [SetLoading(true), Get(baseUrl + ResourcePath)];
      AlertsInAppend(old(trace), start);
      assert start[1..] == [Get(baseUrl + ResourcePath)] && start[1..][1..] == [];
      assert AlertsIn(start[1..]) == [];
      assert AlertsIn(start) == [];
      AlertsInAppend(old(trace) + start, Settled(outcome));
      SettledAlerts(outcome);
    }

    /**
     * A click on the search button: a disabled button ignores it, an enabled one
     * starts a search. So at most one request is ever pending.
     */
    method Click()
      requires Valid()
      modifies this
      ensures Valid()
      ensures vulnerabilities == old(vulnerabilities)
      ensures old(Disabled()) ==> isLoading && inFlight == old(inFlight) && trace == old(trace)
      ensures !old(Disabled()) ==>
                isLoading && inFlight == 1 &&
                trace == old(trace) + [SetLoading(true), Get(baseUrl + ResourcePath)]
    {
      if !Disabled() {
        BeginSearch();
      }
    }
  }
}
