/**
 * The results page of the frontend (Frontend/script.js): the summary counts
 * and risk tier shown above the results, the card drawn for each record, the
 * overlay element that holds them, and the search button's busy state while
 * a scan request is in flight. The document is reduced to the sequence of
 * elements in its body; the request to the backend is an input.
 */
module Report {
  import opened Wrappers
  import Scanner

  /** A record of the `results` list, as the page receives it in the scan response. */
  datatype ResultRecord = ResultRecord(
    check: string,
    description: string,
    passed: bool,
    details: string,
    severity: Option<string>)

  /** The number of records whose `passed` is true. */
  function PassedCount(rs: seq<ResultRecord>): (n: nat)
    ensures n <= |rs|
    ensures n == |rs| <==> forall i :: 0 <= i < |rs| ==> rs[i].passed
    ensures n == 0 <==> forall i :: 0 <= i < |rs| ==> !rs[i].passed
  {
    if rs == [] then 0
    else
      var rest := PassedCount(rs[1..]);
      assert forall i :: 1 <= i < |rs| ==> rs[i] == rs[1..][i - 1];
      (if rs[0].passed then 1 else 0) + rest
  }

  /** Counting distributes over concatenation. */
  lemma {:induction false} PassedCountConcat(a: seq<ResultRecord>, b: seq<ResultRecord>)
    ensures PassedCount(a + b) == PassedCount(a) + PassedCount(b)
  {
    if a == [] {
      assert a + b == b;
    } else {
      assert (a + b)[1..] == a[1..] + b;
      PassedCountConcat(a[1..], b);
    }
  }

  /** The three numbers at the head of the results. */
  datatype Summary = Summary(total: nat, passed: nat, failed: nat)

  function Summarize(rs: seq<ResultRecord>): (s: Summary)
    ensures s.total == |rs| && s.passed + s.failed == s.total
    ensures s.passed == PassedCount(rs)
    ensures s.failed == 0 <==> forall i :: 0 <= i < |rs| ==> rs[i].passed
  {
    var passed := PassedCount(rs);
    Summary(|rs|, passed, |rs| - passed)
  }

  /** The overall verdict with its status class and its text. */
  datatype Tier = Secure | NeedsAttention | HighRisk
  {
    function Status(): string
    {
      match this
      case Secure => "success"
      case NeedsAttention => "warning"
      case HighRisk => "danger"
    }

    function Label(): string
    {
      match this
      case Secure => "Secure"
      case NeedsAttention => "Needs Attention"
      case HighRisk => "High Risk"
    }
  }

  /**
   * The tier for `failed` failures out of `total` checks. The page compares
   * `failed` with the number `total * 0.5`; on integers that is the test
   * `2 * failed >= total`, so exactly half the checks failing is High Risk.
   */
  function RiskTier(total: nat, failed: nat): (t: Tier)
    ensures t == Secure <==> failed == 0
    ensures t == HighRisk <==> failed > 0 && 2 * failed >= total
    ensures t == NeedsAttention <==> 0 < failed && 2 * failed < total
  {
    if failed > 0 then
      if failed as real >= total as real * 0.5 then HighRisk else NeedsAttention
    else Secure
  }

  /**
   * The tier of a list of results: Secure exactly when no check failed (an
   * empty list included), High Risk when some failed and they are at least
   * half of all checks.
   */
  function OverallTier(rs: seq<ResultRecord>): (t: Tier)
    ensures t == Secure <==> forall i :: 0 <= i < |rs| ==> rs[i].passed
    ensures t == HighRisk <==> (exists i :: 0 <= i < |rs| && !rs[i].passed) && 2 * (|rs| - PassedCount(rs)) >= |rs|
  {
    var s := Summarize(rs);
    RiskTier(s.total, s.failed)
  }

  /** One failure in two checks is already High Risk. */
  lemma HalfFailedIsHighRisk(a: ResultRecord, b: ResultRecord)
    requires a.passed && !b.passed
    ensures OverallTier([a, b]) == HighRisk
  {
    assert PassedCount([a, b][1..]) == 0;
  }

  /**
   * A further failed check never lowers a High Risk verdict: the failures
   * stay at least half of the checks.
   */
  lemma FailureKeepsHighRisk(rs: seq<ResultRecord>, r: ResultRecord)
    requires OverallTier(rs) == HighRisk && !r.passed
    ensures OverallTier(rs + [r]) == HighRisk
  {
    PassedCountConcat(rs, [r]);
    assert PassedCount([r]) == 0;
    assert (rs + [r])[|rs|] == r;
  }

  const PassedLabel := "Passed"
  const FailedLabel := "Failed"
  const NoSeverity := "none"

  /** What a result card shows: title, status, optional severity badge, description, optional details. */
  datatype Card = Card(
    title: string,
    status: string,
    badge: Option<string>,
    description: string,
    details: Option<string>)

  /**
   * The card for one record. The status reads Passed exactly for a passed
   * record; a badge shows the severity only for a failed record whose
   * severity is present, non-empty and not `none`; the details block appears
   * only for non-empty details.
   */
  function ResultCard(r: ResultRecord): (c: Card)
    ensures c.title == r.check && c.description == r.description
    ensures c.status in {PassedLabel, FailedLabel} && (c.status == PassedLabel <==> r.passed)
    ensures c.badge.Some? <==> !r.passed && r.severity.Some? && r.severity.value != "" && r.severity.value != NoSeverity
    ensures c.badge.Some? ==> c.badge.value == r.severity.value
    ensures c.details.Some? <==> r.details != ""
    ensures c.details.Some? ==> c.details.value == r.details
  {
    var status := if r.passed then PassedLabel else FailedLabel;
    var badge :=
      if !r.passed && r.severity.Some? && r.severity.value != "" && r.severity.value != NoSeverity
      then Some(r.severity.value) else None;
    var details := if r.details != "" then Some(r.details) else None;
    Card(r.check, status, badge, r.description, details)
  }

  /** The cards of the results grid: one per record, in the order of the records. */
  function Cards(rs: seq<ResultRecord>): (cs: seq<Card>)
    ensures |cs| == |rs|
    ensures forall i :: 0 <= i < |rs| ==> cs[i] == ResultCard(rs[i])
  {
    if rs == [] then [] else [ResultCard(rs[0])] + Cards(rs[1..])
  }

  /** The content of the results overlay for the scanned URL and its records. */
  datatype ResultsView = ResultsView(url: string, summary: Summary, tier: Tier, cards: seq<Card>)

  /**
   * The overlay content. Its header agrees with its cards: the total is the
   * number of cards, and the tier is Secure exactly when every card reads
   * Passed, which is exactly when the failed count is zero.
   */
  function View(url: string, rs: seq<ResultRecord>): (v: ResultsView)
    ensures v.url == url && v.summary.total == |v.cards| == |rs|
    ensures v.tier == Secure <==> forall i :: 0 <= i < |v.cards| ==> v.cards[i].status == PassedLabel
    ensures v.summary.failed == 0 <==> v.tier == Secure
  {
    ResultsView(url, Summarize(rs), OverallTier(rs), Cards(rs))
  }

  /** The record the page receives for a record of the scanner. */
  function FromScanner(r: Scanner.CheckResult): ResultRecord
  {
    ResultRecord(r.check.Name(), r.description, r.passed, r.details, Some(r.severity.Name()))
  }

  /**
   * A scanner record gets a badge exactly when it failed with a severity
   * other than none; a failed record with severity none, such as an
   * X-Content-Type-Options header without `nosniff`, reads Failed without one.
   */
  lemma ScannerBadge(r: Scanner.CheckResult)
    ensures var c := ResultCard(FromScanner(r));
      && (c.badge.Some? <==> !r.passed && r.severity != Scanner.None)
      && (c.badge.Some? ==> c.badge.value == r.severity.Name())
  {
    assert r.severity != Scanner.None ==> r.severity.Name() != NoSeverity && r.severity.Name() != "";
  }

  /** A failed request gives one failed check, which the page reports as High Risk. */
  lemma AccessFailureIsHighRisk(reason: string)
    ensures var rs := [FromScanner(Scanner.AccessFailure(reason))];
      Summarize(rs) == Summary(1, 0, 1) && OverallTier(rs) == HighRisk
  {
    var rs := [FromScanner(Scanner.AccessFailure(reason))];
    assert !rs[0].passed;
  }

  /** The id of the overlay element. */
  const OverlayId := "resultsOverlay"

  /** An element of the document body: its id and, for the overlay, the content shown. */
  datatype Element = Element(id: string, view: Option<ResultsView>)

  /** The number of elements with id `id`. */
  function CountId(es: seq<Element>, id: string): (n: nat)
    ensures n <= |es|
  {
    if es == [] then 0 else (if es[0].id == id then 1 else 0) + CountId(es[1..], id)
  }

  /** The elements whose id is not `id`, in document order. */
  function Others(es: seq<Element>, id: string): seq<Element>
  {
    if es == [] then [] else (if es[0].id == id then [] else [es[0]]) + Others(es[1..], id)
  }

  /** Counting by id distributes over appending. */
  lemma {:induction false} CountIdConcat(a: seq<Element>, b: seq<Element>, id: string)
    ensures CountId(a + b, id) == CountId(a, id) + CountId(b, id)
  {
    if a == [] {
      assert a + b == b;
    } else {
      assert (a + b)[1..] == a[1..] + b;
      CountIdConcat(a[1..], b, id);
    }
  }

  /** Filtering by id distributes over appending. */
  lemma {:induction false} OthersConcat(a: seq<Element>, b: seq<Element>, id: string)
    ensures Others(a + b, id) == Others(a, id) + Others(b, id)
  {
    if a == [] {
      assert a + b == b;
    } else {
      assert (a + b)[1..] == a[1..] + b;
      OthersConcat(a[1..], b, id);
    }
  }

  /** `getElementById(id)`: the position of the first element with id `id`, or `|es|` when none has it. */
  function IndexOfId(es: seq<Element>, id: string): (i: nat)
    ensures i <= |es|
    ensures i < |es| ==> es[i].id == id
    ensures forall k :: 0 <= k < i ==> es[k].id != id
  {
    if es == [] then 0
    else if es[0].id == id then 0
    else 1 + IndexOfId(es[1..], id)
  }

  /**
   * The body after removing the element `getElementById(id)` finds: one
   * element with that id fewer, the others untouched, and nothing changed
   * when there is none.
   */
  function RemoveFirst(es: seq<Element>, id: string): (r: seq<Element>)
    ensures CountId(r, id) == if CountId(es, id) == 0 then 0 else CountId(es, id) - 1
    ensures Others(r, id) == Others(es, id)
    ensures CountId(es, id) == 0 ==> r == es
  {
    if es == [] then []
    else if es[0].id == id then es[1..]
    else
      var rest := RemoveFirst(es[1..], id);
      assert ([es[0]] + rest)[1..] == rest;
      [es[0]] + rest
  }

  /** Removing by position at `getElementById`'s index is `RemoveFirst`. */
  lemma {:induction false} RemoveAtIndex(es: seq<Element>, id: string)
    ensures var i := IndexOfId(es, id);
      RemoveFirst(es, id) == if i == |es| then es else es[..i] + es[i + 1..]
  {
    if es != [] && es[0].id != id {
      RemoveAtIndex(es[1..], id);
      var i := IndexOfId(es[1..], id);
      if i < |es[1..]| {
        assert es[..i + 1] == [es[0]] + es[1..][..i];
        assert es[i + 2..] == es[1..][i + 1..];
      }
    }
  }

  /** Why a scan request ended without results; the page shows it in an alert. */
  datatype Failure =
    | HttpFailure(status: int, text: string)
    | RequestThrew(message: string)
    | ScanRefused(message: string)

  /** The JSON body of a scan response. */
  datatype ScanBody = ScanBody(status: string, error: string, url: string, results: seq<ResultRecord>)

  /**
   * How the request to `/api/scan` ended: the fetch or the JSON parsing
   * threw, or a response arrived with its status code, its text for a non-ok
   * status, and its parsed body.
   */
  datatype FetchOutcome =
    | Rejected(message: string)
    | Answered(code: int, text: string, body: Option<ScanBody>)

  predicate HttpOk(code: int)
  {
    200 <= code <= 299
  }

  /** The request succeeded and the body's status is `success`. */
  predicate ScanSucceeded(outcome: FetchOutcome)
  {
    outcome.Answered? && HttpOk(outcome.code) && outcome.body.Some? && outcome.body.value.status == "success"
  }

  /** The error raised on each other path; a refused scan with no error text reports `Scan failed`. */
  function ScanFailure(outcome: FetchOutcome): (f: Failure)
    requires !ScanSucceeded(outcome)
    ensures outcome.Rejected? ==> f == RequestThrew(outcome.message)
    ensures outcome.Answered? && !HttpOk(outcome.code) ==> f == HttpFailure(outcome.code, outcome.text)
    ensures outcome.Answered? && HttpOk(outcome.code) && outcome.body.None? ==> f == RequestThrew(InvalidJson)
    ensures outcome.Answered? && HttpOk(outcome.code) && outcome.body.Some? ==>
      f.ScanRefused? && f.message != ""
      && (outcome.body.value.error != "" ==> f.message == outcome.body.value.error)
      && (outcome.body.value.error == "" ==> f.message == ScanFailedText)
  {
    match outcome
    case Rejected(message) => RequestThrew(message)
    case Answered(code, text, body) =>
      if !HttpOk(code) then HttpFailure(code, text)
      else if body.None? then RequestThrew(InvalidJson)
      else ScanRefused(if body.value.error != "" then body.value.error else ScanFailedText)
  }

  const InvalidJson := "invalid JSON"
  const ScanFailedText := "Scan failed"
  const SpinnerHtml := "<i class=\"fas fa-spinner fa-spin mr-2\"></i>Scanning..."

  /** The page: its body's elements, the search button and input, and the alerts raised. */
  class Page {
    var elements: seq<Element>
    var buttonHtml: string
    var buttonDisabled: bool
    var inputValue: string
    var alerts: seq<Failure>

    /** The body holds at most one results overlay. */
    predicate Valid()
      reads this
    {
      CountId(elements, OverlayId) <= 1
    }

    /**
     * The page as loaded: its body holds no results overlay yet, the search
     * button shows `html` and is enabled, the input is empty and no alert
     * has been raised.
     */
    constructor (body: seq<Element>, html: string)
      requires CountId(body, OverlayId) == 0
      ensures Valid() && elements == body
      ensures buttonHtml == html && !buttonDisabled
      ensures inputValue == "" && alerts == []
    {
      elements := body;
      buttonHtml := html;
      buttonDisabled := false;
      inputValue := "";
      alerts := [];
    }

    /**
     * `createResultsOverlay`: removes the overlay already present, if any,
     * and appends a new one showing the results; afterwards there is exactly
     * one, and every other element is where it was.
     */
    method CreateResultsOverlay(url: string, results: seq<ResultRecord>)
      requires Valid()
      modifies this
      ensures elements == RemoveFirst(old(elements), OverlayId) + [Element(OverlayId, Some(View(url, results)))]
      ensures Valid() && CountId(elements, OverlayId) == 1
      ensures Others(elements, OverlayId) == Others(old(elements), OverlayId)
      ensures buttonHtml == old(buttonHtml) && buttonDisabled == old(buttonDisabled)
      ensures inputValue == old(inputValue) && alerts == old(alerts)
    {
      var existing := IndexOfId(elements, OverlayId);
      RemoveAtIndex(elements, OverlayId);
      if existing < |elements| {
        elements := elements[..existing] + elements[existing + 1..];
      }
      var overlay := Element(OverlayId, Some(View(url, results)));
      CountIdConcat(elements, [overlay], OverlayId);
      OthersConcat(elements, [overlay], OverlayId);
      elements := elements + [overlay];
    }

    /** `closeResults`: removes the overlay when there is one and does nothing otherwise. */
    method CloseResults()
      requires Valid()
      modifies this
      ensures elements == RemoveFirst(old(elements), OverlayId)
      ensures Valid() && CountId(elements, OverlayId) == 0
      ensures old(CountId(elements, OverlayId)) == 0 ==> elements == old(elements)
      ensures buttonHtml == old(buttonHtml) && buttonDisabled == old(buttonDisabled)
      ensures inputValue == old(inputValue) && alerts == old(alerts)
    {
      var existing := IndexOfId(elements, OverlayId);
      RemoveAtIndex(elements, OverlayId);
      if existing < |elements| {
        elements := elements[..existing] + elements[existing + 1..];
      }
    }

    /**
     * `performSecurityScan`: the button shows the spinner and is disabled
     * while the request runs. On success the results are shown and the input
     * cleared; on every other path an alert reports the failure. On every
     * path the button gets its original content back and is enabled.
     */
    method PerformSecurityScan(outcome: FetchOutcome)
      requires Valid()
      modifies this
      ensures buttonHtml == old(buttonHtml) && !buttonDisabled
      ensures Valid()
      ensures ScanSucceeded(outcome) ==>
        && elements == RemoveFirst(old(elements), OverlayId)
                       + [Element(OverlayId, Some(View(outcome.body.value.url, outcome.body.value.results)))]
        && inputValue == "" && alerts == old(alerts)
      ensures !ScanSucceeded(outcome) ==>
        && elements == old(elements) && inputValue == old(inputValue)
        && alerts == old(alerts) + [ScanFailure(outcome)]
    {
      var originalText := buttonHtml;
      buttonHtml := SpinnerHtml;
      buttonDisabled := true;

      var thrown: Option<Failure> := None;
      match outcome {
        case Rejected(message) =>
          thrown := Some(RequestThrew(message));
        case Answered(code, text, body) =>
          if !HttpOk(code) {
            thrown := Some(HttpFailure(code, text));
          } else if body.None? {
            thrown := Some(RequestThrew(InvalidJson));
          } else if body.value.status == "success" {
            CreateResultsOverlay(body.value.url, body.value.results);
            inputValue := "";
          } else {
            thrown := Some(ScanRefused(if body.value.error != "" then body.value.error else ScanFailedText));
          }
      }
      if thrown.Some? {
        alerts := alerts + [thrown.value];
      }

      buttonHtml := originalText;
      buttonDisabled := false;
    }
  }
}
