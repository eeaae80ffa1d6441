/** The home-timeline pagination engine (`TimelineController`).

    `fetchPosts` is one async function whose only suspension point is the
    network call. It is modelled as two steps, `BeginFetch` (everything up to
    and including building the request) and `CompleteFetch` (everything after
    the call returns), so that a caller may begin a second fetch before the
    first completes, as the Swift code allows. */
module Timelines {
  import opened Manfred

  /** `TimelineController.State`. */
  datatype Phase = Empty | Loading | Loaded

  /** `Timeline.home(accessToken:params:)`: the request handed to the HTTP client. */
  datatype HomeRequest = HomeRequest(accessToken: string, params: map<string, string>)

  const MinIDKey: string := "min_id"
  const MaxIDKey: string := "max_id"

  /** Swift's `Dictionary.compactMapValues { $0 }`: drop the nil values, unwrap the rest. */
  function CompactMapValues<K(!new), V>(d: map<K, Option<V>>): (m: map<K, V>)
    ensures forall k :: k in m <==> k in d && d[k].Some?
    ensures forall k :: k in m ==> d[k] == Some(m[k])
  {
    map k | k in d && d[k].Some? :: d[k].value
  }

  /** The query parameters of a fetch: exactly the cursors that were given. */
  function QueryParams(minID: Option<string>, maxID: Option<string>): (m: map<string, string>)
    ensures MinIDKey in m <==> minID.Some?
    ensures MaxIDKey in m <==> maxID.Some?
    ensures minID.Some? ==> m[MinIDKey] == minID.value
    ensures maxID.Some? ==> m[MaxIDKey] == maxID.value
    ensures m.Keys <= {MinIDKey, MaxIDKey}
  {
    CompactMapValues(map[MinIDKey := minID, MaxIDKey := maxID])
  }

  /** `statuses.last?.id`. */
  function LastID(statuses: seq<Status>): (r: Option<string>)
    ensures r.None? <==> statuses == []
    ensures r.Some? ==> r.value == statuses[|statuses| - 1].id
  {
    if statuses == [] then None else Some(statuses[|statuses| - 1].id)
  }

  predicate IsPrefix<T(==)>(a: seq<T>, b: seq<T>) {
    |a| <= |b| && b[..|a|] == a
  }

  /** The observable state of one controller. */
  datatype Snapshot = Snapshot(statuses: seq<Status>, phase: Phase)

  /** The state right after a fetch has begun: phase `loading`, list untouched. */
  function Began(t: Snapshot): (u: Snapshot)
    ensures u.phase == Loading
    ensures u.statuses == t.statuses
  {
    t.(phase := Loading)
  }

  /** The state after the network call of a fetch returned `result`. */
  function Completed(t: Snapshot, result: Result<seq<Status>, FetchError>): (u: Snapshot)
    ensures IsPrefix(t.statuses, u.statuses)
    ensures result.Success? ==>
      && |u.statuses| == |t.statuses| + |result.value|
      && u.statuses[|t.statuses|..] == result.value
      && u.phase == Loaded
    ensures result.Failure? ==> u == t
  {
    match result
    case Success(page) => Snapshot(t.statuses + page, Loaded)
    case Failure(_) => t
  }

  /** What can happen to a controller, in the order its owning actor runs it. */
  datatype Event =
    | Begin(minID: Option<string>, maxID: Option<string>)
    | Complete(result: Result<seq<Status>, FetchError>)

  function Step(t: Snapshot, e: Event): Snapshot {
    match e
    case Begin(_, _) => Began(t)
    case Complete(result) => Completed(t, result)
  }

  /** The state after a whole trace of events. */
  function Run(t: Snapshot, events: seq<Event>): Snapshot
    decreases |events|
  {
    if events == [] then t else Run(Step(t, events[0]), events[1..])
  }

  /** The pages of the successful completions of a trace, concatenated in completion order. */
  function SuccessfulPages(events: seq<Event>): seq<Status>
    decreases |events|
  {
    if events == [] then []
    else
      (if events[0].Complete? && events[0].result.Success? then events[0].result.value else [])
      + SuccessfulPages(events[1..])
  }

  predicate HasSuccess(events: seq<Event>) {
    exists i :: 0 <= i < |events| && events[i].Complete? && events[i].result.Success?
  }

  predicate HasBegin(events: seq<Event>) {
    exists i :: 0 <= i < |events| && events[i].Begin?
  }

  /** Whatever happens, the list is the old list followed by every successful
      page, each in server order, in the order the completions ran. */
  lemma {:induction false} RunAppendsSuccessfulPages(t: Snapshot, events: seq<Event>)
    ensures Run(t, events).statuses == t.statuses + SuccessfulPages(events)
    decreases |events|
  {
    if events != [] {
      RunAppendsSuccessfulPages(Step(t, events[0]), events[1..]);
    }
  }

  /** No trace removes or reorders a status: the old list stays a prefix. */
  lemma AppendOnly(t: Snapshot, events: seq<Event>)
    ensures IsPrefix(t.statuses, Run(t, events).statuses)
  {
    RunAppendsSuccessfulPages(t, events);
  }

  /** Without a successful completion the list never changes, and once a fetch
      has begun the phase is `loading` for good: failures do not leave it. */
  lemma {:induction false} FailuresNeverLeaveLoading(t: Snapshot, events: seq<Event>)
    requires !HasSuccess(events)
    ensures Run(t, events).statuses == t.statuses
    ensures Run(t, events).phase == if t.phase == Loading || HasBegin(events) then Loading else t.phase
    decreases |events|
  {
    if events != [] {
      var rest := events[1..];
      assert !HasSuccess(rest) by {
        forall i | 0 <= i < |rest| ensures !(rest[i].Complete? && rest[i].result.Success?) {
          assert rest[i] == events[i + 1];
        }
      }
      assert HasBegin(events) <==> events[0].Begin? || HasBegin(rest) by {
        if HasBegin(rest) {
          var i :| 0 <= i < |rest| && rest[i].Begin?;
          assert events[i + 1].Begin?;
        }
        if HasBegin(events) && !events[0].Begin? {
          var i :| 0 <= i < |events| && events[i].Begin?;
          assert rest[i - 1].Begin?;
        }
      }
      FailuresNeverLeaveLoading(Step(t, events[0]), rest);
    }
  }

  /** With no in-flight guard, two next-page fetches begun from the same list
      carry the same cursor, and both pages are appended. */
  lemma OverlappingFetchesAppendTwice(t: Snapshot, page: seq<Status>)
    ensures
      var events := [Begin(None, LastID(t.statuses)), Begin(None, LastID(t.statuses)),
                     Complete(Success(page)), Complete(Success(page))];
      Run(t, events) == Snapshot(t.statuses + page + page, Loaded)
  {
    var events := [Begin(None, LastID(t.statuses)), Begin(None, LastID(t.statuses)),
                   Complete(Success(page)), Complete(Success(page))];
    var loading := Began(t);
    var once := Completed(loading, Success(page));
    assert Run(t, events) == Run(loading, events[2..]) by {
      assert events[1..][1..] == events[2..];
    }
    assert Run(loading, events[2..]) == Run(once, events[3..]) by {
      assert events[2..][1..] == events[3..];
    }
    assert Run(once, events[3..]) == Completed(once, Success(page)) by {
      assert events[3..][1..] == [];
    }
    assert (t.statuses + page) + page == t.statuses + page + page;
  }

  /** `TimelineController`: one timeline's accumulated statuses and fetch phase. */
  class TimelineController {
    const session: Session
    var statuses: seq<Status>
    var state: Phase

    function Snap(): Snapshot
      reads this
    {
      Snapshot(statuses, state)
    }

    /** `init(session:)`. */
    constructor (session: Session)
      ensures this.session == session
      ensures statuses == [] && state == Empty
    {
      this.session := session;
      statuses := [];
      state := Empty;
    }

    /** `fetchPosts(minID:maxID:)` up to the network call: the phase becomes
        `loading` before the request exists, whatever it was. */
    method BeginFetch(minID: Option<string>, maxID: Option<string>) returns (request: HomeRequest)
      modifies this
      ensures Snap() == Began(old(Snap()))
      ensures request.accessToken == session.accessToken
      ensures request.params == QueryParams(minID, maxID)
    {
      state := Loading;
      var params := CompactMapValues(map[MinIDKey := minID, MaxIDKey := maxID]);
      request := HomeRequest(session.accessToken, params);
    }

    /** `fetchPosts` after the network call: a page is appended and the phase
        becomes `loaded`; an error is shown in an alert (returned here) and
        nothing changes. */
    method CompleteFetch(result: Result<seq<Status>, FetchError>) returns (alert: Option<FetchError>)
      modifies this
      ensures Snap() == Completed(old(Snap()), result)
      ensures alert == if result.Failure? then Some(result.error) else None
    {
      match result
      case Success(page) =>
        statuses := statuses + page;
        state := Loaded;
        alert := None;
      case Failure(error) =>
        alert := Some(error);
    }

    /** `fetchNextPage`: a fetch whose only cursor is the id of the last status. */
    method BeginNextPage() returns (request: HomeRequest)
      modifies this
      ensures Snap() == Began(old(Snap()))
      ensures request.accessToken == session.accessToken
      ensures request.params == QueryParams(None, LastID(old(statuses)))
    {
      request := BeginFetch(None, LastID(statuses));
    }
  }

  /** Ten statuses, newest first, with ids "20" down to "11". */
  function NewestPage(): seq<Status> {
    [Status("20"), Status("19"), Status("18"), Status("17"), Status("16"),
     Status("15"), Status("14"), Status("13"), Status("12"), Status("11")]
  }

  /** The ten statuses before those, ids "10" down to "1". */
  function OlderPage(): seq<Status> {
    [Status("10"), Status("9"), Status("8"), Status("7"), Status("6"),
     Status("5"), Status("4"), Status("3"), Status("2"), Status("1")]
  }

  /** A first load followed by one next page: the second request pages from
      "11", and the list holds all twenty statuses in server order. */
  method PagingScenario(session: Session) returns (c: TimelineController, first: HomeRequest, next: HomeRequest)
    ensures first.params == map[]
    ensures next.params == map[MaxIDKey := "11"]
    ensures c.statuses == NewestPage() + OlderPage() && |c.statuses| == 20
    ensures c.state == Loaded
  {
    c := new TimelineController(session);
    first := c.BeginFetch(None, None);
    var alert := c.CompleteFetch(Success(NewestPage()));
    next := c.BeginNextPage();
    alert := c.CompleteFetch(Success(OlderPage()));
  }

  /** A second next-page fetch begun while the first is outstanding is not
      rejected: it sends the same request and its page is appended again. */
  method OverlapScenario(session: Session) returns (c: TimelineController, r1: HomeRequest, r2: HomeRequest)
    ensures r1 == r2 && r1.params == map[MaxIDKey := "11"]
    ensures c.statuses == NewestPage() + OlderPage() + OlderPage()
    ensures c.state == Loaded
  {
    c := new TimelineController(session);
    var first := c.BeginFetch(None, None);
    var alert := c.CompleteFetch(Success(NewestPage()));
    r1 := c.BeginNextPage();
    r2 := c.BeginNextPage();
    alert := c.CompleteFetch(Success(OlderPage()));
    alert := c.CompleteFetch(Success(OlderPage()));
  }

  /** A failed next page leaves the list as it was and the phase at `loading`. */
  method FailureScenario(session: Session) returns (c: TimelineController, alert: Option<FetchError>)
    ensures c.statuses == NewestPage()
    ensures c.state == Loading
    ensures alert == Some(TransportError)
  {
    c := new TimelineController(session);
    var first := c.BeginFetch(None, None);
    alert := c.CompleteFetch(Success(NewestPage()));
    var next := c.BeginNextPage();
    alert := c.CompleteFetch(Failure(TransportError));
  }
}
