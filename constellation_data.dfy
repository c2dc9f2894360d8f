/** The constellation hook: a state record `{constellation, loading,
    lastFetch}`, an all-or-nothing refresh from the 24 hourly requests, and
    the two read queries offered to the dashboard. The requests themselves
    are not modelled: their 24 outcomes are an input, outcome `i` being the
    response to `RequestPath(i)`. */
module ConstellationData {
  import opened DashboardTypes
  import opened Snapshots

  /** The number of hourly requests of one refresh. */
  const RequestCount: nat := 24

  /** How one hourly request settled: its snapshot, or a failure (network
      error or error status). A body that is not a snapshot is assumed not to
      arrive as `Fetched`. */
  datatype FetchOutcome = Fetched(data: Snapshot) | FetchFailed

  /** One entry of `getBalloonTrajectory`: an hour and the balloon's position
      at that hour, absent when that hour's snapshot has no such index. */
  datatype TrajectoryEntry = TrajectoryEntry(hour: int, position: Option<Position>)

  ghost predicate IsDigit(ch: char)
  {
    '0' <= ch <= '9'
  }

  /** The decimal digit character for `d`. */
  function DigitChar(d: nat): char
    requires d < 10
  {
    ('0' as int + d) as char
  }

  /** `String(n)` for a natural number: its decimal digits without leading zeros. */
  function DecimalString(n: nat): (r: string)
    ensures 1 <= |r|
    ensures |r| == 1 <==> n < 10
    ensures n < 100 ==> |r| <= 2
    ensures n > 0 ==> r[0] != '0'
  {
    if n < 10 then [DigitChar(n)] else DecimalString(n / 10) + [DigitChar(n % 10)]
  }

  /** The number a string of decimal digits denotes. */
  ghost function DecimalValue(s: string): int
  {
    if s == [] then 0 else 10 * DecimalValue(s[..|s| - 1]) + (s[|s| - 1] as int - '0' as int)
  }

  /** `s.padStart(width, fill)` for a one-character `fill`. */
  function PadStart(s: string, width: nat, fill: char): (r: string)
    ensures |r| == if |s| >= width then |s| else width
    ensures r[|r| - |s|..] == s
    ensures forall k :: 0 <= k < |r| - |s| ==> r[k] == fill
  {
    if |s| >= width then s else seq(width - |s|, _ => fill) + s
  }

  /** `String(i).padStart(2, "0")`: the hour label of request `i`. It is
      decimal digits denoting `i`, two of them for every hour below 100. */
  function HourLabel(i: nat): (r: string)
    ensures forall k :: 0 <= k < |r| ==> IsDigit(r[k])
    ensures DecimalValue(r) == i
    ensures i < 100 ==> |r| == 2
  {
    var digits := DecimalString(i);
    DecimalRoundTrip(i);
    var r := PadStart(digits, 2, '0');
    LeadingZeros(r[..|r| - |digits|], digits);
    assert r == r[..|r| - |digits|] + digits;
    r
  }

  /** The path of the request for hour `i`, below the API base. */
  function RequestPath(i: nat): string
  {
    "/treasure/" + HourLabel(i) + ".json"
  }

  /** `DecimalString` writes digits only, and reading them back gives `n`. */
  lemma {:induction false} DecimalRoundTrip(n: nat)
    ensures forall k :: 0 <= k < |DecimalString(n)| ==> IsDigit(DecimalString(n)[k])
    ensures DecimalValue(DecimalString(n)) == n
  {
    if n >= 10 {
      DecimalRoundTrip(n / 10);
      var s := DecimalString(n);
      assert s[..|s| - 1] == DecimalString(n / 10);
    }
  }

  /** Leading zeros do not change the number a digit string denotes. */
  lemma {:induction false} LeadingZeros(zeros: string, s: string)
    requires forall k :: 0 <= k < |zeros| ==> zeros[k] == '0'
    ensures DecimalValue(zeros + s) == DecimalValue(s)
    decreases |s|
  {
    if s == [] {
      ZerosValue(zeros);
      assert zeros + s == zeros;
    } else {
      LeadingZeros(zeros, s[..|s| - 1]);
      assert (zeros + s)[..|zeros + s| - 1] == zeros + s[..|s| - 1];
    }
  }

  lemma {:induction false} ZerosValue(zeros: string)
    requires forall k :: 0 <= k < |zeros| ==> zeros[k] == '0'
    ensures DecimalValue(zeros) == 0
    decreases |zeros|
  {
    if zeros != [] {
      ZerosValue(zeros[..|zeros| - 1]);
    }
  }

  /** The 24 requests ask for 24 different files. */
  lemma RequestPathsDistinct(i: nat, j: nat)
    requires i < RequestCount && j < RequestCount && i != j
    ensures RequestPath(i) != RequestPath(j)
  {
    var p := "/treasure/";
    assert RequestPath(i)[|p|..|p| + 2] == HourLabel(i);
    assert RequestPath(j)[|p|..|p| + 2] == HourLabel(j);
  }

  /** `Promise.all` over the requests, each tagged with its hour `i`: every
      snapshot in request order when all succeeded, otherwise a failure. */
  function AwaitAll(outcomes: seq<FetchOutcome>): (r: Option<seq<BalloonData>>)
    ensures r.None? <==> exists i :: 0 <= i < |outcomes| && outcomes[i].FetchFailed?
    ensures r.Some? ==> |r.value| == |outcomes| &&
                        forall i :: 0 <= i < |outcomes| ==> r.value[i] == BalloonData(i, outcomes[i].data)
    decreases |outcomes|
  {
    if outcomes == [] then Some([])
    else
      var init := outcomes[..|outcomes| - 1];
      var last := outcomes[|outcomes| - 1];
      assert forall i :: 0 <= i < |init| ==> init[i] == outcomes[i];
      match AwaitAll(init)
      case None => None
      case Some(results) =>
        if last.FetchFailed? then None else Some(results + [BalloonData(|outcomes| - 1, last.data)])
  }

  /** A constellation whose `i`-th snapshot is hour `i`. */
  ghost predicate HoursAreIndices(c: seq<BalloonData>)
  {
    forall i :: 0 <= i < |c| ==> c[i].hour == i
  }

  /** In such a constellation hour `h` is found at index `h`, and no other
      snapshot has that hour. */
  lemma IndexedHoursFind(c: seq<BalloonData>, h: nat)
    requires HoursAreIndices(c) && h < |c|
    ensures FindHour(c, h) == Some(c[h])
    ensures forall i :: 0 <= i < |c| && c[i].hour == h ==> i == h
  {
  }

  /** The entries of a trajectory that hold a position, in order. */
  function DefinedPositions(entries: seq<TrajectoryEntry>): seq<Position>
    decreases |entries|
  {
    if entries == [] then []
    else
      var last := entries[|entries| - 1];
      DefinedPositions(entries[..|entries| - 1]) + if last.position.Some? then [last.position.value] else []
  }

  /** Entries that look up balloon `id` in each snapshot carry, once the absent
      ones are dropped, exactly the positions the globe's paths and arcs use. */
  lemma {:induction false} TrajectoryAgrees(c: seq<BalloonData>, entries: seq<TrajectoryEntry>, id: nat)
    requires |entries| == |c|
    requires forall i :: 0 <= i < |c| ==> entries[i].position == Lookup(c[i].data, id)
    ensures DefinedPositions(entries) == Positions(c, id)
    decreases |c|
  {
    if c != [] {
      var n := |c| - 1;
      TrajectoryAgrees(c[..n], entries[..n], id);
      PositionsSnoc(c[..n], c[n], id);
      assert c == c[..n] + [c[n]];
    }
  }

  /** The hook's state (`useState<ConstellationState>`). */
  class ConstellationState {
    var constellation: seq<BalloonData>
    var loading: bool
    var lastFetch: Option<Timestamp>

    /** The initial state: nothing loaded yet, a load pending. */
    constructor ()
      ensures constellation == [] && loading && lastFetch == None
    {
      constellation := [];
      loading := true;
      lastFetch := None;
    }

    /** The first step of `fetchAllData`: mark a load in progress. */
    method StartFetch()
      modifies this
      ensures loading
      ensures constellation == old(constellation) && lastFetch == old(lastFetch)
    {
      loading := true;
    }

    /** The rest of `fetchAllData`, once every request has settled: on success
        publish the snapshots sorted by hour and stamp the time `now`; on any
        failure keep the previous data and only clear `loading`. */
    method CompleteFetch(outcomes: seq<FetchOutcome>, now: Timestamp)
      requires |outcomes| == RequestCount
      modifies this
      ensures !loading
      ensures (forall i :: 0 <= i < |outcomes| ==> outcomes[i].Fetched?) ==>
                |constellation| == RequestCount && HoursAreIndices(constellation) &&
                (forall i :: 0 <= i < RequestCount ==> constellation[i].data == outcomes[i].data) &&
                lastFetch == Some(now)
      ensures (exists i :: 0 <= i < |outcomes| && outcomes[i].FetchFailed?) ==>
                constellation == old(constellation) && lastFetch == old(lastFetch)
    {
      var settled := AwaitAll(outcomes);
      match settled
      case Some(results) =>
        var sortedResults := SortByHour(results, true);
        SortSortedIsIdentity(results, true);
        constellation := sortedResults;
        loading := false;
        lastFetch := Some(now);
      case None =>
        loading := false;
    }

    /** `fetchAllData` / `refetch`, with the 24 request outcomes as input. */
    method FetchAllData(outcomes: seq<FetchOutcome>, now: Timestamp)
      requires |outcomes| == RequestCount
      modifies this
      ensures !loading
      ensures (forall i :: 0 <= i < |outcomes| ==> outcomes[i].Fetched?) ==>
                |constellation| == RequestCount && HoursAreIndices(constellation) &&
                (forall i :: 0 <= i < RequestCount ==> constellation[i].data == outcomes[i].data) &&
                lastFetch == Some(now)
      ensures (exists i :: 0 <= i < |outcomes| && outcomes[i].FetchFailed?) ==>
                constellation == old(constellation) && lastFetch == old(lastFetch)
    {
      StartFetch();
      CompleteFetch(outcomes, now);
    }

    /** `getBalloonTrajectory`: one entry per snapshot, in constellation order. */
    function GetBalloonTrajectory(balloonId: int): (r: seq<TrajectoryEntry>)
      reads this
      ensures |r| == |constellation|
      ensures forall i :: 0 <= i < |r| ==>
                r[i].hour == constellation[i].hour &&
                (r[i].position.Some? <==> 0 <= balloonId < |constellation[i].data|) &&
                (r[i].position.Some? ==> r[i].position.value == constellation[i].data[balloonId])
      ensures balloonId >= 0 ==> DefinedPositions(r) == Positions(constellation, balloonId)
    {
      var c := constellation;
      var r := seq(|c|, i requires 0 <= i < |c| => TrajectoryEntry(c[i].hour, Lookup(c[i].data, balloonId)));
      if balloonId >= 0 then TrajectoryAgrees(c, r, balloonId); r else r
    }

    /** `getCurrentPositions`: the snapshot of the first entry for hour 0. */
    function GetCurrentPositions(): (r: Option<Snapshot>)
      reads this
      ensures r.None? <==> forall i :: 0 <= i < |constellation| ==> constellation[i].hour != 0
      ensures r.Some? ==> exists i :: IsFirstOfHour(constellation, 0, i) && r.value == constellation[i].data
    {
      match FindHour(constellation, 0)
      case None => None
      case Some(snapshot) => Some(snapshot.data)
    }
  }

  /** After a successful refresh the current positions are the snapshot of the
      request for hour "00", and balloon `id`'s trajectory has an entry for
      every hour 0 .. 23 in order. */
  lemma AfterSuccessfulFetch(state: ConstellationState, outcomes: seq<FetchOutcome>, id: int)
    requires |outcomes| == RequestCount && forall i :: 0 <= i < |outcomes| ==> outcomes[i].Fetched?
    requires |state.constellation| == RequestCount && HoursAreIndices(state.constellation)
    requires forall i :: 0 <= i < RequestCount ==> state.constellation[i].data == outcomes[i].data
    ensures state.GetCurrentPositions() == Some(outcomes[0].data)
    ensures forall h :: 0 <= h < RequestCount ==> state.GetBalloonTrajectory(id)[h].hour == h
  {
  }
}
