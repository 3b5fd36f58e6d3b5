/** The live dashboard view: the state its WebSocket handlers keep (the latest
    snapshot, the rolling CPU history, the connected flag) and the values the
    view derives from that state. Opening the socket, the clock and
    JSON.parse are outside the model: the handlers receive the decoded message
    (or None when JSON.parse threw) and the formatted receipt time. */
module Dashboard {
  import opened Common

  /** How many points the live chart keeps (`slice(-20)`). */
  const HistoryCapacity: nat := 20
  /** The CPU card shows "High" above this load. */
  const HighCpuThreshold: real := 80.0
  /** How many wait events the legend lists. */
  const LegendSize: nat := 3

  datatype WaitEvent = WaitEvent(name: string, value: real, color: string)

  /** One decoded stream message. A field the message lacks is None
      (JavaScript's undefined). */
  datatype Snapshot = Snapshot(
    cpuLoad: Option<real>,
    memoryUsage: Option<real>,
    activeSessions: Option<real>,
    diskIo: Option<real>,
    waitEvents: Option<seq<WaitEvent>>)

  /** One chart point: the receipt time as the browser formatted it, and the
      message's cpu_load (None when the message had none). */
  datatype HistoryPoint = HistoryPoint(time: string, value: Option<real>)

  /** What the component renders. */
  datatype View = Loading | Live(snapshot: Snapshot, chart: seq<HistoryPoint>, online: bool)

  datatype Trend = High | Normal

  /** `s.slice(-n)` for n > 0: the last n elements, or all of s when shorter.
      (`slice(-0)` would return all of s, so n = 0 is excluded.) */
  function KeepLast<T>(s: seq<T>, n: nat): (r: seq<T>)
    requires n > 0
    ensures |r| == Min(|s|, n)
    ensures r == s[|s| - |r|..]
  {
    if |s| <= n then s else s[|s| - n..]
  }

  /** Keeping the last n of a sequence truncated to its last n, with one more
      element, is keeping the last n of the whole sequence with that element. */
  lemma KeepLastAppend<T>(s: seq<T>, x: T, n: nat)
    requires n > 0
    ensures KeepLast(KeepLast(s, n) + [x], n) == KeepLast(s + [x], n)
  {
    var t := KeepLast(s, n);
    var lhs := KeepLast(t + [x], n);
    var rhs := KeepLast(s + [x], n);
    assert |lhs| == |rhs|;
    forall i | 0 <= i < |lhs| ensures lhs[i] == rhs[i] {
      if i == |lhs| - 1 {
        assert lhs[i] == x == rhs[i];
      } else {
        assert lhs[i] == (t + [x])[|t| + 1 - |lhs| + i];
        assert rhs[i] == (s + [x])[|s| + 1 - |rhs| + i];
      }
    }
  }

  /** The history updater `prev => [...prev, newPoint].slice(-20)`. */
  function AppendPoint(prev: seq<HistoryPoint>, p: HistoryPoint): (next: seq<HistoryPoint>)
    ensures 1 <= |next| <= HistoryCapacity
    ensures |next| == Min(|prev| + 1, HistoryCapacity)
    ensures next[|next| - 1] == p
  {
    KeepLast(prev + [p], HistoryCapacity)
  }

  /** Before the new point come the last 19 points of the previous history:
      a full window loses exactly its oldest point. */
  lemma AppendPointEvictsOldest(prev: seq<HistoryPoint>, p: HistoryPoint)
    ensures var next := AppendPoint(prev, p);
      next[..|next| - 1] == KeepLast(prev, HistoryCapacity - 1)
  {
    var next := AppendPoint(prev, p);
    assert next[..|next| - 1] == KeepLast(prev, HistoryCapacity - 1);
  }

  /** Until the window is full nothing is evicted: the new point is simply
      appended. */
  lemma AppendBelowCapacity(prev: seq<HistoryPoint>, p: HistoryPoint)
    requires |prev| < HistoryCapacity
    ensures AppendPoint(prev, p) == prev + [p]
  {
  }

  /** The history after the given points arrive one at a time, starting empty. */
  function Replay(points: seq<HistoryPoint>): seq<HistoryPoint>
  {
    if points == [] then [] else AppendPoint(Replay(points[..|points| - 1]), points[|points| - 1])
  }

  /** The rolling window is exactly the last min(N, 20) points, oldest first:
      the evictions are FIFO and nothing is reordered. */
  lemma {:induction false} ReplayKeepsLast(points: seq<HistoryPoint>)
    ensures Replay(points) == KeepLast(points, HistoryCapacity)
  {
    if points != [] {
      var init, last := points[..|points| - 1], points[|points| - 1];
      ReplayKeepsLast(init);
      var window := Replay(init);
      assert Replay(points) == AppendPoint(window, last);
      assert AppendPoint(window, last) == KeepLast(window + [last], HistoryCapacity);
      KeepLastAppend(init, last, HistoryCapacity);
      assert init + [last] == points;
    }
  }

  /** One inbound message: what JSON.parse produced (None when it threw) and
      the time the browser received it. */
  datatype Message = Message(decoded: Option<Snapshot>, receivedAt: string)

  /** The chart points a stream of messages produces: one per decoded message,
      none for a message that did not decode. */
  function PointsOf(msgs: seq<Message>): seq<HistoryPoint>
  {
    if msgs == [] then []
    else
      var m := msgs[|msgs| - 1];
      PointsOf(msgs[..|msgs| - 1])
        + (if m.decoded.Some? then [HistoryPoint(m.receivedAt, m.decoded.value.cpuLoad)] else [])
  }

  /** When every one of N messages decodes, the history after them holds the
      cpu_load of the last min(N, 20) messages, in arrival order. */
  lemma {:induction false} HistoryOfDecodedMessages(msgs: seq<Message>)
    requires forall i :: 0 <= i < |msgs| ==> msgs[i].decoded.Some?
    ensures |Replay(PointsOf(msgs))| == Min(|msgs|, HistoryCapacity)
    ensures forall k :: 0 <= k < |Replay(PointsOf(msgs))| ==>
      var m := msgs[|msgs| - |Replay(PointsOf(msgs))| + k];
      Replay(PointsOf(msgs))[k] == HistoryPoint(m.receivedAt, m.decoded.value.cpuLoad)
  {
    PointsOfDecoded(msgs);
    ReplayKeepsLast(PointsOf(msgs));
  }

  lemma {:induction false} PointsOfDecoded(msgs: seq<Message>)
    requires forall i :: 0 <= i < |msgs| ==> msgs[i].decoded.Some?
    ensures |PointsOf(msgs)| == |msgs|
    ensures forall i :: 0 <= i < |msgs| ==>
      PointsOf(msgs)[i] == HistoryPoint(msgs[i].receivedAt, msgs[i].decoded.value.cpuLoad)
  {
    if msgs != [] {
      PointsOfDecoded(msgs[..|msgs| - 1]);
    }
  }

  /** The CPU card's trend: "High" exactly when cpu_load is present and above
      80; a missing cpu_load compares false, giving "Normal". */
  function CpuTrend(s: Snapshot): (t: Trend)
    ensures t == High <==> (s.cpuLoad.Some? && s.cpuLoad.value > HighCpuThreshold)
  {
    if s.cpuLoad.Some? && s.cpuLoad.value > HighCpuThreshold then High else Normal
  }

  /** `metrics.wait_events || []`: the pie chart's data. */
  function WaitEventsOf(s: Snapshot): (events: seq<WaitEvent>)
    ensures s.waitEvents.None? ==> events == []
    ensures s.waitEvents.Some? ==> events == s.waitEvents.value
  {
    if s.waitEvents.Some? then s.waitEvents.value else []
  }

  /** The legend: the first three wait events, or all of them when fewer. */
  function Legend(s: Snapshot): (items: seq<WaitEvent>)
    ensures |items| == Min(|WaitEventsOf(s)|, LegendSize)
    ensures items <= WaitEventsOf(s)
  {
    var events := WaitEventsOf(s);
    if |events| <= LegendSize then events else events[..LegendSize]
  }

  /** The loading view exactly while no snapshot has arrived. */
  function Render(metrics: Option<Snapshot>, history: seq<HistoryPoint>, connected: bool): (v: View)
    ensures v == Loading <==> metrics.None?
    ensures v.Live? ==> v.snapshot == metrics.value && v.chart == history && v.online == connected
  {
    if metrics.None? then Loading else Live(metrics.value, history, connected)
  }

  /** The component's state. `arrived` records every point the updater ever
      appended; the invariant says the history is its last 20. */
  class DashboardState {
    var metrics: Option<Snapshot>
    var history: seq<HistoryPoint>
    var connected: bool
    ghost var arrived: seq<HistoryPoint>

    ghost predicate Valid()
      reads this
    {
      history == KeepLast(arrived, HistoryCapacity)
    }

    /** Mounting: no snapshot, empty history, not connected. */
    constructor ()
      ensures Valid()
      ensures metrics == None && history == [] && !connected && arrived == []
    {
      metrics := None;
      history := [];
      connected := false;
      arrived := [];
    }

    /** `ws.onopen`: only the connected flag changes. */
    method OnOpen()
      requires Valid()
      modifies this
      ensures Valid()
      ensures connected
      ensures metrics == old(metrics) && history == old(history) && arrived == old(arrived)
    {
      connected := true;
    }

    /** `ws.onclose`: only the connected flag changes; the history is kept. */
    method OnClose()
      requires Valid()
      modifies this
      ensures Valid()
      ensures !connected
      ensures metrics == old(metrics) && history == old(history) && arrived == old(arrived)
    {
      connected := false;
    }

    /** `ws.onmessage`: a message that decodes replaces the snapshot and adds
        one point carrying its cpu_load; one that does not decode throws
        before any state is set, so nothing changes. */
    method OnMessage(decoded: Option<Snapshot>, now: string)
      requires Valid()
      modifies this
      ensures Valid()
      ensures connected == old(connected)
      ensures |history| <= HistoryCapacity
      ensures decoded.None? ==>
        metrics == old(metrics) && history == old(history) && arrived == old(arrived)
      ensures decoded.Some? ==>
        && metrics == decoded
        && arrived == old(arrived) + [HistoryPoint(now, decoded.value.cpuLoad)]
        && history == AppendPoint(old(history), HistoryPoint(now, decoded.value.cpuLoad))
    {
      if decoded.Some? {
        var data := decoded.value;
        metrics := Some(data);
        var point := HistoryPoint(now, data.cpuLoad);
        KeepLastAppend(arrived, point, HistoryCapacity);
        assert AppendPoint(history, point) == KeepLast(KeepLast(arrived, HistoryCapacity) + [point], HistoryCapacity);
        history := AppendPoint(history, point);
        arrived := arrived + [point];
      }
    }

    /** What the component renders from its current state. */
    method CurrentView() returns (v: View)
      ensures v == Loading <==> metrics.None?
      ensures v.Live? ==> v.snapshot == metrics.value && v.chart == history && v.online == connected
    {
      v := Render(metrics, history, connected);
    }
  }
}
