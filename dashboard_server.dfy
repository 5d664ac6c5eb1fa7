/**
 * The simulation server of the analytics dashboard demo: a shared "world" of
 * simulated metrics advanced by every streaming tick, the set of connected
 * clients, one streaming timer per connection, the 50-point backlog sent on
 * connect, and broadcast.
 *
 * `Math.random()` becomes explicit draws, the clock becomes explicit readings,
 * and the WebSocket transport becomes an outbox of structured messages on each
 * connection.
 */
module DashboardServer {
  import opened Wrappers
  import opened Stats

  // ---------------------------------------------------------------------
  // World state and the tick step

  /** The module-level simulation state: user activity, system metrics, business KPIs. */
  datatype World = World(
    userActivity: real,
    cpu: real, memory: real, disk: real, network: real,
    revenue: real, costs: real, profit: real)

  /** The state the server starts with. */
  const InitialWorld := World(100.0, 45.0, 60.0, 70.0, 30.0, 50000.0, 30000.0, 20000.0)

  /** The `Math.random()` results one tick consumes, in the order the tick calls it. */
  datatype TickDraws = TickDraws(
    activity: real, cpu: real, memory: real, disk: real, network: real,
    revenue: real, costs: real, spike: real, spikeSize: real)

  predicate Unit(r: real) { 0.0 <= r < 1.0 }

  predicate UnitDraws(d: TickDraws)
  {
    Unit(d.activity) && Unit(d.cpu) && Unit(d.memory) && Unit(d.disk) && Unit(d.network)
    && Unit(d.revenue) && Unit(d.costs) && Unit(d.spike) && Unit(d.spikeSize)
  }

  /** A random-walk step of width `width` around `x`: x + (r - 0.5) * width. */
  function Walk(x: real, r: real, width: real): real { x + (r - 0.5) * width }

  /** `Math.max(0, Math.min(100, v))`. */
  function Percent(v: real): real { Max(0.0, Min(100.0, v)) }

  predicate InPercent(x: real) { 0.0 <= x <= 100.0 }

  /** One tick of the simulation (the body of the streaming interval, before sending). */
  function Step(w: World, d: TickDraws): (r: World)
    ensures r.userActivity >= 10.0
    ensures InPercent(r.cpu) && InPercent(r.memory) && InPercent(r.disk) && InPercent(r.network)
    ensures r.revenue >= 0.0 && r.costs >= 0.0
    ensures r.profit == r.revenue - r.costs
  {
    var revenue := Max(0.0, Walk(w.revenue, d.revenue, 2000.0));
    var costs := Max(0.0, Walk(w.costs, d.costs, 1000.0));
    World(
      Max(10.0, Walk(w.userActivity, d.activity, 20.0)),
      Percent(Walk(w.cpu, d.cpu, 10.0)),
      Percent(Walk(w.memory, d.memory, 5.0)),
      Percent(Walk(w.disk, d.disk, 2.0)),
      Percent(Walk(w.network, d.network, 15.0)),
      revenue, costs, revenue - costs)
  }

  /** The invariant every tick re-establishes, whatever the previous state. */
  predicate WorldInRange(w: World)
  {
    w.userActivity >= 10.0
    && InPercent(w.cpu) && InPercent(w.memory) && InPercent(w.disk) && InPercent(w.network)
    && w.revenue >= 0.0 && w.costs >= 0.0 && w.profit == w.revenue - w.costs
  }

  lemma InitialWorldInRange()
    ensures WorldInRange(InitialWorld)
  {
  }

  /**
   * From an in-range world and draws in [0,1), each quantity moves by at most
   * half its walk width: clamping only ever pulls a value back towards a range
   * the previous value was already in.
   */
  lemma StepDrift(w: World, d: TickDraws)
    requires WorldInRange(w) && UnitDraws(d)
    ensures var r := Step(w, d);
      Abs(r.userActivity - w.userActivity) <= 10.0
      && Abs(r.cpu - w.cpu) <= 5.0 && Abs(r.memory - w.memory) <= 2.5
      && Abs(r.disk - w.disk) <= 1.0 && Abs(r.network - w.network) <= 7.5
      && Abs(r.revenue - w.revenue) <= 1000.0 && Abs(r.costs - w.costs) <= 500.0
  {
  }

  // ---------------------------------------------------------------------
  // Messages

  /** One point of the backlog sent on connect. */
  datatype BacklogPoint = BacklogPoint(timestamp: int, activeUsers: int, cpu: int, memory: int)

  /** The clock reading and the three `Math.random()` results one backlog iteration consumes. */
  datatype BacklogDraw = BacklogDraw(clock: int, users: real, cpu: real, memory: real)

  /** Every message the server sends, with its `type` and payload. */
  datatype Message =
    | HistoricalData(points: seq<BacklogPoint>)
    | UserActivity(timestamp: string, activeUsers: int)
    | SystemMetrics(timestamp: string, cpu: real, memory: real, disk: real, network: real)
    | BusinessKpis(timestamp: string, revenue: real, costs: real, profit: real)
    | Broadcast(body: string)

  /** Backlog point number `i` (0-based) built from its draw. */
  function MakePoint(d: BacklogDraw, i: int): BacklogPoint
  {
    BacklogPoint(d.clock - (50 - i) * 1000,
                 (50.0 + d.users * 100.0).Floor,
                 (30.0 + d.cpu * 50.0).Floor,
                 (40.0 + d.memory * 40.0).Floor)
  }

  lemma FloorWithin(x: real, lo: int, hi: int)
    requires lo as real <= x < hi as real
    ensures lo <= x.Floor < hi
  {
  }

  /**
   * The backlog: 50 points, in loop order, each from its own draw, with the
   * documented value ranges.
   */
  method SendInitialData(draws: seq<BacklogDraw>) returns (points: seq<BacklogPoint>)
    requires |draws| == 50
    requires forall i :: 0 <= i < 50 ==> Unit(draws[i].users) && Unit(draws[i].cpu) && Unit(draws[i].memory)
    ensures |points| == 50
    ensures forall i :: 0 <= i < 50 ==> points[i] == MakePoint(draws[i], i)
    ensures forall i :: 0 <= i < 50 ==>
      50 <= points[i].activeUsers <= 149 && 30 <= points[i].cpu <= 79 && 40 <= points[i].memory <= 79
  {
    points := [];
    for i := 0 to 50
      invariant |points| == i
      invariant forall k :: 0 <= k < i ==> points[k] == MakePoint(draws[k], k)
      invariant forall k :: 0 <= k < i ==>
        50 <= points[k].activeUsers <= 149 && 30 <= points[k].cpu <= 79 && 40 <= points[k].memory <= 79
    {
      var d := draws[i];
      FloorWithin(50.0 + d.users * 100.0, 50, 150);
      FloorWithin(30.0 + d.cpu * 50.0, 30, 80);
      FloorWithin(40.0 + d.memory * 40.0, 40, 80);
      points := points + [MakePoint(d, i)];
    }
  }

  /**
   * With one clock reading `now` for the whole loop the timestamps are exactly
   * now - 50000, now - 49000, ..., now - 1000; with a clock that never goes
   * back they still increase strictly, by at least 1000 per point.
   */
  lemma BacklogTimestamps(draws: seq<BacklogDraw>, now: int)
    requires |draws| == 50
    ensures (forall i :: 0 <= i < 50 ==> draws[i].clock == now) ==>
      forall i :: 0 <= i < 50 ==> MakePoint(draws[i], i).timestamp == now - 50000 + 1000 * i
    ensures (forall i, j :: 0 <= i <= j < 50 ==> draws[i].clock <= draws[j].clock) ==>
      forall i, j :: 0 <= i < j < 50 ==>
        MakePoint(draws[i], i).timestamp + 1000 * (j - i) <= MakePoint(draws[j], j).timestamp
  {
  }

  /**
   * The messages one tick sends after stepping to `w`: user activity, system
   * metrics, business KPIs, then on a spike draw below 0.05 one extra user
   * activity message.
   */
  function TickMessages(w: World, d: TickDraws, timestamp: string): (r: seq<Message>)
    ensures |r| == (if d.spike < 0.05 then 4 else 3)
    ensures r[0].UserActivity? && r[1].SystemMetrics? && r[2].BusinessKpis?
    ensures forall i :: 3 <= i < |r| ==> r[i].UserActivity?
  {
    var regular := [
      UserActivity(timestamp, w.userActivity.Floor),
      SystemMetrics(timestamp, w.cpu, w.memory, w.disk, w.network),
      BusinessKpis(timestamp, w.revenue, w.costs, w.profit)];
    if d.spike < 0.05 then
      regular + [UserActivity(timestamp, (w.userActivity + 200.0 + d.spikeSize * 100.0).Floor)]
    else regular
  }

  /**
   * What a tick reports: the stepped world's values, the floor of user
   * activity, and a spike between 200 and 300 above that floor.
   */
  lemma TickReportsWorld(w: World, d: TickDraws, timestamp: string)
    requires Unit(d.spikeSize)
    ensures var m := TickMessages(w, d, timestamp);
      m[0].activeUsers == w.userActivity.Floor
      && m[1] == SystemMetrics(timestamp, w.cpu, w.memory, w.disk, w.network)
      && m[2] == BusinessKpis(timestamp, w.revenue, w.costs, w.profit)
      && (|m| == 4 ==> m[0].activeUsers + 200 <= m[3].activeUsers <= m[0].activeUsers + 300)
  {
    var m := TickMessages(w, d, timestamp);
    if |m| == 4 {
      var u := w.userActivity;
      var s := u + 200.0 + d.spikeSize * 100.0;
      assert (u.Floor + 200) as real <= s < (u.Floor + 301) as real;
      FloorWithin(s, u.Floor + 200, u.Floor + 301);
    }
  }

  // ---------------------------------------------------------------------
  // Connections and their streaming timers

  /** An installed `setInterval`: its handle and its period in milliseconds. */
  datatype Timer = Timer(handle: nat, interval: int)

  /** A client WebSocket: the timer it holds (`ws.dataInterval`), whether it is open, and what it was sent. */
  class Connection {
    var timer: Option<Timer>
    var open: bool
    var outbox: seq<Message>

    constructor ()
      ensures timer == None && open && outbox == []
    {
      timer := None;
      open := true;
      outbox := [];
    }
  }

  /** The `payload` of a subscribe message, as far as `startDataStreaming` reads it. */
  datatype SubscribePayload =
    | Absent                          // no payload: the `config = {}` default applies
    | NullPayload                     // `null`: reading `.interval` throws
    | Config(interval: Option<int>)   // an object; `None` for a missing or falsy non-numeric interval

  /** A raw client message after `JSON.parse`. */
  datatype Inbound =
    | Unparseable                     // JSON.parse threw, or the value was `null`
    | Subscribe(payload: SubscribePayload)
    | Unsubscribe
    | OtherType                       // any other `type`, or none

  /** `config.interval || 1000`. */
  function ResolveInterval(interval: Option<int>): (ms: int)
    ensures ms != 0
    ensures interval.Some? && interval.value != 0 ==> ms == interval.value
    ensures interval.None? || interval.value == 0 ==> ms == 1000
  {
    if interval.None? || interval.value == 0 then 1000 else interval.value
  }

  class Server {
    var world: World
    var clients: set<Connection>
    /** The intervals the event loop will still fire, each with the connection its callback sends to. */
    var timers: map<nat, Connection>
    var nextHandle: nat

    /** Every live interval is the one its connection holds. */
    ghost predicate Valid()
      reads this, timers.Values
    {
      WorldInRange(world)
      && forall h :: h in timers ==>
           h < nextHandle && timers[h].timer.Some? && timers[h].timer.value.handle == h
    }

    constructor ()
      ensures Valid() && world == InitialWorld && clients == {} && timers == map[]
    {
      world := InitialWorld;
      clients := {};
      timers := map[];
      nextHandle := 0;
    }

    /** The live intervals that send to `ws`. */
    ghost function TimersOf(ws: Connection): set<nat>
      reads this
    {
      set h | h in timers && timers[h] == ws
    }

    /** A connection never has two live intervals, and the one it has is the one it holds. */
    lemma AtMostOneTimer(ws: Connection)
      requires Valid()
      ensures ws.timer.None? ==> TimersOf(ws) == {}
      ensures ws.timer.Some? ==> TimersOf(ws) <= {ws.timer.value.handle}
    {
    }

    /** `startDataStreaming`: clear the old interval if any, then install a fresh one. */
    method StartDataStreaming(ws: Connection, interval: Option<int>)
      requires Valid()
      modifies this, ws
      ensures Valid()
      ensures ws.timer == Some(Timer(old(nextHandle), ResolveInterval(interval)))
      ensures timers == (if old(ws.timer).Some? then old(timers) - {old(ws.timer).value.handle} else old(timers))[old(nextHandle) := ws]
      ensures TimersOf(ws) == {old(nextHandle)}
      ensures world == old(world) && clients == old(clients)
      ensures ws.open == old(ws.open) && ws.outbox == old(ws.outbox)
    {
      var ms := ResolveInterval(interval);
      if ws.timer.Some? {
        timers := timers - {ws.timer.value.handle};
      }
      var h := nextHandle;
      nextHandle := nextHandle + 1;
      timers := timers[h := ws];
      ws.timer := Some(Timer(h, ms));
    }

    /** `stopDataStreaming`: with no timer nothing happens; otherwise the interval is cleared and forgotten. */
    method StopDataStreaming(ws: Connection)
      requires Valid()
      modifies this`timers, ws`timer
      ensures Valid()
      ensures ws.timer == None
      ensures timers == if old(ws.timer).Some? then old(timers) - {old(ws.timer).value.handle} else old(timers)
      ensures TimersOf(ws) == {}
    {
      if ws.timer.Some? {
        timers := timers - {ws.timer.value.handle};
        ws.timer := None;
      }
    }

    /** A new connection: register it and send it the backlog. */
    method OnConnection(ws: Connection, draws: seq<BacklogDraw>)
      requires Valid()
      requires |draws| == 50
      requires forall i :: 0 <= i < 50 ==> Unit(draws[i].users) && Unit(draws[i].cpu) && Unit(draws[i].memory)
      modifies this`clients, ws`outbox
      ensures Valid()
      ensures clients == old(clients) + {ws}
      ensures |ws.outbox| == |old(ws.outbox)| + 1 && ws.outbox[..|old(ws.outbox)|] == old(ws.outbox)
      ensures var m := ws.outbox[|ws.outbox| - 1];
        m.HistoricalData? && |m.points| == 50
        && forall i :: 0 <= i < 50 ==> m.points[i] == MakePoint(draws[i], i)
    {
      clients := clients + {ws};
      var points := SendInitialData(draws);
      ws.outbox := ws.outbox + [HistoricalData(points)];
    }

    /** The `message` handler. Anything it cannot parse, and any other type, changes nothing. */
    method OnMessage(ws: Connection, m: Inbound)
      requires Valid()
      modifies this, ws
      ensures Valid()
      ensures m.Unparseable? || m.OtherType? || (m.Subscribe? && m.payload.NullPayload?) ==>
        timers == old(timers) && ws.timer == old(ws.timer) && nextHandle == old(nextHandle)
      ensures m.Subscribe? && m.payload.Absent? ==> ws.timer == Some(Timer(old(nextHandle), 1000))
      ensures m.Subscribe? && m.payload.Config? ==>
        ws.timer == Some(Timer(old(nextHandle), ResolveInterval(m.payload.interval)))
      ensures m.Subscribe? && !m.payload.NullPayload? ==>
        timers == (if old(ws.timer).Some? then old(timers) - {old(ws.timer).value.handle} else old(timers))[old(nextHandle) := ws]
        && TimersOf(ws) == {old(nextHandle)}
      ensures m.Unsubscribe? ==> ws.timer == None && TimersOf(ws) == {}
      ensures m.Unsubscribe? ==>
        timers == if old(ws.timer).Some? then old(timers) - {old(ws.timer).value.handle} else old(timers)
      ensures world == old(world) && clients == old(clients)
      ensures ws.open == old(ws.open) && ws.outbox == old(ws.outbox)
    {
      match m
      case Subscribe(p) =>
        match p {
          case Absent => StartDataStreaming(ws, None);
          case NullPayload =>   // TypeError reading `.interval`, caught and logged
          case Config(i) => StartDataStreaming(ws, i);
        }
      case Unsubscribe => StopDataStreaming(ws);
      case Unparseable =>       // caught and logged
      case OtherType =>
    }

    /** The `close` handler: forget the client and stop its timer. */
    method OnClose(ws: Connection)
      requires Valid()
      modifies this`clients, this`timers, ws`timer
      ensures Valid()
      ensures clients == old(clients) - {ws}
      ensures ws.timer == None && TimersOf(ws) == {}
      ensures timers == if old(ws.timer).Some? then old(timers) - {old(ws.timer).value.handle} else old(timers)
    {
      clients := clients - {ws};
      StopDataStreaming(ws);
    }

    /** The `error` handler: forget the client but leave its timer running. */
    method OnError(ws: Connection)
      requires Valid()
      modifies this`clients
      ensures Valid()
      ensures clients == old(clients) - {ws}
      ensures timers == old(timers) && ws.timer == old(ws.timer)
    {
      clients := clients - {ws};
    }

    /**
     * The event loop fires live interval `h`: the world takes one step and
     * the tick's messages go to the connection the interval was installed
     * for, whether or not it is still a client.
     */
    method FireTimer(h: nat, ws: Connection, d: TickDraws, timestamp: string)
      requires Valid() && h in timers && timers[h] == ws
      modifies this`world, ws`outbox
      ensures Valid()
      ensures world == Step(old(world), d)
      ensures ws.outbox == old(ws.outbox) + TickMessages(world, d, timestamp)
    {
      world := Step(world, d);
      ws.outbox := ws.outbox + TickMessages(world, d, timestamp);
    }

    /** `broadcast`: every client whose socket is open receives the message once; nobody else does. */
    method Broadcast(m: Message)
      requires Valid()
      modifies clients
      ensures Valid()
      ensures forall c :: c in clients && c.open ==> c.outbox == old(c.outbox) + [m]
      ensures forall c :: c in clients && !c.open ==> c.outbox == old(c.outbox)
      ensures forall c :: c in clients ==> c.timer == old(c.timer) && c.open == old(c.open)
    {
      var rest := clients;
      while rest != {}
        invariant rest <= clients
        invariant forall c :: c in clients ==> c.timer == old(c.timer) && c.open == old(c.open)
        invariant forall c :: c in clients - rest && c.open ==> c.outbox == old(c.outbox) + [m]
        invariant forall c :: c in rest || (c in clients && !c.open) ==> c.outbox == old(c.outbox)
        decreases rest
      {
        var c :| c in rest;
        if c.open {
          c.outbox := c.outbox + [m];
        }
        rest := rest - {c};
      }
    }
  }
}
