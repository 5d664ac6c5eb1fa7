/**
 * The API gateway: the service registry (upsert by instance id, health
 * filtering, periodic demotion of stale instances), the load balancer's
 * instance selection, request classification by the security middleware and
 * the environment-string parsers behind the configuration.
 *
 * Instants and durations are integers of nanoseconds, as Go's `time` package
 * counts them; the current instant is a parameter `now`.
 */
module Gateway {
  import opened Wrappers
  import opened Text

  const Second: int := 1_000_000_000

  /** An instance counts as live while it was seen less than 30 seconds ago. */
  const LivenessWindow: int := 30 * Second

  datatype Instance = Instance(id: string, name: string, host: string, port: int, health: string, lastSeen: int)

  // ---------------------------------------------------------------------
  // Registry

  predicate HasId(list: seq<Instance>, id: string)
  {
    exists i :: 0 <= i < |list| && list[i].id == id
  }

  predicate IdsUnique(list: seq<Instance>)
  {
    forall i, j :: 0 <= i < j < |list| ==> list[i].id != list[j].id
  }

  /** The list after registering `s`: the first entry with its id replaced in place, or `s` appended. */
  function Upserted(list: seq<Instance>, s: Instance): (r: seq<Instance>)
    ensures !HasId(list, s.id) ==> r == list + [s]
    ensures HasId(list, s.id) ==> |r| == |list|
    ensures forall i :: 0 <= i < |list| && list[i].id != s.id ==> r[i] == list[i]
    decreases |list|
  {
    if |list| == 0 then [s]
    else if list[0].id == s.id then [s] + list[1..]
    else
      assert HasId(list, s.id) ==> HasId(list[1..], s.id);
      assert !HasId(list, s.id) ==> !HasId(list[1..], s.id);
      [list[0]] + Upserted(list[1..], s)
  }

  /** Registering with an id found at `i`, and at no earlier position, overwrites position `i`. */
  lemma {:induction false} UpsertedAt(list: seq<Instance>, s: Instance, i: nat)
    requires i < |list| && list[i].id == s.id
    requires forall j :: 0 <= j < i ==> list[j].id != s.id
    ensures Upserted(list, s) == list[i := s]
    decreases i
  {
    if i > 0 {
      UpsertedAt(list[1..], s, i - 1);
      var tail := list[1..][i - 1 := s];
      assert forall k :: 0 <= k < |list| ==> ([list[0]] + tail)[k] == list[i := s][k];
      assert Upserted(list, s) == [list[0]] + tail;
    }
  }

  /** Registration keeps ids unique, and adds no instance but the registered one. */
  lemma UpsertKeepsIdsUnique(list: seq<Instance>, s: Instance)
    requires IdsUnique(list)
    ensures IdsUnique(Upserted(list, s))
    ensures s in Upserted(list, s)
    ensures forall x :: x in Upserted(list, s) ==> x == s || x in list
  {
    var r := Upserted(list, s);
    if HasId(list, s.id) {
      var i :| 0 <= i < |list| && list[i].id == s.id;
      UpsertedAt(list, s, i);
      assert r == list[i := s];
      assert r[i] == s;
      forall x | x in r
        ensures x == s || x in list
      {
        var k :| 0 <= k < |r| && r[k] == x;
        if k != i {
          assert x == list[k];
        }
      }
    } else {
      assert r == list + [s];
      assert r[|list|] == s;
      forall i, j | 0 <= i < j < |r|
        ensures r[i].id != r[j].id
      {
        if j == |list| {
          assert !(list[i].id == s.id);
        }
      }
    }
  }

  /** Registering the same instance twice is the same as registering it once. */
  lemma UpsertIdempotent(list: seq<Instance>, s: Instance)
    ensures Upserted(Upserted(list, s), s) == Upserted(list, s)
    decreases |list|
  {
    if |list| > 0 && list[0].id != s.id {
      UpsertIdempotent(list[1..], s);
    }
  }

  /** An instance the gateway would route to: reported healthy and seen within the window. */
  predicate Serving(inst: Instance, now: int)
  {
    inst.health == "healthy" && now - inst.lastSeen < LivenessWindow
  }

  /** The serving instances, in registration order. */
  function Healthy(instances: seq<Instance>, now: int): (h: seq<Instance>)
    ensures |h| <= |instances|
    ensures forall x :: x in h <==> x in instances && Serving(x, now)
    decreases |instances|
  {
    if |instances| == 0 then []
    else
      var n := |instances|;
      assert instances == instances[..n - 1] + [instances[n - 1]];
      Healthy(instances[..n - 1], now) + (if Serving(instances[n - 1], now) then [instances[n - 1]] else [])
  }

  /** The filtering loop of `GetService`. */
  method HealthyInstances(instances: seq<Instance>, now: int) returns (healthy: seq<Instance>)
    ensures healthy == Healthy(instances, now)
  {
    healthy := [];
    for i := 0 to |instances|
      invariant healthy == Healthy(instances[..i], now)
    {
      assert instances[..i + 1][..i] == instances[..i];
      if instances[i].health == "healthy" && now - instances[i].lastSeen < LivenessWindow {
        healthy := healthy + [instances[i]];
      }
    }
    assert instances[..|instances|] == instances;
  }

  /** The health check's verdict on one instance: stale for more than 30 seconds means unhealthy. */
  function Checked(inst: Instance, now: int): (c: Instance)
    ensures c.id == inst.id && c.name == inst.name && c.lastSeen == inst.lastSeen
    ensures c.(health := inst.health) == inst
    ensures c.health == "healthy" ==> inst.health == "healthy"
    ensures now - inst.lastSeen <= LivenessWindow ==> c == inst
    ensures now - inst.lastSeen > LivenessWindow ==> c == inst.(health := "unhealthy")
  {
    if now - inst.lastSeen > LivenessWindow then inst.(health := "unhealthy") else inst
  }

  function CheckedAll(list: seq<Instance>, now: int): (r: seq<Instance>)
    ensures |r| == |list| && forall i :: 0 <= i < |list| ==> r[i] == Checked(list[i], now)
  {
    seq(|list|, i requires 0 <= i < |list| => Checked(list[i], now))
  }

  /** A health check never changes which instances are served: the filter is stricter than the demotion. */
  lemma HealthCheckKeepsServingSet(list: seq<Instance>, now: int)
    ensures Healthy(CheckedAll(list, now), now) == Healthy(list, now)
    decreases |list|
  {
    var n := |list|;
    if n > 0 {
      assert CheckedAll(list, now)[..n - 1] == CheckedAll(list[..n - 1], now);
      HealthCheckKeepsServingSet(list[..n - 1], now);
    }
  }

  /** Health checks leave ids and service names as they were. */
  lemma CheckedAllKeepsIds(list: seq<Instance>, now: int)
    ensures IdsUnique(list) ==> IdsUnique(CheckedAll(list, now))
    ensures forall i :: 0 <= i < |list| ==> CheckedAll(list, now)[i].name == list[i].name
  {
  }

  /** The inner loop of `performHealthChecks` over one service's instances. */
  method CheckInstances(list: seq<Instance>, now: int) returns (checked: seq<Instance>)
    ensures checked == CheckedAll(list, now)
  {
    checked := list;
    for i := 0 to |list|
      invariant |checked| == |list|
      invariant forall j :: 0 <= j < i ==> checked[j] == Checked(list[j], now)
      invariant forall j :: i <= j < |list| ==> checked[j] == list[j]
    {
      if now - checked[i].lastSeen > LivenessWindow {
        checked := checked[i := checked[i].(health := "unhealthy")];
      }
    }
  }

  datatype LookupError = NotFound(service: string) | NoHealthyInstance(service: string)

  class ServiceRegistry {
    var services: map<string, seq<Instance>>

    /** Every list holds instances of its own service, each id at most once. */
    ghost predicate Valid()
      reads this
    {
      forall k :: k in services ==>
        IdsUnique(services[k]) && forall i :: 0 <= i < |services[k]| ==> services[k][i].name == k
    }

    constructor ()
      ensures Valid() && services == map[]
    {
      services := map[];
    }

    function ListOf(name: string): seq<Instance>
      reads this
    {
      if name in services then services[name] else []
    }

    /** `RegisterService`: replace the entry with the same id in place, or append. */
    method RegisterService(service: Instance)
      requires Valid()
      modifies this
      ensures Valid()
      ensures services == old(services)[service.name := Upserted(old(ListOf(service.name)), service)]
    {
      var list := ListOf(service.name);
      var i := 0;
      while i < |list|
        invariant 0 <= i <= |list|
        invariant forall j :: 0 <= j < i ==> list[j].id != service.id
      {
        if list[i].id == service.id {
          UpsertedAt(list, service, i);
          UpsertKeepsIdsUnique(list, service);
          services := services[service.name := list[i := service]];
          return;
        }
        i := i + 1;
      }
      UpsertKeepsIdsUnique(list, service);
      services := services[service.name := list + [service]];
    }

    /** `GetService`: an error for an unknown or empty service or when none is serving, else the balancer's pick among the serving. */
    method GetService(name: string, lb: LoadBalancer, now: int, nanos: nat) returns (r: Result<Instance, LookupError>)
      modifies lb
      ensures name !in services || |services[name]| == 0 ==> r == Err(NotFound(name)) && lb.counters == old(lb.counters)
      ensures name in services && |services[name]| > 0 && |Healthy(services[name], now)| == 0 ==>
        r == Err(NoHealthyInstance(name)) && lb.counters == old(lb.counters)
      ensures name in services && |Healthy(services[name], now)| > 0 ==> r.Ok?
      ensures r.Ok? ==> r.value in services[name] && Serving(r.value, now)
      ensures r.Ok? ==> r.value == Healthy(services[name], now)[SelectIndex(lb.algorithm, Counter(old(lb.counters), name), |Healthy(services[name], now)|, nanos)]
      ensures r.Ok? ==> lb.counters == Advanced(lb.algorithm, old(lb.counters), name)
    {
      if name !in services || |services[name]| == 0 {
        return Err(NotFound(name));
      }
      var healthy := HealthyInstances(services[name], now);
      if |healthy| == 0 {
        return Err(NoHealthyInstance(name));
      }
      var inst := lb.SelectInstance(name, healthy, nanos);
      r := Ok(inst);
    }

    /** `performHealthChecks`: demote every instance not seen for more than 30 seconds; map order does not matter. */
    method PerformHealthChecks(now: int)
      requires Valid()
      modifies this
      ensures Valid()
      ensures services.Keys == old(services).Keys
      ensures forall k :: k in services ==> services[k] == CheckedAll(old(services)[k], now)
    {
      var pending := services.Keys;
      ghost var start := services;
      while pending != {}
        invariant pending <= start.Keys && services.Keys == start.Keys
        invariant forall k :: k in services ==> services[k] == if k in pending then start[k] else CheckedAll(start[k], now)
        decreases pending
      {
        var k :| k in pending;
        var checked := CheckInstances(services[k], now);
        services := services[k := checked];
        pending := pending - {k};
      }
      forall k | k in start {
        CheckedAllKeepsIds(start[k], now);
      }
    }
  }

  // ---------------------------------------------------------------------
  // Load balancer

  /** A missing counter reads as zero, like a Go map lookup. */
  function Counter(counters: map<string, nat>, name: string): nat
  {
    if name in counters then counters[name] else 0
  }

  /** The position `SelectInstance` picks among `n` instances; `nanos` is the clock for the default case. */
  function SelectIndex(algorithm: string, counter: nat, n: nat, nanos: nat): (i: nat)
    requires n > 0
    ensures i < n
    ensures algorithm == "least_connections" ==> i == 0
  {
    match algorithm
    case "round_robin" => counter % n
    case "least_connections" => 0
    case _ => nanos % n
  }

  /** The counters after a pick: only round-robin advances, and only the named service's counter. */
  function Advanced(algorithm: string, counters: map<string, nat>, name: string): (r: map<string, nat>)
    ensures algorithm != "round_robin" ==> r == counters
    ensures algorithm == "round_robin" ==> Counter(r, name) == Counter(counters, name) + 1
    ensures forall k :: k != name ==> Counter(r, k) == Counter(counters, k) && (k in r <==> k in counters)
  {
    if algorithm == "round_robin" then counters[name := Counter(counters, name) + 1] else counters
  }

  /** Over any `n` consecutive round-robin picks, every one of `n` instances is chosen. */
  lemma RoundRobinVisitsAll(c: nat, n: nat, i: nat)
    requires 0 < n && i < n
    ensures var j := (i - c) % n; j < n && SelectIndex("round_robin", c + j, n, 0) == i
  {
    var j := (i - c) % n;
    var q := (i - c) / n;
    assert i - c == q * n + j;
    assert c + j == i + (-q) * n;
    ModShift(i, -q, n);
  }

  /** Euclidean division is unique: a representation `d * n + r` with `0 <= r < n` gives the remainder. */
  lemma ModShift(i: nat, q: int, n: nat)
    requires 0 < n && i < n && i + q * n >= 0
    ensures (i + q * n) % n == i
  {
    var x := i + q * n;
    var d, r := x / n, x % n;
    assert x == d * n + r;
    assert (q - d) * n == r - i;
    if q - d >= 1 {
      MulAtLeast(q - d, n);
    } else if q - d <= -1 {
      MulAtLeast(d - q, n);
    }
  }

  lemma MulAtLeast(k: int, n: nat)
    requires k >= 1
    ensures k * n >= n
  {
    assert k * n == (k - 1) * n + n;
  }

  class LoadBalancer {
    const algorithm: string
    var counters: map<string, nat>

    constructor (algorithm: string)
      ensures this.algorithm == algorithm && counters == map[]
    {
      this.algorithm := algorithm;
      counters := map[];
    }

    /** `SelectInstance`: Go panics on an empty list, so callers pass at least one instance. */
    method SelectInstance(name: string, instances: seq<Instance>, nanos: nat) returns (inst: Instance)
      requires |instances| > 0
      modifies this`counters
      ensures inst == instances[SelectIndex(algorithm, Counter(old(counters), name), |instances|, nanos)]
      ensures counters == Advanced(algorithm, old(counters), name)
    {
      if algorithm == "round_robin" {
        var counter := Counter(counters, name);
        inst := instances[counter % |instances|];
        counters := counters[name := counter + 1];
      } else if algorithm == "least_connections" {
        inst := instances[0];
      } else {
        inst := instances[nanos % |instances|];
      }
    }
  }

  // ---------------------------------------------------------------------
  // Security middleware

  datatype Request = Request(rawQuery: string, path: string, contentLength: int, remoteAddr: string)

  datatype SecurityEvent = SecurityEvent(kind: string, timestamp: int, sourceIP: string, details: string, severity: string)

  const SqlPatterns: seq<string> := ["'", "\"", "--", "/*", "*/", "xp_", "exec"]
  const XssPatterns: seq<string> := ["<script", "javascript:", "onload=", "onerror="]

  /** Bodies above 10 MiB are flagged. */
  const MaxContentLength: int := 10 * 1024 * 1024

  predicate Mentions(r: Request, pattern: string)
  {
    Contains(r.rawQuery, pattern) || Contains(r.path, pattern)
  }

  function SqlEvent(r: Request, pattern: string, now: int): SecurityEvent
  {
    SecurityEvent("sql_injection_attempt", now, r.remoteAddr, "SQL injection pattern detected: " + pattern, "high")
  }

  function XssEvent(r: Request, pattern: string, now: int): SecurityEvent
  {
    SecurityEvent("xss_attempt", now, r.remoteAddr, "XSS pattern detected: " + pattern, "medium")
  }

  function SizeEvent(r: Request, now: int): SecurityEvent
    requires r.contentLength >= 0
  {
    SecurityEvent("large_payload", now, r.remoteAddr, "Request too large: " + NatToString(r.contentLength) + " bytes", "medium")
  }

  /** Different patterns give different events: the pattern is the tail of the details. */
  lemma EventsInjective(r: Request, now: int)
    ensures forall p, q :: SqlEvent(r, p, now) == SqlEvent(r, q, now) ==> p == q
    ensures forall p, q :: XssEvent(r, p, now) == XssEvent(r, q, now) ==> p == q
  {
    forall p, q | SqlEvent(r, p, now) == SqlEvent(r, q, now)
      ensures p == q
    {
      var prefix := "SQL injection pattern detected: ";
      assert p == (prefix + p)[|prefix|..] && q == (prefix + q)[|prefix|..];
    }
    forall p, q | XssEvent(r, p, now) == XssEvent(r, q, now)
      ensures p == q
    {
      var prefix := "XSS pattern detected: ";
      assert p == (prefix + p)[|prefix|..] && q == (prefix + q)[|prefix|..];
    }
  }

  /** One event per pattern the request mentions, in pattern order; `sql` picks the SQL or the XSS event. */
  function PatternEvents(r: Request, patterns: seq<string>, sql: bool, now: int): (es: seq<SecurityEvent>)
    ensures |es| <= |patterns|
    ensures forall p :: p in patterns ==>
      (Mentions(r, p) <==> (if sql then SqlEvent(r, p, now) else XssEvent(r, p, now)) in es)
    ensures forall e :: e in es ==> exists p :: p in patterns && Mentions(r, p) && e == (if sql then SqlEvent(r, p, now) else XssEvent(r, p, now))
    ensures forall e :: e in es ==> e.severity == (if sql then "high" else "medium")
    decreases |patterns|
  {
    if |patterns| == 0 then []
    else
      EventsInjective(r, now);
      var n := |patterns|;
      var p := patterns[n - 1];
      var e := if sql then SqlEvent(r, p, now) else XssEvent(r, p, now);
      assert patterns == patterns[..n - 1] + [p];
      PatternEvents(r, patterns[..n - 1], sql, now) + (if Mentions(r, p) then [e] else [])
  }

  /** What `detectSecurityIssues` reports: SQL patterns, then XSS patterns, then the size check. */
  function Issues(r: Request, now: int): (es: seq<SecurityEvent>)
    ensures forall e :: e in es ==> e.severity == "high" || e.severity == "medium"
    ensures |es| <= |SqlPatterns| + |XssPatterns| + 1
  {
    PatternEvents(r, SqlPatterns, true, now) + PatternEvents(r, XssPatterns, false, now)
    + (if r.contentLength > MaxContentLength then [SizeEvent(r, now)] else [])
  }

  /** The request is flagged for each SQL and XSS pattern exactly when it mentions it, and for size exactly above 10 MiB. */
  lemma IssuesMatchPatterns(r: Request, now: int)
    ensures forall p :: p in SqlPatterns ==> (SqlEvent(r, p, now) in Issues(r, now) <==> Mentions(r, p))
    ensures forall p :: p in XssPatterns ==> (XssEvent(r, p, now) in Issues(r, now) <==> Mentions(r, p))
    ensures (exists e :: e in Issues(r, now) && e.kind == "large_payload") <==> r.contentLength > MaxContentLength
  {
    var sqlEs := PatternEvents(r, SqlPatterns, true, now);
    var xssEs := PatternEvents(r, XssPatterns, false, now);
    forall p | p in SqlPatterns
      ensures SqlEvent(r, p, now) in Issues(r, now) <==> Mentions(r, p)
    {
      assert SqlEvent(r, p, now) !in xssEs;
    }
    forall p | p in XssPatterns
      ensures XssEvent(r, p, now) in Issues(r, now) <==> Mentions(r, p)
    {
      assert XssEvent(r, p, now) !in sqlEs;
    }
    assert forall e: SecurityEvent :: e in sqlEs + xssEs ==> e.kind != "large_payload";
    if r.contentLength > MaxContentLength {
      assert SizeEvent(r, now) in Issues(r, now);
    }
  }

  /** One pattern loop of `detectSecurityIssues`, appending an event for each pattern the request mentions. */
  method ScanPatterns(r: Request, patterns: seq<string>, sql: bool, now: int) returns (es: seq<SecurityEvent>)
    ensures es == PatternEvents(r, patterns, sql, now)
  {
    es := [];
    for i := 0 to |patterns|
      invariant es == PatternEvents(r, patterns[..i], sql, now)
    {
      assert patterns[..i + 1][..i] == patterns[..i];
      if Mentions(r, patterns[i]) {
        es := es + [if sql then SqlEvent(r, patterns[i], now) else XssEvent(r, patterns[i], now)];
      }
    }
    assert patterns[..|patterns|] == patterns;
  }

  /** `detectSecurityIssues`: the SQL loop, the XSS loop, then the size check. */
  method DetectSecurityIssues(r: Request, now: int) returns (issues: seq<SecurityEvent>)
    ensures issues == Issues(r, now)
  {
    var sqlIssues := ScanPatterns(r, SqlPatterns, true, now);
    var xssIssues := ScanPatterns(r, XssPatterns, false, now);
    issues := sqlIssues + xssIssues;
    if r.contentLength > MaxContentLength {
      issues := issues + [SizeEvent(r, now)];
    }
  }

  /** `securityMiddleware`: the request is forwarded unless some issue is critical. */
  function Forwards(issues: seq<SecurityEvent>): (forward: bool)
    ensures forward <==> forall i :: 0 <= i < |issues| ==> issues[i].severity != "critical"
  {
    if |issues| == 0 then true
    else issues[0].severity != "critical" && Forwards(issues[1..])
  }

  /** No detected issue is critical, so the middleware forwards every request. */
  lemma MiddlewareNeverRejects(r: Request, now: int)
    ensures Forwards(Issues(r, now))
  {
    var es := Issues(r, now);
    assert forall i :: 0 <= i < |es| ==> es[i] in es;
  }

  // ---------------------------------------------------------------------
  // Configuration

  /** `getEnv`: an unset variable and one set to the empty string both give the default. */
  function GetEnv(env: map<string, string>, key: string, default: string): (v: string)
    ensures key in env && env[key] != "" ==> v == env[key]
    ensures key !in env || env[key] == "" ==> v == default
  {
    if key in env && env[key] != "" then env[key] else default
  }

  const FallbackDuration: int := 15 * Second

  /** `parseDuration`; `parse` stands for Go's `time.ParseDuration`, `None` for its error. */
  function ParseDuration(s: string, parse: string -> Option<int>): (d: int)
    ensures parse(s).None? ==> d == FallbackDuration
    ensures parse(s).Some? ==> d == parse(s).value
  {
    match parse(s)
    case None => FallbackDuration
    case Some(d) => d
  }

  /** The simplified `parseInt`: exactly "1000" reads as 1000, everything else as 100. */
  function ParseInt(s: string): (n: int)
    ensures n == 1000 <==> s == "1000"
    ensures n == 100 <==> s != "1000"
  {
    if s == "1000" then 1000 else 100
  }

  function ParseBool(s: string): (b: bool)
    ensures b <==> s == "true"
  {
    s == "true"
  }

  datatype Config = Config(
    port: string, readTimeout: int, writeTimeout: int, idleTimeout: int,
    maxConnections: int, rateLimitRps: int, enableMetrics: bool, enableWebSocket: bool)

  /** `LoadConfig`: each setting from its environment variable, falling back to the default string. */
  function LoadConfig(env: map<string, string>, parse: string -> Option<int>): Config
  {
    Config(
      GetEnv(env, "PORT", "8080"),
      ParseDuration(GetEnv(env, "READ_TIMEOUT", "15s"), parse),
      ParseDuration(GetEnv(env, "WRITE_TIMEOUT", "15s"), parse),
      ParseDuration(GetEnv(env, "IDLE_TIMEOUT", "60s"), parse),
      ParseInt(GetEnv(env, "MAX_CONNECTIONS", "1000")),
      ParseInt(GetEnv(env, "RATE_LIMIT_RPS", "100")),
      ParseBool(GetEnv(env, "ENABLE_METRICS", "true")),
      ParseBool(GetEnv(env, "ENABLE_WEBSOCKET", "true")))
  }

  /** With nothing set, the configuration is the documented default. */
  lemma DefaultConfig(parse: string -> Option<int>)
    requires parse("15s") == Some(15 * Second) && parse("60s") == Some(60 * Second)
    ensures LoadConfig(map[], parse) == Config("8080", 15 * Second, 15 * Second, 60 * Second, 1000, 100, true, true)
  {
  }

  /** The connection and rate limits can only ever be 100 or 1000, whatever the environment holds. */
  lemma LimitsAreTwoValued(env: map<string, string>, parse: string -> Option<int>)
    ensures LoadConfig(env, parse).maxConnections in {100, 1000}
    ensures LoadConfig(env, parse).rateLimitRps in {100, 1000}
    ensures "MAX_CONNECTIONS" in env && env["MAX_CONNECTIONS"] !in {"", "1000"} ==> LoadConfig(env, parse).maxConnections == 100
  {
  }
}
