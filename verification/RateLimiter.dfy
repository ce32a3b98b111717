/** The admission script of one client: request keys, per-second rate buckets that expire, and
    the set of active workflows.  Rejections roll back; over any run the buckets are exact and
    the sliding window holds. */
module RateLimiter {
  import opened Basics

  datatype Limits = Limits(maxActive: int, maxRequests: int, window: int, keyTtl: int)

  datatype RequestStatus = Received | RejectedRequest | AdmittedRequest

  /** The life of a request key from each later status update on, in seconds. */
  const STATUS_TTL := 900

  /** Keys that expire: a key counts as absent from its expiry on. */
  datatype Bucket = Bucket(count: int, expiry: Option<int>)
  datatype RequestKey = RequestKey(status: RequestStatus, expiry: int)

  datatype Gate = Gate(buckets: map<int, Bucket>, active: set<string>, requests: map<string, RequestKey>)

  datatype Decision =
    | Admitted | DuplicateRequest | RateLimited | ActiveLimit | DuplicateWorkflow | ScriptError

  predicate IsLive(expiry: Option<int>, now: int) {
    match expiry case None => true case Some(e) => now < e
  }

  /** GET, with a missing key read as zero. */
  function Value(buckets: map<int, Bucket>, sec: int, now: int): int {
    if sec in buckets && IsLive(buckets[sec].expiry, now) then buckets[sec].count else 0
  }

  function ExpiryOf(buckets: map<int, Bucket>, sec: int, now: int): Option<int> {
    if sec in buckets && IsLive(buckets[sec].expiry, now) then buckets[sec].expiry else None
  }

  /** INCR or DECR keep the expiry of a key that exists and create one without expiry. */
  function Adjusted(buckets: map<int, Bucket>, sec: int, now: int, delta: int): map<int, Bucket> {
    buckets[sec := Bucket(Value(buckets, sec, now) + delta, ExpiryOf(buckets, sec, now))]
  }

  /** EXPIRE with a time that is not positive deletes the key. */
  function Expiring(buckets: map<int, Bucket>, sec: int, now: int, ttl: int): map<int, Bucket> {
    if sec !in buckets then buckets
    else if ttl <= 0 then buckets - {sec}
    else buckets[sec := buckets[sec].(expiry := Some(now + ttl))]
  }

  /** The bucket of the current second after the script's INCR and EXPIRE. */
  function Counted(buckets: map<int, Bucket>, now: int, window: int): map<int, Bucket> {
    var b := Adjusted(buckets, now, now, 1);
    if b[now].count == 1 then Expiring(b, now, now, window + 1) else b
  }

  /** The buckets of the `n` seconds before `now`. */
  function Recent(buckets: map<int, Bucket>, now: int, n: nat): int {
    if n == 0 then 0 else Recent(buckets, now, n - 1) + Value(buckets, now - n, now)
  }

  function WindowTotal(buckets: map<int, Bucket>, now: int, window: int): int {
    Value(buckets, now, now) + 1 + Recent(Counted(buckets, now, window), now, if window > 1 then window - 1 else 0)
  }

  predicate HasRequest(gate: Gate, request: string, now: int) {
    request in gate.requests && now < gate.requests[request].expiry
  }

  function WithRequest(gate: Gate, request: string, status: RequestStatus, l: Limits, now: int): Gate {
    gate.(requests := gate.requests[request := RequestKey(status, now + l.keyTtl)])
  }

  /** The decision by the two limits. */
  function Judged(buckets: map<int, Bucket>, active: set<string>, l: Limits, workflow: string, now: int): Decision {
    if WindowTotal(buckets, now, l.window) > l.maxRequests then RateLimited
    else if workflow in active then DuplicateWorkflow
    else if |active| + 1 > l.maxActive then ActiveLimit
    else Admitted
  }

  function Decide(gate: Gate, l: Limits, request: string, workflow: string, now: int): Decision {
    if l.keyTtl <= 0 then ScriptError
    else if HasRequest(gate, request, now) then DuplicateRequest
    else Judged(gate.buckets, gate.active, l, workflow, now)
  }

  /** The gate after the script. */
  function AfterAdmit(gate: Gate, l: Limits, request: string, workflow: string, now: int): Gate {
    var d := Decide(gate, l, request, workflow, now);
    if d == ScriptError || d == DuplicateRequest then gate
    else
      var buckets := Counted(gate.buckets, now, l.window);
      if d == Admitted then
        WithRequest(gate, request, Received, l, now).(buckets := buckets, active := gate.active + {workflow})
      else
        WithRequest(gate, request, RejectedRequest, l, now).(buckets := Adjusted(buckets, now, now, -1))
  }

  // ---------------------------------------------------------------- the script

  class AdmissionGate {
    var buckets: map<int, Bucket>
    var active: set<string>
    var requests: map<string, RequestKey>

    function State(): Gate
      reads this
    {
      Gate(buckets, active, requests)
    }

    constructor ()
      ensures State() == Gate(map[], {}, map[])
    {
      buckets, active, requests := map[], {}, map[];
    }

    method SumWindow(current: int, now: int, window: int) returns (total: int)
      ensures total == current + Recent(buckets, now, if window > 1 then window - 1 else 0)
    {
      total := current;
      var i := 1;
      while i <= window - 1
        invariant 1 <= i && (i <= window || i == 1)
        invariant total == current + Recent(buckets, now, i - 1)
      {
        total := total + Value(buckets, now - i, now);
        i := i + 1;
      }
    }

    /** INCR and EXPIRE of the current second's bucket, and the total of the window. */
    method CountRequest(now: int, window: int) returns (total: int)
      modifies this`buckets
      ensures buckets == Counted(old(buckets), now, window)
      ensures total == WindowTotal(old(buckets), now, window)
    {
      buckets := Adjusted(buckets, now, now, 1);
      var current := buckets[now].count;
      if current == 1 { buckets := Expiring(buckets, now, now, window + 1); }
      total := SumWindow(current, now, window);
    }

    /** DECR, and the request key marked as rejected. */
    method RollBack(request: string, now: int)
      requires request in requests
      modifies this`buckets, this`requests
      ensures buckets == Adjusted(old(buckets), now, now, -1)
      ensures requests == old(requests)[request := old(requests)[request].(status := RejectedRequest)]
    {
      buckets := Adjusted(buckets, now, now, -1);
      requests := requests[request := requests[request].(status := RejectedRequest)];
    }

    /** SADD, then SREM again if the set has grown beyond its limit. */
    method AddActive(workflow: string, maxActive: int) returns (d: Decision)
      modifies this`active
      ensures d == if workflow in old(active) then DuplicateWorkflow
                   else if |old(active)| + 1 > maxActive then ActiveLimit else Admitted
      ensures active == if d == Admitted then old(active) + {workflow} else old(active)
    {
      if workflow in active { return DuplicateWorkflow; }
      active := active + {workflow};
      if |active| > maxActive {
        active := active - {workflow};
        assert active == old(active);
        return ActiveLimit;
      }
      return Admitted;
    }

    /** The two limits, once the request id is new. */
    method CheckLimits(l: Limits, workflow: string, now: int) returns (d: Decision)
      modifies this`buckets, this`active
      ensures d == Judged(old(buckets), old(active), l, workflow, now)
      ensures buckets == Counted(old(buckets), now, l.window)
      ensures active == if d == Admitted then old(active) + {workflow} else old(active)
    {
      var total := CountRequest(now, l.window);
      if total > l.maxRequests { return RateLimited; }
      d := AddActive(workflow, l.maxActive);
    }

    /** The request key is set; a rejection rolls back what was counted. */
    method AdmitNew(l: Limits, request: string, workflow: string, now: int) returns (d: Decision)
      requires l.keyTtl > 0 && !HasRequest(State(), request, now)
      modifies this
      ensures d == Decide(old(State()), l, request, workflow, now)
      ensures State() == AfterAdmit(old(State()), l, request, workflow, now)
    {
      requests := requests[request := RequestKey(Received, now + l.keyTtl)];
      d := CheckLimits(l, workflow, now);
      if d != Admitted {
        RollBack(request, now);
        assert requests == old(requests)[request := RequestKey(RejectedRequest, now + l.keyTtl)];
      }
    }

    method AdmitRequest(l: Limits, request: string, workflow: string, now: int) returns (d: Decision)
      modifies this
      ensures d == Decide(old(State()), l, request, workflow, now)
      ensures State() == AfterAdmit(old(State()), l, request, workflow, now)
    {
      if l.keyTtl <= 0 { return ScriptError; }
      if request in requests && now < requests[request].expiry { return DuplicateRequest; }
      d := AdmitNew(l, request, workflow, now);
    }

    method RemoveActiveWorkflow(workflow: string) returns (ok: bool)
      modifies this`active
      ensures ok == (workflow in old(active)) && active == old(active) - {workflow}
    {
      ok := workflow in active;
      active := active - {workflow};
    }

    /** SET with an expiry: writes the key whether or not it exists. */
    method UpdateRequestStatus(request: string, status: RequestStatus, now: int)
      modifies this`requests
      ensures requests == old(requests)[request := RequestKey(status, now + STATUS_TTL)]
    {
      requests := requests[request := RequestKey(status, now + STATUS_TTL)];
    }

    method ReleaseRequestId(request: string)
      modifies this`requests
      ensures requests == old(requests) - {request}
    {
      requests := requests - {request};
    }
  }

  // ---------------------------------------------------------------- runs

  datatype Event =
    | Request(request: string, workflow: string, now: int)
    | RemoveActive(workflow: string)
    | ReleaseRequest(request: string)
    | UpdateStatus(request: string, status: RequestStatus, now: int)

  /** The gate after a run, and the seconds in which requests were admitted. */
  datatype History = History(gate: Gate, log: seq<int>)

  function Happens(h: History, l: Limits, e: Event): History {
    match e
    case Request(request, workflow, now) =>
      History(AfterAdmit(h.gate, l, request, workflow, now),
              if Decide(h.gate, l, request, workflow, now) == Admitted then h.log + [now] else h.log)
    case RemoveActive(workflow) => h.(gate := h.gate.(active := h.gate.active - {workflow}))
    case ReleaseRequest(request) => h.(gate := h.gate.(requests := h.gate.requests - {request}))
    case UpdateStatus(request, status, now) =>
      h.(gate := h.gate.(requests := h.gate.requests[request := RequestKey(status, now + STATUS_TTL)]))
  }

  function After(l: Limits, events: seq<Event>): History {
    if events == [] then History(Gate(map[], {}, map[]), [])
    else Happens(After(l, events[..|events| - 1]), l, events[|events| - 1])
  }

  /** All requests so far came at `now` or before. */
  ghost predicate NotAfter(events: seq<Event>, now: int) {
    forall e :: e in events && e.Request? ==> e.now <= now
  }

  /** Server time never goes back. */
  ghost predicate Ascending(events: seq<Event>) {
    forall k :: 0 <= k < |events| && events[k].Request? ==> NotAfter(events[..k], events[k].now)
  }

  lemma AscendingPrefix(events: seq<Event>, e: Event)
    requires Ascending(events + [e])
    ensures Ascending(events) && (e.Request? ==> NotAfter(events, e.now))
  {
    var all := events + [e];
    assert all[|events|] == e && all[..|events|] == events;
    forall k | 0 <= k < |events| && events[k].Request? ensures NotAfter(events[..k], events[k].now) {
      assert all[k] == events[k] && all[..k] == events[..k];
    }
  }

  /** The number of logged seconds from `lo` to `hi`. */
  function Count(log: seq<int>, lo: int, hi: int): nat {
    if log == [] then 0
    else Count(log[..|log| - 1], lo, hi) + if lo <= log[|log| - 1] <= hi then 1 else 0
  }

  lemma CountSnoc(log: seq<int>, t: int, lo: int, hi: int)
    ensures Count(log + [t], lo, hi) == Count(log, lo, hi) + if lo <= t <= hi then 1 else 0
  {
    assert (log + [t])[..|log|] == log;
  }

  lemma {:induction false} CountSplit(log: seq<int>, lo: int, mid: int, hi: int)
    requires lo <= mid <= hi + 1
    ensures Count(log, lo, hi) == Count(log, lo, mid - 1) + Count(log, mid, hi)
  {
    if log != [] { CountSplit(log[..|log| - 1], lo, mid, hi); }
  }

  lemma {:induction false} CountUpTo(log: seq<int>, lo: int, hi: int, last: int)
    requires forall t :: t in log ==> t <= last
    ensures Count(log, lo, hi) <= Count(log, lo, last)
    ensures last <= hi ==> Count(log, lo, hi) == Count(log, lo, last)
  {
    if log != [] {
      var init, newest := log[..|log| - 1], log[|log| - 1];
      assert log == init + [newest] && newest in log;
      assert forall t :: t in init ==> t in log;
      CountUpTo(log[..|log| - 1], lo, hi, last);
    }
  }

  lemma {:induction false} CountNarrows(log: seq<int>, lo: int, lo': int, hi: int)
    requires lo <= lo'
    ensures Count(log, lo', hi) <= Count(log, lo, hi)
  {
    if log != [] { CountNarrows(log[..|log| - 1], lo, lo', hi); }
  }

  /** Every bucket holds the admissions of its second, and lives until they cannot matter. */
  ghost predicate Exact(h: History, l: Limits) {
    && (forall sec :: sec in h.gate.buckets ==>
          h.gate.buckets[sec] == Bucket(Count(h.log, sec, sec), Some(sec + l.window + 1)))
    && (forall sec :: sec !in h.gate.buckets ==> Count(h.log, sec, sec) == 0)
  }

  lemma ExactValue(h: History, l: Limits, sec: int, now: int)
    requires Exact(h, l) && now <= sec + l.window
    ensures Value(h.gate.buckets, sec, now) == Count(h.log, sec, sec)
  {
  }

  /** Counting the current request changes only its own bucket. */
  lemma CountedExactly(h: History, l: Limits, now: int)
    requires Exact(h, l) && 1 <= l.window
    ensures Counted(h.gate.buckets, now, l.window)
         == h.gate.buckets[now := Bucket(Count(h.log, now, now) + 1, Some(now + l.window + 1))]
  {
    ExactValue(h, l, now, now);
  }

  lemma RolledBack(h: History, l: Limits, now: int)
    requires Exact(h, l) && 1 <= l.window
    ensures Adjusted(Counted(h.gate.buckets, now, l.window), now, now, -1)
         == h.gate.buckets[now := Bucket(Count(h.log, now, now), Some(now + l.window + 1))]
  {
    CountedExactly(h, l, now);
  }

  lemma {:induction false} RecentIsCount(h: History, l: Limits, now: int, n: nat)
    requires Exact(h, l) && n < l.window
    ensures Recent(Counted(h.gate.buckets, now, l.window), now, n) == Count(h.log, now - n, now - 1)
  {
    CountedExactly(h, l, now);
    if n == 0 {
      EmptyRange(h.log, now, now - 1);
    } else {
      RecentIsCount(h, l, now, n - 1);
      ExactValue(h, l, now - n, now);
      CountSplit(h.log, now - n, now - n + 1, now - 1);
    }
  }

  lemma {:induction false} EmptyRange(log: seq<int>, lo: int, hi: int)
    requires hi < lo
    ensures Count(log, lo, hi) == 0
  {
    if log != [] { EmptyRange(log[..|log| - 1], lo, hi); }
  }

  /** The script's total is one more than the admissions in the window that ends now. */
  lemma TotalIsCount(h: History, l: Limits, now: int)
    requires Exact(h, l) && 1 <= l.window
    ensures WindowTotal(h.gate.buckets, now, l.window) == Count(h.log, now - l.window + 1, now) + 1
  {
    RecentIsCount(h, l, now, l.window - 1);
    ExactValue(h, l, now, now);
    CountSplit(h.log, now - l.window + 1, now, now);
  }

  lemma AdmittedExact(h: History, l: Limits, now: int)
    requires Exact(h, l) && 1 <= l.window
    ensures Exact(History(h.gate.(buckets := Counted(h.gate.buckets, now, l.window)), h.log + [now]), l)
  {
    CountedExactly(h, l, now);
    forall sec ensures Count(h.log + [now], sec, sec) == Count(h.log, sec, sec) + if sec == now then 1 else 0 {
      CountSnoc(h.log, now, sec, sec);
    }
  }

  lemma RejectedExact(h: History, l: Limits, now: int)
    requires Exact(h, l) && 1 <= l.window
    ensures Exact(h.(gate := h.gate.(buckets := Adjusted(Counted(h.gate.buckets, now, l.window), now, now, -1))), l)
  {
    RolledBack(h, l, now);
  }

  lemma StepExact(h: History, l: Limits, e: Event)
    requires Exact(h, l) && 1 <= l.window
    ensures Exact(Happens(h, l, e), l)
  {
    if e.Request? {
      AdmittedExact(h, l, e.now);
      RejectedExact(h, l, e.now);
    }
  }

  /** No `window` consecutive seconds hold more than `maxRequests` admissions. */
  ghost predicate WindowHolds(log: seq<int>, l: Limits) {
    forall t {:trigger HoldsAt(log, l, t)} :: HoldsAt(log, l, t)
  }

  ghost predicate HoldsAt(log: seq<int>, l: Limits, t: int) {
    Count(log, t - l.window + 1, t) <= Max(0, l.maxRequests)
  }

  ghost predicate Invariant(h: History, l: Limits) {
    Exact(h, l) && WindowHolds(h.log, l) && |h.gate.active| <= Max(0, l.maxActive)
  }

  lemma AdmissionKeepsWindow(h: History, l: Limits, now: int)
    requires Exact(h, l) && WindowHolds(h.log, l) && 1 <= l.window
    requires (forall t :: t in h.log ==> t <= now) && Count(h.log, now - l.window + 1, now) < l.maxRequests
    ensures WindowHolds(h.log + [now], l)
  {
    forall t ensures HoldsAt(h.log + [now], l, t) {
      CountSnoc(h.log, now, t - l.window + 1, t);
      if t - l.window + 1 <= now <= t {
        CountUpTo(h.log, t - l.window + 1, t, now);
        CountNarrows(h.log, now - l.window + 1, t - l.window + 1, now);
      } else {
        assert HoldsAt(h.log, l, t);
      }
    }
  }

  lemma RequestInvariant(h: History, l: Limits, request: string, workflow: string, now: int)
    requires Invariant(h, l) && 1 <= l.window && forall t :: t in h.log ==> t <= now
    ensures var h' := Happens(h, l, Request(request, workflow, now));
      WindowHolds(h'.log, l) && |h'.gate.active| <= Max(0, l.maxActive)
  {
    if Decide(h.gate, l, request, workflow, now) == Admitted {
      TotalIsCount(h, l, now);
      AdmissionKeepsWindow(h, l, now);
    }
  }

  lemma StepInvariant(h: History, l: Limits, e: Event)
    requires Invariant(h, l) && 1 <= l.window && (e.Request? ==> forall t :: t in h.log ==> t <= e.now)
    ensures Invariant(Happens(h, l, e), l)
  {
    StepExact(h, l, e);
    match e
    case Request(request, workflow, now) => RequestInvariant(h, l, request, workflow, now);
    case RemoveActive(workflow) => SubsetCard(h.gate.active - {workflow}, h.gate.active);
    case _ =>
  }

  lemma {:induction false} LogNotAfter(l: Limits, events: seq<Event>, now: int)
    requires NotAfter(events, now)
    ensures forall t :: t in After(l, events).log ==> t <= now
  {
    if events != [] {
      var init, e := events[..|events| - 1], events[|events| - 1];
      assert events == init + [e];
      LogNotAfter(l, init, now);
      assert e in events;
    }
  }

  lemma {:induction false} RunInvariant(l: Limits, events: seq<Event>)
    requires Ascending(events) && 1 <= l.window
    ensures Invariant(After(l, events), l)
  {
    if events != [] {
      var init, e := events[..|events| - 1], events[|events| - 1];
      assert events == init + [e];
      AscendingPrefix(init, e);
      RunInvariant(l, init);
      if e.Request? { LogNotAfter(l, init, e.now); }
      StepInvariant(After(l, init), l, e);
    }
  }

  /** Over every run of admissions and removals with fixed limits: any `window` consecutive
      seconds see at most `maxRequests` admissions, the active set stays within its limit, and
      each live bucket is the number of admissions of its second. */
  lemma LimitsHold(l: Limits, events: seq<Event>, t: int, sec: int, now: int)
    requires Ascending(events) && 1 <= l.window
    ensures Count(After(l, events).log, t - l.window + 1, t) <= Max(0, l.maxRequests)
    ensures |After(l, events).gate.active| <= Max(0, l.maxActive)
    ensures now <= sec + l.window ==> Value(After(l, events).gate.buckets, sec, now) == Count(After(l, events).log, sec, sec)
  {
    RunInvariant(l, events);
    assert HoldsAt(After(l, events).log, l, t);
    if now <= sec + l.window { ExactValue(After(l, events), l, sec, now); }
  }

  /** The decision against the log: a new request is admitted if and only if the window that
      ends now has room, the workflow is not active and the active set has room. */
  lemma DecisionIsExact(l: Limits, events: seq<Event>, request: string, workflow: string, now: int)
    requires Ascending(events) && 1 <= l.window && 1 <= l.keyTtl
    ensures var h := After(l, events);
      Decide(h.gate, l, request, workflow, now) ==
        if HasRequest(h.gate, request, now) then DuplicateRequest
        else if Count(h.log, now - l.window + 1, now) >= l.maxRequests then RateLimited
        else if workflow in h.gate.active then DuplicateWorkflow
        else if |h.gate.active| >= l.maxActive then ActiveLimit
        else Admitted
  {
    RunInvariant(l, events);
    TotalIsCount(After(l, events), l, now);
  }

  /** A rejected request leaves every count and the active set as they were. */
  lemma RejectionRollsBack(gate: Gate, l: Limits, request: string, workflow: string, now: int, sec: int)
    requires 1 <= l.window && Decide(gate, l, request, workflow, now) != Admitted
    ensures var gate' := AfterAdmit(gate, l, request, workflow, now);
      gate'.active == gate.active && Value(gate'.buckets, sec, now) == Value(gate.buckets, sec, now)
  {
  }

  // ---------------------------------------------------------------- repeated requests

  /** Until when a request id is known, going by the events of that id alone: the script keeps a
      live key and else sets one, a status update sets a new one, a release removes it. */
  function KnownUntil(l: Limits, events: seq<Event>, request: string): Option<int> {
    if events == [] then None
    else
      var before, e := KnownUntil(l, events[..|events| - 1], request), events[|events| - 1];
      if e.RemoveActive? || e.request != request then before
      else if e.ReleaseRequest? then None
      else if e.UpdateStatus? then Some(e.now + STATUS_TTL)
      else if l.keyTtl <= 0 || (before.Some? && e.now < before.value) then before
      else Some(e.now + l.keyTtl)
  }

  predicate IsKnown(until: Option<int>, t: int) {
    until.Some? && t < until.value
  }

  function KeyExpiry(requests: map<string, RequestKey>, request: string): Option<int> {
    if request in requests then Some(requests[request].expiry) else None
  }

  /** What the script does to the request keys. */
  lemma AdmitKeys(gate: Gate, l: Limits, request: string, workflow: string, now: int, q: string)
    ensures KeyExpiry(AfterAdmit(gate, l, request, workflow, now).requests, q) ==
      if q == request && l.keyTtl > 0 && !HasRequest(gate, request, now) then Some(now + l.keyTtl)
      else KeyExpiry(gate.requests, q)
  {
    var d := Decide(gate, l, request, workflow, now);
    if d != ScriptError && d != DuplicateRequest {
      var status := if d == Admitted then Received else RejectedRequest;
      assert AfterAdmit(gate, l, request, workflow, now).requests == gate.requests[request := RequestKey(status, now + l.keyTtl)];
    }
  }

  /** The key of a request id lives exactly as long as the id's own events say, whatever other
      requests, admissions and rejections come in between. */
  lemma {:induction false} RequestKeyIsExact(l: Limits, events: seq<Event>, request: string)
    ensures KnownUntil(l, events, request) == KeyExpiry(After(l, events).gate.requests, request)
  {
    if events != [] {
      var init, e := events[..|events| - 1], events[|events| - 1];
      RequestKeyIsExact(l, init, request);
      if e.Request? { AdmitKeys(After(l, init).gate, l, e.request, e.workflow, e.now, request); }
    }
  }

  /** A request is refused as a duplicate if and only if its id is still known. */
  lemma DuplicateIffKnown(l: Limits, events: seq<Event>, request: string, workflow: string, t: int)
    requires 1 <= l.keyTtl
    ensures Decide(After(l, events).gate, l, request, workflow, t) == DuplicateRequest
       <==> IsKnown(KnownUntil(l, events, request), t)
  {
    RequestKeyIsExact(l, events, request);
  }

  lemma KnownSnoc(l: Limits, events: seq<Event>, e: Event, request: string, t: int)
    requires IsKnown(KnownUntil(l, events, request), t)
    requires e != ReleaseRequest(request) && (e.Request? ==> e.now <= t)
    requires e.UpdateStatus? && e.request == request ==> t < e.now + STATUS_TTL
    ensures IsKnown(KnownUntil(l, events + [e], request), t)
  {
    assert (events + [e])[..|events|] == events;
  }

  /** Once used, a request id stays known until it is released, its key expires, or the key of its
      latest status update does. */
  lemma {:induction false} RequestRemembered(l: Limits, events: seq<Event>, later: seq<Event>, request: string, t: int)
    requires IsKnown(KnownUntil(l, events, request), t)
    requires NotAfter(later, t) && ReleaseRequest(request) !in later
    requires forall e :: e in later && e.UpdateStatus? && e.request == request ==> t < e.now + STATUS_TTL
    ensures IsKnown(KnownUntil(l, events + later, request), t)
    decreases |later|
  {
    if later == [] {
      assert events + later == events;
    } else {
      var init, e := later[..|later| - 1], later[|later| - 1];
      assert later == init + [e] && e in later;
      RequestRemembered(l, events, init, request, t);
      KnownSnoc(l, events + init, e, request, t);
      assert events + init + [e] == events + later;
    }
  }

  /** So it is not admitted twice. */
  lemma NoSecondAdmission(l: Limits, events: seq<Event>, later: seq<Event>,
                          request: string, workflow: string, workflow': string, now: int, t: int)
    requires 1 <= l.keyTtl && t < now + l.keyTtl && !IsKnown(KnownUntil(l, events, request), now)
    requires NotAfter(later, t) && ReleaseRequest(request) !in later
    requires forall e :: e in later && e.UpdateStatus? && e.request == request ==> t < e.now + STATUS_TTL
    ensures Decide(After(l, events + [Request(request, workflow, now)] + later).gate, l, request, workflow', t) == DuplicateRequest
  {
    var first := events + [Request(request, workflow, now)];
    assert first[..|events|] == events;
    RequestRemembered(l, first, later, request, t);
    DuplicateIffKnown(l, first + later, request, workflow', t);
  }
}
