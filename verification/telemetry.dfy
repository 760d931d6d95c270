/** The pure part of `Job._get_msg_handler`: numbering a job's workers and
    turning the subscription stream into per-worker deliveries or lines. */
module Telemetry {
  import opened Wrappers
  import opened Values
  import opened Errors
  import opened JobRecord

  /** The `job_worker_uuid` of each worker, in list order; `.get` on a
      worker that is not a dict raises. */
  function WorkerUuids(workers: seq<Value>): (r: Result<seq<Value>, Error>)
    ensures r.Success? <==> forall i :: 0 <= i < |workers| ==> workers[i].Dict?
    ensures r.Failure? ==> r.error == Malformed
    ensures r.Success? ==> |r.value| == |workers|
    ensures r.Success? ==> forall i :: 0 <= i < |workers| ==> r.value[i] == Get(workers[i].fields, "job_worker_uuid")
  {
    if |workers| == 0 then Success([])
    else if !workers[0].Dict? then Failure(Malformed)
    else
      var rest :- WorkerUuids(workers[1..]);
      Success([Get(workers[0].fields, "job_worker_uuid")] + rest)
  }

  /** `n` is the 1-based position of the last occurrence of `u`. */
  ghost predicate IsLastPosition(uuids: seq<Value>, u: Value, n: int) {
    && 1 <= n <= |uuids|
    && uuids[n - 1] == u
    && forall j :: n <= j < |uuids| ==> uuids[j] != u
  }

  /** The dict keys the uuids stand for; an unhashable uuid makes the
      comprehension raise `TypeError`. */
  function WorkerKeys(uuids: seq<Value>): (r: Result<seq<Value>, Error>)
    ensures r.Success? <==> forall i :: 0 <= i < |uuids| ==> Hashable(uuids[i])
    ensures r.Failure? ==> r.error == Malformed
    ensures r.Success? ==> |r.value| == |uuids|
    ensures r.Success? ==> forall i :: 0 <= i < |uuids| ==> Hashable(uuids[i]) && r.value[i] == KeyOf(uuids[i])
  {
    if |uuids| == 0 then Success([])
    else if !Hashable(uuids[0]) then Failure(Malformed)
    else
      var rest :- WorkerKeys(uuids[1..]);
      Success([KeyOf(uuids[0])] + rest)
  }

  /** `{uuid: ind + 1 for ind, uuid in enumerate(uuids)}` over the keys:
      each key's 1-based position; a key listed twice keeps its last
      position. */
  function WorkerNumbers(uuids: seq<Value>): (m: map<Value, nat>)
    ensures forall u :: u in m <==> u in uuids
    ensures forall u :: u in m ==> IsLastPosition(uuids, u, m[u])
  {
    if |uuids| == 0 then map[]
    else
      var prefix := uuids[..|uuids| - 1];
      var last := uuids[|uuids| - 1];
      assert uuids == prefix + [last];
      var m := WorkerNumbers(prefix);
      NumberingExtends(prefix, last, m);
      m[last := |uuids|]
  }

  /** One more worker: the numbering of the prefix, with the new uuid (new
      or repeated) set to the last position, is the numbering of the list. */
  lemma NumberingExtends(prefix: seq<Value>, last: Value, m: map<Value, nat>)
    requires forall u :: u in m <==> u in prefix
    requires forall u :: u in m ==> IsLastPosition(prefix, u, m[u])
    ensures
      var s := prefix + [last];
      var m' := m[last := |s|];
      && (forall u :: u in m' <==> u in s)
      && (forall u :: u in m' ==> IsLastPosition(s, u, m'[u]))
  {
    var s := prefix + [last];
    var m' := m[last := |s|];
    forall u | u in m'
      ensures IsLastPosition(s, u, m'[u])
    {
      if u != last {
        assert IsLastPosition(prefix, u, m[u]);
        assert s[m[u] - 1] == prefix[m[u] - 1];
        forall j | m[u] <= j < |s|
          ensures s[j] != u
        {
          if j < |prefix| {
            assert s[j] == prefix[j];
          }
        }
      }
    }
  }

  /** With distinct uuids, the worker at index i is worker i + 1. */
  lemma DistinctWorkersNumberedByPosition(uuids: seq<Value>, i: int)
    requires forall a, b :: 0 <= a < b < |uuids| ==> uuids[a] != uuids[b]
    requires 0 <= i < |uuids|
    ensures uuids[i] in WorkerNumbers(uuids) && WorkerNumbers(uuids)[uuids[i]] == i + 1
  {
    var m := WorkerNumbers(uuids);
    assert uuids[i] in m;
    assert IsLastPosition(uuids, uuids[i], m[uuids[i]]);
  }

  /** The handler `attach` installs: the numbering, computed once when the
      handler is made, and whether the caller supplied its own handler. */
  datatype Handler = Handler(numbers: map<Value, nat>, custom: bool)

  /** A list of workers the comprehension can number: dicts whose uuids
      are hashable. */
  predicate NumberableWorkers(workers: seq<Value>) {
    forall i :: 0 <= i < |workers| ==> workers[i].Dict? && Hashable(Get(workers[i].fields, "job_worker_uuid"))
  }

  /** The dict key of the i-th worker's uuid. */
  function WorkerKey(workers: seq<Value>, i: int): Value
    requires NumberableWorkers(workers) && 0 <= i < |workers|
  {
    KeyOf(Get(workers[i].fields, "job_worker_uuid"))
  }

  /** `numbers` maps exactly the workers' keys, each to the 1-based
      position of the last worker with that key. */
  ghost predicate NumberedByLastPosition(workers: seq<Value>, numbers: map<Value, nat>)
    requires NumberableWorkers(workers)
  {
    && (forall k :: k in numbers <==> exists i :: 0 <= i < |workers| && WorkerKey(workers, i) == k)
    && forall k :: k in numbers ==>
         && 1 <= numbers[k] <= |workers|
         && WorkerKey(workers, numbers[k] - 1) == k
         && forall j :: numbers[k] <= j < |workers| ==> WorkerKey(workers, j) != k
  }

  /** Numbering the keys numbers the workers by last position. */
  lemma NumbersOfWorkers(workers: seq<Value>, keys: seq<Value>)
    requires NumberableWorkers(workers)
    requires |keys| == |workers| && forall i :: 0 <= i < |workers| ==> keys[i] == WorkerKey(workers, i)
    ensures NumberedByLastPosition(workers, WorkerNumbers(keys))
  {
    var m := WorkerNumbers(keys);
    forall k | k in m
      ensures IsLastPosition(keys, k, m[k])
    {
    }
  }

  /** `_get_msg_handler`. The comprehension enumerates the job's `workers`:
      a list must hold dicts whose uuids are hashable, and an empty string
      or dict enumerates nothing. A non-empty string or dict yields strings,
      on which `.get` raises, and anything else cannot be enumerated. */
  function MsgHandler(job: Job, custom: bool): (r: Result<Handler, Error>)
    ensures r.Success? <==>
      || (job.Workers().List? && NumberableWorkers(job.Workers().items))
      || job.Workers() == Str("")
      || job.Workers() == Dict(map[])
    ensures r.Failure? ==> r.error == Malformed
    ensures r.Success? ==> r.value.custom == custom
    ensures r.Success? && !job.Workers().List? ==> r.value.numbers == map[]
    ensures r.Success? && job.Workers().List? ==> NumberedByLastPosition(job.Workers().items, r.value.numbers)
  {
    match job.Workers()
    case List(workers) =>
      var uuids :- WorkerUuids(workers);
      var keys :- WorkerKeys(uuids);
      NumbersOfWorkers(workers, keys);
      Success(Handler(WorkerNumbers(keys), custom))
    case Str(text) => if |text| == 0 then Success(Handler(map[], custom)) else Failure(Malformed)
    case Dict(fields) => if |fields| == 0 then Success(Handler(map[], custom)) else Failure(Malformed)
    case _ => Failure(Malformed)
  }

  /** `len(self._workers)` on the job as it is when a message arrives; a
      value without a length raises `TypeError`. */
  function LiveWorkerCount(job: Job): (r: Result<nat, Error>)
    ensures r.Success? <==> job.Workers().List? || job.Workers().Str? || job.Workers().Dict?
    ensures job.Workers().List? ==> r == Success(|job.Workers().items|)
    ensures job.Workers().Str? ==> r == Success(|job.Workers().s|)
    ensures job.Workers().Dict? ==> r == Success(|job.Workers().fields|)
    ensures r.Failure? ==> r.error == Malformed
  {
    match job.Workers()
    case List(items) => Success(|items|)
    case Str(text) => Success(|text|)
    case Dict(fields) => Success(|fields|)
    case _ => Failure(Malformed)
  }

  /** Python's `str.isspace` on one character, for the ASCII range: the
      six usual whitespace characters and the separators U+001C to U+001F. */
  predicate IsSpace(c: char) {
    || c == ' ' || c == '\t' || c == '\n' || c == '\r' || c == '\U{000B}' || c == '\U{000C}'
    || ('\U{001C}' <= c <= '\U{001F}')
  }

  /** `s.rstrip()`: the longest prefix of `s` not ending in whitespace. */
  function RStrip(s: string): (r: string)
    ensures r <= s
    ensures |r| == 0 || !IsSpace(r[|r| - 1])
    ensures forall i :: |r| <= i < |s| ==> IsSpace(s[i])
  {
    if |s| == 0 || !IsSpace(s[|s| - 1]) then s
    else RStrip(s[..|s| - 1])
  }

  function DigitChar(d: nat): (c: char)
    requires d < 10
    ensures '0' <= c <= '9' && c as int - '0' as int == d
  {
    "0123456789"[d]
  }

  /** The number a string of decimal digits denotes. */
  function DigitsValue(s: string): nat
    requires forall i :: 0 <= i < |s| ==> '0' <= s[i] <= '9'
  {
    if |s| == 0 then 0 else DigitsValue(s[..|s| - 1]) * 10 + (s[|s| - 1] as int - '0' as int)
  }

  /** The decimal digits of `n`, as Python's `str` of an int renders them:
      they denote `n`, with no leading zero. */
  function Decimal(n: nat): (r: string)
    ensures |r| > 0 && forall i :: 0 <= i < |r| ==> '0' <= r[i] <= '9'
    ensures DigitsValue(r) == n
    ensures |r| == 1 || r[0] != '0'
  {
    if n < 10 then [DigitChar(n)]
    else
      var r := Decimal(n / 10) + [DigitChar(n % 10)];
      assert r[..|r| - 1] == Decimal(n / 10);
      r
  }

  /** How an f-string renders a `worker_number` (an int or None). */
  function RenderNumber(v: Value): string {
    match v
    case Int(i) => if i >= 0 then Decimal(i) else "-" + Decimal(-i)
    case _ => "None"
  }

  /** What the handler does with one message: hand it to the caller's
      handler, print a line, or raise. */
  datatype Delivery = Handed(message: map<string, Value>) | Printed(line: string) | Raised

  /** One decoded message, together with the job object as it stands when
      the message arrives (a concurrent refresh may have replaced it). */
  datatype Arrival = Arrival(message: map<string, Value>, job: Job)

  /** `worker_numbers.get(stream)`: the stream's position, or None for a
      stream that is not one of the job's workers. */
  function WorkerNumberOf(h: Handler, stream: Value): Value
    requires Hashable(stream)
  {
    if KeyOf(stream) in h.numbers then Int(h.numbers[KeyOf(stream)]) else Null
  }

  /** The printed line after its timestamp: the message with trailing
      whitespace removed, behind `Worker N - ` only for several workers. */
  function LineOf(workerCount: nat, number: Value, text: string): (line: string)
    ensures workerCount > 1 ==> line == "Worker " + RenderNumber(number) + " - " + RStrip(text)
    ensures workerCount <= 1 ==> line == RStrip(text)
  {
    (if workerCount > 1 then "Worker " + RenderNumber(number) + " - " else "") + RStrip(text)
  }

  predicate IsSubscription(a: Arrival) {
    Get(a.message, "type") == Str("subscription")
  }

  /** The callback: only `subscription` messages are processed. Each gets
      its `worker_number` (an unhashable stream raises) and is otherwise
      unchanged; printing reads the live job's worker count. */
  function Handle(h: Handler, a: Arrival): (r: Option<Delivery>)
    ensures r.None? <==> !IsSubscription(a)
    ensures r.Some? && !Hashable(Get(a.message, "stream")) ==> r.value == Raised
    ensures r.Some? && Hashable(Get(a.message, "stream")) ==> (r.value.Handed? <==> h.custom)
    ensures r.Some? && r.value.Handed? ==>
      && Hashable(Get(a.message, "stream"))
      && r.value.message == a.message["worker_number" := WorkerNumberOf(h, Get(a.message, "stream"))]
      && "worker_number" in r.value.message
      && forall k :: k in a.message && k != "worker_number" ==> k in r.value.message && r.value.message[k] == a.message[k]
    ensures r.Some? && !h.custom && Hashable(Get(a.message, "stream")) ==>
      (r.value.Printed? <==> Get(a.message, "msg").Str? && LiveWorkerCount(a.job).Success?)
    ensures r.Some? && r.value.Printed? ==>
      && Hashable(Get(a.message, "stream"))
      && r.value.line == LineOf(LiveWorkerCount(a.job).value, WorkerNumberOf(h, Get(a.message, "stream")),
                                Get(a.message, "msg").s)
  {
    var message := a.message;
    if !IsSubscription(a) then None
    else if !Hashable(Get(message, "stream")) then Some(Raised)
    else
      var number := WorkerNumberOf(h, Get(message, "stream"));
      if h.custom then Some(Handed(message["worker_number" := number]))
      else
        match (Get(message, "msg"), LiveWorkerCount(a.job))
        case (Str(text), Success(n)) => Some(Printed(LineOf(n, number, text)))
        case _ => Some(Raised)
  }

  /** The arrivals the handler acts on, in arrival order. */
  function Subscriptions(arrivals: seq<Arrival>): (s: seq<Arrival>)
    ensures |s| <= |arrivals|
    ensures forall i :: 0 <= i < |s| ==> IsSubscription(s[i])
    ensures forall i :: 0 <= i < |arrivals| && IsSubscription(arrivals[i]) ==> arrivals[i] in s
    ensures forall i :: 0 <= i < |s| ==> s[i] in arrivals
    ensures |arrivals| == 1 ==> s == (if IsSubscription(arrivals[0]) then arrivals else [])
  {
    if |arrivals| == 0 then []
    else if IsSubscription(arrivals[0]) then [arrivals[0]] + Subscriptions(arrivals[1..])
    else Subscriptions(arrivals[1..])
  }

  /** Filtering commutes with concatenation: together with the one-arrival
      case above, the kept arrivals are exactly the subscriptions, in
      arrival order. */
  lemma {:induction false} SubscriptionsOfConcat(a: seq<Arrival>, b: seq<Arrival>)
    ensures Subscriptions(a + b) == Subscriptions(a) + Subscriptions(b)
  {
    if |a| > 0 {
      assert (a + b)[1..] == a[1..] + b;
      SubscriptionsOfConcat(a[1..], b);
    } else {
      assert a + b == b;
    }
  }

  /** What a whole stream produces: one delivery per subscription message,
      in the order the stream delivered them. */
  function Dispatch(h: Handler, arrivals: seq<Arrival>): (out: seq<Delivery>)
    ensures |out| == |Subscriptions(arrivals)|
    ensures forall i :: 0 <= i < |out| ==> Handle(h, Subscriptions(arrivals)[i]) == Some(out[i])
  {
    if |arrivals| == 0 then []
    else
      match Handle(h, arrivals[0])
      case None => Dispatch(h, arrivals[1..])
      case Some(d) => [d] + Dispatch(h, arrivals[1..])
  }

  /** A two-worker job: the handler `_get_msg_handler` makes hands a message
      from the second worker's stream on as coming from worker 2, and
      prints it with that prefix. */
  lemma SecondOfTwoWorkers(job: Job, u1: Value, u2: Value, a: Arrival, custom: bool)
    requires Hashable(u1) && Hashable(u2) && KeyOf(u1) != KeyOf(u2)
    requires job.Workers() == List([Dict(map["job_worker_uuid" := u1]), Dict(map["job_worker_uuid" := u2])])
    requires a.job == job && IsSubscription(a) && Get(a.message, "stream") == u2
    ensures MsgHandler(job, custom).Success?
    ensures
      var h := MsgHandler(job, custom).value;
      && (custom ==> Handle(h, a) == Some(Handed(a.message["worker_number" := Int(2)])))
      && (!custom && Get(a.message, "msg").Str? ==>
            Handle(h, a) == Some(Printed("Worker 2 - " + RStrip(Get(a.message, "msg").s))))
  {
    var h := TwoWorkerHandler(job, u1, u2, custom);
    if !custom && Get(a.message, "msg").Str? {
      SecondWorkerLine(Get(a.message, "msg").s);
    }
  }

  /** The handler built for two workers numbers the second one 2. */
  lemma TwoWorkerHandler(job: Job, u1: Value, u2: Value, custom: bool) returns (h: Handler)
    requires Hashable(u1) && Hashable(u2) && KeyOf(u1) != KeyOf(u2)
    requires job.Workers() == List([Dict(map["job_worker_uuid" := u1]), Dict(map["job_worker_uuid" := u2])])
    ensures MsgHandler(job, custom) == Success(h)
    ensures h.custom == custom && WorkerNumberOf(h, u2) == Int(2)
  {
    var workers := job.Workers().items;
    assert WorkerKey(workers, 0) == KeyOf(u1) && WorkerKey(workers, 1) == KeyOf(u2);
    h := MsgHandler(job, custom).value;
    var k := KeyOf(u2);
    assert k in h.numbers by {
      assert WorkerKey(workers, 1) == k;
    }
    assert h.numbers[k] == 2 by {
      assert WorkerKey(workers, h.numbers[k] - 1) == k;
      assert WorkerKey(workers, 0) != k;
    }
  }

  /** The printed line of worker 2 in a two-worker job. */
  lemma SecondWorkerLine(text: string)
    ensures LineOf(2, Int(2), text) == "Worker 2 - " + RStrip(text)
  {
    assert RenderNumber(Int(2)) == "2";
    assert "Worker " + "2" + " - " == "Worker 2 - ";
  }

  /** A stream of messages none of which is a subscription produces nothing. */
  lemma {:induction false} NonSubscriptionsIgnored(h: Handler, arrivals: seq<Arrival>)
    requires forall i :: 0 <= i < |arrivals| ==> !IsSubscription(arrivals[i])
    ensures Dispatch(h, arrivals) == []
  {
    if |arrivals| > 0 {
      NonSubscriptionsIgnored(h, arrivals[1..]);
    }
  }

  /** A stream id that is not one of the job's workers gets no number. */
  lemma UnknownStreamHasNoNumber(h: Handler, a: Arrival)
    requires h.custom && IsSubscription(a)
    requires Hashable(Get(a.message, "stream")) && KeyOf(Get(a.message, "stream")) !in h.numbers
    ensures Handle(h, a) == Some(Handed(a.message["worker_number" := Null]))
  {
  }

  /** A stream given as `true` finds the worker whose uuid is `1`: Python's
      dict lookup does not tell the two apart. */
  lemma TrueStreamFindsWorkerOne(h: Handler, a: Arrival)
    requires h.custom && IsSubscription(a) && Get(a.message, "stream") == Bool(true)
    requires Int(1) in h.numbers
    ensures Handle(h, a) == Some(Handed(a.message["worker_number" := Int(h.numbers[Int(1)])]))
  {
  }

  /** A stream that is a list or dict cannot be looked up: the handler
      raises before handing on or printing anything. */
  lemma UnhashableStreamRaises(h: Handler, a: Arrival)
    requires IsSubscription(a) && !Hashable(Get(a.message, "stream"))
    ensures Handle(h, a) == Some(Raised)
  {
  }
}
