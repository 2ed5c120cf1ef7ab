/** Recording component values on a trigger, and averaging the records in windows. */
module Recorder {
  import opened Options
  import opened Events

  /** Milliseconds since the first record, and one value per recorded component. */
  datatype Record = Record(time: int, values: seq<real>)

  /** What a StorageRecorder holds; `trigger` is the current value of the trigger component. */
  datatype Recording = Recording(records: seq<Record>, firstTime: Option<int>, logging: bool, trigger: Value) {
    /** The count signalled, if one is: only when there was something to reset. */
    function Start(): (Recording, Option<nat>) {
      if records != [] then (Recording([], None, true, trigger), Some(0)) else (this.(logging := true), None)
    }

    function Stop(): Recording { this.(logging := false) }

    function OnTrigger(wanted: Value, value: Value, now: int, values: seq<real>): (Recording, Option<nat>) {
      if value != wanted then (this, None)
      else
        var first := if firstTime.Some? then firstTime.value else now;
        var r := this.(records := records + [Record(now - first, values)], firstTime := Some(first));
        (r, Some(|r.records|))
    }

    /** The trigger component is set: its change signal reaches the recorder while that is logging. */
    function SetTrigger(wanted: Value, value: Value, now: int, values: seq<real>): (Recording, Option<nat>) {
      var r := this.(trigger := value);
      if value != trigger && logging then r.OnTrigger(wanted, value, now, values) else (r, None)
    }
  }

  class StorageRecorder {
    const wanted: Value
    var records: seq<Record>
    var firstTime: Option<int>
    var connected: bool
    var trigger: Value

    ghost function Model(): Recording
      reads this
    { Recording(records, firstTime, connected, trigger) }

    constructor (wanted: Value, trigger: Value)
      ensures Model() == Recording([], None, false, trigger) && this.wanted == wanted
    {
      this.wanted, this.trigger := wanted, trigger;
      records, firstTime, connected := [], None, false;
    }

    method StartLogging() returns (count: Option<nat>)
      modifies this
      ensures (Model(), count) == old(Model()).Start()
    {
      StopLogging();
      connected := true;
      count := None;
      if |records| > 0 {
        records, firstTime := [], None;
        count := Some(0);
      }
    }

    method StopLogging()
      modifies this`connected
      ensures Model() == old(Model()).Stop()
    { connected := false; }

    method OnTrigger(value: Value, now: int, values: seq<real>) returns (count: Option<nat>)
      modifies this`records, this`firstTime
      ensures (Model(), count) == old(Model()).OnTrigger(wanted, value, now, values)
    {
      count := None;
      if value == wanted {
        if firstTime.None? { firstTime := Some(now); }
        records := records + [Record(now - firstTime.value, values)];
        count := Some(|records|);
      }
    }
  }

  datatype Call = StartCall | StopCall | SetCall(value: Value, now: int, values: seq<real>)

  function Step(wanted: Value, r: Recording, call: Call): (Recording, Option<nat>) {
    match call
    case StartCall => r.Start()
    case StopCall => (r.Stop(), None)
    case SetCall(value, now, values) => r.SetTrigger(wanted, value, now, values)
  }

  function Run(wanted: Value, r: Recording, calls: seq<Call>): Recording {
    if calls == [] then r else Step(wanted, Run(wanted, r, calls[..|calls| - 1]), calls[|calls| - 1]).0
  }

  /** The trigger value before the k-th call. */
  function ValueAt(initial: Value, calls: seq<Call>): Value {
    if calls == [] then initial
    else
      match calls[|calls| - 1]
      case SetCall(value, _, _) => value
      case _ => ValueAt(initial, calls[..|calls| - 1])
  }

  predicate LoggingAt(calls: seq<Call>) {
    calls != [] && (calls[|calls| - 1].StartCall? || (!calls[|calls| - 1].StopCall? && LoggingAt(calls[..|calls| - 1])))
  }

  /** The changes into the wanted value while logging, since the last start: when they came, and the values then. */
  function Hits(wanted: Value, initial: Value, calls: seq<Call>): seq<(int, seq<real>)> {
    if calls == [] then []
    else
      var before := calls[..|calls| - 1];
      match calls[|calls| - 1]
      case StartCall => []
      case StopCall => Hits(wanted, initial, before)
      case SetCall(value, now, values) =>
        Hits(wanted, initial, before)
        + if LoggingAt(before) && value == wanted && ValueAt(initial, before) != wanted then [(now, values)] else []
  }

  /** One record per hit, with its values and the time since the first hit. */
  predicate Records(r: Recording, hits: seq<(int, seq<real>)>) {
    && |r.records| == |hits|
    && (forall k | 0 <= k < |hits| :: r.records[k] == Record(hits[k].0 - hits[0].0, hits[k].1))
    && r.firstTime == (if hits == [] then None else Some(hits[0].0))
  }

  lemma HitIsRecorded(wanted: Value, r: Recording, hits: seq<(int, seq<real>)>, value: Value, now: int, values: seq<real>)
    requires Records(r, hits)
    ensures Records(r.SetTrigger(wanted, value, now, values).0,
                    hits + if r.logging && value == wanted && value != r.trigger then [(now, values)] else [])
  {
    if !(r.logging && value == wanted && value != r.trigger) { assert hits + [] == hits; }
  }

  /** Over every run the records are the hits, however often logging was started or stopped. */
  lemma {:induction false} RecordsAreHits(wanted: Value, initial: Value, calls: seq<Call>)
    ensures var r := Run(wanted, Recording([], None, false, initial), calls);
      Records(r, Hits(wanted, initial, calls)) && r.logging == LoggingAt(calls) && r.trigger == ValueAt(initial, calls)
  {
    if calls != [] {
      var before, last := calls[..|calls| - 1], calls[|calls| - 1];
      RecordsAreHits(wanted, initial, before);
      if last.SetCall? {
        HitIsRecorded(wanted, Run(wanted, Recording([], None, false, initial), before), Hits(wanted, initial, before),
                      last.value, last.now, last.values);
      }
    }
  }

  /** Every hit signals how many there are now, a start after hits signals none, and nothing else signals. */
  lemma CountsAreSignalled(wanted: Value, initial: Value, calls: seq<Call>, next: Call)
    ensures var hits, now := Hits(wanted, initial, calls), Hits(wanted, initial, calls + [next]);
      Step(wanted, Run(wanted, Recording([], None, false, initial), calls), next).1 ==
        if next.StartCall? then (if hits == [] then None else Some(0))
        else if |now| > |hits| then Some(|now|) else None
  {
    RecordsAreHits(wanted, initial, calls);
    assert (calls + [next])[..|calls|] == calls;
  }
}

/** Averages over windows of `factor` records. */
module RecorderInterpolation {
  import opened Options
  import opened Events
  import opened Division
  import opened Recorder

  function SumTimes(window: seq<Record>): int {
    if window == [] then 0 else SumTimes(window[..|window| - 1]) + window[|window| - 1].time
  }

  /** Every record has a value for each of the recorded components. */
  predicate Wide(window: seq<Record>, width: nat) {
    forall k | 0 <= k < |window| :: |window[k].values| == width
  }

  function SumValues(window: seq<Record>, width: nat, i: nat): real
    requires Wide(window, width) && i < width
  {
    if window == [] then 0.0 else SumValues(window[..|window| - 1], width, i) + window[|window| - 1].values[i]
  }

  function Average(window: seq<Record>, width: nat, factor: nat): Record
    requires window != [] && Wide(window, width) && factor > 0
  {
    Record(Truncated(SumTimes(window), factor),
           seq(width, i requires 0 <= i < width => SumValues(window, width, i) / |window| as real))
  }

  datatype Averages = Averages(records: seq<Record>, count: nat) {
    /** The raw count changed; `emitted` is the averaged count that is signalled on. */
    function OnNewValue(width: nat, factor: nat, raw: seq<Record>, n: nat): (Averages, Option<nat>)
      requires factor > 0 && Wide(raw, width) && n <= |raw|
    {
      if n == 0 then (Averages([], 0), None)
      else if n % factor == 0 && n > count then
        var window := raw[count..n];
        var records' := records + [Average(window, width, factor)];
        (Averages(records', n), Some(|records'|))
      else (this, None)
    }
  }

  class StorageRecorderInterpolation {
    const factor: nat
    const width: nat
    var records: seq<Record>
    var count: nat

    ghost function Model(): Averages
      reads this
    { Averages(records, count) }

    constructor (factor: nat, width: nat)
      requires factor > 0
      ensures Model() == Averages([], 0) && this.factor == factor && this.width == width
    {
      this.factor, this.width := factor, width;
      records, count := [], 0;
    }

    method TimeDiffAverage(window: seq<Record>) returns (t: int)
      requires factor > 0
      ensures t == Truncated(SumTimes(window), factor)
    {
      var sum := 0;
      var k := 0;
      while k < |window|
        invariant 0 <= k <= |window|
        invariant sum == SumTimes(window[..k])
      {
        assert window[..k + 1][..k] == window[..k];
        sum := sum + window[k].time;
        k := k + 1;
      }
      assert window[..k] == window;
      t := Truncated(sum, factor);
    }

    /** Adds one record's values to the sums. */
    method AddValues(sums: seq<real>, values: seq<real>) returns (r: seq<real>)
      requires |sums| == |values|
      ensures |r| == |sums| && forall i | 0 <= i < |sums| :: r[i] == sums[i] + values[i]
    {
      r := sums;
      var i := 0;
      while i < |sums|
        invariant 0 <= i <= |sums| == |r|
        invariant forall j | 0 <= j < |sums| :: r[j] == if j < i then sums[j] + values[j] else sums[j]
      {
        r := r[i := r[i] + values[i]];
        i := i + 1;
      }
    }

    method ValuesAverage(window: seq<Record>) returns (r: seq<real>)
      requires factor > 0 && window != [] && Wide(window, width)
      ensures r == Average(window, width, factor).values
    {
      r := seq(width, _ => 0.0);
      var k := 0;
      while k < |window|
        invariant 0 <= k <= |window| && |r| == width
        invariant forall i | 0 <= i < width :: r[i] == SumValues(window[..k], width, i)
      {
        assert window[..k + 1][..k] == window[..k];
        r := AddValues(r, window[k].values);
        k := k + 1;
      }
      assert window[..k] == window;
      ghost var sums := r;
      var i := 0;
      while i < |r|
        invariant 0 <= i <= |r| == width
        invariant forall j | 0 <= j < width :: r[j] == if j < i then sums[j] / |window| as real else sums[j]
      {
        r := r[i := r[i] / |window| as real];
        i := i + 1;
      }
    }

    method OnNewValueRecorded(raw: seq<Record>, n: nat) returns (emitted: Option<nat>)
      requires factor > 0 && Wide(raw, width) && n <= |raw|
      modifies this
      ensures (Model(), emitted) == old(Model()).OnNewValue(width, factor, raw, n)
    {
      emitted := None;
      if n == 0 {
        records, count := [], 0;
      } else if n % factor == 0 {
        if n <= count { return; }
        var window := raw[count..n];
        var t := TimeDiffAverage(window);
        var values := ValuesAverage(window);
        records := records + [Record(t, values)];
        emitted := Some(|records|);
        count := n;
      }
    }
  }

  // ---------------------------------------------------------------------------------------------
  // Attached to a recorder
  // ---------------------------------------------------------------------------------------------

  datatype Rig = Rig(raw: Recording, averages: Averages)

  /** Calls carry a value for every recorded component. */
  predicate Fits(call: Call, width: nat) { call.SetCall? ==> |call.values| == width }

  function RigStep(wanted: Value, width: nat, factor: nat, rig: Rig, call: Call): Rig
    requires factor > 0 && Wide(rig.raw.records, width) && Fits(call, width)
    ensures Wide(RigStep(wanted, width, factor, rig, call).raw.records, width)
  {
    var (raw, signal) := Step(wanted, rig.raw, call);
    assert Wide(raw.records, width);
    Rig(raw, if signal.Some? then rig.averages.OnNewValue(width, factor, raw.records, signal.value).0 else rig.averages)
  }

  function RigRun(wanted: Value, width: nat, factor: nat, rig: Rig, calls: seq<Call>): (r: Rig)
    requires factor > 0 && Wide(rig.raw.records, width) && forall k | 0 <= k < |calls| :: Fits(calls[k], width)
    ensures Wide(r.raw.records, width)
  {
    if calls == [] then rig
    else RigStep(wanted, width, factor, RigRun(wanted, width, factor, rig, calls[..|calls| - 1]), calls[|calls| - 1])
  }

  /** Where the k-th window starts. */
  function Start(k: nat, factor: nat): nat { if k == 0 then 0 else Start(k - 1, factor) + factor }

  lemma {:induction false} StartIsMultiple(k: nat, factor: nat)
    ensures Start(k, factor) == k * factor
  {
    if k > 0 {
      StartIsMultiple(k - 1, factor);
      Distribute(k - 1, 1, factor);
    }
  }

  lemma {:induction false} StartsAreOrdered(j: nat, k: nat, factor: nat)
    requires j <= k
    ensures Start(j, factor) <= Start(k, factor)
    decreases k
  {
    if j < k { StartsAreOrdered(j, k - 1, factor); }
  }

  /** The k-th window of the raw records. */
  function Window(raw: seq<Record>, factor: nat, k: nat): seq<Record>
    requires Start(k + 1, factor) <= |raw|
  { raw[Start(k, factor)..Start(k + 1, factor)] }

  /** One average per complete window, and less than a window is left over. */
  ghost predicate Windowed(rig: Rig, width: nat, factor: nat)
    requires factor > 0 && Wide(rig.raw.records, width)
  {
    var raw, avg, m := rig.raw.records, rig.averages, |rig.averages.records|;
    && avg.count == Start(m, factor) <= |raw| < Start(m + 1, factor)
    && forall k: nat | k < m :: IsAverageOf(avg.records[k], raw, width, factor, k)
  }

  predicate IsAverageOf(a: Record, raw: seq<Record>, width: nat, factor: nat, k: nat)
    requires factor > 0 && Wide(raw, width)
  { Start(k + 1, factor) <= |raw| && a == Average(Window(raw, factor, k), width, factor) }

  lemma StepKeepsWindowed(wanted: Value, width: nat, factor: nat, rig: Rig, call: Call)
    requires factor > 0 && Wide(rig.raw.records, width) && Fits(call, width) && Windowed(rig, width, factor)
    ensures Windowed(RigStep(wanted, width, factor, rig, call), width, factor)
  {
    var (raw, signal) := Step(wanted, rig.raw, call);
    assert Start(1, factor) == Start(0, factor) + factor;
    if signal.Some? && signal.value != 0 { RecordKeepsWindowed(width, factor, rig, raw); }
  }

  /** The count is a multiple of the factor exactly when it completes the window. */
  lemma CompletesIff(m: nat, n: nat, factor: nat)
    requires factor > 0 && Start(m, factor) < n <= Start(m + 1, factor)
    ensures n % factor == 0 <==> n == Start(m + 1, factor)
  {
    StartIsMultiple(m, factor);
    StartIsMultiple(m + 1, factor);
    if n < Start(m + 1, factor) { QuotientRemainder(m, n - m * factor, factor); } else { QuotientRemainder(m + 1, 0, factor); }
  }

  lemma RecordKeepsWindowed(width: nat, factor: nat, rig: Rig, raw: Recording)
    requires factor > 0 && Wide(rig.raw.records, width) && Windowed(rig, width, factor)
    requires Wide(raw.records, width) && |raw.records| == |rig.raw.records| + 1 && rig.raw.records <= raw.records
    ensures Windowed(Rig(raw, rig.averages.OnNewValue(width, factor, raw.records, |raw.records|).0), width, factor)
  {
    var before, after, m := rig.raw.records, raw.records, |rig.averages.records|;
    CompletesIff(m, |after|, factor);
    assert Start(m + 2, factor) == Start(m + 1, factor) + factor;
    forall k: nat | k < m ensures IsAverageOf(rig.averages.records[k], after, width, factor, k) {
      assert IsAverageOf(rig.averages.records[k], before, width, factor, k);
      assert Window(after, factor, k) == Window(before, factor, k);
    }
  }

  lemma {:induction false} RunIsWindowed(wanted: Value, width: nat, factor: nat, initial: Value, calls: seq<Call>)
    requires factor > 0 && forall k | 0 <= k < |calls| :: Fits(calls[k], width)
    ensures Windowed(RigRun(wanted, width, factor, Rig(Recording([], None, false, initial), Averages([], 0)), calls), width, factor)
  {
    var start := Rig(Recording([], None, false, initial), Averages([], 0));
    if calls != [] {
      var before := calls[..|calls| - 1];
      RunIsWindowed(wanted, width, factor, initial, before);
      StepKeepsWindowed(wanted, width, factor, RigRun(wanted, width, factor, start, before), calls[|calls| - 1]);
    }
  }

  /**
   After any run of starts, stops and trigger changes from an empty recorder there are floor(n / factor) averages,
   and the k-th is that of the raw records k * factor up to (k + 1) * factor.
   */
  lemma AveragesAreWindowed(wanted: Value, width: nat, factor: nat, initial: Value, calls: seq<Call>, k: nat)
    requires factor > 0 && forall i | 0 <= i < |calls| :: Fits(calls[i], width)
    ensures var r := RigRun(wanted, width, factor, Rig(Recording([], None, false, initial), Averages([], 0)), calls);
      var raw, avg := r.raw.records, r.averages.records;
      && |avg| == |raw| / factor
      && (k < |avg| ==> IsAverageOf(avg[k], raw, width, factor, k))
    ensures Start(k, factor) == k * factor && Start(k + 1, factor) == (k + 1) * factor
  {
    var r := RigRun(wanted, width, factor, Rig(Recording([], None, false, initial), Averages([], 0)), calls);
    var raw, m := r.raw.records, |r.averages.records|;
    RunIsWindowed(wanted, width, factor, initial, calls);
    StartIsMultiple(m, factor);
    StartIsMultiple(k, factor);
    StartIsMultiple(k + 1, factor);
    QuotientRemainder(m, |raw| - Start(m, factor), factor);
  }

  // ---------------------------------------------------------------------------------------------
  // What an average says
  // ---------------------------------------------------------------------------------------------

  lemma {:induction false} TimeSumBetween(window: seq<Record>, lo: int, hi: int)
    requires forall k | 0 <= k < |window| :: lo <= window[k].time <= hi
    ensures lo * |window| <= SumTimes(window) <= hi * |window|
  {
    if window != [] {
      TimeSumBetween(window[..|window| - 1], lo, hi);
      var n := |window| - 1;
      assert lo * (n + 1) == lo * n + lo && hi * (n + 1) == hi * n + hi;
    }
  }

  lemma {:induction false} ValueSumBetween(window: seq<Record>, width: nat, i: nat, lo: real, hi: real)
    requires Wide(window, width) && i < width && forall k | 0 <= k < |window| :: lo <= window[k].values[i] <= hi
    ensures lo * |window| as real <= SumValues(window, width, i) <= hi * |window| as real
  {
    if window != [] {
      ValueSumBetween(window[..|window| - 1], width, i, lo, hi);
      var n := (|window| - 1) as real;
      assert |window| as real == n + 1.0;
      assert lo * (n + 1.0) == lo * n + lo && hi * (n + 1.0) == hi * n + hi;
    }
  }

  lemma RealQuotientBetween(s: real, n: real, lo: real, hi: real)
    requires n > 0.0 && lo * n <= s <= hi * n
    ensures lo <= s / n <= hi
  {
    var q := s / n;
    assert q * n == s;
    PositiveProduct(lo - q, n);
    PositiveProduct(q - hi, n);
  }

  lemma PositiveProduct(a: real, n: real)
    requires n > 0.0
    ensures a > 0.0 ==> a * n > 0.0
  {
  }

  /** Every average lies within the smallest and the largest value of its window, in time and in each component. */
  lemma AverageIsWithinWindow(window: seq<Record>, width: nat, factor: nat, i: nat, lo: real, hi: real, first: int, last: int)
    requires factor > 0 && |window| == factor && Wide(window, width) && i < width
    requires forall k | 0 <= k < |window| :: lo <= window[k].values[i] <= hi && first <= window[k].time <= last
    ensures var a := Average(window, width, factor);
      first <= a.time <= last && lo <= a.values[i] <= hi
  {
    TimeSumBetween(window, first, last);
    TruncatedBetween(SumTimes(window), first, last, factor);
    ValueSumBetween(window, width, i, lo, hi);
    RealQuotientBetween(SumValues(window, width, i), |window| as real, lo, hi);
  }

  predicate TimeOrdered(records: seq<Record>) {
    forall j, k | 0 <= j < k < |records| :: records[j].time <= records[k].time
  }

  lemma TimeWithin(window: seq<Record>, width: nat, factor: nat, first: int, last: int)
    requires factor > 0 && |window| == factor && Wide(window, width)
    requires forall k | 0 <= k < |window| :: first <= window[k].time <= last
    ensures first <= Average(window, width, factor).time <= last
  {
    TimeSumBetween(window, first, last);
    TruncatedBetween(SumTimes(window), first, last, factor);
  }

  lemma WindowTimes(raw: seq<Record>, factor: nat, k: nat)
    requires factor > 0 && Start(k + 1, factor) <= |raw| && TimeOrdered(raw)
    ensures var w, a := Window(raw, factor, k), Start(k, factor);
      |w| == factor && forall i | 0 <= i < |w| :: raw[a].time <= w[i].time <= raw[a + factor - 1].time
  {
  }

  /** An average lies between the times of the first and the last record of its window. */
  lemma AverageTimeBetween(a: Record, raw: seq<Record>, width: nat, factor: nat, k: nat)
    requires factor > 0 && Wide(raw, width) && TimeOrdered(raw) && IsAverageOf(a, raw, width, factor, k)
    ensures Start(k, factor) + factor == Start(k + 1, factor)
    ensures raw[Start(k, factor)].time <= a.time <= raw[Start(k + 1, factor) - 1].time
  {
    var b := Start(k, factor);
    WindowTimes(raw, factor, k);
    TimeWithin(Window(raw, factor, k), width, factor, raw[b].time, raw[b + factor - 1].time);
  }

  /** Averaged times do not decrease when the raw times do not. */
  lemma AveragedTimesAreOrdered(rig: Rig, width: nat, factor: nat, j: nat, k: nat)
    requires factor > 0 && Wide(rig.raw.records, width) && Windowed(rig, width, factor)
    requires TimeOrdered(rig.raw.records) && j < k < |rig.averages.records|
    ensures rig.averages.records[j].time <= rig.averages.records[k].time
  {
    StartsAreOrdered(j + 1, k, factor);
    AverageTimeBetween(rig.averages.records[j], rig.raw.records, width, factor, j);
    AverageTimeBetween(rig.averages.records[k], rig.raw.records, width, factor, k);
  }
}
