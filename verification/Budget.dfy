/** The pre-call budget of src/walter/usage.py under concurrent calls: check, call, record
    (src/walter/usage_model.py). */
module Budget {
  import opened Base

  /** One usage row; the provider may report its cost under either of two names. */
  datatype Usage = Usage(input: Option<int>, output: Option<int>, total: Option<int>,
                         cost: Option<real>, totalCost: Option<real>)

  datatype Limits = Limits(maxCalls: Option<int>, maxInput: Option<int>, maxOutput: Option<int>,
                           maxTotal: Option<int>, maxCost: Option<real>)

  function OrZero(n: Option<int>): int { if n.Some? then n.value else 0 }

  /** `usage_cost`, with an unknown cost counted as nothing. */
  function CostOf(u: Usage): (c: real)
    ensures 0.0 <= c
  {
    if u.cost.Some? && 0.0 <= u.cost.value then u.cost.value
    else if u.totalCost.Some? && 0.0 <= u.totalCost.value then u.totalCost.value
    else 0.0
  }

  function Spend(records: seq<Usage>): (r: real)
    ensures 0.0 <= r
  {
    if records == [] then 0.0 else Spend(records[..|records| - 1]) + CostOf(Last(records))
  }

  datatype Totals = Totals(input: int, output: int, total: int, cost: real)

  function Summed(records: seq<Usage>): Totals {
    if records == [] then Totals(0, 0, 0, 0.0)
    else
      var t, u := Summed(records[..|records| - 1]), Last(records);
      Totals(t.input + OrZero(u.input), t.output + OrZero(u.output), t.total + OrZero(u.total), t.cost + CostOf(u))
  }

  predicate Above(used: int, limit: Option<int>) { limit.Some? && used > limit.value }

  /** `UsageBudget.check` with nothing requested beyond the call itself. */
  predicate Passes(limits: Limits, calls: nat, t: Totals) {
    && !Above(calls + 1, limits.maxCalls) && !Above(t.input, limits.maxInput)
    && !Above(t.output, limits.maxOutput) && !Above(t.total, limits.maxTotal)
    && !(limits.maxCost.Some? && t.cost >= limits.maxCost.value)
  }

  /** What is recorded, and the calls that passed the check and are not recorded yet. */
  datatype State = State(records: seq<Usage>, inFlight: set<int>)

  datatype Op = CheckOp(call: int) | RecordOp(call: int, usage: Usage)

  function Next(limits: Limits, s: State, op: Op): State {
    match op
    case CheckOp(c) =>
      if Passes(limits, |s.records|, Summed(s.records)) then s.(inFlight := s.inFlight + {c}) else s
    case RecordOp(c, u) =>
      if c in s.inFlight then State(s.records + [u], s.inFlight - {c}) else s
  }

  const START := State([], {})

  function After(limits: Limits, ops: seq<Op>): State {
    if ops == [] then START else Next(limits, After(limits, ops[..|ops| - 1]), Last(ops))
  }

  /** Every call is checked once, and never more than k are in flight. */
  ghost predicate Bounded(limits: Limits, ops: seq<Op>, k: nat) {
    && (forall i :: 0 <= i <= |ops| ==> FlightsAt(limits, ops, i) <= k)
    && ChecksDistinct(ops)
  }

  ghost function FlightsAt(limits: Limits, ops: seq<Op>, i: nat): nat requires i <= |ops| {
    |After(limits, ops[..i]).inFlight|
  }

  ghost predicate ChecksDistinct(ops: seq<Op>) {
    forall i, j :: 0 <= i < j < |ops| && ops[i].CheckOp? && ops[j].CheckOp? ==> ops[i].call != ops[j].call
  }

  // ---- the wrapper as it runs -----------------------------------------------------------------------

  class UsageGate {
    const limits: Limits
    var records: seq<Usage>
    var inFlight: set<int>

    ghost function Contents(): State reads this { State(records, inFlight) }

    constructor (limits: Limits)
      ensures this.limits == limits && Contents() == START
    {
      this.limits := limits;
      records, inFlight := [], {};
    }

    /** The part of `get_response` before the call. */
    method Check(call: int) returns (allowed: bool)
      modifies this
      ensures Contents() == Next(limits, old(Contents()), CheckOp(call))
      ensures allowed <==> Passes(limits, |old(records)|, Summed(old(records)))
    {
      var input, output, total, cost := 0, 0, 0, 0.0;
      for i := 0 to |records|
        invariant Totals(input, output, total, cost) == Summed(records[..i])
      {
        assert records[..i + 1][..i] == records[..i];
        input := input + OrZero(records[i].input);
        output := output + OrZero(records[i].output);
        total := total + OrZero(records[i].total);
        cost := cost + CostOf(records[i]);
      }
      assert records[..|records|] == records;
      if limits.maxCalls.Some? && |records| + 1 > limits.maxCalls.value { return false; }
      if limits.maxInput.Some? && input > limits.maxInput.value { return false; }
      if limits.maxOutput.Some? && output > limits.maxOutput.value { return false; }
      if limits.maxTotal.Some? && total > limits.maxTotal.value { return false; }
      if limits.maxCost.Some? && cost >= limits.maxCost.value { return false; }
      inFlight := inFlight + {call};
      return true;
    }

    /** The part after it: a row is appended whether the call returned or failed. */
    method Record(call: int, usage: Usage)
      requires call in inFlight
      modifies this
      ensures Contents() == Next(limits, old(Contents()), RecordOp(call, usage))
    {
      records := records + [usage];
      inFlight := inFlight - {call};
    }
  }

  // ---- the call ceiling -----------------------------------------------------------------------------

  lemma {:induction false} SummedCost(records: seq<Usage>)
    ensures Summed(records).cost == Spend(records)
  {
    if records != [] { SummedCost(records[..|records| - 1]); }
  }

  lemma AfterNext(limits: Limits, ops: seq<Op>, i: nat)
    requires i < |ops|
    ensures After(limits, ops[..i + 1]) == Next(limits, After(limits, ops[..i]), ops[i])
  {
    assert ops[..i + 1][..i] == ops[..i];
  }

  function Ceiling(maxCalls: int, k: nat): int { if maxCalls <= 0 then 0 else maxCalls + k - 1 }

  /** Recorded calls and calls in flight together never exceed the ceiling plus k - 1. */
  lemma {:induction false} CallsBounded(limits: Limits, ops: seq<Op>, k: nat, i: nat)
    requires limits.maxCalls.Some? && Bounded(limits, ops, k) && i <= |ops|
    ensures var s := After(limits, ops[..i]);
      |s.records| + |s.inFlight| <= Ceiling(limits.maxCalls.value, k)
  {
    if i > 0 {
      CallsBounded(limits, ops, k, i - 1);
      AfterNext(limits, ops, i - 1);
      assert FlightsAt(limits, ops, i) <= k;
    }
  }

  /** With at most k calls in flight, at most max_calls + k - 1 calls are ever recorded, and none
      when the ceiling is not positive. */
  lemma RecordedCallsBounded(limits: Limits, ops: seq<Op>, k: nat)
    requires limits.maxCalls.Some? && Bounded(limits, ops, k)
    ensures |After(limits, ops).records| <= Ceiling(limits.maxCalls.value, k)
  {
    CallsBounded(limits, ops, k, |ops|);
    assert ops[..|ops|] == ops;
  }

  function OnlyCalls(m: int): Limits { Limits(Some(m), None, None, None, None) }

  const NO_USAGE := Usage(None, None, None, None, None)

  /** A bounded run so far, whose calls are numbered below `next`. */
  ghost predicate Counted(limits: Limits, ops: seq<Op>, k: nat, next: nat) {
    Bounded(limits, ops, k) && ChecksBelow(ops, next)
  }

  ghost predicate ChecksBelow(ops: seq<Op>, next: nat) {
    forall i :: 0 <= i < |ops| && ops[i].CheckOp? ==> ops[i].call < next
  }

  lemma AfterOneMore(limits: Limits, ops: seq<Op>, op: Op)
    ensures After(limits, ops + [op]) == Next(limits, After(limits, ops), op)
    ensures (ops + [op])[..|ops| + 1] == ops + [op]
  {
    assert (ops + [op])[..|ops|] == ops;
  }

  lemma ChecksGrow(ops: seq<Op>, next: nat, op: Op)
    requires ChecksDistinct(ops) && ChecksBelow(ops, next) && (op.CheckOp? ==> op.call == next)
    ensures ChecksDistinct(ops + [op]) && ChecksBelow(ops + [op], if op.CheckOp? then next + 1 else next)
  {}

  lemma FlightsGrow(limits: Limits, ops: seq<Op>, k: nat, op: Op, i: nat)
    requires forall j :: 0 <= j <= |ops| ==> FlightsAt(limits, ops, j) <= k
    requires |Next(limits, After(limits, ops), op).inFlight| <= k && i <= |ops| + 1
    ensures FlightsAt(limits, ops + [op], i) <= k
  {
    if i <= |ops| {
      assert (ops + [op])[..i] == ops[..i];
      assert FlightsAt(limits, ops, i) <= k;
    } else {
      AfterOneMore(limits, ops, op);
    }
  }

  lemma CountedGrows(limits: Limits, ops: seq<Op>, k: nat, next: nat, op: Op)
    requires Counted(limits, ops, k, next) && |Next(limits, After(limits, ops), op).inFlight| <= k
    requires op.CheckOp? ==> op.call == next
    ensures Counted(limits, ops + [op], k, if op.CheckOp? then next + 1 else next)
  {
    ChecksGrow(ops, next, op);
    forall i | 0 <= i <= |ops + [op]| ensures FlightsAt(limits, ops + [op], i) <= k {
      FlightsGrow(limits, ops, k, op, i);
    }
  }

  /** The call numbers from, ..., from + count - 1. */
  function Calls(from: int, count: nat): (s: set<int>)
    ensures forall c :: c in s <==> from <= c < from + count
    ensures |s| == count
  {
    if count == 0 then {} else Calls(from, count - 1) + {from + count - 1}
  }

  lemma OneAfterTheOther(m: nat, k: nat, n: nat) returns (ops: seq<Op>)
    requires n < m && 1 <= k
    ensures Counted(OnlyCalls(m), ops, k, n)
    ensures After(OnlyCalls(m), ops).inFlight == {} && |After(OnlyCalls(m), ops).records| == n
  {
    ops := [];
    if n > 0 {
      var limits := OnlyCalls(m);
      ops := OneAfterTheOther(m, k, n - 1);
      AfterOneMore(limits, ops, CheckOp(n - 1));
      CountedGrows(limits, ops, k, n - 1, CheckOp(n - 1));
      ops := ops + [CheckOp(n - 1)];
      AfterOneMore(limits, ops, RecordOp(n - 1, NO_USAGE));
      CountedGrows(limits, ops, k, n, RecordOp(n - 1, NO_USAGE));
      ops := ops + [RecordOp(n - 1, NO_USAGE)];
    }
  }

  lemma AllAtOnce(m: nat, k: nat, count: nat) returns (ops: seq<Op>)
    requires 1 <= m && count <= k && 1 <= k
    ensures Counted(OnlyCalls(m), ops, k, m - 1 + count)
    ensures After(OnlyCalls(m), ops).inFlight == Calls(m - 1, count)
    ensures |After(OnlyCalls(m), ops).records| == m - 1
    decreases count
  {
    if count == 0 {
      ops := OneAfterTheOther(m, k, m - 1);
    } else {
      ops := AllAtOnce(m, k, count - 1);
      AfterOneMore(OnlyCalls(m), ops, CheckOp(m - 1 + count - 1));
      CountedGrows(OnlyCalls(m), ops, k, m - 1 + count - 1, CheckOp(m - 1 + count - 1));
      ops := ops + [CheckOp(m - 1 + count - 1)];
    }
  }

  lemma CallsLand(from: int, left: nat)
    ensures from + left in Calls(from, left + 1) && Calls(from, left + 1) - {from + left} == Calls(from, left)
  {}

  lemma Landing(m: nat, k: nat, left: nat) returns (ops: seq<Op>)
    requires 1 <= m && left <= k && 1 <= k
    ensures Counted(OnlyCalls(m), ops, k, m - 1 + k)
    ensures After(OnlyCalls(m), ops).inFlight == Calls(m - 1, left)
    ensures |After(OnlyCalls(m), ops).records| == m - 1 + k - left
    decreases k - left
  {
    if left == k {
      ops := AllAtOnce(m, k, k);
    } else {
      ops := Landing(m, k, left + 1);
      AfterOneMore(OnlyCalls(m), ops, RecordOp(m - 1 + left, NO_USAGE));
      CallsLand(m - 1, left);
      CountedGrows(OnlyCalls(m), ops, k, m - 1 + k, RecordOp(m - 1 + left, NO_USAGE));
      ops := ops + [RecordOp(m - 1 + left, NO_USAGE)];
    }
  }

  /** The bound is attained: m - 1 calls one after the other, then k checks at once. */
  lemma CallBoundIsAttained(m: nat, k: nat) returns (ops: seq<Op>)
    requires 1 <= m && 1 <= k
    ensures Bounded(OnlyCalls(m), ops, k) && |After(OnlyCalls(m), ops).records| == Ceiling(m, k)
  {
    ops := Landing(m, k, 0);
  }

  // ---- the spend ceiling ----------------------------------------------------------------------------

  /** No record is lost and the spend does not fall. */
  ghost predicate Grown(before: seq<Usage>, after: seq<Usage>) { before <= after && Spend(before) <= Spend(after) }

  lemma GrownChain(a: seq<Usage>, b: seq<Usage>, c: seq<Usage>)
    requires Grown(a, b) && Grown(b, c)
    ensures Grown(a, c)
  {}

  lemma RecordsGrowByOne(limits: Limits, s: State, op: Op)
    ensures Grown(s.records, Next(limits, s, op).records)
  {
    var s' := Next(limits, s, op);
    if s'.records != s.records { assert s'.records[..|s'.records| - 1] == s.records; }
  }

  lemma {:induction false} GrownAlong(history: seq<seq<Usage>>, i: nat, j: nat)
    requires i <= j < |history| && forall m :: i <= m < j ==> Grown(history[m], history[m + 1])
    ensures Grown(history[i], history[j])
    decreases j
  {
    if i < j {
      GrownAlong(history, i, j - 1);
      assert Grown(history[j - 1], history[j - 1 + 1]);
      GrownChain(history[i], history[j - 1], history[j]);
    }
  }

  lemma GrownAtOnce(limits: Limits, ops: seq<Op>, m: nat)
    requires m < |ops|
    ensures Grown(After(limits, ops[..m]).records, After(limits, ops[..m + 1]).records)
  {
    AfterNext(limits, ops, m);
    RecordsGrowByOne(limits, After(limits, ops[..m]), ops[m]);
  }

  lemma RecordsGrow(limits: Limits, ops: seq<Op>, i: nat, j: nat)
    requires i <= j <= |ops|
    ensures Grown(After(limits, ops[..i]).records, After(limits, ops[..j]).records)
  {
    var history := seq(|ops| + 1, m requires 0 <= m <= |ops| => After(limits, ops[..m]).records);
    forall m | i <= m < j ensures Grown(history[m], history[m + 1]) { GrownAtOnce(limits, ops, m); }
    GrownAlong(history, i, j);
  }

  ghost predicate Reached(limits: Limits, s: State) {
    limits.maxCost.Some? && Spend(s.records) >= limits.maxCost.value
  }

  lemma ReachedStep(limits: Limits, s: State, op: Op)
    requires Reached(limits, s)
    ensures var s' := Next(limits, s, op);
      && Reached(limits, s') && s'.inFlight <= s.inFlight
      && |s'.records| + |s'.inFlight| == |s.records| + |s.inFlight|
  {
    SummedCost(s.records);
    if op.RecordOp? && op.call in s.inFlight {
      var s' := Next(limits, s, op);
      assert s'.records[..|s'.records| - 1] == s.records;
    }
  }

  /** Once the spend ceiling is reached, the calls in flight only land: what is recorded and what
      is in flight together stay what they were. */
  lemma {:induction false} OnlyFlightsLand(limits: Limits, ops: seq<Op>, i: nat, j: nat)
    requires i <= j <= |ops| && Reached(limits, After(limits, ops[..i]))
    ensures var s, s' := After(limits, ops[..i]), After(limits, ops[..j]);
      && Reached(limits, s') && s'.inFlight <= s.inFlight
      && |s'.records| + |s'.inFlight| == |s.records| + |s.inFlight|
    decreases j
  {
    if i < j {
      OnlyFlightsLand(limits, ops, i, j - 1);
      AfterNext(limits, ops, j - 1);
      ReachedStep(limits, After(limits, ops[..j - 1]), ops[j - 1]);
    }
  }

  /** A call recorded at a later step was in flight at the moment the ceiling was reached. */
  lemma LaterRecordsWereInFlight(limits: Limits, ops: seq<Op>, i: nat, j: nat)
    requires i <= j < |ops| && Reached(limits, After(limits, ops[..i]))
    requires |After(limits, ops[..j + 1]).records| > |After(limits, ops[..j]).records|
    ensures ops[j].RecordOp? && ops[j].call in After(limits, ops[..i]).inFlight
  {
    AfterNext(limits, ops, j);
    OnlyFlightsLand(limits, ops, i, j);
  }

  /** Step i is the one whose record first takes the spend to the ceiling. */
  ghost predicate FirstReachedBy(limits: Limits, ops: seq<Op>, i: nat) {
    i < |ops| && !Reached(limits, After(limits, ops[..i])) && Reached(limits, After(limits, ops[..i + 1]))
  }

  lemma ReachedByRecord(limits: Limits, s: State, op: Op)
    requires !Reached(limits, s) && Reached(limits, Next(limits, s, op))
    ensures op.RecordOp? && op.call in s.inFlight
    ensures |Next(limits, s, op).inFlight| == |s.inFlight| - 1
    ensures |Next(limits, s, op).records| == |s.records| + 1
  {}

  /** After the record that first reaches the spend ceiling, at most k - 1 further records land,
      each of a call that was in flight at that moment. */
  lemma AtMostKMinusOneMore(limits: Limits, ops: seq<Op>, k: nat, i: nat)
    requires Bounded(limits, ops, k) && FirstReachedBy(limits, ops, i)
    ensures k >= 1 && |After(limits, ops).records| <= |After(limits, ops[..i + 1]).records| + (k - 1)
    ensures |After(limits, ops[..i + 1]).records| == |After(limits, ops[..i]).records| + 1
  {
    assert FlightsAt(limits, ops, i) <= k;
    AfterNext(limits, ops, i);
    ReachedByRecord(limits, After(limits, ops[..i]), ops[i]);
    OnlyFlightsLand(limits, ops, i + 1, |ops|);
    assert ops[..|ops|] == ops;
  }

  ghost predicate EachCosts(records: seq<Usage>, most: real) {
    forall u :: u in records ==> CostOf(u) <= most
  }

  function Multiple(n: nat, most: real): real { if n == 0 then 0.0 else Multiple(n - 1, most) + most }

  lemma {:induction false} MultipleIsProduct(n: nat, most: real)
    ensures Multiple(n, most) == n as real * most
  {
    if n > 0 {
      MultipleIsProduct(n - 1, most);
      OneMore((n - 1) as real, n as real, most);
    }
  }

  lemma OneMore(m: real, n: real, most: real)
    requires n == m + 1.0
    ensures n * most == m * most + most
  {
    assert (m + 1.0) * most == m * most + 1.0 * most;
  }

  lemma {:induction false} MultipleMonotone(m: nat, n: nat, most: real)
    requires m <= n && 0.0 <= most
    ensures Multiple(m, most) <= Multiple(n, most)
  {
    if m < n { MultipleMonotone(m, n - 1, most); }
  }

  lemma {:induction false} SpendOfMore(a: seq<Usage>, b: seq<Usage>, most: real)
    requires a <= b && EachCosts(b, most)
    ensures Spend(b) <= Spend(a) + Multiple(|b| - |a|, most)
    decreases |b|
  {
    if |a| < |b| {
      assert EachCosts(b[..|b| - 1], most) && Last(b) in b;
      SpendOfMore(a, b[..|b| - 1], most);
    } else {
      assert a == b;
    }
  }

  lemma {:induction false} SomeStepReaches(limits: Limits, ops: seq<Op>) returns (i: nat)
    requires Reached(limits, After(limits, ops)) && !Reached(limits, START)
    ensures FirstReachedBy(limits, ops, i)
  {
    var front := ops[..|ops| - 1];
    assert ops[..|ops|] == ops;
    if Reached(limits, After(limits, front)) {
      i := SomeStepReaches(limits, front);
      assert front[..i] == ops[..i] && front[..i + 1] == ops[..i + 1];
    } else {
      i := |ops| - 1;
    }
  }

  lemma SpendAfterAtMost(before: seq<Usage>, after: seq<Usage>, k: nat, most: real, ceiling: real)
    requires before <= after && |after| <= |before| + k && EachCosts(after, most) && 0.0 <= most
    requires Spend(before) < ceiling
    ensures Spend(after) < ceiling + Multiple(k, most)
  {
    SpendOfMore(before, after, most);
    MultipleMonotone(|after| - |before|, k, most);
  }

  lemma OvershootBounded(limits: Limits, ops: seq<Op>, k: nat, most: real, i: nat)
    requires Bounded(limits, ops, k) && 0.0 <= most && EachCosts(After(limits, ops).records, most)
    requires FirstReachedBy(limits, ops, i)
    ensures Spend(After(limits, ops).records) < limits.maxCost.value + Multiple(k, most)
  {
    AtMostKMinusOneMore(limits, ops, k, i);
    RecordsGrow(limits, ops, i, |ops|);
    assert ops[..|ops|] == ops;
    SpendAfterAtMost(After(limits, ops[..i]).records, After(limits, ops).records, k, most, limits.maxCost.value);
  }

  /** If no call costs more than `most`, the spend stays below the ceiling plus k such calls; a
      ceiling that is not positive lets nothing through at all. */
  lemma SpendBounded(limits: Limits, ops: seq<Op>, k: nat, most: real)
    requires limits.maxCost.Some? && Bounded(limits, ops, k) && 0.0 <= most
    requires EachCosts(After(limits, ops).records, most)
    ensures 0.0 < limits.maxCost.value ==>
      Spend(After(limits, ops).records) < limits.maxCost.value + k as real * most
    ensures limits.maxCost.value <= 0.0 ==> After(limits, ops).records == []
  {
    assert ops[..0] == [] && ops[..|ops|] == ops;
    if limits.maxCost.value <= 0.0 {
      OnlyFlightsLand(limits, ops, 0, |ops|);
    } else {
      if Reached(limits, After(limits, ops)) {
        var i := SomeStepReaches(limits, ops);
        OvershootBounded(limits, ops, k, most, i);
      } else {
        MultipleMonotone(0, k, most);
      }
      MultipleIsProduct(k, most);
    }
  }
}
