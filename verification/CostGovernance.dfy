/**
 * Cost accounting: the deduplicated usage ledger, the report's totals and the budget
 * gate. Amounts are whole micro-dollars; rates are exact decimals, taken as reals.
 */
module CostGovernance {
  import opened Wrappers

  datatype Rate = Rate(input: real, output: real)

  /** rates_per_million_tokens, one rate per price class. */
  datatype Rates = Rates(officialList: Rate, relayAccount: Rate, subscriptionMarginal: Rate)

  datatype Snapshot = Snapshot(provider: string, model: string, currency: string, effectiveAt: int, rates: Rates)

  /** A usage event; only planned usage may lack an identifier. `attribution` holds its four optional fields. */
  datatype Usage = Usage(
    eventId: Option<string>, schemaVersion: string, taskId: string, agent: string, snapshotId: string, provider: string,
    model: string, currency: string, observedAt: int, inputTokens: int, outputTokens: int,
    attribution: seq<Option<string>>)

  /** The identifier, empty when there is none. */
  function IdOf(e: Usage): string {
    if e.eventId.Some? then e.eventId.value else ""
  }

  datatype Billing = Billing(
    eventId: string, schemaVersion: string, taskId: string, currency: string, evidenceRef: string, amount: real)

  /** One amount per price class. */
  datatype Totals = Totals(officialList: int, relayAccount: int, subscriptionMarginal: int) {
    function Plus(t: Totals): Totals {
      Totals(officialList + t.officialList, relayAccount + t.relayAccount,
             subscriptionMarginal + t.subscriptionMarginal)
    }
  }

  const ZERO := Totals(0, 0, 0)

  // ---------------------------------------------------------------- rounding

  /** `quantize` to six decimals: to the nearest micro-dollar, ties to the even one. */
  function RoundHalfEven(x: real): (r: int)
    ensures -0.5 <= r as real - x <= 0.5
    ensures (r as real - x == 0.5 || r as real - x == -0.5) ==> r % 2 == 0
  {
    var f := x.Floor;
    var d := x - f as real;
    if d < 0.5 then f
    else if d > 0.5 then f + 1
    else if f % 2 == 0 then f
    else f + 1
  }

  /** The exact cost of one use, in micro-dollars: tokens times a rate per million tokens. */
  function Exact(rate: Rate, inputTokens: int, outputTokens: int): real {
    inputTokens as real * rate.input + outputTokens as real * rate.output
  }

  /** `estimate_usage`. */
  function Estimate(s: Snapshot, inputTokens: int, outputTokens: int): Totals {
    Totals(RoundHalfEven(Exact(s.rates.officialList, inputTokens, outputTokens)),
           RoundHalfEven(Exact(s.rates.relayAccount, inputTokens, outputTokens)),
           RoundHalfEven(Exact(s.rates.subscriptionMarginal, inputTokens, outputTokens)))
  }

  // ---------------------------------------------------------------- the ledger

  predicate DistinctIds(es: seq<Usage>) {
    forall i, j :: 0 <= i < j < |es| ==> IdOf(es[i]) != IdOf(es[j])
  }

  datatype AppendResult = Appended | Unchanged | ConflictingId | InvalidEvent

  class UsageLedger {
    var events: seq<Usage>

    constructor ()
      ensures events == []
    {
      events := [];
    }

    /** `append_event`: an identical event is a no-op, a reused identifier a conflict. */
    method Append(e: Usage, schemaVersion: string) returns (r: AppendResult)
      requires DistinctIds(events)
      modifies this
      ensures DistinctIds(events)
      ensures events == if r.Appended? then old(events) + [e] else old(events)
      ensures r.InvalidEvent? <==> e.schemaVersion != schemaVersion || IdOf(e) == ""
      ensures r.Unchanged? <==> !r.InvalidEvent? && e in old(events)
      ensures r.ConflictingId? <==> !r.InvalidEvent? && e !in old(events)
                                    && exists f :: f in old(events) && IdOf(f) == IdOf(e)
    {
      if e.schemaVersion != schemaVersion || IdOf(e) == "" { return InvalidEvent; }
      var existing: map<string, Usage> := map[];
      for i := 0 to |events|
        invariant forall id :: id in existing <==> exists k :: 0 <= k < i && IdOf(events[k]) == id
        invariant forall k :: 0 <= k < i ==> existing[IdOf(events[k])] == events[k]
      {
        existing := existing[IdOf(events[i]) := events[i]];
      }
      if IdOf(e) in existing {
        return if existing[IdOf(e)] == e then Unchanged else ConflictingId;
      }
      events := events + [e];
      r := Appended;
    }
  }

  // ---------------------------------------------------------------- the report

  datatype Context = Context(taskId: string, snapshots: map<string, Snapshot>)

  const USAGE_SCHEMA := "valp-usage-event.v1"

  const BILLING_SCHEMA := "valp-billing-event.v1"

  /** `_add_event` does not raise for this event; whatever has an identifier, if an empty one, must fit its snapshot. */
  predicate Priced(c: Context, e: Usage) {
    && e.schemaVersion == USAGE_SCHEMA && e.taskId == c.taskId
    && e.agent != "" && e.snapshotId in c.snapshots
    && var s := c.snapshots[e.snapshotId];
    && (e.eventId.Some? ==>
          && e.provider == s.provider && e.model == s.model && e.currency == s.currency
          && e.observedAt >= s.effectiveAt)
    && e.inputTokens >= 0 && e.outputTokens >= 0
  }

  predicate Blank(text: string) {
    forall i :: 0 <= i < |text| ==> text[i] in " \t\n\r"
  }

  /** `_usage_attribution` does not raise. */
  predicate Attributed(e: Usage) {
    forall i :: 0 <= i < |e.attribution| && e.attribution[i].Some? ==> !Blank(e.attribution[i].value)
  }

  /** A recorded usage event that the report can take. */
  predicate Usable(c: Context, e: Usage) {
    IdOf(e) != "" && Priced(c, e) && Attributed(e)
  }

  datatype Attribution = Attribution(eventId: string, agent: string, fields: seq<Option<string>>)

  function AttributionOf(e: Usage): Attribution {
    Attribution(IdOf(e), e.agent, e.attribution)
  }

  function Cost(c: Context, e: Usage): Totals {
    if e.snapshotId in c.snapshots then Estimate(c.snapshots[e.snapshotId], e.inputTokens, e.outputTokens) else ZERO
  }

  datatype AgentTotals = AgentTotals(accumulated: Totals, projected: Totals)

  /** The loop variables of `build_cost_report`. */
  datatype Tally = Tally(
    accumulated: Totals, projected: Totals, perAgent: map<string, AgentTotals>, seen: map<string, Usage>,
    attributions: seq<Attribution>)

  const EMPTY := Tally(ZERO, ZERO, map[], map[], [])

  function AgentOf(t: Tally, agent: string): AgentTotals {
    if agent in t.perAgent then t.perAgent[agent] else AgentTotals(ZERO, ZERO)
  }

  /** One turn of the loop over usage events; None when it raises. */
  function TallyUsage(c: Context, t: Tally, e: Usage): Option<Tally> {
    if IdOf(e) == "" then None
    else if IdOf(e) in t.seen then (if t.seen[IdOf(e)] == e then Some(t) else None)
    else if !Usable(c, e) then None
    else
      var a := AgentOf(t, e.agent);
      Some(Tally(t.accumulated.Plus(Cost(c, e)), t.projected,
                 t.perAgent[e.agent := a.(accumulated := a.accumulated.Plus(Cost(c, e)))],
                 t.seen[IdOf(e) := e], t.attributions + [AttributionOf(e)]))
  }

  /** One turn of the loop over planned usage, which is taken as usage of this task. */
  function TallyPlanned(c: Context, t: Tally, e: Usage): Option<Tally> {
    if !Priced(c, e.(schemaVersion := USAGE_SCHEMA, taskId := c.taskId)) then None
    else
      var a := AgentOf(t, e.agent);
      Some(t.(projected := t.projected.Plus(Cost(c, e)),
              perAgent := t.perAgent[e.agent := a.(projected := a.projected.Plus(Cost(c, e)))]))
  }

  function UsageTally(c: Context, es: seq<Usage>): Option<Tally> {
    if es == [] then Some(EMPTY)
    else
      var t := UsageTally(c, es[..|es| - 1]);
      if t.None? then None else TallyUsage(c, t.value, es[|es| - 1])
  }

  function PlannedTally(c: Context, t: Tally, ps: seq<Usage>): Option<Tally> {
    if ps == [] then Some(t)
    else
      var t' := PlannedTally(c, t, ps[..|ps| - 1]);
      if t'.None? then None else TallyPlanned(c, t'.value, ps[|ps| - 1])
  }

  /** A billing event that the report can take. */
  predicate Billable(c: Context, b: Billing) {
    && b.eventId != "" && b.schemaVersion == BILLING_SCHEMA && b.taskId == c.taskId && b.currency == "USD"
    && !Blank(b.evidenceRef) && b.amount >= 0.0
  }

  datatype Billed = Billed(total: Option<real>, seen: set<string>)

  function TallyBilling(c: Context, t: Billed, b: Billing): Option<Billed> {
    if b.eventId in t.seen || !Billable(c, b) then None
    else Some(Billed(Some((if t.total.Some? then t.total.value else 0.0) + b.amount), t.seen + {b.eventId}))
  }

  function BillingTally(c: Context, bs: seq<Billing>): Option<Billed> {
    if bs == [] then Some(Billed(None, {}))
    else
      var t := BillingTally(c, bs[..|bs| - 1]);
      if t.None? then None else TallyBilling(c, t.value, bs[|bs| - 1])
  }

  /** The report: its tallies, and the amount billed, if anything has been. */
  datatype CostReport = CostReport(tally: Tally, actualBilled: Option<int>)

  /** The three loops of `build_cost_report`. */
  function Report(c: Context, es: seq<Usage>, ps: seq<Usage>, bs: seq<Billing>): Option<CostReport> {
    var usage := UsageTally(c, es);
    if usage.None? then None
    else
      var t := PlannedTally(c, usage.value, ps);
      if t.None? then None
      else
        var b := BillingTally(c, bs);
        if b.None? then None
        else Some(CostReport(t.value, if b.value.total.Some? then Some(RoundHalfEven(b.value.total.value)) else None))
  }

  lemma {:induction false} NoneStays(c: Context, es: seq<Usage>, n: nat)
    requires n <= |es| && UsageTally(c, es[..n]).None?
    ensures UsageTally(c, es).None?
    decreases |es| - n
  {
    if n == |es| { assert es[..n] == es; }
    else {
      assert es[..n + 1][..n] == es[..n];
      NoneStays(c, es, n + 1);
    }
  }

  lemma {:induction false} PlannedNoneStays(c: Context, t: Tally, ps: seq<Usage>, n: nat)
    requires n <= |ps| && PlannedTally(c, t, ps[..n]).None?
    ensures PlannedTally(c, t, ps).None?
    decreases |ps| - n
  {
    if n == |ps| { assert ps[..n] == ps; }
    else {
      assert ps[..n + 1][..n] == ps[..n];
      PlannedNoneStays(c, t, ps, n + 1);
    }
  }

  lemma {:induction false} BillingNoneStays(c: Context, bs: seq<Billing>, n: nat)
    requires n <= |bs| && BillingTally(c, bs[..n]).None?
    ensures BillingTally(c, bs).None?
    decreases |bs| - n
  {
    if n == |bs| { assert bs[..n] == bs; }
    else {
      assert bs[..n + 1][..n] == bs[..n];
      BillingNoneStays(c, bs, n + 1);
    }
  }

  /** The billing loop. */
  method SumBilling(c: Context, bs: seq<Billing>) returns (r: Option<Billed>)
    ensures r == BillingTally(c, bs)
  {
    hide Billable;
    var total: Option<real>, seen: set<string> := None, {};
    for i := 0 to |bs|
      invariant BillingTally(c, bs[..i]) == Some(Billed(total, seen))
    {
      assert bs[..i + 1][..i] == bs[..i];
      var b := bs[i];
      if b.eventId in seen || !Billable(c, b) {
        BillingNoneStays(c, bs, i + 1);
        return None;
      }
      total := Some((if total.Some? then total.value else 0.0) + b.amount);
      seen := seen + {b.eventId};
    }
    assert bs[..|bs|] == bs;
    r := Some(Billed(total, seen));
  }

  /** `build_cost_report` as loops over mutable totals. */
  method BuildReport(c: Context, es: seq<Usage>, ps: seq<Usage>, bs: seq<Billing>) returns (r: Option<CostReport>)
    ensures r == Report(c, es, ps, bs)
    ensures r.Some? ==> forall k :: TotalsNear(c, es, ps, r.value.tally, k)
  {
    hide TallyUsage, TallyPlanned, TallyBilling, RoundHalfEven, TotalsNear;
    var t := EMPTY;
    for i := 0 to |es|
      invariant UsageTally(c, es[..i]) == Some(t)
    {
      assert es[..i + 1][..i] == es[..i];
      var next := TallyUsage(c, t, es[i]);
      if next.None? {
        NoneStays(c, es, i + 1);
        return None;
      }
      t := next.value;
    }
    assert es[..|es|] == es;
    ghost var usage := t;
    for i := 0 to |ps|
      invariant PlannedTally(c, usage, ps[..i]) == Some(t)
    {
      assert ps[..i + 1][..i] == ps[..i];
      var next := TallyPlanned(c, t, ps[i]);
      if next.None? {
        PlannedNoneStays(c, usage, ps, i + 1);
        return None;
      }
      t := next.value;
    }
    assert ps[..|ps|] == ps;
    var billed := SumBilling(c, bs);
    if billed.None? { return None; }
    var total := billed.value.total;
    r := Some(CostReport(t, if total.Some? then Some(RoundHalfEven(total.value)) else None));
    forall k ensures TotalsNear(c, es, ps, t, k) { ReportNear(c, es, ps, bs, k); }
  }

  // ---------------------------------------------------------------- sums over sets of events

  ghost function Pick<T>(s: set<T>): (x: T)
    requires s != {}
    ensures x in s
  {
    var x :| x in s; x
  }

  ghost function Total(c: Context, s: set<Usage>): Totals {
    if s == {} then ZERO else var e := Pick(s); Total(c, s - {e}).Plus(Cost(c, e))
  }

  /** The sum does not depend on the order in which the set is taken apart. */
  lemma {:induction false} TotalAdd(c: Context, s: set<Usage>, e: Usage)
    requires e !in s
    ensures Total(c, s + {e}) == Total(c, s).Plus(Cost(c, e))
    decreases |s|
  {
    hide Cost;
    var x := Pick(s + {e});
    if x == e {
      assert s + {e} - {x} == s;
    } else {
      assert s + {e} - {x} == s - {x} + {e};
      TotalAdd(c, s - {x}, e);
      TotalAdd(c, s - {x}, x);
      assert s - {x} + {x} == s;
    }
  }

  function AddAgents(a: AgentTotals, b: AgentTotals): AgentTotals {
    AgentTotals(a.accumulated.Plus(b.accumulated), a.projected.Plus(b.projected))
  }

  ghost function SumAgents(m: map<string, AgentTotals>): AgentTotals {
    if m == map[] then AgentTotals(ZERO, ZERO)
    else var k := Pick(m.Keys); AddAgents(SumAgents(m - {k}), m[k])
  }

  lemma {:induction false} SumAgentsWithout(m: map<string, AgentTotals>, k: string)
    requires k in m
    ensures SumAgents(m) == AddAgents(SumAgents(m - {k}), m[k])
    decreases |m|
  {
    hide AddAgents;
    var x := Pick(m.Keys);
    if x != k {
      assert (m - {x}).Keys == m.Keys - {x} && (m - {k}).Keys == m.Keys - {k};
      SumAgentsWithout(m - {x}, k);
      SumAgentsWithout(m - {k}, x);
      assert m - {x} - {k} == m - {k} - {x};
      AddCommutes(SumAgents(m - {x} - {k}), m[k], m[x]);
    }
  }

  lemma AddCommutes(a: AgentTotals, b: AgentTotals, d: AgentTotals)
    ensures AddAgents(AddAgents(a, b), d) == AddAgents(AddAgents(a, d), b)
  {
  }

  /** Changing one agent's totals changes the sum by the difference. */
  lemma SumAgentsUpdate(t: Tally, agent: string, v: AgentTotals)
    ensures AddAgents(SumAgents(t.perAgent[agent := v]), AgentOf(t, agent)) == AddAgents(SumAgents(t.perAgent), v)
  {
    var m, m' := t.perAgent, t.perAgent[agent := v];
    SumAgentsWithout(m', agent);
    assert m' - {agent} == m - {agent};
    if agent in m { SumAgentsWithout(m, agent); } else { assert m - {agent} == m; }
  }

  // ---------------------------------------------------------------- what the report computes

  ghost function Events(es: seq<Usage>): set<Usage> {
    set e | e in es
  }

  ghost function EventsOf(es: seq<Usage>, agent: string): set<Usage> {
    set e | e in es && e.agent == agent
  }

  /** The events can be reported on: each is priced, and equal identifiers mean equal events. */
  ghost predicate Reportable(c: Context, es: seq<Usage>) {
    && (forall e :: e in es ==> Usable(c, e))
    && (forall e, f :: e in es && f in es && IdOf(e) == IdOf(f) ==> e == f)
  }

  ghost predicate SeenIs(t: Tally, es: seq<Usage>) {
    && (forall id :: id in t.seen ==> IdOf(t.seen[id]) == id && t.seen[id] in es)
    && (forall e :: e in es ==> IdOf(e) in t.seen && t.seen[IdOf(e)] == e)
  }

  lemma ReportableStep(c: Context, es: seq<Usage>, e: Usage)
    ensures Reportable(c, es + [e]) <==>
      && Reportable(c, es) && Usable(c, e)
      && forall f :: f in es && IdOf(f) == IdOf(e) ==> f == e
  {
    hide Usable;
    assert forall f :: f in es + [e] <==> f in es || f == e;
  }

  lemma ReportableMember(c: Context, es: seq<Usage>, e: Usage)
    requires Reportable(c, es) && e in es
    ensures Usable(c, e)
  {
  }

  /** Whether an event's identifier is free, taken by the same event, or taken by another one. */
  lemma SeenStep(t: Tally, es: seq<Usage>, e: Usage)
    requires SeenIs(t, es)
    ensures (forall f :: f in es && IdOf(f) == IdOf(e) ==> f == e) <==>
            (IdOf(e) in t.seen ==> t.seen[IdOf(e)] == e)
    ensures IdOf(e) !in t.seen ==> SeenIs(t.(seen := t.seen[IdOf(e) := e]), es + [e])
    ensures IdOf(e) in t.seen && t.seen[IdOf(e)] == e ==> SeenIs(t, es + [e])
  {
    assert forall f :: f in es + [e] <==> f in es || f == e;
  }

  lemma SeenOnly(t: Tally, t': Tally, es: seq<Usage>)
    requires SeenIs(t, es) && t'.seen == t.seen
    ensures SeenIs(t', es)
  {
  }

  /** The usage loop raises exactly when some event is unusable or two events share an identifier. */
  lemma {:induction false} AcceptsIff(c: Context, es: seq<Usage>)
    ensures UsageTally(c, es).Some? <==> Reportable(c, es)
    ensures UsageTally(c, es).Some? ==> SeenIs(UsageTally(c, es).value, es)
    decreases |es|, 1
  {
    if es == [] {
      assert UsageTally(c, es) == Some(EMPTY);
    } else {
      AcceptsOneMore(c, es[..|es| - 1], es[|es| - 1]);
      assert es == es[..|es| - 1] + [es[|es| - 1]];
    }
  }

  lemma AcceptsOneMore(c: Context, init: seq<Usage>, last: Usage)
    ensures UsageTally(c, init + [last]).Some? <==> Reportable(c, init + [last])
    ensures UsageTally(c, init + [last]).Some? ==> SeenIs(UsageTally(c, init + [last]).value, init + [last])
    decreases |init| + 1, 0
  {
    hide Reportable, SeenIs, Priced, Attributed, Cost, Totals.Plus, AgentOf;
    AcceptsIff(c, init);
    ReportableStep(c, init, last);
    assert (init + [last])[..|init + [last]| - 1] == init;
    if UsageTally(c, init).Some? {
      var t := UsageTally(c, init).value;
      SeenStep(t, init, last);
      SeenDecides(t, init, last);
      if last in init { ReportableMember(c, init, last); }
      if UsageTally(c, init + [last]).Some? && IdOf(last) !in t.seen {
        SeenOnly(t.(seen := t.seen[IdOf(last) := last]), UsageTally(c, init + [last]).value, init + [last]);
      }
    }
  }

  /** Totals of the distinct events, and per agent the totals of that agent's distinct events. */
  lemma {:induction false} TallyIs(c: Context, es: seq<Usage>, agent: string)
    requires UsageTally(c, es).Some?
    ensures var t := UsageTally(c, es).value;
      && t.accumulated == Total(c, Events(es))
      && AgentOf(t, agent).accumulated == Total(c, EventsOf(es, agent))
      && t.projected == ZERO && AgentOf(t, agent).projected == ZERO
  {
    hide Usable, Cost, Total, Totals.Plus, Events, EventsOf, SeenIs;
    if es == [] {
      NoEvents(c, es, agent);
    } else {
      var init, last := es[..|es| - 1], es[|es| - 1];
      TallyIs(c, init, agent);
      AcceptsIff(c, init);
      SeenDecides(UsageTally(c, init).value, init, last);
      OneMoreEvent(c, init, last, agent);
      assert es == init + [last];
    }
  }

  lemma NoEvents(c: Context, es: seq<Usage>, agent: string)
    requires es == []
    ensures Total(c, Events(es)) == ZERO && Total(c, EventsOf(es, agent)) == ZERO
  {
    assert Events(es) == {} && EventsOf(es, agent) == {};
  }

  lemma SeenDecides(t: Tally, es: seq<Usage>, e: Usage)
    requires SeenIs(t, es)
    ensures e in es <==> IdOf(e) in t.seen && t.seen[IdOf(e)] == e
  {
  }

  /** What one more event adds to the sums over distinct events. */
  lemma OneMoreEvent(c: Context, es: seq<Usage>, e: Usage, agent: string)
    ensures Total(c, Events(es + [e])) ==
      if e in es then Total(c, Events(es)) else Total(c, Events(es)).Plus(Cost(c, e))
    ensures Total(c, EventsOf(es + [e], agent)) ==
      if e in es || e.agent != agent then Total(c, EventsOf(es, agent))
      else Total(c, EventsOf(es, agent)).Plus(Cost(c, e))
  {
    hide Cost, Total;
    if e in es {
      assert Events(es + [e]) == Events(es) && EventsOf(es + [e], agent) == EventsOf(es, agent);
    } else {
      assert Events(es + [e]) == Events(es) + {e};
      TotalAdd(c, Events(es), e);
      if e.agent == agent {
        assert EventsOf(es + [e], agent) == EventsOf(es, agent) + {e};
        TotalAdd(c, EventsOf(es, agent), e);
      } else {
        assert EventsOf(es + [e], agent) == EventsOf(es, agent);
      }
    }
  }

  /**
   * Exact duplicates and reordering do not change a report: lists with the same
   * events are accepted together and give the same totals, overall and per agent.
   */
  lemma OrderIrrelevant(c: Context, es: seq<Usage>, es': seq<Usage>, agent: string)
    requires forall e :: e in es <==> e in es'
    ensures UsageTally(c, es).Some? <==> UsageTally(c, es').Some?
    ensures UsageTally(c, es).Some? ==>
      && UsageTally(c, es).value.accumulated == UsageTally(c, es').value.accumulated
      && AgentOf(UsageTally(c, es).value, agent).accumulated == AgentOf(UsageTally(c, es').value, agent).accumulated
  {
    AcceptsIff(c, es);
    AcceptsIff(c, es');
    if UsageTally(c, es).Some? {
      TallyIs(c, es, agent);
      TallyIs(c, es', agent);
      assert Events(es) == Events(es') && EventsOf(es, agent) == EventsOf(es', agent);
    }
  }

  /** A ledger that `append_event` built never meets a conflicting identifier. */
  lemma LedgerHasNoConflict(c: Context, es: seq<Usage>)
    requires DistinctIds(es)
    ensures UsageTally(c, es).Some? <==> forall e :: e in es ==> Usable(c, e)
  {
    AcceptsIff(c, es);
  }

  lemma NoAgentsSumToZero()
    ensures SumAgents(map[]) == AgentTotals(ZERO, ZERO)
  {
  }

  /** Adding to one agent adds the same to the sum. */
  lemma AgentStep(t: Tally, agent: string, v: AgentTotals)
    ensures SumAgents(t.perAgent[agent := AddAgents(AgentOf(t, agent), v)]) == AddAgents(SumAgents(t.perAgent), v)
  {
    hide SumAgents;
    SumAgentsUpdate(t, agent, AddAgents(AgentOf(t, agent), v));
  }

  lemma {:induction false} UsageConserved(c: Context, es: seq<Usage>)
    requires UsageTally(c, es).Some?
    ensures var t := UsageTally(c, es).value; SumAgents(t.perAgent) == AgentTotals(t.accumulated, t.projected)
  {
    hide SumAgents, Cost, Usable;
    NoAgentsSumToZero();
    if es != [] {
      UsageConserved(c, es[..|es| - 1]);
      var t, e := UsageTally(c, es[..|es| - 1]).value, es[|es| - 1];
      if IdOf(e) !in t.seen {
        AgentStep(t, e.agent, AgentTotals(Cost(c, e), ZERO));
      }
    }
  }

  lemma {:induction false} PlannedConserved(c: Context, t: Tally, ps: seq<Usage>)
    requires PlannedTally(c, t, ps).Some?
    requires SumAgents(t.perAgent) == AgentTotals(t.accumulated, t.projected)
    ensures var t' := PlannedTally(c, t, ps).value; SumAgents(t'.perAgent) == AgentTotals(t'.accumulated, t'.projected)
  {
    hide SumAgents, Cost, Priced;
    if ps != [] {
      PlannedConserved(c, t, ps[..|ps| - 1]);
      var t', e := PlannedTally(c, t, ps[..|ps| - 1]).value, ps[|ps| - 1];
      AgentStep(t', e.agent, AgentTotals(ZERO, Cost(c, e)));
    }
  }

  /** Conservation: the agents' totals add up to the task's, in every price class, accumulated and projected. */
  lemma ReportConserved(c: Context, es: seq<Usage>, ps: seq<Usage>, bs: seq<Billing>)
    requires Report(c, es, ps, bs).Some?
    ensures var t := Report(c, es, ps, bs).value.tally; SumAgents(t.perAgent) == AgentTotals(t.accumulated, t.projected)
  {
    UsageConserved(c, es);
    PlannedConserved(c, UsageTally(c, es).value, ps);
  }

  /** The projected cost of one agent's planned usage; planned events count as often as they are listed. */
  function PlannedOf(c: Context, ps: seq<Usage>, agent: string): Totals {
    if ps == [] then ZERO
    else
      var rest, last := PlannedOf(c, ps[..|ps| - 1], agent), ps[|ps| - 1];
      if last.agent == agent then rest.Plus(Cost(c, last)) else rest
  }

  lemma PlusAssociates(a: Totals, b: Totals, d: Totals)
    ensures a.Plus(b).Plus(d) == a.Plus(b.Plus(d)) && a.Plus(ZERO) == a
  {
  }

  lemma PlannedStep(c: Context, t: Tally, e: Usage, agent: string)
    requires TallyPlanned(c, t, e).Some?
    ensures var t', before := TallyPlanned(c, t, e).value, AgentOf(t, agent);
      && t'.accumulated == t.accumulated && t'.seen == t.seen && t'.attributions == t.attributions
      && AgentOf(t', agent).accumulated == before.accumulated
      && AgentOf(t', agent).projected == (if e.agent == agent then before.projected.Plus(Cost(c, e))
                                          else before.projected)
      && (agent in t'.perAgent <==> agent in t.perAgent || e.agent == agent)
  {
    hide Cost, Priced, Totals.Plus;
  }

  /** Planned usage goes to its own agent's projection and leaves everything that was accumulated alone. */
  lemma {:induction false} PlannedIs(c: Context, t: Tally, ps: seq<Usage>, agent: string)
    requires PlannedTally(c, t, ps).Some?
    ensures var t' := PlannedTally(c, t, ps).value;
      && AgentOf(t', agent).projected == AgentOf(t, agent).projected.Plus(PlannedOf(c, ps, agent))
      && AgentOf(t', agent).accumulated == AgentOf(t, agent).accumulated
      && t'.accumulated == t.accumulated && t'.seen == t.seen && t'.attributions == t.attributions
  {
    hide Cost, TallyPlanned, AgentOf, Totals.Plus;
    PlusAssociates(AgentOf(t, agent).projected, ZERO, ZERO);
    if ps != [] {
      var init, last := ps[..|ps| - 1], ps[|ps| - 1];
      PlannedIs(c, t, init, agent);
      PlannedStep(c, PlannedTally(c, t, init).value, last, agent);
      PlusAssociates(AgentOf(t, agent).projected, PlannedOf(c, init, agent), Cost(c, last));
    }
  }

  ghost predicate NamesAgent(es: seq<Usage>, agent: string) {
    exists e :: e in es && e.agent == agent
  }

  lemma NamesAgentStep(es: seq<Usage>, agent: string)
    requires es != []
    ensures NamesAgent(es, agent) <==> NamesAgent(es[..|es| - 1], agent) || es[|es| - 1].agent == agent
  {
    var init, last := es[..|es| - 1], es[|es| - 1];
    assert es == init + [last];
  }

  /** The agents of a report are those of its recorded and planned events. */
  lemma ReportAgents(c: Context, es: seq<Usage>, ps: seq<Usage>, bs: seq<Billing>, agent: string)
    requires Report(c, es, ps, bs).Some?
    ensures agent in Report(c, es, ps, bs).value.tally.perAgent <==> NamesAgent(es, agent) || NamesAgent(ps, agent)
  {
    hide NamesAgent, UsageTally, PlannedTally, BillingTally;
    UsageAgents(c, es, agent);
    PlannedAgents(c, UsageTally(c, es).value, ps, agent);
  }

  lemma {:induction false} PlannedAgents(c: Context, t: Tally, ps: seq<Usage>, agent: string)
    requires PlannedTally(c, t, ps).Some?
    ensures agent in PlannedTally(c, t, ps).value.perAgent <==> agent in t.perAgent || NamesAgent(ps, agent)
  {
    hide TallyPlanned;
    if ps != [] {
      PlannedAgents(c, t, ps[..|ps| - 1], agent);
      PlannedStep(c, PlannedTally(c, t, ps[..|ps| - 1]).value, ps[|ps| - 1], agent);
      NamesAgentStep(ps, agent);
    }
  }

  lemma {:induction false} UsageAgents(c: Context, es: seq<Usage>, agent: string)
    requires UsageTally(c, es).Some?
    ensures agent in UsageTally(c, es).value.perAgent <==> NamesAgent(es, agent)
  {
    hide Cost, Usable, SeenIs, NamesAgent;
    if es == [] {
      assert !NamesAgent(es, agent) by { NoAgent(agent); }
    } else {
      var init, last := es[..|es| - 1], es[|es| - 1];
      UsageAgents(c, init, agent);
      AcceptsIff(c, init);
      SeenDecides(UsageTally(c, init).value, init, last);
      NamesAgentStep(es, agent);
      if last in init && last.agent == agent { AgentNamed(init, last); }
    }
  }

  lemma NoAgent(agent: string)
    ensures !NamesAgent([], agent)
  {
  }

  lemma AgentNamed(es: seq<Usage>, e: Usage)
    requires e in es
    ensures NamesAgent(es, e.agent)
  {
  }

  lemma {:induction false} PlannedIff(c: Context, t: Tally, ps: seq<Usage>)
    ensures PlannedTally(c, t, ps).Some? <==>
      forall p :: p in ps ==> Priced(c, p.(schemaVersion := USAGE_SCHEMA, taskId := c.taskId))
  {
    hide Cost, Priced;
    if ps != [] {
      var init, last := ps[..|ps| - 1], ps[|ps| - 1];
      PlannedIff(c, t, init);
      assert ps == init + [last];
      assert forall p :: p in ps <==> p in init || p == last;
    }
  }

  /** Some character of the text is not white space. */
  ghost predicate Filled(text: string) {
    exists i :: 0 <= i < |text| && text[i] != ' ' && text[i] != '\t' && text[i] != '\n' && text[i] != '\r'
  }

  /** The snapshot of an event is known, and its tokens are counts. */
  predicate Priceable(c: Context, e: Usage) {
    e.agent != "" && e.snapshotId in c.snapshots && e.inputTokens >= 0 && e.outputTokens >= 0
  }

  /** The event is of its snapshot's provider, model and currency, and not older than the snapshot. */
  predicate FitsSnapshot(c: Context, e: Usage)
    requires e.snapshotId in c.snapshots
  {
    var s := c.snapshots[e.snapshotId];
    e.provider == s.provider && e.model == s.model && e.currency == s.currency && s.effectiveAt <= e.observedAt
  }

  lemma FilledIsNotBlank(text: string)
    ensures Filled(text) <==> !Blank(text)
  {
    if Filled(text) {
      var i :| 0 <= i < |text| && text[i] != ' ' && text[i] != '\t' && text[i] != '\n' && text[i] != '\r';
      assert text[i] !in " \t\n\r";
    }
  }

  /**
   * A report is built exactly if every recorded event is an identified one of this task,
   * is priceable and fits its snapshot, carries no blank attribution and shares its
   * identifier with no other event; every planned one is priceable and, if it has an
   * identifier at all, fits its snapshot; and every bill is an identified one of this
   * task, in dollars, with evidence, of no negative amount, under an identifier of its own.
   */
  lemma ReportIff(c: Context, es: seq<Usage>, ps: seq<Usage>, bs: seq<Billing>)
    ensures Report(c, es, ps, bs).Some? <==>
      && (forall e :: e in es ==>
            && IdOf(e) != "" && e.schemaVersion == USAGE_SCHEMA && e.taskId == c.taskId
            && Priceable(c, e) && FitsSnapshot(c, e)
            && forall i :: 0 <= i < |e.attribution| && e.attribution[i].Some? ==> Filled(e.attribution[i].value))
      && (forall e, f :: e in es && f in es && IdOf(e) == IdOf(f) ==> e == f)
      && (forall p :: p in ps ==> Priceable(c, p) && (p.eventId.Some? ==> FitsSnapshot(c, p)))
      && (forall i :: 0 <= i < |bs| ==>
            && bs[i].eventId != "" && bs[i].schemaVersion == BILLING_SCHEMA && bs[i].taskId == c.taskId
            && bs[i].currency == "USD" && Filled(bs[i].evidenceRef) && bs[i].amount >= 0.0)
      && (forall i, j :: 0 <= i < j < |bs| ==> bs[i].eventId != bs[j].eventId)
  {
    hide UsageTally, PlannedTally, BillingTally, Filled, Blank;
    forall text ensures Filled(text) <==> !Blank(text) { FilledIsNotBlank(text); }
    AcceptsIff(c, es);
    if UsageTally(c, es).Some? { PlannedIff(c, UsageTally(c, es).value, ps); }
    BillingIff(c, bs);
  }

  // ---------------------------------------------------------------- attribution and billing

  /** The distinct events of a list, in the order of their first occurrence. */
  function FirstUses(es: seq<Usage>): seq<Usage> {
    if es == [] then []
    else
      var init, last := es[..|es| - 1], es[|es| - 1];
      if last in init then FirstUses(init) else FirstUses(init) + [last]
  }

  /** The distinct events, each at its first occurrence. */
  lemma {:induction false} FirstUsesAre(es: seq<Usage>) returns (at: seq<nat>)
    ensures |at| == |FirstUses(es)|
    ensures forall i :: 0 <= i < |at| ==>
      at[i] < |es| && FirstUses(es)[i] == es[at[i]] && es[at[i]] !in es[..at[i]]
    ensures forall i, j :: 0 <= i < j < |at| ==> at[i] < at[j]
    ensures forall e :: e in es <==> e in FirstUses(es)
  {
    at := [];
    if es != [] {
      var init, last := es[..|es| - 1], es[|es| - 1];
      at := FirstUsesAre(init);
      assert es == init + [last];
      assert forall i :: 0 <= i < |at| ==> es[..at[i]] == init[..at[i]];
      if last !in init { at := at + [|init|]; }
    }
  }

  /** The report attributes every distinct event once, in the order of first use, with its agent and fields. */
  lemma {:induction false} AttributesEachOnce(c: Context, es: seq<Usage>)
    requires UsageTally(c, es).Some?
    ensures var attributions, uses := UsageTally(c, es).value.attributions, FirstUses(es);
      && |attributions| == |uses|
      && forall i :: 0 <= i < |uses| ==>
           attributions[i].eventId == IdOf(uses[i]) && attributions[i].agent == uses[i].agent
           && attributions[i].fields == uses[i].attribution
  {
    hide Usable, Cost, Totals.Plus, SeenIs;
    if es != [] {
      var init, last := es[..|es| - 1], es[|es| - 1];
      AttributesEachOnce(c, init);
      AcceptsIff(c, init);
      SeenDecides(UsageTally(c, init).value, init, last);
    }
  }

  function BilledSum(bs: seq<Billing>): real {
    if bs == [] then 0.0 else BilledSum(bs[..|bs| - 1]) + bs[|bs| - 1].amount
  }

  ghost function BillIds(bs: seq<Billing>): set<string> {
    set b | b in bs :: b.eventId
  }

  /** Every event is billable, and no identifier is repeated. */
  ghost predicate Billables(c: Context, bs: seq<Billing>) {
    && (forall i :: 0 <= i < |bs| ==> Billable(c, bs[i]))
    && (forall i, j :: 0 <= i < j < |bs| ==> bs[i].eventId != bs[j].eventId)
  }

  lemma BillablesStep(c: Context, bs: seq<Billing>, b: Billing)
    ensures Billables(c, bs + [b]) <==> Billables(c, bs) && Billable(c, b) && b.eventId !in BillIds(bs)
    ensures BillIds(bs + [b]) == BillIds(bs) + {b.eventId}
  {
    hide Billable;
    var all := bs + [b];
    assert forall x :: x in all <==> x in bs || x == b;
    if Billables(c, all) {
      forall x | x in bs ensures x.eventId != b.eventId {
        var i :| 0 <= i < |bs| && bs[i] == x;
        assert all[i] == x && all[|bs|] == b;
      }
      forall i | 0 <= i < |bs| ensures Billable(c, bs[i]) { assert all[i] == bs[i]; }
      forall i, j | 0 <= i < j < |bs|
        ensures bs[i].eventId != bs[j].eventId
      {
        assert all[i] == bs[i] && all[j] == bs[j];
      }
      assert all[|bs|] == b;
    }
  }

  /** Billing is refused exactly when an event is not billable or an identifier is repeated, and adds up otherwise. */
  lemma {:induction false} BillingIff(c: Context, bs: seq<Billing>)
    ensures BillingTally(c, bs).Some? <==> Billables(c, bs)
    ensures BillingTally(c, bs).Some? ==>
      BillingTally(c, bs).value == Billed(if bs == [] then None else Some(BilledSum(bs)), BillIds(bs))
    decreases |bs|, 1
  {
    if bs != [] {
      BillOneMore(c, bs[..|bs| - 1], bs[|bs| - 1]);
      assert bs == bs[..|bs| - 1] + [bs[|bs| - 1]];
    }
  }

  lemma BillOneMore(c: Context, bs: seq<Billing>, b: Billing)
    ensures BillingTally(c, bs + [b]).Some? <==> Billables(c, bs + [b])
    ensures BillingTally(c, bs + [b]).Some? ==>
      BillingTally(c, bs + [b]).value == Billed(Some(BilledSum(bs + [b])), BillIds(bs + [b]))
    decreases |bs| + 1, 0
  {
    hide Billable, Billables, BillIds;
    BillingIff(c, bs);
    BillablesStep(c, bs, b);
    assert (bs + [b])[..|bs + [b]| - 1] == bs;
  }

  /** What the report calls billed: nothing without a bill, and otherwise the sum of all bills. */
  lemma BilledIs(c: Context, es: seq<Usage>, ps: seq<Usage>, bs: seq<Billing>)
    requires Report(c, es, ps, bs).Some?
    ensures var billed := Report(c, es, ps, bs).value.actualBilled;
      && (billed.Some? <==> bs != [])
      && (billed.Some? ==> Near(billed.value, BilledSum(bs)))
  {
    BillingIff(c, bs);
  }

  // ---------------------------------------------------------------- the rounding bound

  datatype PriceClass = OfficialList | RelayAccount | SubscriptionMarginal

  function Amount(t: Totals, k: PriceClass): int {
    match k
    case OfficialList => t.officialList
    case RelayAccount => t.relayAccount
    case SubscriptionMarginal => t.subscriptionMarginal
  }

  /** Tokens at a rate per million, in micro-dollars. */
  function Charge(tokens: int, rate: real): real {
    tokens as real * rate
  }

  /** The unrounded cost of one event: its tokens times the rates of its snapshot, class by class. */
  function ExactCost(c: Context, e: Usage, k: PriceClass): real {
    if e.snapshotId !in c.snapshots then 0.0
    else
      var r := c.snapshots[e.snapshotId].rates;
      match k
      case OfficialList => Charge(e.inputTokens, r.officialList.input) + Charge(e.outputTokens, r.officialList.output)
      case RelayAccount => Charge(e.inputTokens, r.relayAccount.input) + Charge(e.outputTokens, r.relayAccount.output)
      case SubscriptionMarginal =>
        Charge(e.inputTokens, r.subscriptionMarginal.input) + Charge(e.outputTokens, r.subscriptionMarginal.output)
  }

  /** An amount is within half a micro-dollar of an exact cost. */
  predicate Near(amount: int, exact: real) {
    -0.5 <= amount as real - exact <= 0.5
  }

  /**
   * `estimate_usage`, class by class: input tokens are charged at the input rate of the
   * class and output tokens at its output rate, to the nearest micro-dollar.
   */
  lemma EstimateIs(s: Snapshot, input: int, output: int)
    ensures var t, r := Estimate(s, input, output), s.rates;
      && Near(t.officialList, input as real * r.officialList.input + output as real * r.officialList.output)
      && Near(t.relayAccount, input as real * r.relayAccount.input + output as real * r.relayAccount.output)
      && Near(t.subscriptionMarginal,
              input as real * r.subscriptionMarginal.input + output as real * r.subscriptionMarginal.output)
    ensures var t, r := Estimate(s, input, 0), s.rates;
      && Near(t.officialList, input as real * r.officialList.input)
      && Near(t.relayAccount, input as real * r.relayAccount.input)
      && Near(t.subscriptionMarginal, input as real * r.subscriptionMarginal.input)
    ensures var t, r := Estimate(s, 0, output), s.rates;
      && Near(t.officialList, output as real * r.officialList.output)
      && Near(t.relayAccount, output as real * r.relayAccount.output)
      && Near(t.subscriptionMarginal, output as real * r.subscriptionMarginal.output)
  {
    hide RoundHalfEven;
    ZeroTokens(s.rates.officialList, input, output);
    ZeroTokens(s.rates.relayAccount, input, output);
    ZeroTokens(s.rates.subscriptionMarginal, input, output);
  }

  lemma ZeroTokens(rate: Rate, input: int, output: int)
    ensures Exact(rate, input, 0) == input as real * rate.input
    ensures Exact(rate, 0, output) == output as real * rate.output
  {
  }

  lemma CostWithinHalf(c: Context, e: Usage, k: PriceClass)
    ensures Near(Amount(Cost(c, e), k), ExactCost(c, e, k))
  {
    hide RoundHalfEven, Estimate, Near, Charge;
    NothingCosts();
    if e.snapshotId in c.snapshots { EstimateCharges(c.snapshots[e.snapshotId], e.inputTokens, e.outputTokens); }
  }

  lemma EstimateCharges(s: Snapshot, input: int, output: int)
    ensures var t, r := Estimate(s, input, output), s.rates;
      && Near(t.officialList, Charge(input, r.officialList.input) + Charge(output, r.officialList.output))
      && Near(t.relayAccount, Charge(input, r.relayAccount.input) + Charge(output, r.relayAccount.output))
      && Near(t.subscriptionMarginal,
              Charge(input, r.subscriptionMarginal.input) + Charge(output, r.subscriptionMarginal.output))
  {
    hide RoundHalfEven;
  }

  lemma NothingCosts()
    ensures Near(0, 0.0)
  {
  }

  /** The unrounded cost of a list of events. */
  function ExactSum(c: Context, es: seq<Usage>, k: PriceClass): real {
    if es == [] then 0.0 else ExactSum(c, es[..|es| - 1], k) + ExactCost(c, es[|es| - 1], k)
  }

  /** The unrounded cost of the distinct events of a list. */
  function ExactDistinct(c: Context, es: seq<Usage>, k: PriceClass): real {
    if es == [] then 0.0
    else
      var init, last := es[..|es| - 1], es[|es| - 1];
      ExactDistinct(c, init, k) + if last in init then 0.0 else ExactCost(c, last, k)
  }

  /** The accumulated total is within half a micro-dollar per distinct event of the exact cost. */
  lemma {:induction false} AccumulatedBound(c: Context, es: seq<Usage>, k: PriceClass)
    requires UsageTally(c, es).Some?
    ensures var error := Amount(UsageTally(c, es).value.accumulated, k) as real - ExactDistinct(c, es, k);
      -0.5 * |UsageTally(c, es).value.seen| as real <= error <= 0.5 * |UsageTally(c, es).value.seen| as real
  {
    if es != [] {
      var init, last := es[..|es| - 1], es[|es| - 1];
      AccumulatedBound(c, init, k);
      AcceptsIff(c, init);
      CostWithinHalf(c, last, k);
      var t := UsageTally(c, init).value;
      if IdOf(last) !in t.seen {
        assert |t.seen[IdOf(last) := last]| == |t.seen| + 1;
      }
    }
  }

  lemma {:induction false} ProjectedBound(c: Context, t: Tally, ps: seq<Usage>, k: PriceClass)
    requires PlannedTally(c, t, ps).Some?
    ensures var t' := PlannedTally(c, t, ps).value;
      && t'.accumulated == t.accumulated && t'.seen == t.seen
      && var error := (Amount(t'.projected, k) - Amount(t.projected, k)) as real - ExactSum(c, ps, k);
         -0.5 * |ps| as real <= error <= 0.5 * |ps| as real
  {
    if ps != [] {
      ProjectedBound(c, t, ps[..|ps| - 1], k);
      CostWithinHalf(c, ps[|ps| - 1], k);
    }
  }

  /**
   * The totals of a tally are those of tokens times rates, up to half a micro-dollar per
   * distinct recorded event and per planned one.
   */
  ghost predicate TotalsNear(c: Context, es: seq<Usage>, ps: seq<Usage>, t: Tally, k: PriceClass) {
    var recorded := Amount(t.accumulated, k) as real - ExactDistinct(c, es, k);
    var planned := Amount(t.projected, k) as real - ExactSum(c, ps, k);
    && -0.5 * |t.seen| as real <= recorded <= 0.5 * |t.seen| as real
    && -0.5 * |ps| as real <= planned <= 0.5 * |ps| as real
  }

  lemma ReportNear(c: Context, es: seq<Usage>, ps: seq<Usage>, bs: seq<Billing>, k: PriceClass)
    requires Report(c, es, ps, bs).Some?
    ensures TotalsNear(c, es, ps, Report(c, es, ps, bs).value.tally, k)
  {
    hide ExactDistinct, ExactSum;
    var usage := UsageTally(c, es).value;
    AccumulatedBound(c, es, k);
    ProjectedBound(c, usage, ps, k);
    if es == [] { assert usage.projected == ZERO; } else { TallyIs(c, es, es[0].agent); }
  }

  /** `enforce_cost_budget`: the projected official-list total against the cap, both in micro-dollars. */
  predicate WithinBudget(t: Tally, cap: real) {
    (t.accumulated.officialList + t.projected.officialList) as real <= cap
  }

  /** What passing the gate guarantees about the exact cost, and what failing it does. */
  lemma BudgetGate(c: Context, es: seq<Usage>, ps: seq<Usage>, bs: seq<Billing>, cap: real)
    requires Report(c, es, ps, bs).Some?
    ensures var t := Report(c, es, ps, bs).value.tally;
      var exact := ExactDistinct(c, es, OfficialList) + ExactSum(c, ps, OfficialList);
      var slack := 0.5 * (|t.seen| + |ps|) as real;
      && (WithinBudget(t, cap) ==> exact <= cap + slack)
      && (!WithinBudget(t, cap) ==> exact > cap - slack)
  {
    hide Report, ExactDistinct, ExactSum;
    ReportNear(c, es, ps, bs, OfficialList);
  }
}
