/** The relation of a transfer to the focal wallet, and the aggregate kept per counterparty. */
module Counterparties {
  import opened Text
  import opened Arithmetic
  import opened Wrappers
  import opened Counting
  import opened Transfers

  datatype Relation = Sender | Receiver

  datatype Mapping = Mapping(relation: Relation, counterparty: Address)

  function MapWalletRelation(focalWallet: Address, tr: NormalizedTransfer): Option<Mapping> {
    var focal, src, dst := TrimSpace(focalWallet), TrimSpace(tr.source), TrimSpace(tr.destination);
    if focal == "" || src == "" || dst == "" then None
    else if src == dst then None
    else if src == focal then Some(Mapping(Sender, dst))
    else if dst == focal then Some(Mapping(Receiver, src))
    else None
  }

  /** The owners of `tr` are `a` and `b`, in either direction. */
  predicate Between(tr: NormalizedTransfer, a: Address, b: Address) {
    var src, dst := TrimSpace(tr.source), TrimSpace(tr.destination);
    (src == a && dst == b) || (src == b && dst == a)
  }

  /** A mapping exists exactly for a transfer between the focal owner and another, trimmed non-blank, owner. */
  lemma MappingIsExact(focalWallet: Address, tr: NormalizedTransfer, c: Address)
    ensures var m := MapWalletRelation(focalWallet, tr);
            && (m.Some? ==> Trimmed(m.value.counterparty) && !Blank(m.value.counterparty)
                            && m.value.counterparty != TrimSpace(focalWallet))
            && (m.Some? && m.value.counterparty == c <==>
                  && !Blank(focalWallet) && c != "" && c != TrimSpace(focalWallet)
                  && Between(tr, TrimSpace(focalWallet), c))
            && (m.Some? && m.value.relation == Sender ==> TrimSpace(tr.source) == TrimSpace(focalWallet))
            && (m.Some? && m.value.relation == Receiver ==> TrimSpace(tr.destination) == TrimSpace(focalWallet))
  {
  }

  datatype Event = Event(counterparty: Address, relation: Relation, at: BlockTime)

  datatype Counterparty = Counterparty(
    address: Address, firstSeen: int, lastSeen: int, interactions: nat,
    firstInbound: Option<int>, lastInbound: Option<int>, inbound: nat,
    firstOutbound: Option<int>, lastOutbound: Option<int>, outbound: nat)

  /** The zero value of the record, as read from a map that lacks the key. */
  const ZERO_COUNTERPARTY := Counterparty("", ZERO_TIME, ZERO_TIME, 0, None, None, 0, None, None, 0)

  function LeastOf(a: Option<int>, b: Option<int>): Option<int> {
    if b.None? then a else if a.None? then b else Some(Min(a.value, b.value))
  }

  function GreatestOf(a: Option<int>, b: Option<int>): Option<int> {
    if b.None? then a else if a.None? then b else Some(Max(a.value, b.value))
  }

  /** The row an INSERT of one event writes. */
  function InsertedRow(e: Event): Counterparty {
    var inAt := if e.relation == Receiver then Some(e.at as int) else None;
    var outAt := if e.relation == Sender then Some(e.at as int) else None;
    Counterparty(e.counterparty, e.at, e.at, 1,
                 inAt, inAt, if e.relation == Receiver then 1 else 0,
                 outAt, outAt, if e.relation == Sender then 1 else 0)
  }

  /** The ON CONFLICT update: LEAST, GREATEST and sums, column by column. */
  function MergedRow(cp: Counterparty, x: Counterparty): Counterparty {
    Counterparty(cp.address, Min(cp.firstSeen, x.firstSeen), Max(cp.lastSeen, x.lastSeen),
                 cp.interactions + x.interactions,
                 LeastOf(cp.firstInbound, x.firstInbound), GreatestOf(cp.lastInbound, x.lastInbound), cp.inbound + x.inbound,
                 LeastOf(cp.firstOutbound, x.firstOutbound), GreatestOf(cp.lastOutbound, x.lastOutbound), cp.outbound + x.outbound)
  }

  /** The SQL upsert of one event into a table keyed by `K`. */
  function Upsert<K>(rows: map<K, Counterparty>, k: K, e: Event): map<K, Counterparty> {
    rows[k := if k in rows then MergedRow(rows[k], InsertedRow(e)) else InsertedRow(e)]
  }

  /** Widens the first and last times of one direction. */
  method Widen(first: Option<int>, last: Option<int>, at: int) returns (f: Option<int>, l: Option<int>)
    ensures f == LeastOf(first, Some(at)) && l == GreatestOf(last, Some(at))
  {
    f, l := first, last;
    if f.None? || at < f.value { f := Some(at); }
    if l.None? || at > l.value { l := Some(at); }
  }

  /** The in-memory step, field by field. On a fresh record it is the INSERT, on a live one the ON CONFLICT update. */
  method ApplyEvent(cp: Counterparty, e: Event) returns (r: Counterparty)
    ensures cp == ZERO_COUNTERPARTY.(address := e.counterparty) ==> r == InsertedRow(e)
    ensures cp.interactions > 0 ==> r == MergedRow(cp, InsertedRow(e))
  {
    r := cp;
    if r.interactions == 0 || e.at < r.firstSeen { r := r.(firstSeen := e.at); }
    if e.at > r.lastSeen { r := r.(lastSeen := e.at); }
    r := r.(interactions := r.interactions + 1);
    if e.relation == Receiver {
      var first, last := Widen(r.firstInbound, r.lastInbound, e.at);
      r := r.(inbound := r.inbound + 1, firstInbound := first, lastInbound := last);
    }
    if e.relation == Sender {
      var first, last := Widen(r.firstOutbound, r.lastOutbound, e.at);
      r := r.(outbound := r.outbound + 1, firstOutbound := first, lastOutbound := last);
    }
  }

  // ---- What the fold computes ----

  /** Events of counterparty `a`. */
  function About(a: Address): Event -> bool { (e: Event) => e.counterparty == a }

  /** Events of counterparty `a` in one direction. */
  function AboutIn(a: Address, rel: Relation): Event -> bool {
    (e: Event) => e.counterparty == a && e.relation == rel
  }

  ghost predicate IsFirst(t: int, events: seq<Event>, p: Event -> bool) {
    && (exists e :: e in events && p(e) && e.at == t)
    && (forall e :: e in events && p(e) ==> t <= e.at)
  }

  ghost predicate IsLast(t: int, events: seq<Event>, p: Event -> bool) {
    && (exists e :: e in events && p(e) && e.at == t)
    && (forall e :: e in events && p(e) ==> e.at <= t)
  }

  ghost predicate IsFirstOf(t: Option<int>, events: seq<Event>, p: Event -> bool) {
    if t.None? then forall e :: e in events ==> !p(e) else IsFirst(t.value, events, p)
  }

  ghost predicate IsLastOf(t: Option<int>, events: seq<Event>, p: Event -> bool) {
    if t.None? then forall e :: e in events ==> !p(e) else IsLast(t.value, events, p)
  }

  /** Row `r` aggregates exactly the events of counterparty `a`. */
  ghost predicate IsAggregate(r: Counterparty, events: seq<Event>, a: Address) {
    && r.address == a
    && r.interactions == Count(events, About(a))
    && IsFirst(r.firstSeen, events, About(a)) && IsLast(r.lastSeen, events, About(a))
    && r.inbound == Count(events, AboutIn(a, Receiver)) && r.outbound == Count(events, AboutIn(a, Sender))
    && IsFirstOf(r.firstInbound, events, AboutIn(a, Receiver)) && IsLastOf(r.lastInbound, events, AboutIn(a, Receiver))
    && IsFirstOf(r.firstOutbound, events, AboutIn(a, Sender)) && IsLastOf(r.lastOutbound, events, AboutIn(a, Sender))
  }

  /** The table after upserting a run of events into an empty one. */
  function Fold(events: seq<Event>): map<Address, Counterparty> {
    if events == [] then map[]
    else var e := events[|events| - 1]; Upsert(Fold(events[..|events| - 1]), e.counterparty, e)
  }

  lemma FoldSnoc(events: seq<Event>, e: Event)
    ensures Fold(events + [e]) == Upsert(Fold(events), e.counterparty, e)
  {
    assert (events + [e])[..|events|] == events;
  }

  lemma FirstStep(t: Option<int>, events: seq<Event>, e: Event, p: Event -> bool)
    requires IsFirstOf(t, events, p)
    ensures IsFirstOf(LeastOf(t, if p(e) then Some(e.at as int) else None), events + [e], p)
  {
    var all := events + [e];
    assert e in all && forall x :: x in events ==> x in all;
    assert forall x :: x in all <==> x in events || x == e;
  }

  lemma LastStep(t: Option<int>, events: seq<Event>, e: Event, p: Event -> bool)
    requires IsLastOf(t, events, p)
    ensures IsLastOf(GreatestOf(t, if p(e) then Some(e.at as int) else None), events + [e], p)
  {
    var all := events + [e];
    assert e in all && forall x :: x in events ==> x in all;
    assert forall x :: x in all <==> x in events || x == e;
  }

  /** A merge extends an aggregate by one event about it. */
  lemma MergeAggregates(r: Counterparty, events: seq<Event>, e: Event)
    requires IsAggregate(r, events, e.counterparty)
    ensures IsAggregate(MergedRow(r, InsertedRow(e)), events + [e], e.counterparty)
  {
    hide IsFirst, IsLast;
    var a := e.counterparty;
    CountSnoc(events, e, About(a));
    CountSnoc(events, e, AboutIn(a, Receiver));
    CountSnoc(events, e, AboutIn(a, Sender));
    FirstStep(Some(r.firstSeen), events, e, About(a));
    LastStep(Some(r.lastSeen), events, e, About(a));
    FirstStep(r.firstInbound, events, e, AboutIn(a, Receiver));
    LastStep(r.lastInbound, events, e, AboutIn(a, Receiver));
    FirstStep(r.firstOutbound, events, e, AboutIn(a, Sender));
    LastStep(r.lastOutbound, events, e, AboutIn(a, Sender));
  }

  /** An insert aggregates the first event about a counterparty. */
  lemma InsertAggregates(events: seq<Event>, e: Event)
    requires forall x :: x in events ==> x.counterparty != e.counterparty
    ensures IsAggregate(InsertedRow(e), events + [e], e.counterparty)
  {
    hide IsFirst, IsLast;
    var a := e.counterparty;
    CountSnoc(events, e, About(a));
    CountSnoc(events, e, AboutIn(a, Receiver));
    CountSnoc(events, e, AboutIn(a, Sender));
    CountPositive(events, About(a));
    CountPositive(events, AboutIn(a, Receiver));
    CountPositive(events, AboutIn(a, Sender));
    FirstStep(None, events, e, About(a));
    LastStep(None, events, e, About(a));
    FirstStep(None, events, e, AboutIn(a, Receiver));
    LastStep(None, events, e, AboutIn(a, Receiver));
    FirstStep(None, events, e, AboutIn(a, Sender));
    LastStep(None, events, e, AboutIn(a, Sender));
  }

  /** An event about someone else leaves an aggregate alone. */
  lemma OthersKeepAggregate(r: Counterparty, events: seq<Event>, e: Event, a: Address)
    requires IsAggregate(r, events, a) && e.counterparty != a
    ensures IsAggregate(r, events + [e], a)
  {
    hide IsFirst, IsLast;
    CountSnoc(events, e, About(a));
    CountSnoc(events, e, AboutIn(a, Receiver));
    CountSnoc(events, e, AboutIn(a, Sender));
    FirstStep(Some(r.firstSeen), events, e, About(a));
    LastStep(Some(r.lastSeen), events, e, About(a));
    FirstStep(r.firstInbound, events, e, AboutIn(a, Receiver));
    LastStep(r.lastInbound, events, e, AboutIn(a, Receiver));
    FirstStep(r.firstOutbound, events, e, AboutIn(a, Sender));
    LastStep(r.lastOutbound, events, e, AboutIn(a, Sender));
  }

  /** One upsert extends every aggregate by its event. */
  lemma AggregateStep(rows: map<Address, Counterparty>, events: seq<Event>, e: Event, a: Address)
    requires a in rows <==> exists x :: x in events && x.counterparty == a
    requires a in rows ==> IsAggregate(rows[a], events, a)
    ensures var after := Upsert(rows, e.counterparty, e);
            && (a in after <==> exists x :: x in events + [e] && x.counterparty == a)
            && (a in after ==> IsAggregate(after[a], events + [e], a))
  {
    hide IsAggregate, MergedRow, InsertedRow;
    var all := events + [e];
    assert e in all && forall x :: x in all <==> x in events || x == e;
    if a == e.counterparty {
      if a in rows { MergeAggregates(rows[a], events, e); } else { InsertAggregates(events, e); }
    } else if a in rows {
      OthersKeepAggregate(rows[a], events, e, a);
    }
  }

  /** The fold keeps, per counterparty, the cardinalities, minima and maxima of its events. */
  lemma {:induction false} FoldAggregates(events: seq<Event>, a: Address)
    ensures a in Fold(events) <==> exists e :: e in events && e.counterparty == a
    ensures a in Fold(events) ==> IsAggregate(Fold(events)[a], events, a)
  {
    if events != [] {
      var init, e := events[..|events| - 1], events[|events| - 1];
      assert events == init + [e];
      FoldAggregates(init, a);
      AggregateStep(Fold(init), init, e, a);
    }
  }

  lemma ExtremaUnique(f: Option<int>, g: Option<int>, l: Option<int>, m: Option<int>,
                      xs: seq<Event>, ys: seq<Event>, p: Event -> bool)
    requires forall e :: e in xs <==> e in ys
    requires IsFirstOf(f, xs, p) && IsFirstOf(g, ys, p) && IsLastOf(l, xs, p) && IsLastOf(m, ys, p)
    ensures f == g && l == m
  {
    if f.Some? && g.Some? && l.Some? && m.Some? {
      var a :| a in xs && p(a) && a.at == f.value;
      var b :| b in ys && p(b) && b.at == g.value;
      var c :| c in xs && p(c) && c.at == l.value;
      var d :| d in ys && p(d) && d.at == m.value;
    }
  }

  lemma AggregateUnique(r: Counterparty, s: Counterparty, xs: seq<Event>, ys: seq<Event>, a: Address)
    requires multiset(xs) == multiset(ys)
    requires IsAggregate(r, xs, a) && IsAggregate(s, ys, a)
    ensures r == s
  {
    SameEvents(xs, ys);
    CountPermutation(xs, ys, About(a));
    CountPermutation(xs, ys, AboutIn(a, Receiver));
    CountPermutation(xs, ys, AboutIn(a, Sender));
    ExtremaUnique(Some(r.firstSeen), Some(s.firstSeen), Some(r.lastSeen), Some(s.lastSeen), xs, ys, About(a));
    ExtremaUnique(r.firstInbound, s.firstInbound, r.lastInbound, s.lastInbound, xs, ys, AboutIn(a, Receiver));
    ExtremaUnique(r.firstOutbound, s.firstOutbound, r.lastOutbound, s.lastOutbound, xs, ys, AboutIn(a, Sender));
  }

  lemma SameEvents(xs: seq<Event>, ys: seq<Event>)
    requires multiset(xs) == multiset(ys)
    ensures forall e :: e in xs <==> e in ys
  {
    forall e ensures e in xs <==> e in ys {
      assert e in xs <==> e in multiset(xs);
      assert e in ys <==> e in multiset(ys);
    }
  }

  /** The order in which events arrive does not matter. */
  lemma FoldIgnoresOrder(xs: seq<Event>, ys: seq<Event>)
    requires multiset(xs) == multiset(ys)
    ensures Fold(xs) == Fold(ys)
  {
    SameEvents(xs, ys);
    forall a ensures a in Fold(xs) <==> a in Fold(ys) {
      FoldAggregates(xs, a);
      FoldAggregates(ys, a);
    }
    forall a | a in Fold(xs) ensures Fold(xs)[a] == Fold(ys)[a] {
      FoldAggregates(xs, a);
      FoldAggregates(ys, a);
      AggregateUnique(Fold(xs)[a], Fold(ys)[a], xs, ys, a);
    }
  }
}
