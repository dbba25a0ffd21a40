/**
 Delivery reports: the status of an invoice only rises in the shared order, and a hard bounce turns an address off.
 */
module Deliveries {
  import opened Wrappers

  /** The shared order is any list of statuses without repeats; a status outside it has no rank. */
  predicate IsOrder(order: seq<string>) {
    forall i, j :: 0 <= i < j < |order| ==> order[i] != order[j]
  }

  /** array_position, or NULL. */
  function Rank(order: seq<string>, status: string): (r: Option<nat>)
    ensures r.Some? <==> status in order
    ensures r.Some? ==> r.value < |order| && order[r.value] == status
  {
    if order == [] then None
    else if order[0] == status then Some(0)
    else
      match Rank(order[1..], status)
      case None => None
      case Some(r) => Some(r + 1)
  }

  /** The comparison of two positions; with a NULL on either side it is not true. */
  predicate Below(order: seq<string>, a: string, b: string) {
    Rank(order, a).Some? && Rank(order, b).Some? && Rank(order, a).value < Rank(order, b).value
  }

  datatype Invoice = Invoice(tenant: nat, customer: nat, delivery: string)

  datatype Customer = Customer(tenant: nat, emailValid: bool)

  datatype Report = Report(eventId: string, tenant: nat, invoice: nat, status: string, hard: bool)

  datatype Tables = Tables(processed: set<string>, invoices: map<nat, Invoice>, customers: map<nat, Customer>)

  predicate Concerns(db: Tables, r: Report, i: nat) {
    r.invoice == i && i in db.invoices && db.invoices[i].tenant == r.tenant
  }

  /** A hard bounce for one of the customer's invoices. */
  predicate Bounces(db: Tables, r: Report, c: nat) {
    && r.status == "bounced" && r.hard && Concerns(db, r, r.invoice) && db.invoices[r.invoice].customer == c
    && c in db.customers && db.customers[c].tenant == r.tenant
  }

  /** advanceDeliveryStatus. */
  function Advanced(order: seq<string>, db: Tables, r: Report): map<nat, Invoice> {
    if Concerns(db, r, r.invoice) && Below(order, db.invoices[r.invoice].delivery, r.status)
    then db.invoices[r.invoice := db.invoices[r.invoice].(delivery := r.status)]
    else db.invoices
  }

  /** The tables after one report. */
  function Applied(order: seq<string>, db: Tables, r: Report): Tables {
    if r.eventId in db.processed then db
    else
      Tables(db.processed + {r.eventId}, Advanced(order, db, r),
             map c | c in db.customers ::
               if Bounces(db, r, c) then db.customers[c].(emailValid := false) else db.customers[c])
  }

  function AppliedAll(order: seq<string>, db: Tables, rs: seq<Report>): Tables {
    if rs == [] then db else Applied(order, AppliedAll(order, db, rs[..|rs| - 1]), rs[|rs| - 1])
  }

  // ---- The service -----------------------------------------------------------------------------------

  class Service {
    const order: seq<string>
    var processed: set<string>
    var invoices: map<nat, Invoice>
    var customers: map<nat, Customer>

    constructor (order: seq<string>, db: Tables)
      ensures this.order == order && Db() == db
    {
      this.order := order;
      processed, invoices, customers := db.processed, db.invoices, db.customers;
    }

    function Db(): Tables
      reads this
    {
      Tables(processed, invoices, customers)
    }

    method MarkProcessed(eventId: string) returns (isNew: bool)
      modifies this`processed
      ensures processed == old(processed) + {eventId} && isNew == (eventId !in old(processed))
    {
      isNew := eventId !in processed;
      processed := processed + {eventId};
    }

    method AdvanceDeliveryStatus(r: Report) returns (count: nat)
      modifies this`invoices
      ensures invoices == Advanced(order, old(Db()), r)
      ensures count == if invoices == old(invoices) then 0 else 1
    {
      count := 0;
      if r.invoice in invoices && invoices[r.invoice].tenant == r.tenant {
        var current, next := Rank(order, invoices[r.invoice].delivery), Rank(order, r.status);
        if current.Some? && next.Some? && current.value < next.value {
          invoices := invoices[r.invoice := invoices[r.invoice].(delivery := r.status)];
          count := 1;
        }
      }
    }

    method InvalidateCustomerEmail(tenant: nat, c: nat) returns (count: nat)
      modifies this`customers
      ensures customers == if c in old(customers) && old(customers)[c].tenant == tenant
                           then old(customers)[c := old(customers)[c].(emailValid := false)] else old(customers)
      ensures count == if customers == old(customers) then 0 else 1
    {
      count := 0;
      if c in customers && customers[c].tenant == tenant && customers[c].emailValid {
        customers := customers[c := customers[c].(emailValid := false)];
        count := 1;
      }
    }

    /** One transaction per report; what it returns is what it changed. */
    method Apply(r: Report) returns (applied: bool, statusAdvanced: bool, emailInvalidated: bool)
      modifies this
      ensures Db() == Applied(order, old(Db()), r)
      ensures applied == (r.eventId !in old(processed))
      ensures statusAdvanced == (invoices != old(invoices)) && emailInvalidated == (customers != old(customers))
    {
      statusAdvanced, emailInvalidated := false, false;
      applied := MarkProcessed(r.eventId);
      if !applied {
        assert processed == old(processed);
        return;
      }
      var advanced := AdvanceDeliveryStatus(r);
      statusAdvanced := advanced > 0;
      if r.status == "bounced" && r.hard && r.invoice in invoices && invoices[r.invoice].tenant == r.tenant {
        var invalidated := InvalidateCustomerEmail(r.tenant, invoices[r.invoice].customer);
        emailInvalidated := invalidated > 0;
      }
      assert customers == Applied(order, old(Db()), r).customers;
    }
  }

  // ---- Where any sequence of reports ends ------------------------------------------------------------

  /** An event id is one report. */
  ghost predicate EventsAgree(rs: seq<Report>) {
    forall j, k :: 0 <= j < |rs| && 0 <= k < |rs| && rs[j].eventId == rs[k].eventId ==> rs[j] == rs[k]
  }

  ghost predicate Fresh(db: Tables, rs: seq<Report>) {
    forall k :: 0 <= k < |rs| ==> rs[k].eventId !in db.processed
  }

  ghost predicate Reported(rs: seq<Report>, db: Tables, i: nat, status: string) {
    exists k :: 0 <= k < |rs| && Concerns(db, rs[k], i) && rs[k].status == status
  }

  /** `last` is the highest-ranked of the first status and the reported ones. */
  ghost predicate IsHighest(order: seq<string>, db: Tables, rs: seq<Report>, i: nat, last: string)
    requires i in db.invoices
  {
    && (last == db.invoices[i].delivery || Reported(rs, db, i, last))
    && !Below(order, last, db.invoices[i].delivery)
    && (forall k :: 0 <= k < |rs| && Concerns(db, rs[k], i) ==> !Below(order, last, rs[k].status))
    && last in order
  }

  ghost predicate HardBounced(rs: seq<Report>, db: Tables, c: nat) {
    exists k :: 0 <= k < |rs| && Bounces(db, rs[k], c)
  }

  ghost predicate IsProcessed(rs: seq<Report>, eventId: string) {
    exists k :: 0 <= k < |rs| && rs[k].eventId == eventId
  }

  /** Everything but delivery statuses and address flags stays. */
  ghost predicate SameFrame(db: Tables, now: Tables) {
    && now.invoices.Keys == db.invoices.Keys && now.customers.Keys == db.customers.Keys
    && (forall i :: i in db.invoices ==> now.invoices[i] == db.invoices[i].(delivery := now.invoices[i].delivery))
    && (forall c :: c in db.customers ==>
          now.customers[c] == db.customers[c].(emailValid := now.customers[c].emailValid))
  }

  ghost predicate Outcome(order: seq<string>, db: Tables, rs: seq<Report>, now: Tables) {
    && SameFrame(db, now)
    && (forall e :: e in now.processed <==> e in db.processed || IsProcessed(rs, e))
    && (forall i :: i in db.invoices && db.invoices[i].delivery in order ==>
          IsHighest(order, db, rs, i, now.invoices[i].delivery))
    && (forall c :: c in db.customers ==>
          (now.customers[c].emailValid <==> db.customers[c].emailValid && !HardBounced(rs, db, c)))
  }

  lemma SnocAt(rs: seq<Report>, r: Report)
    ensures forall k :: 0 <= k < |rs| ==> (rs + [r])[k] == rs[k]
    ensures (rs + [r])[|rs|] == r
  {
  }

  lemma SnocFacts(order: seq<string>, db: Tables, rs: seq<Report>, r: Report)
    ensures forall e :: IsProcessed(rs + [r], e) <==> IsProcessed(rs, e) || r.eventId == e
    ensures forall c :: HardBounced(rs + [r], db, c) <==> HardBounced(rs, db, c) || Bounces(db, r, c)
    ensures forall i, s ::
              Reported(rs + [r], db, i, s) <==> Reported(rs, db, i, s) || (Concerns(db, r, i) && r.status == s)
  {
    SnocAt(rs, r);
    hide Concerns, Bounces;
    forall e | IsProcessed(rs, e) ensures IsProcessed(rs + [r], e) {
      var k :| 0 <= k < |rs| && rs[k].eventId == e;
      assert (rs + [r])[k].eventId == e;
    }
    forall c | HardBounced(rs, db, c) ensures HardBounced(rs + [r], db, c) {
      var k :| 0 <= k < |rs| && Bounces(db, rs[k], c);
      assert Bounces(db, (rs + [r])[k], c);
    }
    forall i, s | Reported(rs, db, i, s) ensures Reported(rs + [r], db, i, s) {
      var k :| 0 <= k < |rs| && Concerns(db, rs[k], i) && rs[k].status == s;
      assert Concerns(db, (rs + [r])[k], i);
    }
  }

  /** A report already seen says nothing new. */
  lemma DuplicateAdds(order: seq<string>, db: Tables, rs: seq<Report>, r: Report, now: Tables)
    requires Outcome(order, db, rs, now) && EventsAgree(rs + [r]) && IsProcessed(rs, r.eventId)
    ensures Outcome(order, db, rs + [r], now)
  {
    SnocAt(rs, r);
    SnocFacts(order, db, rs, r);
    var k :| 0 <= k < |rs| && rs[k].eventId == r.eventId;
    assert (rs + [r])[k] == (rs + [r])[|rs|];
    assert rs[k] == r;
    hide Below, Bounces;
  }

  lemma HighestStep(order: seq<string>, db: Tables, rs: seq<Report>, r: Report, i: nat, last: string)
    requires i in db.invoices && IsHighest(order, db, rs, i, last)
    ensures IsHighest(order, db, rs + [r], i,
                      if Concerns(db, r, i) && Below(order, last, r.status) then r.status else last)
  {
    SnocAt(rs, r);
    SnocFacts(order, db, rs, r);
    hide Concerns, HardBounced, IsProcessed;
  }

  lemma FreshAdds(order: seq<string>, db: Tables, rs: seq<Report>, r: Report, now: Tables)
    requires Outcome(order, db, rs, now) && r.eventId !in now.processed
    ensures Outcome(order, db, rs + [r], Applied(order, now, r))
  {
    SnocFacts(order, db, rs, r);
    var after := Applied(order, now, r);
    forall i | i in db.invoices && db.invoices[i].delivery in order
      ensures IsHighest(order, db, rs + [r], i, after.invoices[i].delivery)
    {
      HighestStep(order, db, rs, r, i, now.invoices[i].delivery);
    }
    hide Below, IsHighest, HardBounced, IsProcessed, Reported;
  }

  /**
   Any sequence of reports, in any order and with any repeats, ends in the highest status and the bounced addresses.
   */
  lemma {:induction false} ReportsConverge(order: seq<string>, db: Tables, rs: seq<Report>)
    requires EventsAgree(rs) && Fresh(db, rs)
    ensures Outcome(order, db, rs, AppliedAll(order, db, rs))
  {
    hide Outcome, Applied;
    if rs == [] {
      NoReports(order, db);
    } else {
      var init, r := rs[..|rs| - 1], rs[|rs| - 1];
      assert rs == init + [r];
      ReportsConverge(order, db, init);
      var now := AppliedAll(order, db, init);
      ProcessedOf(order, db, init, now, r.eventId);
      if r.eventId in now.processed {
        DuplicateAdds(order, db, init, r, now);
        SkipsProcessed(order, now, r);
      } else {
        FreshAdds(order, db, init, r, now);
      }
    }
  }

  lemma NoReports(order: seq<string>, db: Tables)
    ensures Outcome(order, db, [], db)
  {
  }

  lemma SkipsProcessed(order: seq<string>, db: Tables, r: Report)
    requires r.eventId in db.processed
    ensures Applied(order, db, r) == db
  {
  }

  lemma ProcessedOf(order: seq<string>, db: Tables, rs: seq<Report>, now: Tables, e: string)
    requires Outcome(order, db, rs, now)
    ensures e in now.processed <==> e in db.processed || IsProcessed(rs, e)
  {
  }

  /** Every change of a status on the way is a strict rise. */
  lemma EveryChangeRises(order: seq<string>, db: Tables, r: Report, i: nat)
    requires i in db.invoices && i in Applied(order, db, r).invoices
    requires Applied(order, db, r).invoices[i].delivery != db.invoices[i].delivery
    ensures Below(order, db.invoices[i].delivery, Applied(order, db, r).invoices[i].delivery)
  {
  }

  /** The same reports, in whatever order and number. */
  ghost predicate SameReports(a: seq<Report>, b: seq<Report>) {
    && (forall k :: 0 <= k < |a| ==> a[k] in b)
    && (forall k :: 0 <= k < |b| ==> b[k] in a)
  }

  lemma HighestIsOne(order: seq<string>, a: string, b: string)
    requires IsOrder(order) && a in order && b in order && !Below(order, a, b) && !Below(order, b, a)
    ensures a == b
  {
  }

  lemma SameHighest(order: seq<string>, db: Tables, a: seq<Report>, b: seq<Report>, i: nat, x: string, y: string)
    requires IsOrder(order) && SameReports(a, b) && i in db.invoices
    requires IsHighest(order, db, a, i, x) && IsHighest(order, db, b, i, y)
    ensures x == y
  {
    NotBelow(order, db, a, b, i, x, y);
    NotBelow(order, db, b, a, i, y, x);
    HighestIsOne(order, x, y);
  }

  lemma NotBelow(order: seq<string>, db: Tables, a: seq<Report>, b: seq<Report>, i: nat, x: string, y: string)
    requires SameReports(a, b) && i in db.invoices && IsHighest(order, db, a, i, x) && IsHighest(order, db, b, i, y)
    ensures !Below(order, x, y)
  {
    hide Below, Concerns;
    if Reported(b, db, i, y) {
      var k :| 0 <= k < |b| && Concerns(db, b[k], i) && b[k].status == y;
      var j :| 0 <= j < |a| && a[j] == b[k];
    }
  }

  lemma SameEvents(db: Tables, a: seq<Report>, b: seq<Report>)
    requires SameReports(a, b)
    ensures forall e :: IsProcessed(a, e) ==> IsProcessed(b, e)
    ensures forall c :: HardBounced(a, db, c) ==> HardBounced(b, db, c)
  {
    hide Bounces;
    forall e | IsProcessed(a, e) ensures IsProcessed(b, e) {
      var k :| 0 <= k < |a| && a[k].eventId == e;
      var j :| 0 <= j < |b| && b[j] == a[k];
    }
    forall c | HardBounced(a, db, c) ensures HardBounced(b, db, c) {
      var k :| 0 <= k < |a| && Bounces(db, a[k], c);
      var j :| 0 <= j < |b| && b[j] == a[k];
    }
  }

  lemma SameStatuses(order: seq<string>, db: Tables, a: seq<Report>, b: seq<Report>, x: Tables, y: Tables)
    requires IsOrder(order) && SameReports(a, b) && Outcome(order, db, a, x) && Outcome(order, db, b, y)
    requires forall i :: i in db.invoices ==> db.invoices[i].delivery in order
    ensures x.invoices == y.invoices
  {
    hide IsHighest, HardBounced, IsProcessed, IsOrder, SameReports;
    forall i | i in db.invoices ensures x.invoices[i].delivery == y.invoices[i].delivery {
      SameHighest(order, db, a, b, i, x.invoices[i].delivery, y.invoices[i].delivery);
    }
    assert x.invoices == y.invoices;
  }

  lemma SameAddresses(order: seq<string>, db: Tables, a: seq<Report>, b: seq<Report>, x: Tables, y: Tables)
    requires SameReports(a, b) && Outcome(order, db, a, x) && Outcome(order, db, b, y)
    ensures x.processed == y.processed && x.customers == y.customers
  {
    SameEvents(db, a, b);
    SameEvents(db, b, a);
    hide IsHighest, HardBounced, IsProcessed, SameReports;
    assert x.processed == y.processed;
    assert x.customers == y.customers;
  }

  /** The order and the number of deliveries of the reports make no difference at all. */
  lemma OrderDoesNotMatter(order: seq<string>, db: Tables, a: seq<Report>, b: seq<Report>)
    requires IsOrder(order) && SameReports(a, b)
    requires EventsAgree(a) && EventsAgree(b) && Fresh(db, a) && Fresh(db, b)
    requires forall i :: i in db.invoices ==> db.invoices[i].delivery in order
    ensures AppliedAll(order, db, a) == AppliedAll(order, db, b)
  {
    hide AppliedAll, Outcome;
    ReportsConverge(order, db, a);
    ReportsConverge(order, db, b);
    SameStatuses(order, db, a, b, AppliedAll(order, db, a), AppliedAll(order, db, b));
    SameAddresses(order, db, a, b, AppliedAll(order, db, a), AppliedAll(order, db, b));
  }

  // ---- The same by places in the order -------------------------------------------------------------------

  lemma {:induction false} RankAt(order: seq<string>, k: nat)
    requires IsOrder(order) && k < |order|
    ensures Rank(order, order[k]) == Some(k)
  {
    if k > 0 {
      forall i, j | 0 <= i < j < |order| - 1 ensures order[1..][i] != order[1..][j] {
      }
      RankAt(order[1..], k - 1);
    }
  }

  lemma BelowAt(order: seq<string>, j: nat, k: nat)
    requires IsOrder(order) && j < |order| && k < |order|
    ensures Below(order, order[j], order[k]) <==> j < k
  {
    RankAt(order, j);
    RankAt(order, k);
  }

  /** The report is about the tenant's invoice i. */
  predicate IsAbout(db: Tables, r: Report, i: nat) {
    r.invoice == i && i in db.invoices && db.invoices[i].tenant == r.tenant
  }

  /** A permanent bounce of a message to customer c of the tenant. */
  predicate TurnsOff(db: Tables, r: Report, c: nat) {
    && r.status == "bounced" && r.hard && r.invoice in db.invoices && db.invoices[r.invoice].tenant == r.tenant
    && db.invoices[r.invoice].customer == c && c in db.customers && db.customers[c].tenant == r.tenant
  }

  /**
   One new report: a status is written exactly if it stands later in the order than the current one, and an address
   is turned off exactly by a hard bounce.
   */
  lemma ReportRule(order: seq<string>, db: Tables, r: Report, i: nat, j: nat, k: nat)
    requires IsOrder(order) && r.eventId !in db.processed && IsAbout(db, r, i)
    requires j < |order| && k < |order| && order[j] == db.invoices[i].delivery && order[k] == r.status
    ensures var after := Applied(order, db, r);
      && i in after.invoices && after.invoices == db.invoices[i := after.invoices[i]]
      && after.invoices[i] == db.invoices[i].(delivery := if j < k then order[k] else order[j])
      && after.customers.Keys == db.customers.Keys
      && forall c :: c in db.customers ==>
           after.customers[c] == (if TurnsOff(db, r, c) then db.customers[c].(emailValid := false) else db.customers[c])
  {
    BelowAt(order, j, k);
  }

  /** A status outside the order, or a report about no invoice of the tenant, changes no status. */
  lemma UnrankedRule(order: seq<string>, db: Tables, r: Report)
    requires !IsAbout(db, r, r.invoice) || r.status !in order || db.invoices[r.invoice].delivery !in order
    ensures Applied(order, db, r).invoices == db.invoices
  {
  }

  /** If a report moves a status from one place of the order to another, it moves it to a later one. */
  lemma StatusRises(order: seq<string>, db: Tables, r: Report, i: nat, j: nat, k: nat)
    requires IsOrder(order) && j < |order| && k < |order| && j != k
    requires i in db.invoices && order[j] == db.invoices[i].delivery
    requires i in Applied(order, db, r).invoices && order[k] == Applied(order, db, r).invoices[i].delivery
    ensures j < k
  {
    EveryChangeRises(order, db, r, i);
    BelowAt(order, j, k);
    hide Below, Applied;
  }

  /** After any reports neither the first status nor a reported one stands later in the order than the last. */
  lemma LastIsLatest(order: seq<string>, db: Tables, rs: seq<Report>, i: nat, k: nat)
    requires IsOrder(order) && EventsAgree(rs) && Fresh(db, rs) && i in db.invoices && k < |order|
    requires db.invoices[i].delivery in order
    requires i in AppliedAll(order, db, rs).invoices && order[k] == AppliedAll(order, db, rs).invoices[i].delivery
    ensures forall j :: 0 <= j < |order| && order[j] == db.invoices[i].delivery ==> j <= k
    ensures forall j, m :: 0 <= j < |order| && 0 <= m < |rs| && IsAbout(db, rs[m], i) && order[j] == rs[m].status ==>
              j <= k
    ensures order[k] == db.invoices[i].delivery
            || exists m :: 0 <= m < |rs| && IsAbout(db, rs[m], i) && rs[m].status == order[k]
  {
    ReportsConverge(order, db, rs);
    hide AppliedAll, Below, HardBounced;
    assert IsHighest(order, db, rs, i, order[k]);
    forall j | 0 <= j < |order| ensures Below(order, order[k], order[j]) <==> k < j {
      BelowAt(order, k, j);
    }
    assert forall m :: 0 <= m < |rs| ==> Concerns(db, rs[m], i) == IsAbout(db, rs[m], i);
  }

  /** After any reports an address is good exactly if it was and no report turned it off. */
  lemma AddressesAfter(order: seq<string>, db: Tables, rs: seq<Report>, c: nat)
    requires EventsAgree(rs) && Fresh(db, rs) && c in db.customers
    ensures c in AppliedAll(order, db, rs).customers
    ensures AppliedAll(order, db, rs).customers[c].emailValid <==>
              db.customers[c].emailValid && forall m :: 0 <= m < |rs| ==> !TurnsOff(db, rs[m], c)
  {
    ReportsConverge(order, db, rs);
    hide AppliedAll, IsHighest;
    assert forall m :: 0 <= m < |rs| ==> Bounces(db, rs[m], c) == TurnsOff(db, rs[m], c);
  }
}
