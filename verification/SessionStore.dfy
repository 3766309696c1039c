/** The in-memory session store: live record objects by id, in insertion order, with an idempotency index. */
module SessionStore {
  import opened Common
  import opened TerminalStateMachine
  import opened TerminalSessions
  import opened SessionListing
  import P = MockProcessor

  class SessionRecord {
    const id: Uuid
    const merchantId: Uuid
    var state: State
    const amountMinor: int
    const currency: string
    var protocol: Option<Protocol>
    var outcome: Option<P.SandboxOutcome>
    const idempotencyKey: Option<string>
    var paymentMethodToken: Option<string>
    var authorizationCode: Option<string>
    var processorReference: Option<string>
    var processorStatus: Option<P.Verdict>
    var processorMessage: Option<string>
    var signatureRequired: bool
    var events: seq<Event>
    const createdAt: int
    var updatedAt: int

    constructor (id: Uuid, merchantId: Uuid, amountMinor: int, currency: string, protocol: Option<Protocol>,
                 outcome: P.SandboxOutcome, idempotencyKey: Option<string>, now: int)
      ensures Snapshot() == Session(id, merchantId, Created, amountMinor, currency, protocol, Some(outcome),
                                    idempotencyKey, None, None, None, None, None, false, [], now, now)
    {
      this.id, this.merchantId, this.amountMinor, this.currency := id, merchantId, amountMinor, currency;
      this.protocol, this.outcome, this.idempotencyKey := protocol, Some(outcome), idempotencyKey;
      this.state, this.signatureRequired, this.events := Created, false, [];
      this.paymentMethodToken, this.authorizationCode, this.processorReference := None, None, None;
      this.processorStatus, this.processorMessage := None, None;
      this.createdAt, this.updatedAt := now, now;
    }

    /** The record's present value. */
    function Snapshot(): Session
      reads this
    {
      Session(id, merchantId, state, amountMinor, currency, protocol, outcome, idempotencyKey, paymentMethodToken,
              authorizationCode, processorReference, processorStatus, processorMessage, signatureRequired, events,
              createdAt, updatedAt)
    }

    /** Moves along one edge of the table and logs it; callers prove that the edge exists. */
    method Advance(to: State, note: string)
      requires CanTransition(state, to)
      modifies this
      ensures Snapshot() == Advanced(old(Snapshot()), to, note)
    {
      var prev := state;
      state := to;
      events := events + [Event(Some(prev), to, note)];
    }

    method Answer(token: string, result: P.ProcessorResult)
      modifies this
      ensures Snapshot() == Answered(old(Snapshot()), token, result)
    {
      paymentMethodToken := Some(token);
      processorReference := Some(result.reference);
      processorStatus := Some(result.status);
      processorMessage := Some(result.message);
      authorizationCode := result.authorizationCode;
      signatureRequired := result.signatureRequired;
    }
  }

  class SessionStore {
    var byId: map<Uuid, SessionRecord>
    var order: seq<Uuid>
    var byIdempotency: map<string, Uuid>

    constructor ()
      ensures Valid() && byId == map[] && order == [] && byIdempotency == map[]
    {
      byId, order, byIdempotency := map[], [], map[];
    }

    /** Every record is filed under its own id, so no record object is filed twice. */
    ghost predicate Valid()
      reads this
    {
      && (forall id :: id in byId ==> byId[id].id == id)
      && (forall i :: 0 <= i < |order| ==> order[i] in byId)
      && (forall i, j :: 0 <= i < j < |order| ==> order[i] != order[j])
      && (forall id :: id in byId ==> id in order)
    }

    /** The session table the records amount to. */
    ghost function Table(): map<Uuid, Session>
      reads this, byId.Values
    {
      map id | id in byId :: byId[id].Snapshot()
    }

    /** Changing one filed record changes one row of the table. */
    twostate lemma TableAfter(record: SessionRecord)
      requires old(Valid()) && byId == old(byId) && record.id in byId && byId[record.id] == record
      requires forall id :: id in byId && id != record.id ==> byId[id].Snapshot() == old(byId[id].Snapshot())
      ensures Table() == old(Table())[record.id := record.Snapshot()]
    {
    }

    /** Filing a new record adds one row to the table. */
    twostate lemma TableWith(new record: SessionRecord)
      requires old(Valid()) && record.id !in old(byId) && byId == old(byId)[record.id := record]
      requires forall id :: id in old(byId) ==> byId[id].Snapshot() == old(byId[id].Snapshot())
      ensures Table() == old(Table())[record.id := record.Snapshot()]
    {
    }

    /** The same sessions in the order they were filed. */
    ghost function Rows(): seq<Session>
      requires Valid()
      reads this, byId.Values
    {
      seq(|order|, i requires 0 <= i < |order| && Valid() reads this, byId.Values => byId[order[i]].Snapshot())
    }

    /** Files a new record, or hands back the one already filed under its merchant and key. */
    method Create(record: SessionRecord) returns (filed: SessionRecord)
      requires Valid() && record.id !in byId
      modifies this
      ensures Valid() && (byId == old(byId) || byId == old(byId)[record.id := record])
      ensures filed.id in byId && byId[filed.id] == filed
      ensures Filing(Table(), byIdempotency, filed.Snapshot())
           == File(old(Table()), old(byIdempotency), record.Snapshot())
    {
      if Truthy(record.idempotencyKey) {
        var k := IndexKey(record.merchantId, record.idempotencyKey.value);
        if k in byIdempotency && byIdempotency[k] in byId {
          return byId[byIdempotency[k]];
        }
        byIdempotency := byIdempotency[k := record.id];
      }
      byId := byId[record.id := record];
      order := order + [record.id];
      TableWith(record);
      return record;
    }

    method Get(id: Uuid) returns (record: SessionRecord?)
      ensures record == if id in byId then byId[id] else null
    {
      record := if id in byId then byId[id] else null;
    }

    /** Stamps a record that the store already holds. */
    method Save(record: SessionRecord, now: int)
      requires record.id in byId && byId[record.id] == record
      modifies this, record
      ensures record.Snapshot() == old(record.Snapshot()).(updatedAt := now)
      ensures byId == old(byId) && order == old(order) && byIdempotency == old(byIdempotency)
    {
      record.updatedAt := now;
      byId := byId[record.id := record];
    }

    /** All sessions, newest first, cut to the limit. */
    method ListAll(limit: nat) returns (listed: seq<Session>)
      requires Valid()
      ensures listed == Cut(NewestFirst(Rows()), limit)
    {
      var items: seq<Session> := [];
      for i := 0 to |order|
        invariant items == Rows()[..i]
      {
        items := items + [byId[order[i]].Snapshot()];
      }
      assert items == Rows();
      listed := Cut(NewestFirst(items), limit);
    }

    /** A merchant's sessions after each requested filter, newest first, cut to the limit. */
    method ListForMerchant(merchant: Uuid, limit: nat, status: Option<string>, protocol: Option<string>,
                           currency: Option<string>)
      returns (listed: seq<Session>)
      requires Valid()
      ensures listed == Cut(NewestFirst(Passes(Rows(), merchant, status, protocol, currency)), limit)
    {
      var items: seq<Session> := [];
      ghost var rows := Rows();
      var i := 0;
      while i < |order|
        invariant 0 <= i <= |order| == |rows| && rows == Rows()
        invariant items == Filter(rows[..i], OwnedBy(merchant))
      {
        assert rows[..i + 1][..i] == rows[..i];
        var r := byId[order[i]];
        if r.merchantId == merchant {
          items := items + [r.Snapshot()];
        }
        i := i + 1;
      }
      assert rows[..|order|] == rows;
      if Truthy(status) {
        items := Filter(items, HasStatus(status));
      } else {
        FilterKeepsAll(items, HasStatus(status));
      }
      if Truthy(protocol) {
        items := Filter(items, MentionsProtocol(protocol));
      } else {
        FilterKeepsAll(items, MentionsProtocol(protocol));
      }
      if Truthy(currency) {
        items := Filter(items, HasCurrency(currency));
      } else {
        FilterKeepsAll(items, HasCurrency(currency));
      }
      listed := Cut(NewestFirst(items), limit);
    }
  }

  lemma {:induction false} FilterKeepsAll(xs: seq<Session>, keep: Session -> bool)
    requires forall s :: keep(s)
    ensures Filter(xs, keep) == xs
  {
    if xs != [] {
      var n := |xs| - 1;
      FilterKeepsAll(xs[..n], keep);
    }
  }
}
