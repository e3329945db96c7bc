/** Approval requests (approvals/models.py) and the table they live in (approvals/store.py). */
module ApprovalStore {
  import opened Wrappers
  import opened Json
  import opened Timestamps

  const TIMEOUT_APPROVER := "system:timeout"
  const CLIENT_APPROVER := "system:client-dismissed"

  /** The notes left where no human decided. */
  const AUTO_APPROVED: Option<string> := Some("auto-approved on timeout")
  const ABANDONED: Option<string> := Some("client retried with no decision on file")

  datatype Status = Pending | Approved | Denied | Expired
  {
    predicate IsResolved() { !Pending? }
    predicate IsGranted() { Approved? }
  }

  /** One row of the table: a call on hold, and what was decided of it. */
  datatype Row = Row(
    id: string,
    createdAt: Time,
    expiresAt: Time,
    status: Status,
    tool: string,
    upstream: string,
    arguments: Arguments,
    reason: Option<string>,
    clientName: Option<string>,
    decidedAt: Option<Time>,
    approver: Option<string>,
    note: Option<string>)
  {
    predicate IsExpiredAt(now: Time) { status.Pending? && now >= expiresAt }
  }

  type Table = map<string, Row>

  // ---- one transaction each -----------------------------------------------------

  function Find(rows: Table, id: string): Option<Row> { if id in rows then Some(rows[id]) else None }

  /** `resolve`: the row is written only while it is pending, whatever its deadline. */
  function Resolved(rows: Table, id: string, approved: bool, approver: string, note: Option<string>, at: Time): Table
  {
    if id in rows && rows[id].status.Pending?
    then rows[id := rows[id].(status := if approved then Approved else Denied,
                              decidedAt := Some(at), approver := Some(approver), note := note)]
    else rows
  }

  /** The WHERE clause of the sweep: a comparison of texts. */
  predicate Overdue(row: Row, moment: Time) {
    row.status.Pending? && TextLe(Iso(row.expiresAt), Iso(moment))
  }

  /** `expire_overdue`: the note is left alone. */
  function Swept(rows: Table, moment: Time): Table {
    map id | id in rows ::
      if Overdue(rows[id], moment)
      then rows[id].(status := Expired, decidedAt := Some(moment), approver := Some(TIMEOUT_APPROVER))
      else rows[id]
  }

  // ---- what every transaction keeps -----------------------------------------------

  /** The same request: a row may differ from an earlier reading of itself only in its decision. */
  predicate SameRequest(a: Row, b: Row) {
    b == a.(status := b.status, decidedAt := b.decidedAt, approver := b.approver, note := b.note)
  }

  /** No row is lost, no request changes, and a row that was resolved has not changed at all. */
  ghost predicate Evolves(before: Table, after: Table) {
    forall id | id in before ::
      && id in after && SameRequest(before[id], after[id])
      && (before[id].status.IsResolved() ==> after[id] == before[id])
  }

  lemma ResolveEvolves(rows: Table, id: string, approved: bool, approver: string, note: Option<string>, at: Time)
    ensures var after := Resolved(rows, id, approved, approver, note, at);
            && Evolves(rows, after) && after.Keys == rows.Keys
            && (id in rows ==> after[id].status.IsResolved())
            && (id in rows && rows[id].status.Pending? ==>
                  && (after[id].status.Approved? <==> approved) && (after[id].status.Denied? <==> !approved)
                  && after[id].approver == Some(approver) && after[id].note == note && after[id].decidedAt == Some(at))
            && forall other | other in rows && other != id :: after[other] == rows[other]
  {
  }

  /** The sweep expires exactly the rows for which `is_expired_at` holds, and touches nothing else. */
  lemma SweepExpiresExactly(rows: Table, moment: Time)
    ensures var after := Swept(rows, moment);
            && Evolves(rows, after) && after.Keys == rows.Keys
            && forall id | id in rows ::
                 if rows[id].IsExpiredAt(moment)
                 then && after[id].status == Expired && after[id].approver == Some(TIMEOUT_APPROVER)
                      && after[id].decidedAt == Some(moment) && after[id].note == rows[id].note
                 else after[id] == rows[id]
  {
    forall id | id in rows ensures Overdue(rows[id], moment) <==> rows[id].IsExpiredAt(moment) {
      TextOrderIsTimeOrder(rows[id].expiresAt, moment);
    }
  }

  /** Of two decisions on a row, in either order of clicking, the first to commit stands unchanged. */
  lemma FirstDecisionStands(rows: Table, id: string, first: bool, approver: string, note: Option<string>, at: Time,
                            second: bool, approver': string, note': Option<string>, at': Time)
    ensures var once := Resolved(rows, id, first, approver, note, at);
            Resolved(once, id, second, approver', note', at') == once
  {
  }

  /** A row none of the others was created before, as their texts have it. */
  method Earliest(candidates: set<Row>) returns (first: Row)
    requires candidates != {}
    ensures first in candidates && forall row | row in candidates :: first.createdAt <= row.createdAt
  {
    first :| first in candidates;
    var rest := candidates - {first};
    while rest != {}
      invariant first in candidates && rest <= candidates
      invariant forall row | row in candidates && row !in rest :: first.createdAt <= row.createdAt
      decreases rest
    {
      var row :| row in rest;
      TextOrderIsTimeOrder(first.createdAt, row.createdAt);
      if !TextLe(Iso(first.createdAt), Iso(row.createdAt)) { first := row; }
      rest := rest - {row};
    }
  }

  // ---- the store --------------------------------------------------------------------

  class SqliteApprovalStore {
    var rows: Table

    constructor (rows: Table)
      ensures this.rows == rows
    {
      this.rows := rows;
    }

    /** Ids are the primary key and freshly drawn. */
    method Create(request: Row)
      requires request.id !in rows
      modifies this
      ensures rows == old(rows)[request.id := request]
    {
      rows := rows[request.id := request];
    }

    method Get(id: string) returns (row: Option<Row>)
      ensures row == Find(rows, id)
    {
      row := if id in rows then Some(rows[id]) else None;
    }

    /** Read and write in one transaction: a decision lands only on a row that is still pending. */
    method Resolve(id: string, approved: bool, approver: string, note: Option<string>, at: Time)
      returns (row: Option<Row>)
      modifies this
      ensures rows == Resolved(old(rows), id, approved, approver, note, at)
      ensures Evolves(old(rows), rows)
      ensures row == Find(rows, id)
      ensures row.Some? ==> row.value.status.IsResolved()
    {
      var status := if approved then Approved else Denied;
      if id !in rows { return None; }
      var current := rows[id];
      if current.status == Pending {
        rows := rows[id := current.(status := status, decidedAt := Some(at), approver := Some(approver), note := note)];
        return Some(rows[id]);
      }
      row := Some(current);
    }

    /** The rows still pending, in the order of their creation's text. */
    method ListPending() returns (pending: seq<Row>)
      ensures forall row :: row in pending <==> row in rows.Values && row.status.Pending?
      ensures forall i, j | 0 <= i < j < |pending| :: pending[i] != pending[j]
      ensures forall i, j | 0 <= i < j < |pending| ::
                && TextLe(Iso(pending[i].createdAt), Iso(pending[j].createdAt))
                && pending[i].createdAt <= pending[j].createdAt
    {
      var rest := set row | row in rows.Values && row.status.Pending?;
      ghost var all := rest;
      pending := [];
      while rest != {}
        invariant forall row :: row in all <==> row in pending || row in rest
        invariant forall row | row in pending :: row !in rest
        invariant forall i, j | 0 <= i < j < |pending| :: pending[i] != pending[j]
        invariant forall i, j | 0 <= i < j < |pending| :: pending[i].createdAt <= pending[j].createdAt
        invariant forall i, row | 0 <= i < |pending| && row in rest :: pending[i].createdAt <= row.createdAt
        decreases rest
      {
        var first := Earliest(rest);
        pending := pending + [first];
        rest := rest - {first};
      }
      forall i, j | 0 <= i < j < |pending| ensures TextLe(Iso(pending[i].createdAt), Iso(pending[j].createdAt)) {
        TextOrderIsTimeOrder(pending[i].createdAt, pending[j].createdAt);
      }
    }

    method ExpireOverdue(moment: Time) returns (count: nat)
      modifies this
      ensures rows == Swept(old(rows), moment)
      ensures Evolves(old(rows), rows)
      ensures forall id | id in rows :: !rows[id].IsExpiredAt(moment)
      ensures count == |set id | id in old(rows) && old(rows)[id].IsExpiredAt(moment)|
    {
      SweepExpiresExactly(rows, moment);
      forall id | id in rows ensures Overdue(rows[id], moment) <==> rows[id].IsExpiredAt(moment) {
        TextOrderIsTimeOrder(rows[id].expiresAt, moment);
      }
      var overdue := set id | id in rows && Overdue(rows[id], moment);
      assert overdue == set id | id in rows && rows[id].IsExpiredAt(moment);
      rows := Swept(rows, moment);
      count := |overdue|;
    }
  }
}
