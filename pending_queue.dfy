/**
 * The pending-row store the monitor of `src/pendingMonitor.js` works on:
 * `consulta_presenca` rows keyed by id, each with a status. The four
 * operations it imports (list, claim, mark, replace) are defined outside the
 * files of this model, so each is given only the contract the monitor relies
 * on: listing returns some pending rows (which ones, and in what order, is
 * left open), a claim returns the row and marks it in progress or returns
 * null, a mark sets a status, and a replace writes the final status or fails
 * and changes nothing.
 */
module PendingQueue {
  import opened Wrappers

  datatype QueueStatus = Pendente | Processando | Concluido | Erro | Limite

  datatype QueueRow = QueueRow(
    id: nat, cpf: string, nome: string, telefone: string, loginP: Option<string>,
    status: QueueStatus, message: Option<string>)

  /** Every row is stored under its own id. */
  predicate WellKeyed(rows: map<nat, QueueRow>) {
    forall id :: id in rows ==> rows[id].id == id
  }

  /** The ids of the rows waiting to be processed. */
  function PendingIds(rows: map<nat, QueueRow>): set<nat> {
    set id | id in rows && rows[id].status == Pendente
  }

  /** The ids of the rows some consumer has claimed and not yet finished. */
  function ProcessingIds(rows: map<nat, QueueRow>): set<nat> {
    set id | id in rows && rows[id].status == Processando
  }

  /**
   * What a listing may return: at most `limit` distinct pending rows as they
   * are stored, and at least one when the limit allows it and one is pending.
   */
  predicate Listed(batch: seq<QueueRow>, rows: map<nat, QueueRow>, limit: nat) {
    && |batch| <= limit
    && (forall k :: 0 <= k < |batch| ==> batch[k].id in rows && rows[batch[k].id] == batch[k] && batch[k].status == Pendente)
    && (forall k, l :: 0 <= k < l < |batch| ==> batch[k].id != batch[l].id)
    && (limit > 0 && PendingIds(rows) != {} ==> batch != [])
  }

  /** The row `id` with a new status, and a new message when one is given. */
  function WithStatus(rows: map<nat, QueueRow>, id: nat, status: QueueStatus, message: Option<string>): (out: map<nat, QueueRow>)
    requires id in rows
    ensures out.Keys == rows.Keys && out[id].status == status
    ensures out[id].message == (if message.Some? then message else rows[id].message)
    ensures forall other :: other in rows && other != id ==> out[other] == rows[other]
  {
    rows[id := rows[id].(status := status, message := if message.Some? then message else rows[id].message)]
  }

  /** Moving a pending row to any other status takes exactly that row out of the pending set. */
  lemma {:induction false} LeavingPending(rows: map<nat, QueueRow>, id: nat, status: QueueStatus, message: Option<string>)
    requires id in rows && rows[id].status == Pendente && status != Pendente
    ensures PendingIds(WithStatus(rows, id, status, message)) == PendingIds(rows) - {id}
    ensures |PendingIds(WithStatus(rows, id, status, message))| == |PendingIds(rows)| - 1
  {
    var out := WithStatus(rows, id, status, message);
    assert PendingIds(out) == PendingIds(rows) - {id} by {
      forall x ensures x in PendingIds(out) <==> x in PendingIds(rows) - {id} {
        if x != id && x in rows {
          assert out[x] == rows[x];
        }
      }
    }
  }

  /** Setting a row that is not pending to a status other than pending leaves the pending set as it was. */
  lemma {:induction false} StayingOutOfPending(rows: map<nat, QueueRow>, id: nat, status: QueueStatus, message: Option<string>)
    requires id in rows && rows[id].status != Pendente && status != Pendente
    ensures PendingIds(WithStatus(rows, id, status, message)) == PendingIds(rows)
  {
    var out := WithStatus(rows, id, status, message);
    forall x ensures x in PendingIds(out) <==> x in PendingIds(rows) {
      if x != id && x in rows {
        assert out[x] == rows[x];
      }
    }
  }

  /** A status change that neither starts nor ends in progress leaves the set of rows in progress as it was. */
  lemma {:induction false} OutsideProcessing(rows: map<nat, QueueRow>, id: nat, status: QueueStatus, message: Option<string>)
    requires id in rows && rows[id].status != Processando && status != Processando
    ensures ProcessingIds(WithStatus(rows, id, status, message)) == ProcessingIds(rows)
  {
    var out := WithStatus(rows, id, status, message);
    forall x ensures x in ProcessingIds(out) <==> x in ProcessingIds(rows) {
      if x != id && x in rows {
        assert out[x] == rows[x];
      }
    }
  }

  /** A second status change with a message overrides the first one entirely. */
  lemma WithStatusTwice(rows: map<nat, QueueRow>, id: nat, s1: QueueStatus, m1: Option<string>, s2: QueueStatus, m2: string)
    requires id in rows
    ensures WithStatus(WithStatus(rows, id, s1, m1), id, s2, Some(m2)) == WithStatus(rows, id, s2, Some(m2))
  {
  }

  /** Claiming a pending row and setting it back to pending without a message restores the table. */
  lemma ClaimThenRevert(rows: map<nat, QueueRow>, id: nat)
    requires id in rows && rows[id].status == Pendente
    ensures WithStatus(WithStatus(rows, id, Processando, None), id, Pendente, None) == rows
  {
    var out := WithStatus(WithStatus(rows, id, Processando, None), id, Pendente, None);
    assert out[id] == rows[id];
  }

  class QueueTable {
    var rows: map<nat, QueueRow>

    ghost predicate Valid()
      reads this
    {
      WellKeyed(rows)
    }

    constructor (initial: map<nat, QueueRow>)
      requires WellKeyed(initial)
      ensures Valid() && rows == initial
    {
      rows := initial;
    }

    /** `listPendingConsultaPresenca(limit)`: a batch of pending rows; which ones is the store's choice. */
    method ListPending(limit: nat) returns (batch: seq<QueueRow>)
      requires Valid()
      ensures Listed(batch, rows, limit)
    {
      if limit > 0 && PendingIds(rows) != {} {
        var id :| id in PendingIds(rows);
        assert Listed([rows[id]], rows, limit);
      } else {
        assert Listed([], rows, limit);
      }
      batch :| Listed(batch, rows, limit);
    }

    /** `claimPendingConsultaPresencaById(id)`: the row, now in progress, or null when it is not pending. */
    method Claim(id: nat) returns (claimed: Option<QueueRow>)
      requires Valid()
      modifies this
      ensures Valid()
      ensures claimed.Some? <==> id in old(rows) && old(rows)[id].status == Pendente
      ensures claimed.Some? ==> rows == WithStatus(old(rows), id, Processando, None) && claimed.value == rows[id]
      ensures claimed.None? ==> rows == old(rows)
    {
      if id !in rows || rows[id].status != Pendente {
        return None;
      }
      rows := WithStatus(rows, id, Processando, None);
      claimed := Some(rows[id]);
    }

    /** `markConsultaPresencaStatusById(id, status, message)`: sets the status of a stored row. */
    method MarkStatus(id: nat, status: QueueStatus, message: Option<string>)
      requires Valid()
      modifies this
      ensures Valid()
      ensures id in old(rows) ==> rows == WithStatus(old(rows), id, status, message)
      ensures id !in old(rows) ==> rows == old(rows)
    {
      if id in rows {
        rows := WithStatus(rows, id, status, message);
      }
    }

    /**
     * `replacePendingConsultaPresencaById(row, results, options)`, as far as
     * the monitor relies on it: the row gets its final status and message, or
     * the store fails with `fault` and nothing changes.
     */
    method Replace(id: nat, status: QueueStatus, message: string, fault: Option<string>) returns (r: Result<nat, string>)
      requires Valid()
      modifies this
      ensures Valid()
      ensures fault.Some? ==> r == Err(fault.value) && rows == old(rows)
      ensures fault.None? && id in old(rows) ==> r == Ok(1) && rows == WithStatus(old(rows), id, status, Some(message))
      ensures fault.None? && id !in old(rows) ==> r == Ok(0) && rows == old(rows)
    {
      if fault.Some? {
        return Err(fault.value);
      }
      if id !in rows {
        return Ok(0);
      }
      rows := WithStatus(rows, id, status, Some(message));
      r := Ok(1);
    }
  }
}
