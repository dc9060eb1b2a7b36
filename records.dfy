/**
 * The `sms_messages` table: one row per queued message, written by the
 * bulk-send handler (an INSERT with status 'queued') and by the dispatch
 * task (an UPDATE keyed by task id). The table is a sequence of rows in
 * insertion order; the position stands for the auto-increment `id`.
 */
module Records {
  import opened Wrappers
  import opened JsonValues

  /** The identifier the task queue hands out for every dispatch task. */
  type TaskId = nat

  /** The values the code writes into the `status` column. */
  datatype Status = Queued | Sent | Failed

  /**
   * One row. `providerResponse` and `responseCode` are NULL (None) until
   * an update writes them; `createdAt`/`updatedAt` are clock readings.
   */
  datatype Row = Row(
    phoneNumber: string,
    message: Json,
    taskId: TaskId,
    status: Status,
    providerResponse: Option<string>,
    responseCode: Option<int>,
    createdAt: int,
    updatedAt: int)

  /** The row the INSERT of `save_message_to_db` creates, with the column defaults. */
  function QueuedRow(phoneNumber: string, message: Json, taskId: TaskId, now: int): (r: Row)
    ensures r.status == Queued && r.taskId == taskId && r.phoneNumber == phoneNumber
    ensures r.message == message
    ensures r.providerResponse.None? && r.responseCode.None?
    ensures r.createdAt == now && r.updatedAt == now
  {
    Row(phoneNumber, message, taskId, Queued, None, None, now, now)
  }

  /** A row after the SET clause of `update_message_status` has been applied to it. */
  function Overwritten(row: Row, status: Status, providerResponse: Option<string>,
                       responseCode: Option<int>, now: int): Row
  {
    row.(status := status, providerResponse := providerResponse,
         responseCode := responseCode, updatedAt := now)
  }

  /**
   * The table after `UPDATE ... WHERE task_id = taskId`: every matching row
   * is overwritten, whatever its current status; every other row is kept.
   */
  function Updated(rows: seq<Row>, taskId: TaskId, status: Status,
                   providerResponse: Option<string>, responseCode: Option<int>,
                   now: int): (r: seq<Row>)
    ensures |r| == |rows|
    ensures forall k :: 0 <= k < |rows| ==> r[k].taskId == rows[k].taskId
    ensures forall k :: 0 <= k < |rows| && rows[k].taskId == taskId ==>
      r[k].status == status && r[k].providerResponse == providerResponse &&
      r[k].responseCode == responseCode && r[k].updatedAt == now &&
      r[k].phoneNumber == rows[k].phoneNumber && r[k].message == rows[k].message &&
      r[k].createdAt == rows[k].createdAt
    ensures forall k :: 0 <= k < |rows| && rows[k].taskId != taskId ==> r[k] == rows[k]
  {
    if rows == [] then []
    else
      var head := if rows[0].taskId == taskId
                  then Overwritten(rows[0], status, providerResponse, responseCode, now)
                  else rows[0];
      [head] + Updated(rows[1..], taskId, status, providerResponse, responseCode, now)
  }

  /** No task id labels two rows: each task owns exactly one row. */
  ghost predicate DistinctTaskIds(rows: seq<Row>) {
    forall i, j :: 0 <= i < j < |rows| ==> rows[i].taskId != rows[j].taskId
  }

  /** Some row carries this task id. */
  ghost predicate HasRow(rows: seq<Row>, taskId: TaskId) {
    exists k :: 0 <= k < |rows| && rows[k].taskId == taskId
  }

  /** An update keyed by a task id that no row carries changes nothing. */
  lemma {:induction false} UpdateWithoutRowIsNoop(rows: seq<Row>, taskId: TaskId, status: Status,
                                                  providerResponse: Option<string>,
                                                  responseCode: Option<int>, now: int)
    requires !HasRow(rows, taskId)
    ensures Updated(rows, taskId, status, providerResponse, responseCode, now) == rows
  {
    var r := Updated(rows, taskId, status, providerResponse, responseCode, now);
    forall k | 0 <= k < |rows| ensures r[k] == rows[k] {
      assert rows[k].taskId != taskId;
    }
  }

  /** Updates keep every task id in place, so distinct ids stay distinct. */
  lemma UpdatePreservesDistinctIds(rows: seq<Row>, taskId: TaskId, status: Status,
                                   providerResponse: Option<string>,
                                   responseCode: Option<int>, now: int)
    requires DistinctTaskIds(rows)
    ensures DistinctTaskIds(Updated(rows, taskId, status, providerResponse, responseCode, now))
  {
  }

  /**
   * The UPDATE has no guard on the current status: a row that already
   * reached 'sent' or 'failed' takes whatever status the next update writes.
   */
  lemma TerminalStatusCanBeOverwritten(rows: seq<Row>, k: nat, status: Status,
                                       providerResponse: Option<string>,
                                       responseCode: Option<int>, now: int)
    requires k < |rows| && (rows[k].status == Sent || rows[k].status == Failed)
    ensures var after := Updated(rows, rows[k].taskId, status, providerResponse, responseCode, now);
      && after[k].status == status
      && after[k].providerResponse == providerResponse
      && after[k].responseCode == responseCode
  {
  }

  /**
   * The bulk-send handler enqueues a task before it inserts the task's row.
   * Should the task's update run in between, it finds no row and is lost:
   * the table ends with the inserted row still 'queued'.
   */
  lemma {:induction false} UpdateBeforeInsertIsLost(rows: seq<Row>, phoneNumber: string, message: Json,
                                                    taskId: TaskId, status: Status,
                                                    providerResponse: Option<string>,
                                                    responseCode: Option<int>, updateTime: int, insertTime: int)
    requires !HasRow(rows, taskId)
    ensures var after := Updated(rows, taskId, status, providerResponse, responseCode, updateTime)
                         + [QueuedRow(phoneNumber, message, taskId, insertTime)];
            after == rows + [QueuedRow(phoneNumber, message, taskId, insertTime)] &&
            after[|rows|].status == Queued
  {
    UpdateWithoutRowIsNoop(rows, taskId, status, providerResponse, responseCode, updateTime);
  }

  /** The `sms_messages` table, changed in place by inserts and updates. */
  class MessageTable {
    var rows: seq<Row>

    constructor ()
      ensures rows == []
    {
      rows := [];
    }

    /** `save_message_to_db`: inserts one 'queued' row for the task. */
    method Insert(phoneNumber: string, message: Json, taskId: TaskId, now: int)
      modifies this
      ensures rows == old(rows) + [QueuedRow(phoneNumber, message, taskId, now)]
    {
      rows := rows + [QueuedRow(phoneNumber, message, taskId, now)];
    }

    /** `update_message_status`: overwrites the status columns of the task's rows. */
    method UpdateStatus(taskId: TaskId, status: Status, providerResponse: Option<string>,
                        responseCode: Option<int>, now: int)
      modifies this
      ensures rows == Updated(old(rows), taskId, status, providerResponse, responseCode, now)
    {
      rows := Updated(rows, taskId, status, providerResponse, responseCode, now);
    }
  }
}
