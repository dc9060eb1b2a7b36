/**
 * The bulk-send handler and the worker task of the SMS service: request
 * validation, the fan-out loop that lists, enqueues and saves one message
 * per phone number, and the task body that runs the dispatch bridge.
 * The task queue stands in for the broker: all it promises is a fresh
 * identifier per enqueued task.
 */
module SmsService {
  import opened Wrappers
  import opened JsonValues
  import opened Records
  import Phone
  import Bridge

  /** A task handed to the queue: its id and the arguments of `send_sms_task`. */
  datatype Task = Task(id: TaskId, phoneNumber: string, message: Json)

  /** One entry of the process-wide `messages` list. */
  datatype MessageEntry = MessageEntry(phoneNumber: string, message: Json)

  /** One entry of the handler's `tasks` answer. */
  datatype QueuedTask = QueuedTask(phoneNumber: string, taskId: TaskId)

  /** The four rejections, each answered with HTTP 400. */
  datatype RequestError = EmptyBody | MissingPhoneNumbers | MissingMessage | PhoneNumbersNotList

  /** A request that passed validation. */
  datatype BulkRequest = BulkRequest(phoneNumbers: seq<Json>, message: Json)

  /**
   * What the handler answers: a 400 rejection, the accepted batch, or the
   * AttributeError raised when element `index` of `phone_numbers` is not a
   * string (HTTP 500, after the earlier elements were already processed).
   */
  datatype BulkOutcome =
    | BadRequest(error: RequestError)
    | Accepted(count: nat, tasks: seq<QueuedTask>)
    | Aborted(index: nat)

  /** The side effects of the fan-out loop, in the order the handler performs them. */
  datatype Effect = MessageListed(phoneNumber: string) | TaskEnqueued(id: TaskId) | RowSaved(id: TaskId)

  const PhoneNumbersKey: string := "phone_numbers"
  const MessageKey: string := "message"

  /**
   * The checks of the bulk-send handler, in its order: a missing or empty
   * body, then a missing `phone_numbers`, then a missing `message`, then a
   * `phone_numbers` that is not a list. `None` stands for no JSON body.
   */
  function Validate(body: Option<map<string, Json>>): (r: Result<BulkRequest, RequestError>)
    ensures r == Err(EmptyBody) <==> body.None? || |body.value| == 0
    ensures r == Err(MissingPhoneNumbers) <==>
      body.Some? && |body.value| > 0 && PhoneNumbersKey !in body.value
    ensures r == Err(MissingMessage) <==>
      body.Some? && PhoneNumbersKey in body.value && MessageKey !in body.value
    ensures r == Err(PhoneNumbersNotList) <==>
      body.Some? && PhoneNumbersKey in body.value && MessageKey in body.value &&
      !body.value[PhoneNumbersKey].JArr?
    ensures r.Ok? ==>
      (body.Some? && r.value == BulkRequest(body.value[PhoneNumbersKey].items, body.value[MessageKey]))
  {
    if body.None? || |body.value| == 0 then Err(EmptyBody)
    else if PhoneNumbersKey !in body.value then Err(MissingPhoneNumbers)
    else if MessageKey !in body.value then Err(MissingMessage)
    else if !body.value[PhoneNumbersKey].JArr? then Err(PhoneNumbersNotList)
    else Ok(BulkRequest(body.value[PhoneNumbersKey].items, body.value[MessageKey]))
  }

  /** Every error is one of the four checks, so validation never lets a malformed body through. */
  lemma ValidationAcceptsOnlyWellFormed(body: Option<map<string, Json>>)
    ensures Validate(body).Ok? <==>
      body.Some? && PhoneNumbersKey in body.value && MessageKey in body.value &&
      body.value[PhoneNumbersKey].JArr?
  {
  }

  /** The task queue: issues a fresh id for every task it accepts. */
  class TaskQueue {
    var tasks: seq<Task>
    var nextId: nat
    /** The ids handed out so far. */
    ghost var issued: set<TaskId>

    ghost predicate Valid()
      reads this
    {
      (forall id :: id in issued ==> id < nextId) &&
      (forall k :: 0 <= k < |tasks| ==> tasks[k].id in issued)
    }

    constructor ()
      ensures Valid() && tasks == [] && issued == {}
    {
      tasks := [];
      nextId := 0;
      issued := {};
    }

    /** `send_sms_task.delay(number, message)`: enqueue the task under an id never issued before. */
    method Delay(phoneNumber: string, message: Json) returns (id: TaskId)
      requires Valid()
      modifies this
      ensures Valid()
      ensures id !in old(issued) && issued == old(issued) + {id}
      ensures tasks == old(tasks) + [Task(id, phoneNumber, message)]
    {
      id := nextId;
      tasks := tasks + [Task(id, phoneNumber, message)];
      issued := issued + {id};
      nextId := nextId + 1;
    }
  }

  /** The handler's state: the global `messages` list, the table and the queue. */
  class Service {
    var messages: seq<MessageEntry>
    const table: MessageTable
    const queue: TaskQueue
    ghost var trace: seq<Effect>

    /** Every row belongs to an issued task, and no task has two rows. */
    ghost predicate Valid()
      reads this, table, queue
    {
      queue.Valid() &&
      DistinctTaskIds(table.rows) &&
      (forall k :: 0 <= k < |table.rows| ==> table.rows[k].taskId in queue.issued)
    }

    constructor ()
      ensures Valid() && fresh(table) && fresh(queue)
      ensures messages == [] && table.rows == [] && queue.tasks == [] && trace == []
    {
      messages := [];
      table := new MessageTable();
      queue := new TaskQueue();
      trace := [];
    }

    /**
     * `send_bulk_sms`: validates the body, then for each phone number in
     * order normalises it, appends it to `messages`, enqueues its task, saves
     * its 'queued' row and records the pair in the answer. A non-string
     * element stops the loop with everything before it already done.
     */
    method SendBulkSms(body: Option<map<string, Json>>, now: int)
      returns (outcome: BulkOutcome, ghost processed: seq<QueuedTask>)
      requires Valid()
      modifies this, table, queue
      ensures Valid()
      ensures Validate(body).Err? ==>
        outcome == BadRequest(Validate(body).error) && processed == [] &&
        messages == old(messages) && table.rows == old(table.rows) &&
        queue.tasks == old(queue.tasks) && trace == old(trace)
      ensures Validate(body).Ok? ==>
        var numbers, message := Validate(body).value.phoneNumbers, Validate(body).value.message;
        && |processed| <= |numbers|
        && (outcome.Accepted? <==> |processed| == |numbers|)
        && (outcome.Accepted? ==> outcome == Accepted(|numbers|, processed))
        && (outcome.Aborted? ==>
              outcome.index == |processed| && !numbers[|processed|].JStr?)
        && !outcome.BadRequest?
        && (forall k :: 0 <= k < |processed| ==>
              numbers[k].JStr? && processed[k].phoneNumber == Phone.Normalize(numbers[k].s))
        && (forall k :: 0 <= k < |processed| ==> processed[k].taskId !in old(queue.issued))
        && (forall i, j :: 0 <= i < j < |processed| ==> processed[i].taskId != processed[j].taskId)
        && messages == old(messages) + Listed(processed, message)
        && queue.tasks == old(queue.tasks) + Enqueued(processed, message)
        && table.rows == old(table.rows) + Saved(processed, message, now)
        && trace == old(trace) + Effects(processed)
    {
      var v := Validate(body);
      if v.Err? {
        outcome := BadRequest(v.error);
        processed := [];
        return;
      }
      outcome, processed := FanOut(v.value.phoneNumbers, v.value.message, now);
    }

    /**
     * The loop of `send_bulk_sms` over a validated list: it runs until the
     * list ends or an element is not a string, whose `.replace` raises.
     */
    method FanOut(numbers: seq<Json>, message: Json, now: int)
      returns (outcome: BulkOutcome, ghost processed: seq<QueuedTask>)
      requires Valid()
      modifies this, table, queue
      ensures Valid()
      ensures |processed| <= |numbers|
      ensures outcome.Accepted? <==> |processed| == |numbers|
      ensures outcome.Accepted? ==> outcome == Accepted(|numbers|, processed)
      ensures outcome.Aborted? ==> outcome.index == |processed| && !numbers[|processed|].JStr?
      ensures !outcome.BadRequest?
      ensures forall k :: 0 <= k < |processed| ==>
        numbers[k].JStr? && processed[k].phoneNumber == Phone.Normalize(numbers[k].s)
      ensures forall k :: 0 <= k < |processed| ==> processed[k].taskId !in old(queue.issued)
      ensures forall i, j :: 0 <= i < j < |processed| ==> processed[i].taskId != processed[j].taskId
      ensures messages == old(messages) + Listed(processed, message)
      ensures queue.tasks == old(queue.tasks) + Enqueued(processed, message)
      ensures table.rows == old(table.rows) + Saved(processed, message, now)
      ensures trace == old(trace) + Effects(processed)
    {
      ghost var issued0 := queue.issued;
      ghost var messages0, tasks0, rows0, trace0 := messages, queue.tasks, table.rows, trace;
      var taskIds: seq<QueuedTask> := [];
      var i := 0;
      while i < |numbers| && numbers[i].JStr?
        invariant 0 <= i <= |numbers| && |taskIds| == i
        invariant Valid()
        invariant issued0 <= queue.issued
        invariant NormalizedPrefix(numbers, taskIds)
        invariant FreshDistinct(taskIds, issued0, queue.issued)
        invariant messages == messages0 + Listed(taskIds, message)
        invariant queue.tasks == tasks0 + Enqueued(taskIds, message)
        invariant table.rows == rows0 + Saved(taskIds, message, now)
        invariant trace == trace0 + Effects(taskIds)
      {
        var number := Phone.Normalize(numbers[i].s);
        ghost var issuedBefore := queue.issued;
        var id := FanOutOne(number, message, now);
        BatchStep(taskIds, QueuedTask(number, id), message, now);
        AppendAssoc(messages0, Listed(taskIds, message), [MessageEntry(number, message)]);
        AppendAssoc(tasks0, Enqueued(taskIds, message), [Task(id, number, message)]);
        AppendAssoc(rows0, Saved(taskIds, message, now), [QueuedRow(number, message, id, now)]);
        AppendAssoc(trace0, Effects(taskIds), [MessageListed(number), TaskEnqueued(id), RowSaved(id)]);
        FreshStep(taskIds, issued0, issuedBefore, QueuedTask(number, id));
        NormalizedStep(numbers, taskIds, QueuedTask(number, id));
        taskIds := taskIds + [QueuedTask(number, id)];
        i := i + 1;
      }
      processed := taskIds;
      if i < |numbers| {
        outcome := Aborted(i);
      } else {
        outcome := Accepted(|numbers|, taskIds);
      }
    }

    /**
     * One pass of the handler's loop for an already normalised number:
     * append it to `messages`, enqueue its task (`delay`), then save its
     * 'queued' row (`save_message_to_db`) under the id the queue issued.
     */
    method FanOutOne(number: string, message: Json, now: int) returns (id: TaskId)
      requires Valid()
      modifies this, table, queue
      ensures Valid()
      ensures id !in old(queue.issued) && queue.issued == old(queue.issued) + {id}
      ensures messages == old(messages) + [MessageEntry(number, message)]
      ensures queue.tasks == old(queue.tasks) + [Task(id, number, message)]
      ensures table.rows == old(table.rows) + [QueuedRow(number, message, id, now)]
      ensures trace == old(trace) + [MessageListed(number), TaskEnqueued(id), RowSaved(id)]
    {
      messages := messages + [MessageEntry(number, message)];
      trace := trace + [MessageListed(number)];
      id := queue.Delay(number, message);
      trace := trace + [TaskEnqueued(id)];
      table.Insert(number, message, id, now);
      trace := trace + [RowSaved(id)];
    }

    /**
     * `send_sms_task` run by a worker for the `k`-th enqueued task: the
     * dispatch bridge with the task's own id, phone number and message. The
     * task returns nothing: the bridge's result dictionary is discarded, so
     * only the status write and the request posted (`call`) remain.
     */
    method SendSmsTask(k: nat, cfg: Bridge.Config, outcome: Bridge.ProviderOutcome, now: int)
      returns (call: Option<Bridge.HttpCall>)
      requires Valid() && k < |queue.tasks|
      modifies table
      ensures Valid()
      ensures var t := queue.tasks[k];
        var d := Bridge.Dispatch(cfg, t.phoneNumber, t.message, outcome);
        && call == d.call
        && table.rows == Updated(old(table.rows), t.id, d.write.status,
                                 Some(d.write.providerResponse), Some(d.write.responseCode), now)
    {
      var t := queue.tasks[k];
      var discarded;
      discarded, call := Bridge.SendSmsBridge(table, cfg, t.phoneNumber, t.message, t.id, outcome, now);
      ghost var d := Bridge.Dispatch(cfg, t.phoneNumber, t.message, outcome);
      UpdatePreservesDistinctIds(old(table.rows), t.id, d.write.status,
                                 Some(d.write.providerResponse), Some(d.write.responseCode), now);
    }
  }

  /** The batch so far pairs each leading string of `numbers` with its normalised form. */
  ghost predicate NormalizedPrefix(numbers: seq<Json>, processed: seq<QueuedTask>) {
    |processed| <= |numbers| &&
    forall k :: 0 <= k < |processed| ==>
      numbers[k].JStr? && processed[k].phoneNumber == Phone.Normalize(numbers[k].s)
  }

  /** Processing the next string, normalised, extends the prefix by one. */
  lemma NormalizedStep(numbers: seq<Json>, processed: seq<QueuedTask>, next: QueuedTask)
    requires NormalizedPrefix(numbers, processed) && |processed| < |numbers|
    requires numbers[|processed|].JStr? && next.phoneNumber == Phone.Normalize(numbers[|processed|].s)
    ensures NormalizedPrefix(numbers, processed + [next])
  {
    var extended := processed + [next];
    forall k | 0 <= k < |extended|
      ensures numbers[k].JStr? && extended[k].phoneNumber == Phone.Normalize(numbers[k].s)
    {
      if k < |processed| {
        assert extended[k] == processed[k];
      }
    }
  }

  /**
   * The ids handed out during a batch: none was issued before it, all are
   * issued now, and no two are equal.
   */
  ghost predicate FreshDistinct(processed: seq<QueuedTask>, issued0: set<TaskId>, issued: set<TaskId>) {
    && (forall k :: 0 <= k < |processed| ==> processed[k].taskId !in issued0 && processed[k].taskId in issued)
    && (forall i, j :: 0 <= i < j < |processed| ==> processed[i].taskId != processed[j].taskId)
  }

  /** A newly issued id keeps the batch's ids fresh and distinct. */
  lemma FreshStep(processed: seq<QueuedTask>, issued0: set<TaskId>, issued: set<TaskId>, next: QueuedTask)
    requires FreshDistinct(processed, issued0, issued)
    requires next.taskId !in issued && issued0 <= issued
    ensures FreshDistinct(processed + [next], issued0, issued + {next.taskId})
  {
  }

  /** The `messages` entries a batch appends, one per processed number. */
  function Listed(processed: seq<QueuedTask>, message: Json): (r: seq<MessageEntry>)
    ensures |r| == |processed|
  {
    if processed == [] then []
    else
      var n := |processed| - 1;
      Listed(processed[..n], message) + [MessageEntry(processed[n].phoneNumber, message)]
  }

  /** The tasks a batch enqueues, one per processed number, under its id. */
  function Enqueued(processed: seq<QueuedTask>, message: Json): (r: seq<Task>)
    ensures |r| == |processed|
  {
    if processed == [] then []
    else
      var n := |processed| - 1;
      Enqueued(processed[..n], message) + [Task(processed[n].taskId, processed[n].phoneNumber, message)]
  }

  /** The 'queued' rows a batch saves, one per processed number, under its task id. */
  function Saved(processed: seq<QueuedTask>, message: Json, now: int): (r: seq<Row>)
    ensures |r| == |processed|
  {
    if processed == [] then []
    else
      var n := |processed| - 1;
      Saved(processed[..n], message, now) + [QueuedRow(processed[n].phoneNumber, message, processed[n].taskId, now)]
  }

  /**
   * The effects of a batch in the handler's order: for the k-th processed
   * number, listed at 3k, enqueued at 3k+1, saved at 3k+2.
   */
  function Effects(processed: seq<QueuedTask>): (r: seq<Effect>)
    ensures |r| == 3 * |processed|
  {
    if processed == [] then []
    else
      var n := |processed| - 1;
      var p := processed[n];
      Effects(processed[..n]) + [MessageListed(p.phoneNumber), TaskEnqueued(p.taskId), RowSaved(p.taskId)]
  }

  lemma AppendAssoc<T>(a: seq<T>, b: seq<T>, c: seq<T>)
    ensures (a + b) + c == a + (b + c)
  {
  }

  /** One more processed number extends each of the batch's sequences by its own entries. */
  lemma BatchStep(processed: seq<QueuedTask>, next: QueuedTask, message: Json, now: int)
    ensures Listed(processed + [next], message) == Listed(processed, message) + [MessageEntry(next.phoneNumber, message)]
    ensures Enqueued(processed + [next], message) == Enqueued(processed, message) + [Task(next.taskId, next.phoneNumber, message)]
    ensures Saved(processed + [next], message, now) == Saved(processed, message, now) + [QueuedRow(next.phoneNumber, message, next.taskId, now)]
    ensures Effects(processed + [next]) == Effects(processed) + [MessageListed(next.phoneNumber), TaskEnqueued(next.taskId), RowSaved(next.taskId)]
  {
    assert (processed + [next])[..|processed|] == processed;
  }

  /**
   * The k-th processed number owns entry k of the listed messages, of the
   * enqueued tasks and of the saved rows, and effects 3k, 3k+1 and 3k+2.
   */
  lemma {:induction false} BatchEntries(processed: seq<QueuedTask>, message: Json, now: int, k: nat)
    requires k < |processed|
    ensures Listed(processed, message)[k] == MessageEntry(processed[k].phoneNumber, message)
    ensures Enqueued(processed, message)[k] == Task(processed[k].taskId, processed[k].phoneNumber, message)
    ensures Saved(processed, message, now)[k] == QueuedRow(processed[k].phoneNumber, message, processed[k].taskId, now)
    ensures Effects(processed)[3 * k] == MessageListed(processed[k].phoneNumber)
    ensures Effects(processed)[3 * k + 1] == TaskEnqueued(processed[k].taskId)
    ensures Effects(processed)[3 * k + 2] == RowSaved(processed[k].taskId)
  {
    var n := |processed| - 1;
    if k < n {
      BatchEntries(processed[..n], message, now, k);
    }
  }

  /**
   * Within one batch's effects, the k-th task is enqueued at position 3k+1,
   * and its row is saved at 3k+2 and nowhere else: the save always comes
   * after the enqueue, never before it.
   */
  lemma EnqueueComesBeforeSave(processed: seq<QueuedTask>, k: nat)
    requires forall i, j :: 0 <= i < j < |processed| ==> processed[i].taskId != processed[j].taskId
    requires k < |processed|
    ensures var batch := Effects(processed);
      && batch[3 * k + 1] == TaskEnqueued(processed[k].taskId)
      && forall s :: 0 <= s < |batch| && batch[s] == RowSaved(processed[k].taskId) ==> s == 3 * k + 2
  {
    var batch := Effects(processed);
    forall s | 0 <= s < |batch| && batch[s] == RowSaved(processed[k].taskId)
      ensures s == 3 * k + 2
    {
      var j, r := s / 3, s % 3;
      assert s == 3 * j + r && 0 <= j < |processed|;
      BatchEntries(processed, JNull, 0, j);
      assert r == 2 && processed[j].taskId == processed[k].taskId;
    }
    BatchEntries(processed, JNull, 0, k);
  }

  /**
   * A batch of one local number sent with no provider endpoint configured:
   * the handler accepts it with one task, and once the worker has run that
   * task its row is 'failed' with code 500 and no request was made.
   */
  method NoEndpointScenario()
  {
    var service := new Service();
    var body := map[PhoneNumbersKey := JArr([JStr("0712 345 678")]), MessageKey := JStr("hi")];
    assert Validate(Some(body)).Ok?;
    var outcome, processed := service.SendBulkSms(Some(body), 1);
    assert |processed| <= 1;
    assert !outcome.BadRequest?;
    assert Validate(Some(body)).value.phoneNumbers == [JStr("0712 345 678")];
    assert outcome.Accepted?;
    Phone.NormalizeExamples();
    assert outcome.tasks[0].phoneNumber == "254712345678";
    assert service.table.rows[0].status == Queued;
    var cfg := Bridge.Config(None, None, None, None, None);
    var call := service.SendSmsTask(0, cfg, Bridge.Fault("unused"), 2);
    assert call.None?;
    assert service.table.rows[0].status == Failed;
    assert service.table.rows[0].responseCode == Some(500);
    assert service.table.rows[0].providerResponse == Some(Bridge.NoEndpointText);
  }
}
