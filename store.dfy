/** The Message and MessageQueue models: the tables, one delivery attempt of a
    queue row, and the processing of a message (resolve, serialize, fan out). */
module Store {
  import opened Entities
  import opened Resolution

  /** `MessageQueue.deliver(fail_silently)`: True when urlopen returns; on a
      transport error False when failing silently, else the URLError is raised. */
  function DeliverOutcome(reached: bool, failSilently: bool): (r: Result<bool, Error>)
    ensures r.Success? <==> reached || failSilently
    ensures r.Success? ==> r.value == reached
    ensures r.Failure? ==> r.error == UrlError
  {
    if reached then Success(true)
    else if failSilently then Success(false)
    else Failure(UrlError)
  }

  /** The row after one `MessageQueue.process()` whose delivery succeeded or not. */
  function Attempted(t: MessageQueue, delivered: bool, now: Timestamp): (r: MessageQueue)
    ensures r.attempts == t.attempts + 1
    ensures r.processed <==> t.processed || delivered
    ensures delivered ==> r.failedAt == t.failedAt
    ensures !delivered ==> r.failedAt == Some(now)
    ensures r.message == t.message && r.listener == t.listener
  {
    var counted := t.(attempts := t.attempts + 1);
    if delivered then counted.(processed := true) else counted.(failedAt := Some(now))
  }

  /** A row as `MessageQueue.objects.create(message=msg, listener=l)` makes it. */
  function NewQueueRow(msg: MessageId, l: ListenerId): MessageQueue
  {
    MessageQueue(msg, l, false, 0, None)
  }

  /** A freshly created row k after its inline first attempt. */
  function FirstAttempt(k: QueueId, msg: MessageId, l: ListenerId, net: Network, now: Timestamp): (r: MessageQueue)
    ensures r.message == msg && r.listener == l && r.attempts == 1
    ensures r.processed <==> net(k, 1)
    ensures r.failedAt == if net(k, 1) then None else Some(now)
  {
    Attempted(NewQueueRow(msg, l), net(k, 1), now)
  }

  /** The give-up update `filter(processed=False, attempts__gte=retries).update(processed=True)`
      applied to one row. */
  function Exhaust(t: MessageQueue, retries: int): (r: MessageQueue)
    ensures !r.processed ==> r.attempts < retries
    ensures r.attempts == t.attempts && r.message == t.message && r.listener == t.listener
    ensures t.processed ==> r == t
    ensures t.attempts < retries ==> r == t
    ensures !t.processed && t.attempts >= retries ==> r == t.(processed := true)
  {
    if !t.processed && t.attempts >= retries then t.(processed := true) else t
  }

  /** Deleting a message deletes the queue rows that point to it (on_delete CASCADE). */
  function Cascade(queue: map<QueueId, MessageQueue>, id: MessageId): map<QueueId, MessageQueue>
  {
    map k | k in queue && queue[k].message != id :: queue[k]
  }

  /** The rows `for listener in listeners: create(...).process()` adds: the old rows
      are kept, each new row is a first attempt for this message, and there is
      exactly one new row per listener in s. */
  ghost predicate FannedOut(before: map<QueueId, MessageQueue>, after: map<QueueId, MessageQueue>,
                            msg: MessageId, s: set<ListenerId>, floor: nat, net: Network, now: Timestamp)
  {
    && (forall k :: k in before ==> k in after && after[k] == before[k])
    && (forall k :: k in after && k !in before ==>
          k >= floor && after[k] == FirstAttempt(k, msg, after[k].listener, net, now) && after[k].listener in s)
    && (forall l :: l in s ==> exists k :: k in after && k !in before && after[k].listener == l)
    && (forall k1, k2 :: k1 in after && k1 !in before && k2 in after && k2 !in before && k1 != k2 ==>
          after[k1].listener != after[k2].listener)
  }

  /** Adding the first attempt of a new row for listener l extends a fan-out to l. */
  lemma FanOutStep(before: map<QueueId, MessageQueue>, mid: map<QueueId, MessageQueue>, msg: MessageId,
                   done: set<ListenerId>, floor: nat, l: ListenerId, k: QueueId, net: Network, now: Timestamp)
    requires FannedOut(before, mid, msg, done, floor, net, now)
    requires k !in mid && k >= floor && l !in done
    ensures FannedOut(before, mid[k := FirstAttempt(k, msg, l, net, now)], msg, done + {l}, floor, net, now)
  {
  }

  /** The database: the listener and subject tables, which the core only reads, and
      the Message and MessageQueue tables, which it updates. */
  class Database {
    var listeners: seq<Listener>
    var subjects: map<ObjKey, Props>
    var messages: map<MessageId, Message>
    var queue: map<QueueId, MessageQueue>
    var nextMessageId: nat
    var nextQueueId: nat

    /** Keys are below the id counters, and every queue row points to an existing message. */
    ghost predicate Valid()
      reads this
    {
      && (forall id :: id in messages ==> id < nextMessageId)
      && (forall k :: k in queue ==> k < nextQueueId && queue[k].message in messages)
    }

    constructor (listeners: seq<Listener>, subjects: map<ObjKey, Props>)
      ensures Valid()
      ensures this.listeners == listeners && this.subjects == subjects
      ensures messages == map[] && queue == map[]
    {
      this.listeners := listeners;
      this.subjects := subjects;
      messages := map[];
      queue := map[];
      nextMessageId := 0;
      nextQueueId := 0;
    }

    /** `Message.objects.create(obj=instance)`: a new, unprocessed message with an empty payload. */
    method CreateMessage(obj: ObjKey) returns (id: MessageId)
      requires Valid()
      modifies this`messages, this`nextMessageId
      ensures Valid()
      ensures id !in old(messages)
      ensures messages == old(messages)[id := Message(obj, "", false)]
    {
      id := nextMessageId;
      messages := messages[id := Message(obj, "", false)];
      nextMessageId := nextMessageId + 1;
    }

    /** `message.delete()`, cascading to its queue rows. */
    method DeleteMessage(id: MessageId)
      requires Valid()
      modifies this`messages, this`queue
      ensures Valid()
      ensures messages == old(messages) - {id}
      ensures queue == Cascade(old(queue), id)
    {
      messages := messages - {id};
      queue := Cascade(queue, id);
    }

    /** `MessageQueue.objects.create(message=msg, listener=l)`. */
    method CreateQueueRow(msg: MessageId, l: ListenerId) returns (k: QueueId)
      requires Valid() && msg in messages
      modifies this`queue, this`nextQueueId
      ensures Valid()
      ensures k !in old(queue) && k == old(nextQueueId) && nextQueueId > k
      ensures queue == old(queue)[k := NewQueueRow(msg, l)]
    {
      k := nextQueueId;
      queue := queue[k := NewQueueRow(msg, l)];
      nextQueueId := nextQueueId + 1;
    }

    /** `MessageQueue.objects.create(message=msg, listener=l).process()`. */
    method CreateAndProcess(msg: MessageId, l: ListenerId, net: Network, now: Timestamp) returns (k: QueueId)
      requires Valid() && msg in messages
      modifies this`queue, this`nextQueueId
      ensures Valid()
      ensures k !in old(queue) && k == old(nextQueueId) && nextQueueId > k
      ensures queue == old(queue)[k := FirstAttempt(k, msg, l, net, now)]
    {
      k := CreateQueueRow(msg, l);
      ProcessQueued(k, net, now);
    }

    /** `MessageQueue.process()`: count the attempt, try delivering (silently), mark
        the row processed on success or stamp failed_at on failure, and save it. */
    method ProcessQueued(k: QueueId, net: Network, now: Timestamp)
      requires Valid() && k in queue
      modifies this`queue
      ensures Valid()
      ensures queue == old(queue)[k := Attempted(old(queue)[k], net(k, old(queue)[k].attempts + 1), now)]
    {
      var row := queue[k];
      row := row.(attempts := row.attempts + 1);
      var delivered := DeliverOutcome(net(k, row.attempts), true);
      if delivered == Success(true) {
        row := row.(processed := true);
      } else {
        row := row.(failedAt := Some(now));
      }
      queue := queue[k := row];
    }

    /** The bulk update `filter(processed=False, attempts__gte=retries).update(processed=True)`. */
    method CloseExhausted(retries: int)
      requires Valid()
      modifies this`queue
      ensures Valid()
      ensures queue == map k | k in old(queue) :: Exhaust(old(queue)[k], retries)
    {
      queue := map k | k in queue :: Exhaust(queue[k], retries);
    }
  }

  /** A loaded Message object: its row's fields plus the `_listeners_cache` memo. */
  class MessageInstance {
    const id: MessageId
    const obj: ObjKey
    var payload: string
    var processed: bool
    var listenersCache: Option<set<ListenerId>>

    /** A memo, once set, holds what resolution against the tables gives. */
    ghost predicate Consistent(db: Database)
      reads this`listenersCache, db`listeners, db`subjects
    {
      listenersCache.Some? ==> ResolveFor(db.listeners, db.subjects, obj) == Success(listenersCache.value)
    }

    /** The object the query set yields for row `row` with key `id`. */
    constructor (id: MessageId, row: Message)
      ensures this.id == id && obj == row.obj && payload == row.payload && processed == row.processed
      ensures listenersCache == None
    {
      this.id := id;
      obj := row.obj;
      payload := row.payload;
      processed := row.processed;
      listenersCache := None;
    }

    /** The `listeners` property: resolved once, by the OR query the loop builds, and
        served from the memo afterwards. */
    method Listeners(db: Database) returns (r: Result<set<ListenerId>, Error>)
      requires Consistent(db)
      modifies this`listenersCache
      ensures Consistent(db)
      ensures r == ResolveFor(db.listeners, db.subjects, obj)
      ensures old(listenersCache).Some? ==> listenersCache == old(listenersCache)
      ensures r.Success? ==> listenersCache == Some(r.value)
      ensures r.Failure? ==> listenersCache == old(listenersCache)
    {
      if listenersCache.Some? {
        return Success(listenersCache.value);
      }
      if obj !in db.subjects {
        return Failure(MissingObject(obj));
      }
      var props := DistinctProps(db.listeners, obj.objType);
      if |props| > 0 {
        var query := BuildQuery(props, db.subjects[obj]);
        if query.Failure? {
          return Failure(query.error);
        }
        FilterIsResolve(db.listeners, obj.objType, db.subjects[obj], query.value);
        listenersCache := Some(Filter(db.listeners, query.value));
      } else {
        listenersCache := Some({});
      }
      r := Success(listenersCache.value);
    }

    /** `has_listeners()`: whether the resolved set is non-empty. */
    method HasListeners(db: Database) returns (r: Result<bool, Error>)
      requires Consistent(db)
      modifies this`listenersCache
      ensures Consistent(db)
      ensures var s := ResolveFor(db.listeners, db.subjects, obj);
        r == if s.Success? then Success(s.value != {}) else Failure(s.error)
      ensures old(listenersCache).Some? ==> listenersCache == old(listenersCache)
    {
      var s := Listeners(db);
      if s.Failure? {
        return Failure(s.error);
      }
      return Success(|s.value| > 0);
    }

    /** `deliver()`: one queue row per listener, each attempted once straight away. */
    method Deliver(db: Database, net: Network, now: Timestamp) returns (err: Option<Error>)
      requires db.Valid() && Consistent(db) && id in db.messages
      modifies this`listenersCache, db`queue, db`nextQueueId
      ensures db.Valid() && Consistent(db) && db.nextQueueId >= old(db.nextQueueId)
      ensures var s := ResolveFor(db.listeners, db.subjects, obj);
        && (s.Failure? ==> err == Some(s.error) && db.queue == old(db.queue))
        && (s.Success? ==> err.None? && FannedOut(old(db.queue), db.queue, id, s.value, old(db.nextQueueId), net, now))
    {
      var s := Listeners(db);
      if s.Failure? {
        return Some(s.error);
      }
      var todo := s.value;
      ghost var done: set<ListenerId> := {};
      while todo != {}
        invariant todo !! done && todo + done == s.value
        invariant db.Valid() && Consistent(db) && id in db.messages && db.nextQueueId >= old(db.nextQueueId)
        invariant FannedOut(old(db.queue), db.queue, id, done, old(db.nextQueueId), net, now)
        decreases todo
      {
        var l :| l in todo;
        ghost var before := db.queue;
        var k := db.CreateAndProcess(id, l, net, now);
        FanOutStep(old(db.queue), before, id, done, old(db.nextQueueId), l, k, net, now);
        todo := todo - {l};
        done := done + {l};
      }
      return None;
    }

    /** `process(hook)`: with listeners, serialize the subject with the hook's fields
        and serializer, deliver, and save the message as processed; with none,
        delete it. */
    method Process(db: Database, hook: WebHook, net: Network, now: Timestamp) returns (err: Option<Error>)
      requires db.Valid() && Consistent(db) && id in db.messages
      modifies this, db`messages, db`queue, db`nextQueueId
      ensures db.Valid() && Consistent(db) && db.nextQueueId >= old(db.nextQueueId)
      ensures match ResolveFor(db.listeners, db.subjects, obj)
        case Failure(e) =>
          err == Some(e) && db.messages == old(db.messages) && db.queue == old(db.queue)
        case Success(s) =>
          && err.None?
          && (s == {} ==> db.messages == old(db.messages) - {id} && db.queue == Cascade(old(db.queue), id))
          && (s != {} ==>
                && payload == hook.serializer(obj, db.subjects[obj], hook.fields) && processed
                && db.messages == old(db.messages)[id := Message(obj, payload, true)]
                && FannedOut(old(db.queue), db.queue, id, s, old(db.nextQueueId), net, now))
    {
      var has := HasListeners(db);
      if has.Failure? {
        return Some(has.error);
      }
      if has.value {
        payload := hook.serializer(obj, db.subjects[obj], hook.fields);
        err := Deliver(db, net, now);
        processed := true;
        db.messages := db.messages[id := Message(obj, payload, processed)];
      } else {
        db.DeleteMessage(id);
        err := None;
      }
    }
  }
}
