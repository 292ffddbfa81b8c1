/** The webhook registry: registration of models, the signal handler that
    captures events, and the periodic run that processes new messages, retries
    failed queue rows and gives up on exhausted ones. */
module Hooks {
  import opened Entities
  import opened Resolution
  import opened Store

  /** One webhook's pass over one queue row: the retry step (one attempt, if the
      row is unprocessed and below the ceiling), then the give-up step. */
  function PassRow(t: MessageQueue, retries: int, delivered: bool, now: Timestamp): (r: MessageQueue)
    ensures r.message == t.message && r.listener == t.listener
    ensures t.processed ==> r == t
    ensures !t.processed && t.attempts < retries ==>
      && r.attempts == t.attempts + 1
      && (r.processed <==> delivered || r.attempts >= retries)
      && r.failedAt == (if delivered then t.failedAt else Some(now))
    ensures !t.processed && t.attempts >= retries ==> r == t.(processed := true)
    ensures !r.processed ==> r.attempts < retries
  {
    var retried := if !t.processed && t.attempts < retries then Attempted(t, delivered, now) else t;
    Exhaust(retried, retries)
  }

  /** Row k after the passes of webhooks whose ceilings are rs, in that order. */
  function Passes(t: MessageQueue, k: QueueId, rs: seq<int>, net: Network, now: Timestamp): (r: MessageQueue)
    ensures r.message == t.message && r.listener == t.listener
    ensures |rs| > 0 && !r.processed ==> r.attempts < rs[|rs| - 1]
    decreases |rs|
  {
    if rs == [] then t
    else
      var before := Passes(t, k, rs[..|rs| - 1], net, now);
      PassRow(before, rs[|rs| - 1], net(k, before.attempts + 1), now)
  }

  lemma PassesAppend(t: MessageQueue, k: QueueId, rs: seq<int>, r: int, net: Network, now: Timestamp)
    ensures var before := Passes(t, k, rs, net, now);
      Passes(t, k, rs + [r], net, now) == PassRow(before, r, net(k, before.attempts + 1), now)
  {
    assert (rs + [r])[..|rs|] == rs;
  }

  /** Across passes, attempts never decrease and grow by at most one per pass, and a
      processed row is left exactly as it was. */
  lemma {:induction false} PassesProgress(t: MessageQueue, k: QueueId, rs: seq<int>, net: Network, now: Timestamp)
    ensures var r := Passes(t, k, rs, net, now);
      && t.attempts <= r.attempts <= t.attempts + |rs|
      && (t.processed ==> r == t)
  {
    if rs != [] {
      PassesProgress(t, k, rs[..|rs| - 1], net, now);
    }
  }

  /** A listener that never answers, with a single webhook whose ceiling is retries:
      after the inline attempt and `runs` passes, the row has been attempted
      min(1 + runs, retries) times, and it is given up in the first pass whose retry
      reaches the ceiling (or that finds it already there). */
  lemma {:induction false} UnreachableListener(k: QueueId, msg: MessageId, l: ListenerId, retries: int, runs: nat,
                                              net: Network, now: Timestamp)
    requires retries >= 1
    requires forall n :: !net(k, n)
    ensures var r := Passes(FirstAttempt(k, msg, l, net, now), k, seq(runs, _ => retries), net, now);
      && r.attempts == (if 1 + runs < retries then 1 + runs else retries)
      && (r.processed <==> runs > 0 && 1 + runs >= retries)
      && r.failedAt == Some(now)
  {
    if runs > 0 {
      UnreachableListener(k, msg, l, retries, runs - 1, net, now);
      assert seq(runs, _ => retries)[..runs - 1] == seq(runs - 1, _ => retries);
    }
  }

  /** `register`'s first argument: a model, or an iterable of models. */
  datatype ModelArg = Model(model: TypeId) | Models(models: seq<TypeId>)

  /** `isinstance(model_or_iterable, ModelBase)` turns a single model into a list. */
  function ModelList(arg: ModelArg): seq<TypeId>
  {
    match arg
    case Model(m) => [m]
    case Models(ms) => ms
  }

  /** The ceilings of the webhooks registered for `order`, in that order. */
  ghost predicate CeilingsOf(registry: map<TypeId, WebHook>, order: seq<TypeId>, rs: seq<int>)
  {
    && |rs| == |order|
    && forall i :: 0 <= i < |order| ==> order[i] in registry && rs[i] == registry[order[i]].retries
  }

  /** One webhook's pass of `process`: every unprocessed row below the ceiling gets
      one `MessageQueue.process()` (whatever the type of its message), then every
      unprocessed row at or above the ceiling is marked processed. */
  method RetryPass(db: Database, retries: int, net: Network, now: Timestamp)
    requires db.Valid()
    modifies db`queue
    ensures db.Valid()
    ensures db.queue == map k | k in old(db.queue) :: PassRow(old(db.queue)[k], retries, net(k, old(db.queue)[k].attempts + 1), now)
  {
    var due := set k | k in db.queue && !db.queue[k].processed && db.queue[k].attempts < retries;
    ghost var start := db.queue;
    var todo := due;
    while todo != {}
      invariant todo <= due
      invariant db.Valid()
      invariant db.queue.Keys == start.Keys
      invariant forall k :: k in start ==>
        db.queue[k] == if k in due - todo then Attempted(start[k], net(k, start[k].attempts + 1), now) else start[k]
      decreases todo
    {
      var k :| k in todo;
      db.ProcessQueued(k, net, now);
      todo := todo - {k};
    }
    ghost var retried := db.queue;
    db.CloseExhausted(retries);
    RetryThenGiveUp(start, retried, db.queue, due, retries, net, now);
  }

  /** The retry step followed by the give-up step is PassRow on every row. */
  lemma RetryThenGiveUp(start: map<QueueId, MessageQueue>, retried: map<QueueId, MessageQueue>,
                        final: map<QueueId, MessageQueue>, due: set<QueueId>, retries: int, net: Network, now: Timestamp)
    requires due == set k | k in start && !start[k].processed && start[k].attempts < retries
    requires retried.Keys == start.Keys
    requires forall k :: k in start ==>
      retried[k] == if k in due then Attempted(start[k], net(k, start[k].attempts + 1), now) else start[k]
    requires final == map k | k in retried :: Exhaust(retried[k], retries)
    ensures final == map k | k in start :: PassRow(start[k], retries, net(k, start[k].attempts + 1), now)
  {
  }

  /** `WebHook.send`, the signal handler: a new unprocessed message about the saved
      instance. On a synchronous webhook it then calls `m.process()` without the
      hook it needs, which raises after the message exists. */
  method Send(hook: WebHook, db: Database, instance: ObjKey) returns (id: MessageId, err: Option<Error>)
    requires db.Valid()
    modifies db`messages, db`nextMessageId
    ensures db.Valid()
    ensures id !in old(db.messages)
    ensures db.messages == old(db.messages)[id := Message(instance, "", false)]
    ensures err == if hook.synchronous then Some(MissingHookArgument) else None
  {
    id := db.CreateMessage(instance);
    err := if hook.synchronous then Some(MissingHookArgument) else None;
  }

  /** Message m (row id before the run) ended as a successful `m.process(hook)`
      with its model's webhook leaves it: deleted when nobody listens, otherwise
      processed, with the payload that webhook serializes. */
  ghost predicate Handled(registry: map<TypeId, WebHook>, ls: seq<Listener>, subjects: map<ObjKey, Props>,
                          messages: map<MessageId, Message>, id: MessageId, m: Message)
  {
    && m.obj in subjects && m.obj.objType in registry
    && match ResolveFor(ls, subjects, m.obj)
       case Failure(_) => false
       case Success(s) =>
         if s == {} then id !in messages
         else
           var hook := registry[m.obj.objType];
           id in messages && messages[id] == Message(m.obj, hook.serializer(m.obj, subjects[m.obj], hook.fields), true)
  }

  /** Handled only looks at the message's own row. */
  lemma HandledFrame(registry: map<TypeId, WebHook>, ls: seq<Listener>, subjects: map<ObjKey, Props>,
                     messages: map<MessageId, Message>, messages': map<MessageId, Message>, id: MessageId, m: Message)
    requires Handled(registry, ls, subjects, messages, id, m)
    requires (id in messages <==> id in messages') && (id in messages ==> messages'[id] == messages[id])
    ensures Handled(registry, ls, subjects, messages', id, m)
  {
  }

  /** The queue since q0, while the message table became messages: an old row is
      still there, unchanged, exactly when its message is; a new row is a first
      attempt. */
  ghost predicate QueueSince(q0: map<QueueId, MessageQueue>, q: map<QueueId, MessageQueue>,
                             messages: map<MessageId, Message>, floor: nat, net: Network, now: Timestamp)
  {
    && (forall k :: k in q0 ==> k < floor && (k in q <==> q0[k].message in messages))
    && (forall k :: k in q0 && k in q ==> q[k] == q0[k])
    && (forall k :: k in q && k !in q0 ==> k >= floor && q[k] == FirstAttempt(k, q[k].message, q[k].listener, net, now))
  }

  /** The listeners message id resolves to against the tables (none when the
      message is gone or resolution fails). */
  function ListenersOf(ls: seq<Listener>, subjects: map<ObjKey, Props>, messages: map<MessageId, Message>,
                       id: MessageId): set<ListenerId>
  {
    if id !in messages then {}
    else match ResolveFor(ls, subjects, messages[id].obj)
      case Success(s) => s
      case Failure(_) => {}
  }

  /** The messages a run fanned out: unprocessed in m0, still present and processed now. */
  function Fanned(m0: map<MessageId, Message>, messages: map<MessageId, Message>): set<MessageId>
  {
    set id | id in m0 && !m0[id].processed && id in messages && messages[id].processed
  }

  /** The rows of q that are not in q0 are the fan-out of the messages in fanned:
      each belongs to one of them and to one of its resolved listeners, and each
      such (message, listener) pair has exactly one of them. */
  ghost predicate FanOut(q0: map<QueueId, MessageQueue>, q: map<QueueId, MessageQueue>, fanned: set<MessageId>,
                         ls: seq<Listener>, subjects: map<ObjKey, Props>, messages: map<MessageId, Message>)
  {
    && (forall k :: k in q && k !in q0 ==>
          q[k].message in fanned && q[k].listener in ListenersOf(ls, subjects, messages, q[k].message))
    && (forall id, l :: id in fanned && l in ListenersOf(ls, subjects, messages, id) ==>
          exists k :: k in q && k !in q0 && q[k].message == id && q[k].listener == l)
    && (forall k1, k2 :: k1 in q && k1 !in q0 && k2 in q && k2 !in q0 && k1 != k2 ==>
          q[k1].message != q[k2].message || q[k1].listener != q[k2].listener)
  }

  /** What a successful `Message.process` of message id does to the two tables:
      other messages are untouched, and either the message is deleted with its rows,
      or it stays, processed, about the same subject, and the queue gains one
      first-attempt row per listener it resolves to. */
  ghost predicate MessageStep(messages: map<MessageId, Message>, messages': map<MessageId, Message>,
                              q: map<QueueId, MessageQueue>, q': map<QueueId, MessageQueue>,
                              id: MessageId, floor: nat, ls: seq<Listener>, subjects: map<ObjKey, Props>,
                              net: Network, now: Timestamp)
  {
    && messages'.Keys <= messages.Keys
    && (forall i :: i in messages && i != id ==> i in messages' && messages'[i] == messages[i])
    && ((id !in messages' && q' == Cascade(q, id)) ||
        (&& id in messages && id in messages' && messages'[id].processed && messages'[id].obj == messages[id].obj
         && FannedOut(q, q', id, ListenersOf(ls, subjects, messages', id), floor, net, now)))
  }

  /** A message step keeps FanOut, with the message added to the fanned-out ones
      when it stays. */
  lemma FanOutStepRun(q0: map<QueueId, MessageQueue>, q: map<QueueId, MessageQueue>, q': map<QueueId, MessageQueue>,
                      m0: map<MessageId, Message>, messages: map<MessageId, Message>, messages': map<MessageId, Message>,
                      id: MessageId, floor: nat, floor': nat, ls: seq<Listener>, subjects: map<ObjKey, Props>,
                      net: Network, now: Timestamp)
    requires forall k :: k in q0 ==> k < floor
    requires floor <= floor'
    requires FanOut(q0, q, Fanned(m0, messages), ls, subjects, messages)
    requires id in m0 && !m0[id].processed && id in messages && !messages[id].processed
    requires MessageStep(messages, messages', q, q', id, floor', ls, subjects, net, now)
    ensures FanOut(q0, q', Fanned(m0, messages'), ls, subjects, messages')
  {
    var F, F' := Fanned(m0, messages), Fanned(m0, messages');
    assert id !in F;
    forall i | i != id
      ensures ListenersOf(ls, subjects, messages', i) == ListenersOf(ls, subjects, messages, i)
      ensures i in F' <==> i in F
    {
    }
    if id !in messages' {
      assert F' == F;
      forall i, l | i in F' && l in ListenersOf(ls, subjects, messages', i)
        ensures exists k :: k in q' && k !in q0 && q'[k].message == i && q'[k].listener == l
      {
        var k :| k in q && k !in q0 && q[k].message == i && q[k].listener == l;
        assert k in q';
      }
    } else {
      var s := ListenersOf(ls, subjects, messages', id);
      assert F' == F + {id};
      forall k | k in q' && k !in q0
        ensures q'[k].message in F' && q'[k].listener in ListenersOf(ls, subjects, messages', q'[k].message)
      {
        if k !in q {
          assert q'[k].message == id && q'[k].listener in s;
        }
      }
      forall i, l | i in F' && l in ListenersOf(ls, subjects, messages', i)
        ensures exists k :: k in q' && k !in q0 && q'[k].message == i && q'[k].listener == l
      {
        if i == id {
          var k :| k in q' && k !in q && q'[k].listener == l;
          assert k >= floor';
        } else {
          var k :| k in q && k !in q0 && q[k].message == i && q[k].listener == l;
          assert q'[k] == q[k];
        }
      }
      forall k1, k2 | k1 in q' && k1 !in q0 && k2 in q' && k2 !in q0 && k1 != k2
        ensures q'[k1].message != q'[k2].message || q'[k1].listener != q'[k2].listener
      {
        if k1 in q && k2 in q {
          assert q'[k1] == q[k1] && q'[k2] == q[k2];
        } else if k1 in q {
          assert q'[k1].message in F && q'[k2].message == id;
        } else if k2 in q {
          assert q'[k2].message in F && q'[k1].message == id;
        }
      }
    }
  }

  /** Deleting a message with its rows, or fanning one out, keeps QueueSince. */
  lemma QueueStep(q0: map<QueueId, MessageQueue>, q: map<QueueId, MessageQueue>, q': map<QueueId, MessageQueue>,
                  messages: map<MessageId, Message>, messages': map<MessageId, Message>,
                  id: MessageId, floor: nat, floor': nat, ls: seq<Listener>, subjects: map<ObjKey, Props>,
                  net: Network, now: Timestamp)
    requires QueueSince(q0, q, messages, floor, net, now) && floor <= floor'
    requires MessageStep(messages, messages', q, q', id, floor', ls, subjects, net, now)
    ensures QueueSince(q0, q', messages', floor, net, now)
  {
  }

  /** The message table since m0, with the messages in done handled and the others untouched. */
  ghost predicate MessagesSince(registry: map<TypeId, WebHook>, ls: seq<Listener>, subjects: map<ObjKey, Props>,
                                m0: map<MessageId, Message>, messages: map<MessageId, Message>, done: set<MessageId>)
  {
    && messages.Keys <= m0.Keys
    && (forall id :: id in m0 && id !in done ==> id in messages && messages[id] == m0[id])
    && (forall id :: id in done ==> id in m0 && Handled(registry, ls, subjects, messages, id, m0[id]))
  }

  lemma MessagesStep(registry: map<TypeId, WebHook>, ls: seq<Listener>, subjects: map<ObjKey, Props>,
                     m0: map<MessageId, Message>, messages: map<MessageId, Message>, messages': map<MessageId, Message>,
                     q: map<QueueId, MessageQueue>, q': map<QueueId, MessageQueue>,
                     done: set<MessageId>, id: MessageId, floor: nat, net: Network, now: Timestamp)
    requires MessagesSince(registry, ls, subjects, m0, messages, done)
    requires id in m0 && id !in done
    requires MessageStep(messages, messages', q, q', id, floor, ls, subjects, net, now)
    requires Handled(registry, ls, subjects, messages', id, m0[id])
    ensures MessagesSince(registry, ls, subjects, m0, messages', done + {id})
  {
    forall i | i in done
      ensures Handled(registry, ls, subjects, messages', i, m0[i])
    {
      HandledFrame(registry, ls, subjects, messages, messages', i, m0[i]);
    }
  }

  /** The queue after a run: the message phase (QueueSince and FanOut) followed by
      the passes with ceilings rs over every row, old or new. */
  lemma RunQueue(q0: map<QueueId, MessageQueue>, mid: map<QueueId, MessageQueue>, q: map<QueueId, MessageQueue>,
                 messages: map<MessageId, Message>, floor: nat, fanned: set<MessageId>,
                 ls: seq<Listener>, subjects: map<ObjKey, Props>, rs: seq<int>, net: Network, now: Timestamp)
    requires QueueSince(q0, mid, messages, floor, net, now)
    requires FanOut(q0, mid, fanned, ls, subjects, messages)
    requires q.Keys == mid.Keys && forall k :: k in mid ==> q[k] == Passes(mid[k], k, rs, net, now)
    ensures FanOut(q0, q, fanned, ls, subjects, messages)
    ensures forall k :: k in q0 ==> (k in q <==> q0[k].message in messages)
    ensures forall k :: k in q0 && k in q ==> q[k] == Passes(q0[k], k, rs, net, now)
    ensures forall k :: k in q && k !in q0 ==>
      q[k] == Passes(FirstAttempt(k, q[k].message, q[k].listener, net, now), k, rs, net, now)
    ensures forall k :: k in q0 && k in q ==>
      q0[k].attempts <= q[k].attempts && (q0[k].processed ==> q[k] == q0[k])
  {
    forall k | k in q && k !in q0
      ensures q[k] == Passes(FirstAttempt(k, q[k].message, q[k].listener, net, now), k, rs, net, now)
    {
      assert mid[k] == FirstAttempt(k, mid[k].message, mid[k].listener, net, now);
    }
    forall k | k in q0 && k in q
      ensures q0[k].attempts <= q[k].attempts && (q0[k].processed ==> q[k] == q0[k])
    {
      PassesProgress(q0[k], k, rs, net, now);
    }
    FanOutKept(q0, mid, q, fanned, ls, subjects, messages);
  }

  /** FanOut only looks at the keys, messages and listeners of the rows. */
  lemma FanOutKept(q0: map<QueueId, MessageQueue>, q: map<QueueId, MessageQueue>, q': map<QueueId, MessageQueue>,
                   fanned: set<MessageId>, ls: seq<Listener>, subjects: map<ObjKey, Props>, messages: map<MessageId, Message>)
    requires FanOut(q0, q, fanned, ls, subjects, messages)
    requires q'.Keys == q.Keys
    requires forall k :: k in q ==> q'[k].message == q[k].message && q'[k].listener == q[k].listener
    ensures FanOut(q0, q', fanned, ls, subjects, messages)
  {
    forall id, l | id in fanned && l in ListenersOf(ls, subjects, messages, id)
      ensures exists k :: k in q' && k !in q0 && q'[k].message == id && q'[k].listener == l
    {
      var k :| k in q && k !in q0 && q[k].message == id && q[k].listener == l;
      assert q'[k].message == id && q'[k].listener == l;
    }
  }

  /** One more webhook pass extends the passes every row has gone through. */
  lemma PassesExtend(start: map<QueueId, MessageQueue>, before: map<QueueId, MessageQueue>,
                     after: map<QueueId, MessageQueue>, rs: seq<int>, r: int, net: Network, now: Timestamp)
    requires before.Keys == start.Keys
    requires forall k :: k in start ==> before[k] == Passes(start[k], k, rs, net, now)
    requires after == map k | k in before :: PassRow(before[k], r, net(k, before[k].attempts + 1), now)
    ensures after.Keys == start.Keys
    ensures forall k :: k in start ==> after[k] == Passes(start[k], k, rs + [r], net, now)
  {
    forall k | k in start
      ensures after[k] == Passes(start[k], k, rs + [r], net, now)
    {
      PassesAppend(start[k], k, rs, r, net, now);
      assert after[k] == PassRow(before[k], r, net(k, before[k].attempts + 1), now);
    }
  }

  class WebHookRegistry {
    var registry: map<TypeId, WebHook>
    /** The serializer `serializers.get_serializer("json")()` gives. */
    const json: Serializer

    constructor (json: Serializer)
      ensures registry == map[] && this.json == json
    {
      registry := map[];
      this.json := json;
    }

    /** `register`: one WebHook for all the given models, with post_save and the JSON
        serializer when none is given; other entries are kept, and a model that was
        registered before is overwritten. */
    method Register(arg: ModelArg, fields: seq<string>, signal: Option<Signal> := None,
                    serializer: Option<Serializer> := None, retries: int := 1, synchronous: bool := false)
      modifies this`registry
      ensures var hook := WebHook(fields, if signal.Some? then signal.value else PostSave,
                                  if serializer.Some? then serializer.value else json, retries, synchronous);
        && registry.Keys == old(registry).Keys + (set m | m in ModelList(arg))
        && (forall m :: m in ModelList(arg) ==> registry[m] == hook)
        && (forall m :: m in old(registry) && m !in ModelList(arg) ==> registry[m] == old(registry)[m])
    {
      var models := ModelList(arg);
      var sig := if signal.None? then PostSave else signal.value;
      var ser := if serializer.None? then json else serializer.value;
      var webhook := WebHook(fields, sig, ser, retries, synchronous);
      var i := 0;
      while i < |models|
        invariant 0 <= i <= |models|
        invariant registry.Keys == old(registry).Keys + (set m | m in models[..i])
        invariant forall m :: m in models[..i] ==> registry[m] == webhook
        invariant forall m :: m in old(registry) && m !in models[..i] ==> registry[m] == old(registry)[m]
      {
        assert models[..i + 1] == models[..i] + [models[i]];
        registry := registry[models[i] := webhook];
        i := i + 1;
      }
      assert models[..i] == models;
    }

    /** `m.process(self.registry[m.obj._default_manager.model])` for the message
        row id: fails when the subject is gone, its model is not registered, or
        resolution fails; otherwise handles the message. */
    method ProcessOne(db: Database, id: MessageId, net: Network, now: Timestamp) returns (err: Option<Error>)
      requires db.Valid() && id in db.messages
      modifies db`messages, db`queue, db`nextQueueId
      ensures db.Valid() && db.nextQueueId >= old(db.nextQueueId)
      ensures var m := old(db.messages)[id];
        err.Some? <==> m.obj !in db.subjects || m.obj.objType !in registry || ResolveFor(db.listeners, db.subjects, m.obj).Failure?
      ensures err.Some? ==> db.messages == old(db.messages) && db.queue == old(db.queue)
      ensures err.None? ==>
        && Handled(registry, db.listeners, db.subjects, db.messages, id, old(db.messages)[id])
        && MessageStep(old(db.messages), db.messages, old(db.queue), db.queue, id, old(db.nextQueueId),
                       db.listeners, db.subjects, net, now)
    {
      var row := db.messages[id];
      if row.obj !in db.subjects {
        return Some(MissingObject(row.obj));
      }
      var model := row.obj.objType;
      if model !in registry {
        return Some(UnregisteredModel(model));
      }
      var m := new MessageInstance(id, row);
      err := m.Process(db, registry[model], net, now);
    }

    /** The first part of `process`: every unprocessed message goes to
        `Message.process` with the webhook of its subject's model. A missing subject,
        an unregistered model or a failed attribute lookup stops the run, leaving
        that message as it was. */
    method ProcessMessages(db: Database, net: Network, now: Timestamp) returns (err: Option<Error>)
      requires db.Valid()
      modifies db`messages, db`queue, db`nextQueueId
      ensures db.Valid()
      ensures db.messages.Keys <= old(db.messages).Keys
      ensures forall id :: id in old(db.messages) && old(db.messages)[id].processed ==>
        id in db.messages && db.messages[id] == old(db.messages)[id]
      ensures forall id :: id in old(db.messages) ==>
        || (id in db.messages && db.messages[id] == old(db.messages)[id])
        || Handled(registry, db.listeners, db.subjects, db.messages, id, old(db.messages)[id])
      ensures err.None? ==> forall id :: id in old(db.messages) && !old(db.messages)[id].processed ==>
        Handled(registry, db.listeners, db.subjects, db.messages, id, old(db.messages)[id])
      ensures err.None? ==> forall id :: id in db.messages ==> db.messages[id].processed
      ensures QueueSince(old(db.queue), db.queue, db.messages, old(db.nextQueueId), net, now)
      ensures FanOut(old(db.queue), db.queue, Fanned(old(db.messages), db.messages), db.listeners, db.subjects, db.messages)
      ensures err.Some? ==> exists id ::
        && id in old(db.messages) && !old(db.messages)[id].processed
        && (|| old(db.messages)[id].obj !in db.subjects
            || old(db.messages)[id].obj.objType !in registry
            || ResolveFor(db.listeners, db.subjects, old(db.messages)[id].obj).Failure?)
    {
      var todo := set id | id in db.messages && !db.messages[id].processed;
      ghost var pending := todo;
      ghost var done: set<MessageId> := {};
      while todo != {}
        invariant todo !! done && todo + done == pending
        invariant forall id :: id in pending <==> id in old(db.messages) && !old(db.messages)[id].processed
        invariant db.Valid() && db.nextQueueId >= old(db.nextQueueId)
        invariant MessagesSince(registry, db.listeners, db.subjects, old(db.messages), db.messages, done)
        invariant QueueSince(old(db.queue), db.queue, db.messages, old(db.nextQueueId), net, now)
        invariant FanOut(old(db.queue), db.queue, Fanned(old(db.messages), db.messages), db.listeners, db.subjects, db.messages)
        decreases todo
      {
        var id :| id in todo;
        ghost var (messages, q, floor) := (db.messages, db.queue, db.nextQueueId);
        err := ProcessOne(db, id, net, now);
        if err.Some? {
          return;
        }
        QueueStep(old(db.queue), q, db.queue, messages, db.messages, id, old(db.nextQueueId), floor,
                  db.listeners, db.subjects, net, now);
        FanOutStepRun(old(db.queue), q, db.queue, old(db.messages), messages, db.messages, id, old(db.nextQueueId), floor,
                      db.listeners, db.subjects, net, now);
        MessagesStep(registry, db.listeners, db.subjects, old(db.messages), messages, db.messages, q, db.queue,
                     done, id, floor, net, now);
        todo := todo - {id};
        done := done + {id};
      }
      return None;
    }

    /** `process`, the periodic run: new messages first, then for each registered
        model (each registry value, duplicates included) a retry pass and a give-up
        pass over ALL queue rows. On success every queue row has gone through the
        passes in `order`, and nothing unprocessed is left at or above the ceiling
        of the last one. */
    method Process(db: Database, net: Network, now: Timestamp)
      returns (err: Option<Error>, ghost order: seq<TypeId>, ghost ceilings: seq<int>)
      requires db.Valid()
      modifies db`messages, db`queue, db`nextQueueId
      ensures db.Valid()
      ensures forall id :: id in old(db.messages) && old(db.messages)[id].processed ==>
        id in db.messages && db.messages[id] == old(db.messages)[id]
      ensures err.None? ==> forall id :: id in old(db.messages) && !old(db.messages)[id].processed ==>
        Handled(registry, db.listeners, db.subjects, db.messages, id, old(db.messages)[id])
      ensures err.None? ==> forall id :: id in db.messages ==> db.messages[id].processed
      ensures err.None? ==>
        && CeilingsOf(registry, order, ceilings)
        && (forall t :: t in registry <==> t in order)
        && (forall i, j :: 0 <= i < j < |order| ==> order[i] != order[j])
      ensures err.Some? ==> order == [] && ceilings == []
      ensures forall k :: k in old(db.queue) ==> (k in db.queue <==> old(db.queue)[k].message in db.messages)
      ensures forall k :: k in old(db.queue) && k in db.queue ==>
        db.queue[k] == Passes(old(db.queue)[k], k, ceilings, net, now)
      ensures forall k :: k in db.queue && k !in old(db.queue) ==>
        db.queue[k] == Passes(FirstAttempt(k, db.queue[k].message, db.queue[k].listener, net, now), k, ceilings, net, now)
      ensures forall k :: k in old(db.queue) && k in db.queue ==>
        old(db.queue)[k].attempts <= db.queue[k].attempts &&
        (old(db.queue)[k].processed ==> db.queue[k] == old(db.queue)[k])
      ensures err.None? && |registry| > 0 ==> forall k :: k in db.queue && !db.queue[k].processed ==>
        db.queue[k].attempts < registry[order[|order| - 1]].retries
      ensures FanOut(old(db.queue), db.queue, Fanned(old(db.messages), db.messages), db.listeners, db.subjects, db.messages)
      ensures db.messages.Keys <= old(db.messages).Keys
      ensures forall id :: id in old(db.messages) ==>
        || (id in db.messages && db.messages[id] == old(db.messages)[id])
        || Handled(registry, db.listeners, db.subjects, db.messages, id, old(db.messages)[id])
      ensures err.Some? ==> exists id ::
        && id in old(db.messages) && !old(db.messages)[id].processed
        && (|| old(db.messages)[id].obj !in db.subjects
            || old(db.messages)[id].obj.objType !in registry
            || ResolveFor(db.listeners, db.subjects, old(db.messages)[id].obj).Failure?)
    {
      order, ceilings := [], [];
      ghost var q0 := db.queue;
      err := ProcessMessages(db, net, now);
      ghost var mid := db.queue;
      if err.None? {
        order, ceilings := RetryAll(db, net, now);
      }
      RunQueue(q0, mid, db.queue, db.messages, old(db.nextQueueId), Fanned(old(db.messages), db.messages),
               db.listeners, db.subjects, ceilings, net, now);
    }

    /** The second part of `process`: one RetryPass per registered webhook, in the
        registry's (unspecified) iteration order. */
    method RetryAll(db: Database, net: Network, now: Timestamp) returns (ghost order: seq<TypeId>, ghost ceilings: seq<int>)
      requires db.Valid()
      modifies db`queue
      ensures db.Valid()
      ensures CeilingsOf(registry, order, ceilings)
      ensures forall t :: t in registry <==> t in order
      ensures forall i, j :: 0 <= i < j < |order| ==> order[i] != order[j]
      ensures db.queue.Keys == old(db.queue).Keys
      ensures forall k :: k in old(db.queue) ==> db.queue[k] == Passes(old(db.queue)[k], k, ceilings, net, now)
    {
      order, ceilings := [], [];
      var keys := registry.Keys;
      while keys != {}
        invariant keys <= registry.Keys
        invariant forall t :: t in registry ==> (t in keys <==> t !in order)
        invariant forall i, j :: 0 <= i < j < |order| ==> order[i] != order[j]
        invariant CeilingsOf(registry, order, ceilings)
        invariant db.Valid() && db.queue.Keys == old(db.queue).Keys
        invariant forall k :: k in old(db.queue) ==> db.queue[k] == Passes(old(db.queue)[k], k, ceilings, net, now)
        decreases keys
      {
        var t :| t in keys;
        ghost var before := db.queue;
        RetryPass(db, registry[t].retries, net, now);
        PassesExtend(old(db.queue), before, db.queue, ceilings, registry[t].retries, net, now);
        order, ceilings := order + [t], ceilings + [registry[t].retries];
        keys := keys - {t};
      }
    }
  }
}
