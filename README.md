# django_webhooks: listener matching, fan-out and the retry sweep

This project models the core of the `webhooks` Django app:

- **Registration.** A model is registered with a `WebHook`, which holds the fields to serialize, the signal, the serializer, the retry ceiling and the synchronous flag.
- **Event capture.** Saving a registered instance creates an unprocessed `Message` about it.
- **The periodic run (`webhooks.process()`).**
  - The run hands every unprocessed message to `Message.process` with the webhook of its subject's model.
  - A message nobody listens to is deleted.
  - Any other message is serialized and fanned out: one `MessageQueue` row per matching `Listener`. Each row is attempted once straight away, and then the message is marked processed.
  - Then, for every registry entry, the run retries each unprocessed queue row below that webhook's ceiling. After that it marks as processed every unprocessed row at or above the ceiling.

The model has five modules:

- `Entities`: the rows and values.
- `Resolution`: the `listeners` property, modelled as a reference function `Resolve` and as the loop that builds the OR query (`BuildQuery`). A lemma shows the two agree.
- `Store`: the database tables as the `Database` class; a loaded message with its `_listeners_cache` memo as the `MessageInstance` class; one attempt of a queue row; `Message.process`/`deliver`.
- `Hooks`: the `WebHookRegistry` class with `register` and `process`, `WebHook.send`, and the functions `PassRow`/`Passes` that specify what the sweep does to one row.
- `Scenarios`: concrete cases, proved.

The network is an oracle `net(k, n)`: whether attempt number `n` of queue row `k` succeeds, that is, `urlopen` returns without raising `URLError`. That means a 2xx answer: `HTTPError`, raised for any other status, is a subclass of `URLError`, so a listener that answers 404 or 500 counts as a failed attempt. `datetime.now()` is a `now` parameter, which stays the same for a whole run. The serializer is a function value.

## Behaviour of the code worth knowing

- **Empty property.** A listener with an empty `obj_property` makes `getattr(obj, "")` fail. So resolution fails with `AttributeError` for every message whose subject has that listener's type (models.py:76-80, `Entities.Attr`); messages of other types are unaffected.
- **No listener of the subject's type.** The result is the empty query set (models.py:89), so the message is deleted (models.py:46-47).
- **Cross-type matching.** The final filter is `Listener.objects.filter(q)` with no type restriction (models.py:87). A listener of *another* type whose property and value match is also selected (`Scenarios.CrossTypeMatch`).
- **Retry and give-up are not per type.**
  - Each registry entry's retry and give-up steps run over *all* queue rows (hooks.py:57, 62).
  - A row can be retried by several webhooks in one run.
  - A row can be closed under the smallest ceiling among the registered webhooks (`Scenarios.CrossTypeGiveUp`).
  - A webhook registered for several models gets one pass per model.
- **When a row is given up.**
  - Rows created in the message phase are eligible for the same run's retry passes. With the default ceiling of 1, a row whose first attempt failed is closed by the first pass without a retry.
  - A row whose failed retry reaches the ceiling is closed in that same pass.
  - So with a ceiling of 2 and an unreachable listener, the row is closed at the end of its first run, after two attempts (`Hooks.UnreachableListener` with `runs = 1`).
- **Synchronous `send`.** It calls `m.process()` without its `hook` argument (hooks.py:84). This raises a `TypeError` after the message has been created (`Hooks.Send` returns `MissingHookArgument`).

## Model

| member | source | states |
|---|---|---|
| Resolution.DistinctProps | models.py:76 | the properties watched by listeners of the type, each exactly once |
| Resolution.FirstMissing | models.py:79-80 | the position of the first watched property the subject lacks; every earlier property is present |
| Resolution.Resolve | models.py:65-90 | no listener of the type gives the empty set. Resolution fails iff a listener of the type watches a property the subject lacks, and then fails with `AttributeError` naming a watched property the subject lacks. Otherwise listener i is selected iff its property is watched by some listener of the type and the subject's value of it equals the listener's value. The listener's own type is not checked. |
| Resolution.ResolveFor | models.py:28-89 | a message whose generic foreign key finds no subject fails (its `obj` is None, so the lookup raises). Otherwise resolution fails iff a listener of the subject's type watches a property it lacks, and a success is the reference resolution. |
| Resolution.BuildQuery | models.py:78-86 | the OR-of-ANDs query loop fails exactly at the first missing attribute. Otherwise the query selects exactly the listeners whose (property, value) pair is (p, subject's value of p) for a watched p. |
| Resolution.FilterIsResolve | models.py:87 | filtering the whole listener table with the built query gives the reference resolution |
| Store.DeliverOutcome | models.py:145-165 | delivery returns True iff `urlopen` returned without `URLError`. On a `URLError` it returns False when failing silently, and otherwise raises it. |
| Store.Attempted | models.py:137-143 | one attempt adds exactly 1 to `attempts`. `processed` becomes true iff it was true or delivery succeeded. `failed_at` is stamped only on failure. Message and listener are kept. |
| Store.FirstAttempt | models.py:55 | a freshly created row after its inline attempt has `attempts == 1`, is processed iff the first delivery succeeded, and otherwise has `failed_at` set |
| Store.Exhaust | hooks.py:62 | the give-up update leaves no unprocessed row at or above the ceiling. A row it closes changes only `processed`, so `attempts` and `failed_at` are kept. Processed rows and rows below the ceiling are left alone. |
| Store.Database.CreateMessage | hooks.py:82 | a new id, and the table gains exactly one unprocessed message with an empty payload about the instance |
| Store.Database.DeleteMessage | models.py:47 | the message is removed together with its queue rows |
| Store.Database.CreateQueueRow | models.py:55 | the queue gains exactly one unprocessed, never-attempted row for the message and listener, under a fresh key above every existing one |
| Store.Database.CreateAndProcess | models.py:55 | the queue gains exactly one row under a fresh key, in its first-attempt state |
| Store.Database.ProcessQueued | models.py:137-143 | row k becomes `Attempted` with the outcome of its next attempt number. Every other row is unchanged. |
| Store.Database.CloseExhausted | hooks.py:62 | every row of the table goes through `Exhaust` |
| Store.MessageInstance.Listeners | models.py:65-90 | returns the reference resolution. The memo, once set, is never recomputed or changed, and it is set on success only. |
| Store.MessageInstance.HasListeners | models.py:92-97 | true iff the resolved set is non-empty, and the resolution error otherwise |
| Store.MessageInstance.Deliver | models.py:49-55 | exactly one new row per resolved listener, no others, each in its first-attempt state; old rows are unchanged |
| Store.MessageInstance.Process | models.py:36-47 | if resolution fails, nothing changes and the error is returned. With no listeners, the message and its rows are deleted. Otherwise the payload comes from the hook's serializer and fields, the message is saved as processed, and the queue is fanned out. |
| Hooks.PassRow | hooks.py:56-62 | one webhook's pass on a row. A processed row is untouched. An unprocessed row below the ceiling gets one attempt: `failed_at` is stamped iff it fails, and the row is closed iff it was delivered or reached the ceiling. A row at or above the ceiling is closed without an attempt, changing nothing else. Afterwards no unprocessed row is at or above the ceiling. |
| Hooks.Passes | hooks.py:56-62 | after a sequence of passes, message and listener are kept, and an unprocessed row is below the last ceiling |
| Hooks.PassesProgress | hooks.py:56-62 | across passes, `attempts` never decreases and grows by at most one per pass; a processed row is never modified |
| Hooks.UnreachableListener | hooks.py:56-62 | with an unreachable listener and one webhook of ceiling R, after `runs` runs the row has min(1 + runs, R) attempts. It is closed exactly from the first run whose pass reaches R. |
| Hooks.RetryPass | hooks.py:57-62 | the retry loop followed by the bulk update is `PassRow` on every row, whatever the subject type |
| Hooks.Send | hooks.py:77-84 | exactly one new unprocessed message about the instance. The synchronous path fails after creating it. |
| Hooks.FanOutStepRun | hooks.py:52-53 | handing one more message to `Message.process` keeps the run's fan-out: the fanned-out messages grow by that message when it stays, and the new rows stay one per (message, resolved listener) pair |
| Hooks.RunQueue | hooks.py:45-62 | over a run, an old row survives iff its message does. Surviving rows and new rows are their old or first-attempt state after the run's passes. The fan-out of the message phase is kept through the passes. Attempts are monotone and processed rows are untouched. |
| Hooks.WebHookRegistry.Register | hooks.py:14-43 | a single model is a one-element list. All given models map to one `WebHook` built with the defaults (post_save, the JSON serializer, retries 1, asynchronous) where no argument is given. Other entries are kept, and re-registered models are overwritten. |
| Hooks.WebHookRegistry.ProcessOne | hooks.py:53 | fails, changing nothing, iff the subject is gone, its model is unregistered (KeyError) or resolution fails. Otherwise the message is handled with its model's webhook. Other messages are untouched. Either the message is deleted with its rows, or the queue gains exactly one first-attempt row per resolved listener and no other row. |
| Hooks.WebHookRegistry.ProcessMessages | hooks.py:50-53 | processed messages are untouched. Every message is either untouched or handled. Without error every unprocessed message is handled and every remaining message is processed. On error, some unprocessed message has a missing subject, an unregistered model or a failing resolution. Old queue rows go with their messages. The new rows are first attempts: exactly one per (message, listener) pair for each message the phase processed and each listener it resolves to, and no others. |
| Hooks.WebHookRegistry.RetryAll | hooks.py:55-62 | one `RetryPass` per registry entry: every row equals `Passes` over the ceilings of the entries in iteration order, and `order` is a permutation of the registered models |
| Hooks.WebHookRegistry.Process | hooks.py:45-62 | the message phase, then the passes. No message appears. Every message is untouched or handled, and processed ones are untouched. On error, some unprocessed message has a missing subject, an unregistered model or a failing resolution. Every row, old or new, is its state before the passes run through `Passes`. The new rows are exactly one per (message, resolved listener) pair of the messages the run processed. Attempts are monotone, processed rows are untouched, and no unprocessed row is at or above the last pass's ceiling. |
| Scenarios.CrossTypeMatch | models.py:76-87 | a user "bob" reaches both a user listener and a post listener watching `username == "bob"` |
| Scenarios.NoListenerOfType | models.py:76-89 | a subject of a type nobody listens to resolves to the empty set |
| Scenarios.MissingAttribute | models.py:79-80 | a subject lacking a watched attribute makes resolution fail with `AttributeError` for it |
| Scenarios.CrossTypeGiveUp | hooks.py:56-62 | a row of a ceiling-3 model that fails is retried once and then closed by a ceiling-1 webhook's pass in the same run |

## Left out

- HTTP delivery (`urllib2.urlopen`, the 3-second socket timeout and its save/restore): network I/O and process-global state. Each attempt's outcome is the oracle `net`.
- The ORM, ContentType and GenericForeignKey machinery, `select_related` and lazy query sets. Tables are in-memory maps and a listener sequence. A content type is its name, and a subject is a map from attribute names to the strings a CharField lookup compares with. A subject attribute of `None` or of a non-string type is not distinguished.
- The serializer library and the JSON serializer lookup: the serializer is a function value; the default one is given to the registry's constructor.
- Signal wiring (`WebHook.connect`): the framework's event bus. `Send` is the handler itself.
- `WebHook.__init__` is the `WebHook` datatype constructor. A `WebHook` built directly with `None` fields, signal or serializer, which `register` never does, is not modelled.
- `datetime.now()`: one `now` per call.
- The unused `digest` field, the `print` on failure, `__unicode__`, the commented-out hasher, and the `created_at`/`updated_at` fields.
- `bin/process.py`: a cron entry point that only calls `process`; it is not part of this model.
- The listener and subject tables: the core only reads them, so they do not change during a run. Changing a subject between its save and the run is modelled only through the subject table the run reads.
- The order of query sets and of the registry's `values()` is unspecified: the model picks messages, rows and listeners nondeterministically, and `Process` returns the order of passes as a ghost sequence.
- Exceptions from `urlopen` other than `URLError`, such as `socket.timeout` while the response is read: they are not caught by `fail_silently`. They would abort the run with the attempt counted in memory but not saved. The model has only the two outcomes of `net`.
- Database transactions: a failing run keeps the changes made before the failure, as the autocommit code does, but no rollback behaviour is modelled.
- Hooks.WebHookRegistry.Process: `order` and `ceilings` are ghost, so the run's queue state is stated relative to an iteration order the model does not fix.
