# Alertmanager webhook receiver: alert reconciliation, in Dafny

This project models the core of a small Go service. The service receives
Alertmanager webhook notifications on `POST /api/v1/webhooks/alertmanager`
and keeps one row per alert fingerprint in a PostgreSQL `alerts` table. The
model covers the request handler's reconciliation loop, the `Alert` row, the
webhook payload and the four Prometheus counters. It proves what the loop
does to the table and to the counters.

For each alert of a payload, in payload order, the handler looks up the row
with the alert's fingerprint. There are three outcomes:

- **new**: there is no row, so one is inserted built from the alert, with `createdAt = now`.
- **updated**: a row exists with another status, so only its `status` and `endsAt` are overwritten.
- **duplicate**: a row exists with the same status, so nothing is written.

Each outcome raises its own counter. Before the loop, the received counter
goes up by the payload length. Any failure aborts the rest of the request
with nothing rolled back. The failures are a lookup error other than "not
found", a JSON encoding error, an insert error or an update error.

## Layout

- `alerts.dfy`, module `Alerts`: the data model and the table's constraints (`Valid`).
  - `AlertRecord` is one row.
  - `WebhookAlert` is one payload element.
  - `Metrics` holds the four counters.
  - `State` is table, next primary key and counters together.
  - `Fault` and `Env` describe the environment.
- `reconcile.dfy`, module `Reconciliation`: the specification as functions, plus per-alert lemmas.
  - `Step` is one alert.
  - `Reconcile` is the loop.
  - `Handle` is the request.
- `batch.dfy`, module `Batch`: lemmas about whole payloads. They cover
  uniqueness, rows never deleted, where processing stops, splitting a payload,
  and order within a payload.
- `webhook.dfy`, module `Webhook`: the imperative model. Class
  `AlertmanagerReceiver` holds the table (a `map` keyed by fingerprint), the
  next primary key and the four counters as fields. Its methods change those
  fields in place. `HandleAlertmanagerWebhook` runs the `while` loop, and its
  postcondition equates the new state and the result with `Handle`.

## Environment as parameters

The clock and the database's failures cannot be seen from the code, so they
are inputs. `env[i]` gives the value `time.Now()` returns while alert `i` is
processed, plus an optional fault. A fault takes effect only if alert `i`'s
path attempts the operation it names. For example, `UpdateError` does
nothing to an alert whose fingerprint is unseen.

The handler and `Handle` require `|env| == |alerts|`. That constrains only
this oracle, not the handler's input.

## Where the code and its design description differ

The model follows the code (main.go:142-207):

- **Failures.** The design describes per-event isolation: a failed event is
  recorded and the batch goes on. The code returns HTTP 500 at the first
  failure, and later alerts are never looked at. Rows already written stay.
- **Fingerprint validation.** The design describes a validation error for an
  empty fingerprint. The code has no such check. `""` is an ordinary key here.
- **Concurrent first insert.** The design asks for an explicit policy for
  two handlers inserting the same fingerprint at once. The code has none. The
  model is single-threaded, and `Create` refuses a second row for a
  fingerprint, as the unique index does.
- **Counters on failure.** The code has no error counter and no per-event
  result list. A failure is visible only as the request's outcome, `FailedAt(i, fault)`.

## Model

| member | source | states |
|---|---|---|
| Reconciliation.Find | main.go:155-158 | The lookup fails exactly when a lookup fault is injected. Otherwise it reports "not found" exactly when no row has the fingerprint, and on "found" it returns that row. |
| Reconciliation.Step | main.go:153-203 | A failed alert changes nothing and reports the injected fault. With no fault, the alert is always classified. A classified alert leaves the received counter alone and raises exactly one of new/duplicate/updated by one. |
| Reconciliation.StepInsertsUnseen | main.go:158-187 | For an unseen fingerprint, with no lookup, marshal or insert fault, the result is New. Exactly one row is added. Its fingerprint, status, labels, annotations, startsAt and endsAt come from the alert, its id is the next key and createdAt is `now`. Only the new counter moves, and no other row changes. |
| Reconciliation.StepUpdatesChangedStatus | main.go:194-199 | For a known fingerprint with a different status, with no lookup or update fault, the result is Updated. Only that row's status and endsAt change, to the alert's values. Its id, fingerprint, labels, annotations, startsAt and createdAt are unchanged, and only the updated counter moves. |
| Reconciliation.StepCountsDuplicate | main.go:192-202 | For a known fingerprint with the same status, with no lookup fault, the result is Duplicate. Table and next key are unchanged, and only the duplicate counter moves. |
| Reconciliation.StepFailsExactlyWhen | main.go:156-197 | An alert fails exactly when the fault names an operation on its path: the lookup always, marshalling and insert for an unseen fingerprint, the update for a changed status (both directions). |
| Reconciliation.StepKeys | main.go:156-187 | A row is inserted only when the lookup found none, and that is exactly the New outcome. After a classified alert, the table's keys are the old keys plus the alert's fingerprint, and its row carries the alert's status. |
| Reconciliation.StepRows | main.go:194-195 | No row is deleted. Rows of other fingerprints are untouched. The alert's own row differs at most in status and endsAt. |
| Reconciliation.StepPreservesValid | main.go:33-34 | One alert keeps the table's constraints: each row is filed under its own fingerprint (one row per fingerprint), primary keys are distinct and below the next key. |
| Reconciliation.Reconcile | main.go:153-204 | The loop reports a failure only at a real index, with the fault injected there. It never touches the received counter. It raises the classified counters by exactly the number of alerts handled before stopping. |
| Reconciliation.Handle | main.go:149-206 | The received counter rises by the payload length whatever happens later. On success, the classified counters rise by the same amount. On failure at index i, they rise by exactly i. |
| Batch.ReconcilePreservesValid | main.go:153-204 | A whole payload keeps the table's constraints: at most one row per fingerprint, distinct primary keys. |
| Batch.ReconcileKeepsRows | main.go:194-195 | Every row present before the request is still present afterwards, and differs at most in status and endsAt. |
| Batch.ReconcileLeavesOthersAlone | main.go:155-156 | A row whose fingerprint no alert of the payload carries is left exactly as it was. |
| Batch.ReconcileKeys | main.go:156-184 | Afterwards the table's keys are exactly the old keys plus the fingerprints of the alerts handled before processing stopped. Each fingerprint is inserted at most once, and a failed alert inserts nothing. |
| Batch.ReconcileWithoutFaults | main.go:153-204 | With no fault injected anywhere, every alert of the payload is processed. |
| Batch.ReconcileStopsAtFailure | main.go:160-197 | When processing fails at alert k, the final state is exactly the state the k earlier alerts produced, and alert k failed against it with the reported fault. So there is no rollback, and no alert after k is processed. |
| Batch.ReconcileAppend | main.go:153-204 | Reconciling a concatenation is reconciling the first part, then, only if it did not fail, the second part from the state it left. A failure in the second part is reported at its index in the whole. |
| Batch.ReconcileIgnoresTotal | main.go:150-153 | The loop's decisions and writes do not depend on the received counter. |
| Batch.HandleSplit | main.go:149-206 | If the first request succeeds, sending a payload as two requests leaves the same final table, next key and counters as sending it as one. The outcomes correspond. |
| Batch.ReconcileLastStatusWins | main.go:153-201 | After a successful request, the row of an alert that no later alert in the payload shares a fingerprint with carries that alert's status. Later alerts see the effects of earlier ones. |
| Batch.RepeatedAlertInOneBatch | main.go:153-201 | The same alert twice, fingerprint unseen: New then Duplicate. Exactly one row remains, built from the first occurrence. Received rises by 2, new and duplicate by 1, updated by 0. |
| Batch.FiringThenResolved | main.go:172-199 | An alert followed by the same fingerprint with another status: New then Updated. The row ends with the second status and endsAt, and keeps the first alert's labels, annotations, startsAt and createdAt. |
| Webhook.AlertmanagerReceiver.constructor | main.go:56-81 | The counters start at zero against an existing, well-formed table. |
| Webhook.AlertmanagerReceiver.FindByFingerprint | main.go:155-156 | The same three-way lookup as `Find`, read from the object's table, with no state change. |
| Webhook.AlertmanagerReceiver.Create | main.go:181-184 | The insert succeeds exactly when no insert fault is injected and no row has the fingerprint (the unique index). On success the row is stored with the next key and the key advances. Otherwise nothing changes. Counters are untouched. |
| Webhook.AlertmanagerReceiver.UpdateStatusAndEndsAt | main.go:195-197 | The update succeeds exactly when no update fault is injected. On success only the row's status and endsAt change. Otherwise nothing changes. |
| Webhook.AlertmanagerReceiver.ReconcileAlert | main.go:154-203 | One iteration on the object's fields: result and new state are exactly `Step` of the old state, and the table constraints are kept. |
| Webhook.AlertmanagerReceiver.HandleAlertmanagerWebhook | main.go:142-207 | Received is bumped first, then the loop runs in place. The result and the new state are exactly `Handle` of the old state, and the table constraints are kept. |

## Left out

- `loadConfig` and the YAML configuration (main.go:89-101): file I/O and a foreign library.
- `main` start-up (main.go:103-129, 213): flags, the DSN, the gorm connection, `AutoMigrate`, panics and `router.Run`. These are process and database plumbing.
- The health check, the `/metrics` endpoint and counter registration (main.go:83-86, 132-139, 210). Counters are plain `nat` fields.
- JSON binding of the request body and the HTTP 400 on a malformed body (main.go:143-147). The model starts from a decoded payload. Its result, `Processed` or `FailedAt(i, fault)`, stands for the 200/500 response (main.go:162-206).
- `json.Marshal` of labels and annotations (main.go:160-169). The maps are stored verbatim, and an encoding failure exists only as an injected fault.
- `time.Now()` (main.go:179): supplied per alert by `env`.
- The `float64` conversion in `Add` (main.go:150): counters are unbounded `nat`s.
- Concurrent requests and the check-then-act race on the first insert of a fingerprint: the model runs one request at a time.
- Primary-key gaps: a database sequence can skip a value when an insert fails. In the model the next key advances only on a successful insert.
- Webhook.AlertmanagerReceiver.UpdateStatusAndEndsAt: requires the row to exist. A gorm update of a missing row affects no rows and reports no error, but single-threaded, the handler only updates the row it has just found.
