/** The data the Alertmanager webhook receiver works on: the persisted `alerts`
    table, the webhook payload, the four Prometheus counters, and the
    environment (clock and database failures) an event is processed under. */
module Alerts {

  /** A `time.Time`, as nanoseconds since the Unix epoch. Go's zero time
      (an unset `endsAt`) is one more value of this type. */
  type Timestamp = int

  /** A label or annotation set. The table stores it as JSON; the model
      stores the mapping itself, since nothing ever reads it back. */
  type LabelSet = map<string, string>

  /** One row of the `alerts` table. `id` is the serial primary key. */
  datatype AlertRecord = AlertRecord(
    id: nat,
    fingerprint: string,
    status: string,
    labels: LabelSet,
    annotations: LabelSet,
    startsAt: Timestamp,
    endsAt: Timestamp,
    createdAt: Timestamp)

  /** One element of the `alerts` array in an Alertmanager webhook payload. */
  datatype WebhookAlert = WebhookAlert(
    status: string,
    labels: LabelSet,
    annotations: LabelSet,
    startsAt: Timestamp,
    endsAt: Timestamp,
    fingerprint: string)

  /** The four counters: alerts received, and alerts classified as new,
      duplicate or updated. */
  datatype Metrics = Metrics(total: nat, newTotal: nat, duplicateTotal: nat, updatedTotal: nat)

  /** How many alerts have been classified, whatever the outcome. */
  function Classified(m: Metrics): nat {
    m.newTotal + m.duplicateTotal + m.updatedTotal
  }

  /** Everything one request can change: the table, keyed by fingerprint,
      the next primary key the database will hand out, and the counters. */
  datatype State = State(table: map<string, AlertRecord>, nextId: nat, metrics: Metrics)

  /** The table's constraints: a row is filed under its own fingerprint, so
      no two rows share one (the unique index on `fingerprint`); primary keys
      are distinct and below the next one to be handed out. */
  ghost predicate Valid(s: State) {
    && (forall fp :: fp in s.table ==> s.table[fp].fingerprint == fp && s.table[fp].id < s.nextId)
    && (forall fp, fp' :: fp in s.table && fp' in s.table && fp != fp' ==> s.table[fp].id != s.table[fp'].id)
  }

  /** `after` is `before` with at most its status and end time changed:
      the only columns the receiver ever updates. */
  predicate DiffersOnlyInStatusAndEndsAt(before: AlertRecord, after: AlertRecord) {
    after == before.(status := after.status, endsAt := after.endsAt)
  }

  /** A database or encoding failure the environment may inject while one
      alert is processed. A fault takes effect only if the operation it names
      is attempted for that alert. */
  datatype Fault =
    | NoFault
    | LookupError               // First() fails with anything but "record not found"
    | MarshalLabelsError        // json.Marshal of the labels fails
    | MarshalAnnotationsError   // json.Marshal of the annotations fails
    | CreateError               // the INSERT fails
    | UpdateError               // the UPDATE of status and endsAt fails

  /** What the environment supplies for one alert: the value `time.Now()`
      returns if a row is created, and the fault, if any. */
  datatype Env = Env(now: Timestamp, fault: Fault)
}
