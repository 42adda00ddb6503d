/** The reconciliation performed by `POST /api/v1/webhooks/alertmanager`, as
    functions on `State`: one alert (`Step`), the loop over a payload
    (`Reconcile`), and the whole request with its received-counter bump
    (`Handle`). */
module Reconciliation {
  import opened Alerts

  /** The three ways `db.Where("fingerprint = ?", fp).First(&existing)` ends. */
  datatype Lookup = Found(record: AlertRecord) | NotFound | LookupFailed

  /** Which counter an alert raised. */
  datatype Effect = New | Updated | Duplicate

  /** What became of one alert: classified, or the request was aborted with
      this failure. */
  datatype EventResult = Done(effect: Effect) | Aborted(error: Fault)

  datatype StepResult = StepResult(result: EventResult, state: State)

  /** What the request reports: every alert processed (HTTP 200), or
      processing stopped at the alert with this index (HTTP 500). */
  datatype Outcome = Processed | FailedAt(index: nat, error: Fault)

  datatype Run = Run(outcome: Outcome, state: State)

  function Find(table: map<string, AlertRecord>, fp: string, fault: Fault): (r: Lookup)
    ensures r.LookupFailed? <==> fault == LookupError
    ensures r.NotFound? <==> fault != LookupError && fp !in table
    ensures r.Found? ==> fp in table && r.record == table[fp]
  {
    if fault == LookupError then LookupFailed
    else if fp in table then Found(table[fp])
    else NotFound
  }

  /** The row the handler builds for an unseen alert; the database fills in `id`. */
  function NewRecord(a: WebhookAlert, id: nat, now: Timestamp): AlertRecord {
    AlertRecord(id, a.fingerprint, a.status, a.labels, a.annotations, a.startsAt, a.endsAt, now)
  }

  /** One iteration of the handler's loop. */
  function Step(s: State, a: WebhookAlert, env: Env): (r: StepResult)
    // a failure changes nothing and is reported as the injected fault
    ensures r.result.Aborted? ==> r.state == s && r.result.error == env.fault && env.fault != NoFault
    // with no fault injected, every alert is classified
    ensures env.fault == NoFault ==> r.result.Done?
    // a classified alert raises exactly one of the three counters by one
    ensures r.result.Done? ==>
              && r.state.metrics.total == s.metrics.total
              && s.metrics.newTotal <= r.state.metrics.newTotal
              && s.metrics.duplicateTotal <= r.state.metrics.duplicateTotal
              && s.metrics.updatedTotal <= r.state.metrics.updatedTotal
              && Classified(r.state.metrics) == Classified(s.metrics) + 1
  {
    match Find(s.table, a.fingerprint, env.fault)
    case LookupFailed =>
      StepResult(Aborted(LookupError), s)
    case NotFound =>
      if env.fault == MarshalLabelsError then StepResult(Aborted(MarshalLabelsError), s)
      else if env.fault == MarshalAnnotationsError then StepResult(Aborted(MarshalAnnotationsError), s)
      else if env.fault == CreateError then StepResult(Aborted(CreateError), s)
      else
        var row := NewRecord(a, s.nextId, env.now);
        StepResult(Done(New), State(s.table[a.fingerprint := row], s.nextId + 1,
                                    s.metrics.(newTotal := s.metrics.newTotal + 1)))
    case Found(existing) =>
      if existing.status != a.status then
        if env.fault == UpdateError then StepResult(Aborted(UpdateError), s)
        else
          var row := existing.(status := a.status, endsAt := a.endsAt);
          StepResult(Done(Updated), s.(table := s.table[a.fingerprint := row],
                                       metrics := s.metrics.(updatedTotal := s.metrics.updatedTotal + 1)))
      else
        StepResult(Done(Duplicate), s.(metrics := s.metrics.(duplicateTotal := s.metrics.duplicateTotal + 1)))
  }

  /** A row is inserted only when the lookup found none, and that is
      exactly the New outcome; afterwards the alert's row exists and carries
      the alert's status. */
  lemma StepKeys(s: State, a: WebhookAlert, env: Env)
    ensures var r := Step(s, a, env);
            r.result == Done(New) <==> a.fingerprint !in s.table && r.result.Done?
    ensures var r := Step(s, a, env);
            r.result.Done? ==>
              && r.state.table.Keys == s.table.Keys + {a.fingerprint}
              && r.state.table[a.fingerprint].status == a.status
  {
  }

  /** Rows are never deleted, rows of other fingerprints are untouched, and the
      alert's own row keeps all but its status and end time. */
  lemma StepRows(s: State, a: WebhookAlert, env: Env, fp: string)
    requires fp in s.table
    ensures var r := Step(s, a, env);
            fp in r.state.table && DiffersOnlyInStatusAndEndsAt(s.table[fp], r.state.table[fp])
    ensures var r := Step(s, a, env);
            fp != a.fingerprint ==> r.state.table[fp] == s.table[fp]
  {
  }

  /** One alert keeps the table's constraints. */
  lemma StepPreservesValid(s: State, a: WebhookAlert, env: Env)
    requires Valid(s)
    ensures Valid(Step(s, a, env).state)
  {
  }

  /** An alert with an unseen fingerprint, when none of lookup, marshalling and
      insert fails, becomes exactly one new row built from the alert, with the
      next primary key and `now` as its creation time; only the new-alert
      counter moves. */
  lemma StepInsertsUnseen(s: State, a: WebhookAlert, env: Env)
    requires a.fingerprint !in s.table
    requires env.fault == NoFault || env.fault == UpdateError
    ensures var r := Step(s, a, env);
            && r.result == Done(New)
            && r.state.table == s.table[a.fingerprint := r.state.table[a.fingerprint]]
            && r.state.nextId == s.nextId + 1
            && r.state.metrics == s.metrics.(newTotal := s.metrics.newTotal + 1)
    ensures var row := Step(s, a, env).state.table[a.fingerprint];
            && row.id == s.nextId && row.fingerprint == a.fingerprint && row.status == a.status
            && row.labels == a.labels && row.annotations == a.annotations
            && row.startsAt == a.startsAt && row.endsAt == a.endsAt && row.createdAt == env.now
  {
  }

  /** An alert whose row exists with another status, when neither lookup nor
      update fails, overwrites that row's status and end time and nothing
      else; only the updated counter moves. */
  lemma StepUpdatesChangedStatus(s: State, a: WebhookAlert, env: Env)
    requires a.fingerprint in s.table && s.table[a.fingerprint].status != a.status
    requires env.fault != LookupError && env.fault != UpdateError
    ensures var r := Step(s, a, env);
            && r.result == Done(Updated)
            && r.state.table == s.table[a.fingerprint := r.state.table[a.fingerprint]]
            && r.state.nextId == s.nextId
            && r.state.metrics == s.metrics.(updatedTotal := s.metrics.updatedTotal + 1)
    ensures var (before, after) := (s.table[a.fingerprint], Step(s, a, env).state.table[a.fingerprint]);
            && after.status == a.status && after.endsAt == a.endsAt
            && after.id == before.id && after.fingerprint == before.fingerprint
            && after.labels == before.labels && after.annotations == before.annotations
            && after.startsAt == before.startsAt && after.createdAt == before.createdAt
  {
  }

  /** An alert whose row exists with the same status, when the lookup does
      not fail, writes nothing; only the duplicate counter moves. */
  lemma StepCountsDuplicate(s: State, a: WebhookAlert, env: Env)
    requires a.fingerprint in s.table && s.table[a.fingerprint].status == a.status
    requires env.fault != LookupError
    ensures var r := Step(s, a, env);
            && r.result == Done(Duplicate)
            && r.state.table == s.table && r.state.nextId == s.nextId
            && r.state.metrics == s.metrics.(duplicateTotal := s.metrics.duplicateTotal + 1)
  {
  }

  /** An alert fails exactly when the fault names an operation its path
      attempts: the lookup always, marshalling and insert for an unseen
      fingerprint, the update for a changed status. */
  lemma StepFailsExactlyWhen(s: State, a: WebhookAlert, env: Env)
    ensures Step(s, a, env).result.Aborted? <==>
            || env.fault == LookupError
            || (a.fingerprint !in s.table &&
                env.fault in {MarshalLabelsError, MarshalAnnotationsError, CreateError})
            || (a.fingerprint in s.table && s.table[a.fingerprint].status != a.status &&
                env.fault == UpdateError)
  {
  }

  /** A failure at index `i` of a later part of the payload is a failure at
      index `i + k` of the whole payload. */
  function Offset(o: Outcome, k: nat): (r: Outcome)
    ensures r.Processed? == o.Processed?
    ensures r.FailedAt? ==> r.index == o.index + k && r.error == o.error
  {
    match o
    case Processed => Processed
    case FailedAt(i, e) => FailedAt(i + k, e)
  }

  /** How many alerts of an `n`-alert payload were classified. */
  function Handled(o: Outcome, n: nat): nat {
    if o.Processed? then n else o.index
  }

  /** The loop `for _, alert := range webhook.Alerts`: alerts in payload
      order, each against the table the earlier ones left; the first failure
      ends the request and keeps what earlier alerts wrote. */
  function Reconcile(s: State, alerts: seq<WebhookAlert>, env: seq<Env>): (r: Run)
    requires |env| == |alerts|
    // a failure is reported at a real index with the fault injected there
    ensures r.outcome.FailedAt? ==>
              r.outcome.index < |alerts| && r.outcome.error == env[r.outcome.index].fault &&
              r.outcome.error != NoFault
    // the loop never touches the received counter, and classifies one alert per alert handled
    ensures r.state.metrics.total == s.metrics.total
    ensures Classified(r.state.metrics) == Classified(s.metrics) + Handled(r.outcome, |alerts|)
    decreases |alerts|
  {
    if alerts == [] then Run(Processed, s)
    else
      var step := Step(s, alerts[0], env[0]);
      match step.result
      case Aborted(e) => Run(FailedAt(0, e), s)
      case Done(_) =>
        var rest := Reconcile(step.state, alerts[1..], env[1..]);
        Run(Offset(rest.outcome, 1), rest.state)
  }

  /** Reconciling a non-empty payload is one step, then the rest. */
  lemma ReconcileCons(s: State, alerts: seq<WebhookAlert>, env: seq<Env>)
    requires |env| == |alerts| && alerts != []
    ensures var step := Step(s, alerts[0], env[0]);
            var rest := Reconcile(step.state, alerts[1..], env[1..]);
            Reconcile(s, alerts, env) ==
              if step.result.Aborted? then Run(FailedAt(0, step.result.error), s)
              else Run(Offset(rest.outcome, 1), rest.state)
  {
  }

  lemma OffsetAdds(o: Outcome, j: nat, k: nat)
    ensures Offset(Offset(o, j), k) == Offset(o, j + k)
  {
  }

  /** The whole request: the received counter goes up by the payload's
      length before any alert is looked at, then the loop runs. */
  function Handle(s: State, alerts: seq<WebhookAlert>, env: seq<Env>): (r: Run)
    requires |env| == |alerts|
    // the received counter rises by the payload length, even if a later alert fails
    ensures r.state.metrics.total == s.metrics.total + |alerts|
    // on success, the classified counters rise by exactly the same amount
    ensures r.outcome.Processed? ==> Classified(r.state.metrics) == Classified(s.metrics) + |alerts|
    // on failure at index i, exactly the i alerts before it were classified
    ensures r.outcome.FailedAt? ==> Classified(r.state.metrics) == Classified(s.metrics) + r.outcome.index
  {
    Reconcile(AddReceived(s, |alerts|), alerts, env)
  }

  /** `irmWebhooksAlertmanagerTotal.Add(n)`. */
  function AddReceived(s: State, n: nat): State {
    s.(metrics := s.metrics.(total := s.metrics.total + n))
  }
}
