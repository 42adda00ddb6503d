/** The receiver's mutable state, as the handler sees it: the `alerts` table
    the database holds, and the four process-wide counters. The handler of
    `POST /api/v1/webhooks/alertmanager` runs its loop over these fields in
    place. */
module Webhook {
  import opened Alerts
  import opened Reconciliation

  /** The loop's invariant: having reached alert `i` in state `s`, what is
      left to do yields the result of the whole loop started in `start`. */
  ghost predicate ResumesAt(start: State, alerts: seq<WebhookAlert>, env: seq<Env>, s: State, i: nat)
    requires |env| == |alerts| && i <= |alerts|
  {
    var rest := Reconcile(s, alerts[i..], env[i..]);
    Reconcile(start, alerts, env) == Run(Offset(rest.outcome, i), rest.state)
  }

  /** One turn of the loop keeps the invariant, or ends the loop with the
      failure of alert `i`; after the last alert the loop's result is reached. */
  lemma LoopTurn(start: State, alerts: seq<WebhookAlert>, env: seq<Env>, s: State, i: nat)
    requires |env| == |alerts| && i < |alerts|
    requires ResumesAt(start, alerts, env, s, i)
    ensures var step := Step(s, alerts[i], env[i]);
            if step.result.Aborted? then Reconcile(start, alerts, env) == Run(FailedAt(i, step.result.error), s)
            else ResumesAt(start, alerts, env, step.state, i + 1)
  {
    var step := Step(s, alerts[i], env[i]);
    var (tail, tailEnv) := (alerts[i..], env[i..]);
    assert tail[0] == alerts[i] && tailEnv[0] == env[i];
    assert tail[1..] == alerts[i + 1..] && tailEnv[1..] == env[i + 1..];
    ReconcileCons(s, tail, tailEnv);
    if step.result.Done? {
      var rest := Reconcile(step.state, alerts[i + 1..], env[i + 1..]);
      OffsetAdds(rest.outcome, 1, i);
    }
  }

  lemma LoopDone(start: State, alerts: seq<WebhookAlert>, env: seq<Env>, s: State)
    requires |env| == |alerts|
    requires ResumesAt(start, alerts, env, s, |alerts|)
    ensures Reconcile(start, alerts, env) == Run(Processed, s)
  {
    assert alerts[|alerts|..] == [] && env[|alerts|..] == [];
  }

  class AlertmanagerReceiver {
    /** The `alerts` table, keyed by its unique `fingerprint` column. */
    var table: map<string, AlertRecord>
    /** The next value of the table's serial primary key. */
    var nextId: nat
    /** irm_webhooks_alertmanager_total */
    var total: nat
    /** irm_webhooks_alertmanager_new_total */
    var newTotal: nat
    /** irm_webhooks_alertmanager_duplicate_total */
    var duplicateTotal: nat
    /** irm_webhooks_alertmanager_updated_total */
    var updatedTotal: nat

    function Model(): State
      reads this
    {
      State(table, nextId, Metrics(total, newTotal, duplicateTotal, updatedTotal))
    }

    ghost predicate Valid()
      reads this
    {
      Alerts.Valid(Model())
    }

    /** The process starts with its counters at zero against whatever the
        table already holds. */
    constructor (rows: map<string, AlertRecord>, firstFreeId: nat)
      requires Alerts.Valid(State(rows, firstFreeId, Metrics(0, 0, 0, 0)))
      ensures Valid()
      ensures Model() == State(rows, firstFreeId, Metrics(0, 0, 0, 0))
    {
      table, nextId := rows, firstFreeId;
      total, newTotal, duplicateTotal, updatedTotal := 0, 0, 0, 0;
    }

    /** `db.Where("fingerprint = ?", fp).First(&existing)`. */
    method FindByFingerprint(fp: string, fault: Fault) returns (r: Lookup)
      requires Valid()
      ensures r.LookupFailed? <==> fault == LookupError
      ensures r.NotFound? <==> fault != LookupError && fp !in table
      ensures r.Found? ==> fp in table && r.record == table[fp] && r.record.fingerprint == fp
    {
      if fault == LookupError {
        r := LookupFailed;
      } else if fp in table {
        r := Found(table[fp]);
      } else {
        r := NotFound;
      }
    }

    /** `db.Create(&row)`: the database assigns the next primary key, and the
        unique index on `fingerprint` refuses a second row for a fingerprint. */
    method Create(row: AlertRecord, fault: Fault) returns (ok: bool)
      requires Valid()
      modifies this
      ensures Valid()
      ensures ok <==> fault != CreateError && row.fingerprint !in old(table)
      ensures table == if ok then old(table)[row.fingerprint := row.(id := old(nextId))] else old(table)
      ensures nextId == if ok then old(nextId) + 1 else old(nextId)
      ensures total == old(total) && newTotal == old(newTotal)
      ensures duplicateTotal == old(duplicateTotal) && updatedTotal == old(updatedTotal)
    {
      ok := fault != CreateError && row.fingerprint !in table;
      if ok {
        table := table[row.fingerprint := row.(id := nextId)];
        nextId := nextId + 1;
      }
    }

    /** `db.Model(&existing).Select("Status", "EndsAt").Updates(...)`: the
        existing row gets the new status and end time and keeps every
        other column. */
    method UpdateStatusAndEndsAt(fp: string, status: string, endsAt: Timestamp, fault: Fault) returns (ok: bool)
      requires Valid() && fp in table
      modifies this
      ensures Valid()
      ensures ok <==> fault != UpdateError
      ensures table == if ok then old(table)[fp := old(table)[fp].(status := status, endsAt := endsAt)] else old(table)
      ensures nextId == old(nextId)
      ensures total == old(total) && newTotal == old(newTotal)
      ensures duplicateTotal == old(duplicateTotal) && updatedTotal == old(updatedTotal)
    {
      ok := fault != UpdateError;
      if ok {
        table := table[fp := table[fp].(status := status, endsAt := endsAt)];
      }
    }

    /** The body of the handler's loop, for one alert. */
    method ReconcileAlert(a: WebhookAlert, env: Env) returns (r: EventResult)
      requires Valid()
      modifies this
      ensures Valid()
      ensures StepResult(r, Model()) == Step(old(Model()), a, env)
    {
      var found := FindByFingerprint(a.fingerprint, env.fault);
      match found
      case LookupFailed =>
        return Aborted(LookupError);
      case NotFound =>
        if env.fault == MarshalLabelsError {
          return Aborted(MarshalLabelsError);
        }
        if env.fault == MarshalAnnotationsError {
          return Aborted(MarshalAnnotationsError);
        }
        var ok := Create(NewRecord(a, 0, env.now), env.fault);
        if !ok {
          return Aborted(CreateError);
        }
        newTotal := newTotal + 1;
        return Done(New);
      case Found(existing) =>
        if existing.status != a.status {
          var ok := UpdateStatusAndEndsAt(a.fingerprint, a.status, a.endsAt, env.fault);
          if !ok {
            return Aborted(UpdateError);
          }
          updatedTotal := updatedTotal + 1;
          return Done(Updated);
        } else {
          duplicateTotal := duplicateTotal + 1;
          return Done(Duplicate);
        }
    }

    /** The handler of `POST /api/v1/webhooks/alertmanager` after the payload
        has been decoded: count the alerts as received, then reconcile them
        one by one, stopping at the first failure. */
    method HandleAlertmanagerWebhook(alerts: seq<WebhookAlert>, env: seq<Env>) returns (r: Outcome)
      requires Valid() && |env| == |alerts|
      modifies this
      ensures Valid()
      ensures Run(r, Model()) == Handle(old(Model()), alerts, env)
    {
      total := total + |alerts|;
      ghost var start := Model();
      assert start == AddReceived(old(Model()), |alerts|);
      assert alerts[0..] == alerts && env[0..] == env;
      var i := 0;
      while i < |alerts|
        invariant 0 <= i <= |alerts|
        invariant Valid()
        invariant ResumesAt(start, alerts, env, Model(), i)
      {
        LoopTurn(start, alerts, env, Model(), i);
        var res := ReconcileAlert(alerts[i], env[i]);
        if res.Aborted? {
          return FailedAt(i, res.error);
        }
        i := i + 1;
      }
      LoopDone(start, alerts, env, Model());
      return Processed;
    }
  }
}
