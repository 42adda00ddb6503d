/** Properties of a whole payload: what the loop keeps, where it stops, how
    payloads compose, and the order in which alerts for one fingerprint take
    effect. */
module Batch {
  import opened Alerts
  import opened Reconciliation

  /** The fingerprints of a sequence of alerts. */
  function Fingerprints(alerts: seq<WebhookAlert>): set<string>
    decreases |alerts|
  {
    if alerts == [] then {} else {alerts[0].fingerprint} + Fingerprints(alerts[1..])
  }

  /** The table keeps its constraints through a whole payload: one row per
      fingerprint, distinct primary keys. */
  lemma {:induction false} ReconcilePreservesValid(s: State, alerts: seq<WebhookAlert>, env: seq<Env>)
    requires |env| == |alerts|
    requires Valid(s)
    ensures Valid(Reconcile(s, alerts, env).state)
    decreases |alerts|
  {
    if alerts != [] {
      var step := Step(s, alerts[0], env[0]);
      StepPreservesValid(s, alerts[0], env[0]);
      if step.result.Done? {
        ReconcilePreservesValid(step.state, alerts[1..], env[1..]);
      }
    }
  }

  /** Every row that existed before the request still exists afterwards and
      differs at most in status and end time: identity, fingerprint, labels,
      annotations, start time and creation time are never rewritten. */
  lemma {:induction false} ReconcileKeepsRows(s: State, alerts: seq<WebhookAlert>, env: seq<Env>, fp: string)
    requires |env| == |alerts|
    requires fp in s.table
    ensures var r := Reconcile(s, alerts, env);
            fp in r.state.table && DiffersOnlyInStatusAndEndsAt(s.table[fp], r.state.table[fp])
    decreases |alerts|
  {
    if alerts != [] {
      var step := Step(s, alerts[0], env[0]);
      StepRows(s, alerts[0], env[0], fp);
      if step.result.Done? {
        ReconcileKeepsRows(step.state, alerts[1..], env[1..], fp);
      }
    }
  }

  /** A row whose fingerprint no alert of the payload carries is left exactly
      as it was. */
  lemma {:induction false} ReconcileLeavesOthersAlone(s: State, alerts: seq<WebhookAlert>, env: seq<Env>, fp: string)
    requires |env| == |alerts|
    requires fp in s.table
    requires fp !in Fingerprints(alerts)
    ensures var r := Reconcile(s, alerts, env);
            fp in r.state.table && r.state.table[fp] == s.table[fp]
    decreases |alerts|
  {
    if alerts != [] {
      var step := Step(s, alerts[0], env[0]);
      StepRows(s, alerts[0], env[0], fp);
      if step.result.Done? {
        ReconcileLeavesOthersAlone(step.state, alerts[1..], env[1..], fp);
      }
    }
  }

  lemma FingerprintsOfPrefix(alerts: seq<WebhookAlert>, k: nat)
    requires 0 < k <= |alerts|
    ensures Fingerprints(alerts[..k]) == {alerts[0].fingerprint} + Fingerprints(alerts[1..][..k - 1])
  {
    assert alerts[..k][0] == alerts[0];
    assert alerts[..k][1..] == alerts[1..][..k - 1];
  }

  /** The table afterwards holds exactly the old rows plus one row per
      fingerprint among the alerts that were handled: each fingerprint is
      inserted at most once, and a failed alert inserts nothing. */
  lemma {:induction false} ReconcileKeys(s: State, alerts: seq<WebhookAlert>, env: seq<Env>)
    requires |env| == |alerts|
    ensures var r := Reconcile(s, alerts, env);
            r.state.table.Keys == s.table.Keys + Fingerprints(alerts[..Handled(r.outcome, |alerts|)])
    decreases |alerts|
  {
    var r := Reconcile(s, alerts, env);
    if alerts == [] {
      assert alerts[..Handled(r.outcome, 0)] == [];
    } else {
      var step := Step(s, alerts[0], env[0]);
      ReconcileCons(s, alerts, env);
      if step.result.Aborted? {
        assert r == Run(FailedAt(0, step.result.error), s);
        assert alerts[..Handled(r.outcome, |alerts|)] == [];
      } else {
        StepKeys(s, alerts[0], env[0]);
        var rest := Reconcile(step.state, alerts[1..], env[1..]);
        assert r == Run(Offset(rest.outcome, 1), rest.state);
        ReconcileKeys(step.state, alerts[1..], env[1..]);
        var k := Handled(rest.outcome, |alerts| - 1);
        assert Handled(r.outcome, |alerts|) == k + 1;
        FingerprintsOfPrefix(alerts, k + 1);
        assert rest.state.table.Keys == step.state.table.Keys + Fingerprints(alerts[1..][..k]);
        assert step.state.table.Keys == s.table.Keys + {alerts[0].fingerprint};
      }
    }
  }

  /** With no fault injected anywhere, every alert of the payload is
      handled. This follows from `Reconcile`'s contract: a failure always
      names an index whose fault was injected. */
  lemma ReconcileWithoutFaults(s: State, alerts: seq<WebhookAlert>, env: seq<Env>)
    requires |env| == |alerts|
    requires forall i :: 0 <= i < |env| ==> env[i].fault == NoFault
    ensures Reconcile(s, alerts, env).outcome == Processed
  {
  }

  /** No rollback and no further processing: when the request fails at alert
      `k`, the resulting state is the one the `k` alerts before it produced,
      and alert `k` failed with the reported fault against that state. */
  lemma {:induction false} ReconcileStopsAtFailure(s: State, alerts: seq<WebhookAlert>, env: seq<Env>)
    requires |env| == |alerts|
    requires Reconcile(s, alerts, env).outcome.FailedAt?
    ensures var r := Reconcile(s, alerts, env);
            var k := r.outcome.index;
            && k < |alerts|
            && Reconcile(s, alerts[..k], env[..k]) == Run(Processed, r.state)
            && Step(r.state, alerts[k], env[k]).result == Aborted(r.outcome.error)
    decreases |alerts|
  {
    var r := Reconcile(s, alerts, env);
    var step := Step(s, alerts[0], env[0]);
    if step.result.Aborted? {
      assert alerts[..0] == [];
    } else {
      var rest := Reconcile(step.state, alerts[1..], env[1..]);
      ReconcileStopsAtFailure(step.state, alerts[1..], env[1..]);
      var k := rest.outcome.index;
      assert alerts[..k + 1][1..] == alerts[1..][..k];
      assert env[..k + 1][1..] == env[1..][..k];
      assert alerts[1..][k] == alerts[k + 1];
      assert env[1..][k] == env[k + 1];
    }
  }

  /** Processing two payloads back to back is processing their concatenation,
      as long as the first one did not fail. */
  lemma {:induction false} ReconcileAppend(s: State, a1: seq<WebhookAlert>, e1: seq<Env>, a2: seq<WebhookAlert>, e2: seq<Env>)
    requires |e1| == |a1| && |e2| == |a2|
    ensures var r1 := Reconcile(s, a1, e1);
            var r2 := Reconcile(r1.state, a2, e2);
            Reconcile(s, a1 + a2, e1 + e2) ==
              if r1.outcome.FailedAt? then r1 else Run(Offset(r2.outcome, |a1|), r2.state)
    decreases |a1|
  {
    if a1 == [] {
      assert a1 + a2 == a2 && e1 + e2 == e2;
    } else {
      assert (a1 + a2)[0] == a1[0] && (e1 + e2)[0] == e1[0];
      assert (a1 + a2)[1..] == a1[1..] + a2 && (e1 + e2)[1..] == e1[1..] + e2;
      var step := Step(s, a1[0], e1[0]);
      if step.result.Done? {
        ReconcileAppend(step.state, a1[1..], e1[1..], a2, e2);
      }
    }
  }

  lemma StepIgnoresTotal(s: State, a: WebhookAlert, env: Env, n: nat)
    ensures Step(AddReceived(s, n), a, env) == StepResult(Step(s, a, env).result, AddReceived(Step(s, a, env).state, n))
  {
  }

  /** The loop's decisions do not depend on the received counter. */
  lemma {:induction false} ReconcileIgnoresTotal(s: State, alerts: seq<WebhookAlert>, env: seq<Env>, n: nat)
    requires |env| == |alerts|
    ensures var r := Reconcile(s, alerts, env);
            Reconcile(AddReceived(s, n), alerts, env) == Run(r.outcome, AddReceived(r.state, n))
    decreases |alerts|
  {
    if alerts != [] {
      var step := Step(s, alerts[0], env[0]);
      StepIgnoresTotal(s, alerts[0], env[0], n);
      if step.result.Done? {
        ReconcileIgnoresTotal(step.state, alerts[1..], env[1..], n);
      }
    }
  }

  /** Splitting a payload into two requests leaves the same final state,
      counters included, as sending it whole, provided the first request
      succeeds; a failure in the second request is reported at the matching
      index of the whole payload. */
  lemma HandleSplit(s: State, a1: seq<WebhookAlert>, e1: seq<Env>, a2: seq<WebhookAlert>, e2: seq<Env>)
    requires |e1| == |a1| && |e2| == |a2|
    requires Handle(s, a1, e1).outcome.Processed?
    ensures var h2 := Handle(Handle(s, a1, e1).state, a2, e2);
            Handle(s, a1 + a2, e1 + e2) == Run(Offset(h2.outcome, |a1|), h2.state)
  {
    var n1, n2 := |a1|, |a2|;
    var h1 := Handle(s, a1, e1);
    assert AddReceived(s, |a1 + a2|) == AddReceived(AddReceived(s, n1), n2);
    ReconcileIgnoresTotal(AddReceived(s, n1), a1, e1, n2);
    assert Reconcile(AddReceived(s, |a1 + a2|), a1, e1) == Run(Processed, AddReceived(h1.state, n2));
    ReconcileAppend(AddReceived(s, |a1 + a2|), a1, e1, a2, e2);
  }

  /** Alerts take effect in payload order: when the request succeeds, the row
      of an alert that no later alert in the payload shares a fingerprint
      with carries that alert's status. */
  lemma {:induction false} ReconcileLastStatusWins(s: State, alerts: seq<WebhookAlert>, env: seq<Env>, i: nat)
    requires |env| == |alerts|
    requires Reconcile(s, alerts, env).outcome.Processed?
    requires i < |alerts|
    requires alerts[i].fingerprint !in Fingerprints(alerts[i + 1..])
    ensures var r := Reconcile(s, alerts, env);
            alerts[i].fingerprint in r.state.table &&
            r.state.table[alerts[i].fingerprint].status == alerts[i].status
    decreases |alerts|
  {
    var step := Step(s, alerts[0], env[0]);
    StepKeys(s, alerts[0], env[0]);
    if i == 0 {
      ReconcileLeavesOthersAlone(step.state, alerts[1..], env[1..], alerts[0].fingerprint);
    } else {
      assert alerts[1..][i - 1] == alerts[i];
      assert alerts[1..][i..] == alerts[i + 1..];
      ReconcileLastStatusWins(step.state, alerts[1..], env[1..], i - 1);
    }
  }

  /** The same alert twice in one payload, its fingerprint unseen so far and
      no fault injected: the first is new, the second a duplicate, and a
      single row with the alert's status remains. */
  lemma RepeatedAlertInOneBatch(s: State, a: WebhookAlert, t0: Timestamp, t1: Timestamp)
    requires a.fingerprint !in s.table
    ensures var first := Step(s, a, Env(t0, NoFault));
            && first.result == Done(New)
            && Step(first.state, a, Env(t1, NoFault)).result == Done(Duplicate)
    ensures var r := Handle(s, [a, a], [Env(t0, NoFault), Env(t1, NoFault)]);
            && r.outcome == Processed
            && r.state.table == s.table[a.fingerprint := NewRecord(a, s.nextId, t0)]
            && r.state.metrics == Metrics(s.metrics.total + 2, s.metrics.newTotal + 1,
                                          s.metrics.duplicateTotal + 1, s.metrics.updatedTotal)
  {
    var (e0, e1) := (Env(t0, NoFault), Env(t1, NoFault));
    StepInsertsUnseen(s, a, e0);
    StepCountsDuplicate(Step(s, a, e0).state, a, e1);
    var s1 := AddReceived(s, 2);
    StepInsertsUnseen(s1, a, e0);
    var first := Step(s1, a, e0);
    StepCountsDuplicate(first.state, a, e1);
    var second := Step(first.state, a, e1);
    assert Reconcile(second.state, [], []) == Run(Processed, second.state);
    assert [a][1..] == [] && [e1][1..] == [];
    assert Reconcile(first.state, [a], [e1]) == Run(Processed, second.state);
    assert [a, a][1..] == [a] && [e0, e1][1..] == [e1];
    assert Reconcile(s1, [a, a], [e0, e1]) == Run(Processed, second.state);
  }

  /** A firing alert followed by its resolution, fingerprint unseen so far
      and no fault injected: New, then Updated; the row ends with the second
      status and end time and keeps the first alert's start time, labels,
      annotations and creation time. */
  lemma FiringThenResolved(s: State, firing: WebhookAlert, resolved: WebhookAlert, t0: Timestamp, t1: Timestamp)
    requires firing.fingerprint !in s.table
    requires resolved.fingerprint == firing.fingerprint && resolved.status != firing.status
    ensures var first := Step(s, firing, Env(t0, NoFault));
            && first.result == Done(New)
            && Step(first.state, resolved, Env(t1, NoFault)).result == Done(Updated)
    ensures var r := Handle(s, [firing, resolved], [Env(t0, NoFault), Env(t1, NoFault)]);
            && r.outcome == Processed
            && r.state.table == s.table[firing.fingerprint := NewRecord(firing, s.nextId, t0).(status := resolved.status, endsAt := resolved.endsAt)]
            && r.state.metrics == Metrics(s.metrics.total + 2, s.metrics.newTotal + 1,
                                          s.metrics.duplicateTotal, s.metrics.updatedTotal + 1)
  {
    var (e0, e1) := (Env(t0, NoFault), Env(t1, NoFault));
    StepInsertsUnseen(s, firing, e0);
    StepUpdatesChangedStatus(Step(s, firing, e0).state, resolved, e1);
    var s1 := AddReceived(s, 2);
    StepInsertsUnseen(s1, firing, e0);
    var first := Step(s1, firing, e0);
    StepUpdatesChangedStatus(first.state, resolved, e1);
    var second := Step(first.state, resolved, e1);
    assert Reconcile(second.state, [], []) == Run(Processed, second.state);
    assert [resolved][1..] == [] && [e1][1..] == [];
    assert Reconcile(first.state, [resolved], [e1]) == Run(Processed, second.state);
    assert [firing, resolved][1..] == [resolved] && [e0, e1][1..] == [e1];
    assert Reconcile(s1, [firing, resolved], [e0, e1]) == Run(Processed, second.state);
  }
}
