/** The notification tables as an object whose methods update them in place. */
module OutboxStore {
  import opened RunTypes
  import O = Outbox
  import OutboxSafety

  class Notifications {
    var events: map<Id, O.Event>
    var deliveries: map<(Id, Id), O.Delivery>
    var channels: map<Id, O.Channel>
    var unused: Id

    function Value(): O.Box
      reads this
    {
      O.Box(events, deliveries, channels, unused)
    }

    ghost predicate Valid()
      reads this
    {
      OutboxSafety.BoxOk(Value())
    }

    constructor ()
      ensures Valid() && Value() == O.NOTHING
    {
      events, deliveries, channels, unused := map[], map[], map[], 0;
    }

    method Publish(e: Id, now: Time)
      modifies this`events
      ensures Value() == O.Publish(old(Value()), e, now)
    {
      if e in events {
        events := events[e := events[e].(publishedAt := Some(now))];
      }
    }

    /** INSERT ... ON CONFLICT DO NOTHING, one channel after the other. */
    method InsertDeliveries(e: Id, targets: set<Id>, now: Time)
      modifies this`deliveries
      ensures Value() == O.AddDeliveries(old(Value()), e, targets, now)
    {
      ghost var before := Value();
      var rest := targets;
      InsertedNone(before, e, now);
      while rest != {}
        invariant rest <= targets && Value() == O.AddDeliveries(before, e, targets - rest, now)
        decreases |rest|
      {
        var c :| c in rest;
        InsertedOne(before, e, targets - rest, c, now);
        assert targets - (rest - {c}) == targets - rest + {c};
        if (e, c) !in deliveries {
          deliveries := deliveries[(e, c) := O.NewDelivery(now)];
        }
        rest := rest - {c};
      }
      assert targets - rest == targets;
    }

    /** PrepareNotificationDeliveries: the loop over the events its query returned. */
    method PrepareDeliveries(rows: seq<Id>, now: Time)
      requires Valid()
      modifies this
      ensures Valid() && Value() == O.Do(old(Value()), O.DoPrepare(rows, now))
    {
      hide O.Publish, O.AddDeliveries, O.Matching, O.HasDeliveries, OutboxSafety.BoxOk, OutboxSafety.Onward;
      ghost var before := Value();
      OutboxSafety.ApplyOk(before, O.DoPrepare(rows, now));
      var i := 0;
      while i < |rows|
        invariant 0 <= i <= |rows|
        invariant O.Prepare(Value(), rows[i..], now) == O.Prepare(before, rows, now)
      {
        assert rows[i..][0] == rows[i] && rows[i..][1..] == rows[i + 1..];
        if O.Preparable(Value(), rows[i], now) {
          var targets := O.Matching(Value(), rows[i]);
          if targets == {} {
            Publish(rows[i], now);
          } else {
            InsertDeliveries(rows[i], targets, now);
          }
        }
        i := i + 1;
      }
    }

    method ClaimDeliveries(owner: string, rows: seq<(Id, Id)>, now: Time)
      requires Valid()
      modifies this
      ensures Valid() && Value() == O.Do(old(Value()), O.DoClaim(owner, rows, now))
    {
      hide OutboxSafety.BoxOk, OutboxSafety.Onward;
      ghost var before := Value();
      OutboxSafety.ApplyOk(before, O.DoClaim(owner, rows, now));
      var i := 0;
      while i < |rows|
        invariant 0 <= i <= |rows|
        invariant O.ClaimAll(Value(), owner, rows[i..], now) == O.ClaimAll(before, owner, rows, now)
      {
        var k := rows[i];
        assert rows[i..][0] == k && rows[i..][1..] == rows[i + 1..];
        if k in deliveries && O.Free(deliveries[k], now) {
          deliveries := deliveries[k := deliveries[k].(lockedBy := Some(owner), lockedUntil := Some(now + 30 * SECOND),
                                                       attempts := deliveries[k].attempts + 1)];
        }
        i := i + 1;
      }
    }

    /** finishNotificationDelivery, for a delivered and for a dead-lettered delivery. */
    method FinishDelivery(owner: string, k: (Id, Id), delivered: bool, now: Time) returns (r: Result<bool>)
      requires Valid()
      modifies this
      ensures Valid() && Value() == O.Do(old(Value()), O.DoFinish(owner, k, delivered, now))
      ensures r.Ok? <==> O.Apply(old(Value()), O.DoFinish(owner, k, delivered, now)).Ok?
    {
      hide OutboxSafety.BoxOk, OutboxSafety.Onward, O.HasWaiting, O.Publish;
      if k !in deliveries || !O.Held(deliveries[k], owner, now) {
        return Err(Conflict);
      }
      OutboxSafety.ApplyOk(Value(), O.DoFinish(owner, k, delivered, now));
      deliveries := deliveries[k := O.Ended(deliveries[k], if delivered then O.Delivered else O.Dead, now)];
      if !O.HasWaiting(Value(), k.0) {
        Publish(k.0, now);
      }
      r := Ok(true);
    }

    method RetryDelivery(owner: string, k: (Id, Id), delay: Time, now: Time) returns (r: Result<bool>)
      requires Valid()
      modifies this
      ensures Valid() && Value() == O.Do(old(Value()), O.DoRetry(owner, k, delay, now))
      ensures r.Ok? <==> O.Apply(old(Value()), O.DoRetry(owner, k, delay, now)).Ok?
    {
      hide OutboxSafety.BoxOk, OutboxSafety.Onward;
      if k !in deliveries || !O.Held(deliveries[k], owner, now) {
        return Err(Conflict);
      }
      OutboxSafety.ApplyOk(Value(), O.DoRetry(owner, k, delay, now));
      deliveries := deliveries[k := deliveries[k].(availableAt := now + delay, lockedBy := None, lockedUntil := None)];
      r := Ok(true);
    }

    /** Deliveries first, then the events that no other channel keeps waiting. */
    method TerminalizeDeliveries(c: Id, now: Time)
      modifies this`deliveries, this`events
      ensures Value() == O.Terminalize(old(Value()), c, now)
    {
      ghost var before := Value();
      var affected := set e | e in events && O.WaitingFor(Value(), c, (e, c));
      deliveries := map k | k in deliveries ::
        if O.WaitingFor(Value(), c, k) then O.Ended(deliveries[k], O.Dead, now) else deliveries[k];
      forall e ensures O.WaitingElsewhere(Value(), c, e) <==> O.WaitingElsewhere(before, c, e) {
        OthersWait(before, Value(), c, e);
      }
      events := map e | e in events ::
        if e in affected && !O.WaitingElsewhere(Value(), c, e) then events[e].(publishedAt := Some(now)) else events[e];
    }

    method SetEnabled(tenant: Id, c: Id, enabled: bool, version: nat, now: Time) returns (r: Result<bool>)
      requires Valid()
      modifies this
      ensures Valid() && Value() == O.Do(old(Value()), O.DoSetEnabled(tenant, c, enabled, version, now))
      ensures r.Ok? <==> O.Apply(old(Value()), O.DoSetEnabled(tenant, c, enabled, version, now)).Ok?
    {
      hide OutboxSafety.BoxOk, OutboxSafety.Onward, O.Terminalize;
      if c !in channels || channels[c].tenant != tenant || channels[c].version != version || channels[c].deleted {
        return Err(Conflict);
      }
      OutboxSafety.ApplyOk(Value(), O.DoSetEnabled(tenant, c, enabled, version, now));
      channels := channels[c := channels[c].(enabled := enabled, version := version + 1)];
      if !enabled {
        TerminalizeDeliveries(c, now);
      }
      r := Ok(true);
    }

    method DeleteChannel(tenant: Id, c: Id, version: nat, now: Time) returns (r: Result<bool>)
      requires Valid()
      modifies this
      ensures Valid() && Value() == O.Do(old(Value()), O.DoDelete(tenant, c, version, now))
      ensures r.Ok? <==> O.Apply(old(Value()), O.DoDelete(tenant, c, version, now)).Ok?
    {
      hide OutboxSafety.BoxOk, OutboxSafety.Onward, O.Terminalize;
      if c !in channels || channels[c].tenant != tenant || channels[c].version != version || channels[c].deleted {
        return Err(Conflict);
      }
      OutboxSafety.ApplyOk(Value(), O.DoDelete(tenant, c, version, now));
      channels := channels[c := channels[c].(enabled := false, deleted := true, version := version + 1)];
      TerminalizeDeliveries(c, now);
      r := Ok(true);
    }
  }

  lemma InsertedNone(box: O.Box, e: Id, now: Time)
    ensures O.AddDeliveries(box, e, {}, now) == box
  {
    assert O.Keys(e, {}) == {};
  }

  lemma InsertedOne(box: O.Box, e: Id, done: set<Id>, c: Id, now: Time)
    ensures var before, after := O.AddDeliveries(box, e, done, now), O.AddDeliveries(box, e, done + {c}, now);
            after == if (e, c) in before.deliveries then before
                     else before.(deliveries := before.deliveries[(e, c) := O.NewDelivery(now)])
  {
    assert O.Keys(e, done + {c}) == O.Keys(e, done) + {(e, c)};
  }

  lemma OthersWait(a: O.Box, b: O.Box, c: Id, e: Id)
    requires forall k :: k in a.deliveries <==> k in b.deliveries
    requires forall k :: k in a.deliveries && k.1 != c ==> b.deliveries[k] == a.deliveries[k]
    ensures O.WaitingElsewhere(b, c, e) <==> O.WaitingElsewhere(a, c, e)
  {
    if O.WaitingElsewhere(a, c, e) {
      var k :| k in a.deliveries && k.0 == e && k.1 != c && a.deliveries[k].standing.Waiting?;
      assert k in b.deliveries;
    }
    if O.WaitingElsewhere(b, c, e) {
      var k :| k in b.deliveries && k.0 == e && k.1 != c && b.deliveries[k].standing.Waiting?;
      assert k in a.deliveries;
    }
  }
}
