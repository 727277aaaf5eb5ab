/** Outbox completeness over every run: published exactly when nothing is pending, once and for all. */
module OutboxSafety {
  import opened RunTypes
  import opened Outbox

  /** An event with deliveries is published exactly when none of them is pending. */
  ghost predicate EventOk(box: Box, e: Id)
    requires e in box.events
  {
    HasDeliveries(box, e) ==> (box.events[e].publishedAt.Some? <==> !HasWaiting(box, e))
  }

  ghost predicate EventsOk(box: Box) {
    forall e :: e in box.events ==> EventOk(box, e)
  }

  ghost predicate RowsOk(box: Box) {
    && (forall e :: e in box.events ==> e < box.unused)
    && (forall k :: k in box.deliveries ==> k.0 in box.events)
    && (forall k :: k in box.deliveries ==> (box.deliveries[k].standing.Waiting? <==> box.deliveries[k].endedAt.None?))
  }

  ghost predicate BoxOk(box: Box) {
    EventsOk(box) && RowsOk(box)
  }

  /** Rows are never lost; what has ended, and what is published, stays as it is. */
  ghost predicate Onward(box: Box, next: Box) {
    && (forall k :: k in box.deliveries ==> k in next.deliveries)
    && (forall k :: k in box.deliveries && !box.deliveries[k].standing.Waiting? ==>
          next.deliveries[k] == box.deliveries[k])
    && (forall e :: e in box.events ==> e in next.events)
    && (forall e :: e in box.events && box.events[e].publishedAt.Some? ==> next.events[e] == box.events[e])
    && (forall k :: k in next.deliveries && k !in box.deliveries && k.0 in box.events ==>
          box.events[k.0].publishedAt.None?)
  }

  lemma OnwardThen(a: Box, b: Box, c: Box)
    requires Onward(a, b) && Onward(b, c)
    ensures Onward(a, c)
  {
  }

  /** The other events of a box whose deliveries change for one event only. */
  lemma SameEvent(box: Box, next: Box, e: Id)
    requires e in box.events && e in next.events && next.events[e].publishedAt.Some? == box.events[e].publishedAt.Some?
    requires forall k: (Id, Id) :: k.0 == e ==> (k in box.deliveries <==> k in next.deliveries)
    requires forall k :: k in box.deliveries && k.0 == e ==>
              next.deliveries[k].standing.Waiting? == box.deliveries[k].standing.Waiting?
    requires EventOk(box, e)
    ensures EventOk(next, e)
  {
    if HasDeliveries(next, e) {
      var k :| k in next.deliveries && k.0 == e;
      assert k in box.deliveries;
    }
    if HasWaiting(next, e) {
      var k :| k in next.deliveries && k.0 == e && next.deliveries[k].standing.Waiting?;
      assert k in box.deliveries;
    }
    if HasWaiting(box, e) {
      var k :| k in box.deliveries && k.0 == e && box.deliveries[k].standing.Waiting?;
      assert k in next.deliveries;
    }
  }

  // ---------------------------------------------------------------- each operation

  lemma AddOk(box: Box, event: Event)
    requires BoxOk(box)
    ensures BoxOk(AddEvent(box, event)) && Onward(box, AddEvent(box, event))
  {
    var next := AddEvent(box, event);
    forall e | e in next.events ensures EventOk(next, e) {
      if e in box.events && e != box.unused {
        SameEvent(box, next, e);
      } else {
        assert forall k :: k in next.deliveries ==> k.0 != box.unused;
      }
    }
  }

  lemma PublishEmpty(box: Box, e: Id, now: Time)
    requires BoxOk(box) && e in box.events && box.events[e].publishedAt.None? && !HasDeliveries(box, e)
    ensures BoxOk(Publish(box, e, now)) && Onward(box, Publish(box, e, now))
  {
    var next := Publish(box, e, now);
    forall x | x in next.events ensures EventOk(next, x) {
      if x != e {
        SameEvent(box, next, x);
      } else {
        assert forall k :: k in next.deliveries ==> k.0 != e;
      }
    }
  }

  lemma DeliveriesOk(box: Box, e: Id, channels: set<Id>, now: Time)
    requires BoxOk(box) && e in box.events && box.events[e].publishedAt.None? && !HasDeliveries(box, e)
    requires channels != {}
    ensures BoxOk(AddDeliveries(box, e, channels, now)) && Onward(box, AddDeliveries(box, e, channels, now))
  {
    var next := AddDeliveries(box, e, channels, now);
    forall x | x in next.events ensures EventOk(next, x) {
      if x != e {
        SameEvent(box, next, x);
      } else {
        var c :| c in channels;
        assert (e, c) in Keys(e, channels) && (e, c) in next.deliveries && next.deliveries[(e, c)].standing.Waiting?;
      }
    }
  }

  lemma {:induction false} PrepareOk(box: Box, rows: seq<Id>, now: Time)
    requires BoxOk(box)
    ensures BoxOk(Prepare(box, rows, now)) && Onward(box, Prepare(box, rows, now))
    decreases rows
  {
    hide BoxOk, Onward, HasDeliveries, AddDeliveries, Publish, Matching;
    if rows == [] {
      OnwardSelf(box);
    } else {
      var next := PrepareOne(box, rows[0], now);
      PrepareOneOk(box, rows[0], now);
      PrepareOk(next, rows[1..], now);
      OnwardThen(box, next, Prepare(box, rows, now));
    }
  }

  lemma OnwardSelf(box: Box)
    ensures Onward(box, box)
  {
  }

  lemma PrepareOneOk(box: Box, e: Id, now: Time)
    requires BoxOk(box)
    ensures BoxOk(PrepareOne(box, e, now)) && Onward(box, PrepareOne(box, e, now))
  {
    hide BoxOk, Onward, HasDeliveries, AddDeliveries, Publish, Matching;
    OnwardSelf(box);
    if Preparable(box, e, now) {
      if Matching(box, e) == {} { PublishEmpty(box, e, now); } else { DeliveriesOk(box, e, Matching(box, e), now); }
    }
  }

  /** Rewriting a pending delivery without ending it. */
  lemma TouchOk(box: Box, k: (Id, Id), d: Delivery)
    requires BoxOk(box) && k in box.deliveries && box.deliveries[k].standing.Waiting?
    requires d.standing.Waiting? && d.endedAt.None?
    ensures var next := box.(deliveries := box.deliveries[k := d]); BoxOk(next) && Onward(box, next)
  {
    var next := box.(deliveries := box.deliveries[k := d]);
    forall e | e in next.events ensures EventOk(next, e) {
      SameEvent(box, next, e);
    }
  }

  lemma ClaimOneOk(box: Box, owner: string, k: (Id, Id), now: Time)
    requires BoxOk(box)
    ensures BoxOk(ClaimOne(box, owner, k, now)) && Onward(box, ClaimOne(box, owner, k, now))
  {
    if k in box.deliveries && Free(box.deliveries[k], now) {
      TouchOk(box, k, ClaimOne(box, owner, k, now).deliveries[k]);
    }
  }

  lemma {:induction false} ClaimOk(box: Box, owner: string, rows: seq<(Id, Id)>, now: Time)
    requires BoxOk(box)
    ensures BoxOk(ClaimAll(box, owner, rows, now)) && Onward(box, ClaimAll(box, owner, rows, now))
    decreases rows
  {
    hide BoxOk, Onward, ClaimOne;
    if rows == [] {
      OnwardSelf(box);
    } else {
      ClaimOneOk(box, owner, rows[0], now);
      ClaimOk(ClaimOne(box, owner, rows[0], now), owner, rows[1..], now);
      OnwardThen(box, ClaimOne(box, owner, rows[0], now), ClaimAll(box, owner, rows, now));
    }
  }

  lemma FinishedEvents(box: Box, owner: string, k: (Id, Id), standing: Standing, now: Time)
    requires BoxOk(box) && !standing.Waiting? && Finish(box, owner, k, standing, now).Ok?
    ensures EventsOk(Finish(box, owner, k, standing, now).value)
  {
    var done := box.(deliveries := box.deliveries[k := Ended(box.deliveries[k], standing, now)]);
    var next := Finish(box, owner, k, standing, now).value;
    assert EventOk(box, k.0) && HasDeliveries(box, k.0) && HasWaiting(box, k.0);
    forall e | e in next.events ensures EventOk(next, e) {
      if e != k.0 {
        SameEvent(box, next, e);
      } else {
        SameWaiting(done, next, e);
      }
    }
  }

  lemma FinishedRows(box: Box, owner: string, k: (Id, Id), standing: Standing, now: Time)
    requires RowsOk(box) && !standing.Waiting? && Finish(box, owner, k, standing, now).Ok?
    ensures RowsOk(Finish(box, owner, k, standing, now).value)
  {
    hide HasWaiting;
  }

  lemma FinishedOnward(box: Box, owner: string, k: (Id, Id), standing: Standing, now: Time)
    requires Finish(box, owner, k, standing, now).Ok?
    requires k.0 in box.events && box.events[k.0].publishedAt.None?
    ensures Onward(box, Finish(box, owner, k, standing, now).value)
  {
    hide HasWaiting;
  }

  lemma FinishOk(box: Box, owner: string, k: (Id, Id), standing: Standing, now: Time)
    requires BoxOk(box) && !standing.Waiting? && Finish(box, owner, k, standing, now).Ok?
    ensures var next := Finish(box, owner, k, standing, now).value; BoxOk(next) && Onward(box, next)
  {
    hide EventsOk, RowsOk, Onward, HasWaiting;
    FinishedEvents(box, owner, k, standing, now);
    FinishedRows(box, owner, k, standing, now);
    WaitingUnpublished(box, k);
    FinishedOnward(box, owner, k, standing, now);
  }

  /** An event with a pending delivery is not published. */
  lemma WaitingUnpublished(box: Box, k: (Id, Id))
    requires BoxOk(box) && k in box.deliveries && box.deliveries[k].standing.Waiting?
    ensures k.0 in box.events && box.events[k.0].publishedAt.None?
  {
    assert EventOk(box, k.0) && HasDeliveries(box, k.0) && HasWaiting(box, k.0);
  }

  lemma SameWaiting(a: Box, b: Box, e: Id)
    requires a.deliveries == b.deliveries
    ensures HasWaiting(a, e) <==> HasWaiting(b, e)
  {
  }

  lemma TerminalizedEvent(box: Box, c: Id, now: Time, e: Id)
    requires BoxOk(box) && e in box.events
    ensures EventOk(Terminalize(box, c, now), e)
  {
    var next := Terminalize(box, c, now);
    assert EventOk(box, e);
    assert HasWaiting(next, e) <==> WaitingElsewhere(box, c, e) by { WaitingAfter(box, c, now, e); }
    if HasDeliveries(next, e) {
      var k :| k in next.deliveries && k.0 == e;
      assert k in box.deliveries && HasDeliveries(box, e);
    }
    if WaitingFor(box, c, (e, c)) { assert HasWaiting(box, e); }
    if WaitingElsewhere(box, c, e) { assert HasWaiting(box, e); }
    if HasWaiting(box, e) && !WaitingElsewhere(box, c, e) {
      var k :| k in box.deliveries && k.0 == e && box.deliveries[k].standing.Waiting?;
      assert k == (e, c);
    }
  }

  lemma WaitingAfter(box: Box, c: Id, now: Time, e: Id)
    ensures HasWaiting(Terminalize(box, c, now), e) <==> WaitingElsewhere(box, c, e)
  {
    var next := Terminalize(box, c, now);
    if HasWaiting(next, e) {
      var k :| k in next.deliveries && k.0 == e && next.deliveries[k].standing.Waiting?;
      assert k in box.deliveries && k.1 != c && box.deliveries[k].standing.Waiting?;
    }
    if WaitingElsewhere(box, c, e) {
      var k :| k in box.deliveries && k.0 == e && k.1 != c && box.deliveries[k].standing.Waiting?;
      assert k in next.deliveries && next.deliveries[k] == box.deliveries[k];
    }
  }

  lemma TerminalizeOnward(box: Box, c: Id, now: Time)
    requires BoxOk(box)
    ensures Onward(box, Terminalize(box, c, now))
  {
    forall e | e in box.events ensures WaitingFor(box, c, (e, c)) ==> box.events[e].publishedAt.None? {
      if WaitingFor(box, c, (e, c)) { WaitingUnpublished(box, (e, c)); }
    }
    hide EventsOk, HasWaiting, WaitingElsewhere;
  }

  lemma TerminalizedEvents(box: Box, c: Id, now: Time)
    requires BoxOk(box)
    ensures EventsOk(Terminalize(box, c, now))
  {
    var next := Terminalize(box, c, now);
    forall e | e in next.events ensures EventOk(next, e) {
      TerminalizedEvent(box, c, now, e);
    }
  }

  lemma TerminalizedRows(box: Box, c: Id, now: Time)
    requires RowsOk(box)
    ensures RowsOk(Terminalize(box, c, now))
  {
    hide WaitingElsewhere;
  }

  lemma TerminalizeOk(box: Box, c: Id, now: Time)
    requires BoxOk(box)
    ensures BoxOk(Terminalize(box, c, now)) && Onward(box, Terminalize(box, c, now))
  {
    hide EventsOk, RowsOk, Onward, Terminalize;
    TerminalizedEvents(box, c, now);
    TerminalizedRows(box, c, now);
    TerminalizeOnward(box, c, now);
  }

  /** Channels do not matter to what has been inserted. */
  lemma ChannelsOk(box: Box, channels: map<Id, Channel>, unused: Id)
    requires BoxOk(box) && box.unused <= unused
    ensures var next := box.(channels := channels, unused := unused); BoxOk(next) && Onward(box, next)
  {
    var next := box.(channels := channels, unused := unused);
    forall e | e in next.events ensures EventOk(next, e) {
      SameEvent(box, next, e);
    }
  }

  lemma SwitchOk(box: Box, c: Id, channel: Channel, now: Time)
    requires BoxOk(box)
    ensures var next := box.(channels := box.channels[c := channel]);
            && BoxOk(next) && Onward(box, next)
            && BoxOk(Terminalize(next, c, now)) && Onward(box, Terminalize(next, c, now))
  {
    hide BoxOk, Onward, Terminalize;
    var next := box.(channels := box.channels[c := channel]);
    ChannelsOk(box, next.channels, box.unused);
    TerminalizeOk(next, c, now);
    OnwardThen(box, next, Terminalize(next, c, now));
  }

  lemma ApplyOk(box: Box, a: Action)
    requires BoxOk(box) && Apply(box, a).Ok?
    ensures BoxOk(Apply(box, a).value) && Onward(box, Apply(box, a).value)
  {
    hide BoxOk, Onward, Terminalize, Prepare, ClaimAll, Finish;
    match a
    case DoAdd(event) => AddOk(box, event);
    case DoPrepare(rows, now) => PrepareOk(box, rows, now);
    case DoClaim(owner, keys, now) => ClaimOk(box, owner, keys, now);
    case DoFinish(owner, key, delivered, now) => FinishOk(box, owner, key, if delivered then Delivered else Dead, now);
    case DoRetry(owner, key, delay, now) => RetryOk(box, owner, key, delay, now);
    case DoSetEnabled(tenant, id, enabled, version, now) =>
      SwitchOk(box, id, box.channels[id].(enabled := enabled, version := version + 1), now);
    case DoDelete(tenant, id, version, now) =>
      SwitchOk(box, id, box.channels[id].(enabled := false, deleted := true, version := version + 1), now);
    case DoCreate(channel) => ChannelsOk(box, CreateChannel(box, channel).channels, box.unused + 1);
    case DoUpdate(id, channel) => ChannelsOk(box, Apply(box, a).value.channels, box.unused);
  }

  lemma RetryOk(box: Box, owner: string, k: (Id, Id), delay: Time, now: Time)
    requires BoxOk(box) && RetryLater(box, owner, k, delay, now).Ok?
    ensures BoxOk(RetryLater(box, owner, k, delay, now).value)
    ensures Onward(box, RetryLater(box, owner, k, delay, now).value)
  {
    TouchOk(box, k, RetryLater(box, owner, k, delay, now).value.deliveries[k]);
  }

  // ------------------------------------------------------------------- all histories

  lemma {:induction false} ExecOk(actions: seq<Action>)
    ensures BoxOk(Exec(actions))
  {
    hide BoxOk, Onward, Apply;
    if actions == [] {
      NothingOk();
    } else {
      var before := Exec(actions[..|actions| - 1]);
      ExecOk(actions[..|actions| - 1]);
      if Apply(before, actions[|actions| - 1]).Ok? { ApplyOk(before, actions[|actions| - 1]); }
    }
  }

  lemma NothingOk()
    ensures BoxOk(NOTHING)
  {
  }

  lemma {:induction false} ExecOnward(actions: seq<Action>, k: nat)
    requires k <= |actions|
    ensures Onward(Exec(actions[..k]), Exec(actions))
    decreases |actions|
  {
    hide BoxOk, Onward, Apply;
    if k == |actions| {
      assert actions[..k] == actions;
      OnwardSelf(Exec(actions));
    } else {
      var shorter := actions[..|actions| - 1];
      ExecOnward(shorter, k);
      assert shorter[..k] == actions[..k];
      ExecOk(shorter);
      if Apply(Exec(shorter), actions[|actions| - 1]).Ok? {
        ApplyOk(Exec(shorter), actions[|actions| - 1]);
        OnwardThen(Exec(actions[..k]), Exec(shorter), Exec(actions));
      }
    }
  }

  /** In every run, an event that has deliveries is published exactly when none of them is pending. */
  lemma PublishedWhenNothingPending(actions: seq<Action>, e: Id)
    requires e in Exec(actions).events && HasDeliveries(Exec(actions), e)
    ensures Exec(actions).events[e].publishedAt.Some? <==> !HasWaiting(Exec(actions), e)
  {
    hide Exec, HasDeliveries, HasWaiting;
    ExecOk(actions);
    assert EventOk(Exec(actions), e);
  }

  /** A delivered or dead delivery never changes again, and a published event neither changes nor gains deliveries. */
  lemma EndedIsFinal(actions: seq<Action>, n: nat, k: (Id, Id))
    requires n <= |actions|
    ensures k in Exec(actions[..n]).deliveries && !Exec(actions[..n]).deliveries[k].standing.Waiting? ==>
              k in Exec(actions).deliveries && Exec(actions).deliveries[k] == Exec(actions[..n]).deliveries[k]
    ensures k.0 in Exec(actions[..n]).events && Exec(actions[..n]).events[k.0].publishedAt.Some? ==>
              && k.0 in Exec(actions).events && Exec(actions).events[k.0] == Exec(actions[..n]).events[k.0]
              && (k in Exec(actions).deliveries ==> k in Exec(actions[..n]).deliveries)
  {
    hide Exec;
    ExecOnward(actions, n);
  }

  // ------------------------------------------------------------- closed channels

  ghost predicate Open(box: Box, c: Id) {
    c in box.channels && box.channels[c].enabled && !box.channels[c].deleted
  }

  /** Pending deliveries belong to channels that are enabled and not deleted. */
  ghost predicate PendingOpen(box: Box) {
    && (forall c :: c in box.channels ==> c < box.unused)
    && (forall k :: k in box.deliveries && box.deliveries[k].standing.Waiting? ==> Open(box, k.1))
  }

  lemma PreparedOpen(box: Box, e: Id, now: Time)
    requires PendingOpen(box)
    ensures PendingOpen(PrepareOne(box, e, now))
  {
    if Preparable(box, e, now) && Matching(box, e) != {} {
      var next := PrepareOne(box, e, now);
      forall k | k in next.deliveries && next.deliveries[k].standing.Waiting? ensures Open(next, k.1) {
        if k !in box.deliveries { assert k.1 in Matching(box, e); }
      }
    }
  }

  lemma {:induction false} PrepareOpen(box: Box, rows: seq<Id>, now: Time)
    requires PendingOpen(box)
    ensures PendingOpen(Prepare(box, rows, now))
    decreases rows
  {
    hide PendingOpen, PrepareOne;
    if rows != [] {
      PreparedOpen(box, rows[0], now);
      PrepareOpen(PrepareOne(box, rows[0], now), rows[1..], now);
    }
  }

  lemma {:induction false} ClaimOpen(box: Box, owner: string, rows: seq<(Id, Id)>, now: Time)
    requires PendingOpen(box)
    ensures PendingOpen(ClaimAll(box, owner, rows, now))
    decreases rows
  {
    if rows != [] {
      ClaimOpen(ClaimOne(box, owner, rows[0], now), owner, rows[1..], now);
    }
  }

  lemma SwitchedOpen(box: Box, c: Id, channel: Channel, now: Time)
    requires PendingOpen(box) && c in box.channels
    ensures PendingOpen(Terminalize(box.(channels := box.channels[c := channel]), c, now))
    ensures channel.enabled && !channel.deleted ==> PendingOpen(box.(channels := box.channels[c := channel]))
  {
    hide WaitingElsewhere;
  }

  lemma ApplyOpen(box: Box, a: Action)
    requires PendingOpen(box) && Apply(box, a).Ok?
    ensures PendingOpen(Apply(box, a).value)
  {
    hide Prepare, ClaimAll, Terminalize, HasWaiting;
    match a
    case DoPrepare(rows, now) => PrepareOpen(box, rows, now);
    case DoClaim(owner, keys, now) => ClaimOpen(box, owner, keys, now);
    case DoSetEnabled(tenant, id, enabled, version, now) =>
      SwitchedOpen(box, id, box.channels[id].(enabled := enabled, version := version + 1), now);
    case DoDelete(tenant, id, version, now) =>
      SwitchedOpen(box, id, box.channels[id].(enabled := false, deleted := true, version := version + 1), now);
    case _ =>
  }

  /** In every run, a disabled or deleted channel has nothing pending. */
  lemma {:induction false} ClosedChannelsHaveNothingPending(actions: seq<Action>)
    ensures PendingOpen(Exec(actions))
  {
    hide PendingOpen, Apply;
    if actions == [] {
      NothingPending();
    } else {
      var before := Exec(actions[..|actions| - 1]);
      ClosedChannelsHaveNothingPending(actions[..|actions| - 1]);
      if Apply(before, actions[|actions| - 1]).Ok? { ApplyOpen(before, actions[|actions| - 1]); }
    }
  }

  lemma NothingPending()
    ensures PendingOpen(NOTHING)
  {
  }
}
