/** Who gets which notification, and who may handle it, on the columns of the tables. */
module OutboxFanout {
  import opened RunTypes
  import opened Outbox

  // ------------------------------------------------------------------ preparing

  /** An event that nobody has dealt with, and whose time has come. */
  ghost predicate Open(box: Box, e: Id, now: Time) {
    && e in box.events && box.events[e].publishedAt.None? && box.events[e].availableAt <= now
    && (forall k :: k in box.deliveries ==> k.0 != e)
  }

  /** The channel is in use by the event's tenant and listens to its topic, and to its job or to all jobs. */
  predicate Listens(box: Box, c: Id, e: Id)
    requires e in box.events
  {
    c in box.channels &&
    var channel, event := box.channels[c], box.events[e];
    && channel.tenant == event.tenant && channel.enabled && !channel.deleted && event.topic in channel.topics
    && (channel.allJobs || (event.job.Some? && event.job.value in channel.jobs))
  }

  /** The event has a fresh delivery for each channel that listens and no other, or is published for want of any. */
  ghost predicate FannedOut(box: Box, next: Box, e: Id, now: Time)
    requires e in box.events
  {
    && (forall c: Id :: (e, c) in next.deliveries <==> Listens(box, c, e))
    && (forall c: Id :: (e, c) in next.deliveries ==>
          next.deliveries[(e, c)] == Delivery(Waiting, 0, now, None, None, None))
    && e in next.events
    && next.events[e] == box.events[e].(publishedAt := if exists c :: Listens(box, c, e) then None else Some(now))
  }

  lemma OneFannedOut(box: Box, e: Id, now: Time)
    requires Open(box, e, now)
    ensures FannedOut(box, PrepareOne(box, e, now), e, now)
  {
    var next, matching := PrepareOne(box, e, now), Matching(box, e);
    assert Preparable(box, e, now);
    assert forall c :: c in matching <==> Listens(box, c, e);
    assert forall c :: (e, c) in Keys(e, matching) <==> c in matching;
    if c: Id :| Listens(box, c, e) { assert c in matching; }
    if matching != {} { var c :| c in matching; }
  }

  /** Nothing about this event, nor any channel, is different. */
  ghost predicate Aside(box: Box, next: Box, e: Id) {
    && next.channels == box.channels && (e in next.events <==> e in box.events)
    && (e in box.events ==> next.events[e] == box.events[e])
    && (forall c :: (e, c) in next.deliveries <==> (e, c) in box.deliveries)
    && (forall c :: (e, c) in box.deliveries ==> next.deliveries[(e, c)] == box.deliveries[(e, c)])
  }

  lemma OtherEvents(box: Box, f: Id, now: Time, e: Id)
    requires e != f || !Open(box, e, now)
    ensures Aside(box, PrepareOne(box, f, now), e)
  {
    if e == f {
      assert !Preparable(box, e, now) by { NotPreparable(box, e, now); }
    } else if Preparable(box, f, now) {
      assert forall c: Id :: (e, c) !in Keys(f, Matching(box, f));
    }
  }

  lemma NotPreparable(box: Box, e: Id, now: Time)
    requires !Open(box, e, now)
    ensures !Preparable(box, e, now)
  {
    if k :| k in box.deliveries && k.0 == e { assert HasDeliveries(box, e); }
  }

  /** Once fanned out, or published, an event is not open any more. */
  lemma FannedIsDone(box: Box, next: Box, e: Id, now: Time)
    requires Open(box, e, now) && FannedOut(box, next, e, now)
    ensures !Open(next, e, now)
  {
    if c: Id :| Listens(box, c, e) { assert (e, c) in next.deliveries; }
  }

  lemma FannedThen(box: Box, mid: Box, next: Box, e: Id, now: Time)
    requires e in box.events
    ensures FannedOut(box, mid, e, now) && Aside(mid, next, e) ==> FannedOut(box, next, e, now)
    ensures Aside(box, mid, e) && FannedOut(mid, next, e, now) ==> FannedOut(box, next, e, now)
  {
    if Aside(box, mid, e) {
      assert forall c :: Listens(mid, c, e) <==> Listens(box, c, e);
    }
  }

  lemma AsideThen(box: Box, mid: Box, next: Box, e: Id)
    requires Aside(box, mid, e) && Aside(mid, next, e)
    ensures Aside(box, next, e)
  {
  }

  lemma AsideOpen(box: Box, mid: Box, e: Id, now: Time)
    requires Aside(box, mid, e)
    ensures Open(mid, e, now) <==> Open(box, e, now)
  {
    assert forall k :: k in mid.deliveries && k.0 == e ==> (e, k.1) in mid.deliveries && (e, k.1) in box.deliveries;
    assert forall k :: k in box.deliveries && k.0 == e ==> (e, k.1) in box.deliveries && (e, k.1) in mid.deliveries;
  }

  /**
   Preparing a batch of events fans out each open one to exactly the channels that listen, and
   publishes those nobody listens to; an event that is not listed, or not open, stays as it is.
   */
  lemma {:induction false} EventsFanOut(box: Box, rows: seq<Id>, now: Time, e: Id)
    ensures if e in rows && Open(box, e, now) then FannedOut(box, Prepare(box, rows, now), e, now)
            else Aside(box, Prepare(box, rows, now), e)
    decreases rows
  {
    hide Open, FannedOut, Aside, PrepareOne;
    if rows == [] {
      AsideSelf(box, e);
    } else {
      var mid, next := PrepareOne(box, rows[0], now), Prepare(box, rows, now);
      assert e in rows <==> e == rows[0] || e in rows[1..];
      EventsFanOut(mid, rows[1..], now, e);
      if e == rows[0] && Open(box, e, now) {
        OneFannedOut(box, e, now);
        FannedIsDone(box, mid, e, now);
        OpenIsKnown(box, e, now);
        FannedThen(box, mid, next, e, now);
      } else {
        OtherEvents(box, rows[0], now, e);
        AsideOpen(box, mid, e, now);
        if e in rows && Open(box, e, now) {
          OpenIsKnown(box, e, now);
          FannedThen(box, mid, next, e, now);
        } else {
          AsideThen(box, mid, next, e);
        }
      }
    }
  }

  lemma AsideSelf(box: Box, e: Id)
    ensures Aside(box, box, e)
  {
  }

  lemma OpenIsKnown(box: Box, e: Id, now: Time)
    requires Open(box, e, now)
    ensures e in box.events
  {
  }

  // --------------------------------------------------------------- claim and answer

  /** Pending, available, and not locked by anybody whose lock still holds. */
  predicate Claimable(d: Delivery, now: Time) {
    d.standing.Waiting? && d.availableAt <= now && (d.lockedUntil.Some? ==> d.lockedUntil.value < now)
  }

  function Locked(d: Delivery, owner: string, now: Time): Delivery {
    d.(lockedBy := Some(owner), lockedUntil := Some(now + 30_000_000_000), attempts := d.attempts + 1)
  }

  /** A claim locks exactly the listed deliveries that are free, for half a minute, and counts the attempt. */
  lemma {:induction false} DeliveriesClaimed(box: Box, owner: string, rows: seq<(Id, Id)>, now: Time, k: (Id, Id))
    requires k in box.deliveries
    ensures var next := ClaimAll(box, owner, rows, now);
            && k in next.deliveries
            && next.deliveries[k] == (if k in rows && Claimable(box.deliveries[k], now)
                                      then Locked(box.deliveries[k], owner, now) else box.deliveries[k])
    decreases rows
  {
    if rows != [] {
      assert k in rows <==> k == rows[0] || k in rows[1..];
      DeliveriesClaimed(ClaimOne(box, owner, rows[0], now), owner, rows[1..], now, k);
    }
  }

  /** Whoever holds a delivery under a lock that still stands. */
  predicate Holds(box: Box, owner: string, k: (Id, Id), now: Time) {
    && k in box.deliveries && box.deliveries[k].standing.Waiting? && box.deliveries[k].lockedBy == Some(owner)
    && box.deliveries[k].lockedUntil.Some? && box.deliveries[k].lockedUntil.value >= now
  }

  /** The holder, and nobody else, can end a delivery or put it back. */
  lemma HoldersAnswer(box: Box, owner: string, k: (Id, Id), delivered: bool, delay: Time, now: Time)
    ensures var r := Apply(box, DoFinish(owner, k, delivered, now));
            && (r.Ok? <==> Holds(box, owner, k, now))
            && (r.Ok? ==> k in r.value.deliveries
                          && r.value.deliveries[k].standing == (if delivered then Delivered else Dead)
                          && r.value.deliveries[k].endedAt == Some(now))
    ensures var r := Apply(box, DoRetry(owner, k, delay, now));
            && (r.Ok? <==> Holds(box, owner, k, now))
            && (r.Ok? ==> k in r.value.deliveries && r.value.deliveries[k].standing.Waiting?
                          && r.value.deliveries[k].availableAt == now + delay
                          && r.value.deliveries[k].lockedBy.None? && r.value.deliveries[k].lockedUntil.None?)
  {
    hide HasWaiting;
  }

  // ---------------------------------------------------------------------- channels

  /** The tenant has the channel, has not deleted it, and names its present version. */
  predicate Present(box: Box, tenant: Id, c: Id, version: nat) {
    && c in box.channels && box.channels[c].tenant == tenant && !box.channels[c].deleted
    && box.channels[c].version == version
  }

  /** The row of one channel is rewritten and counts one more version; the other channels are left alone. */
  ghost predicate Rewritten(box: Box, next: Box, c: Id, row: Channel) {
    && c in box.channels && c in next.channels && next.channels.Keys == box.channels.Keys
    && next.channels[c] == row.(version := box.channels[c].version + 1)
    && (forall x :: x in box.channels && x != c ==> next.channels[x] == box.channels[x])
  }

  /** What a closed channel was waiting for is given up, and no other delivery is touched. */
  ghost predicate GivenUp(box: Box, next: Box, c: Id, now: Time) {
    && next.deliveries.Keys == box.deliveries.Keys
    && (forall k :: k in box.deliveries ==>
          var d := box.deliveries[k];
          next.deliveries[k] == if k.1 == c && d.standing.Waiting?
            then Delivery(Dead, d.attempts, d.availableAt, None, None, Some(now)) else d)
  }

  lemma TerminalizeGivesUp(box: Box, c: Id, now: Time)
    ensures GivenUp(box, Terminalize(box, c, now), c, now) && Terminalize(box, c, now).channels == box.channels
  {
    hide WaitingElsewhere;
    forall k | k in box.deliveries
      ensures var d := box.deliveries[k];
              Terminalize(box, c, now).deliveries[k] == if k.1 == c && d.standing.Waiting?
                then Delivery(Dead, d.attempts, d.availableAt, None, None, Some(now)) else d
    {
      assert WaitingFor(box, c, k) <==> k.1 == c && box.deliveries[k].standing.Waiting?;
    }
  }

  /** Switching and deleting take the present version; both keep the subscription and give up what was waiting. */
  lemma ChannelsSwitchExactly(box: Box, tenant: Id, c: Id, enabled: bool, version: nat, now: Time)
    ensures var r := Apply(box, DoSetEnabled(tenant, c, enabled, version, now));
            && (r.Ok? <==> Present(box, tenant, c, version))
            && (r.Ok? ==> && Rewritten(box, r.value, c, box.channels[c].(enabled := enabled))
                          && if enabled then r.value.deliveries == box.deliveries && r.value.events == box.events
                             else GivenUp(box, r.value, c, now))
    ensures var r := Apply(box, DoDelete(tenant, c, version, now));
            && (r.Ok? <==> Present(box, tenant, c, version))
            && (r.Ok? ==> && Rewritten(box, r.value, c, box.channels[c].(enabled := false, deleted := true))
                          && GivenUp(box, r.value, c, now))
  {
    hide Terminalize, GivenUp;
    if Present(box, tenant, c, version) {
      var row := box.channels[c].(version := version + 1);
      var off := box.(channels := box.channels[c := row.(enabled := false)]);
      var gone := box.(channels := box.channels[c := row.(enabled := false, deleted := true)]);
      TerminalizeGivesUp(off, c, now);
      TerminalizeGivesUp(gone, c, now);
      SameGivenUp(box, off, Terminalize(off, c, now), c, now);
      SameGivenUp(box, gone, Terminalize(gone, c, now), c, now);
    }
  }

  lemma SameGivenUp(box: Box, mid: Box, next: Box, c: Id, now: Time)
    requires mid.deliveries == box.deliveries && GivenUp(mid, next, c, now)
    ensures GivenUp(box, next, c, now)
  {
  }
}
