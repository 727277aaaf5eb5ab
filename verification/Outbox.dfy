/**
 Notification deliveries: an event of the outbox fans out to the channels that
 match it, every delivery is claimed, retried and ended on its own, and the event
 counts as published exactly when none of its deliveries is pending any more.
 */
module Outbox {
  import opened RunTypes

  datatype Standing = Waiting | Delivered | Dead

  datatype Event = Event(tenant: Id, topic: string, job: Option<Id>, availableAt: Time, publishedAt: Option<Time>)

  /** A row of notification_deliveries; event and channel together are its key. */
  datatype Delivery = Delivery(
    standing: Standing,
    attempts: nat,
    availableAt: Time,
    lockedBy: Option<string>,
    lockedUntil: Option<Time>,
    endedAt: Option<Time>)

  datatype Channel = Channel(
    tenant: Id,
    topics: set<string>,
    allJobs: bool,
    jobs: set<Id>,
    enabled: bool,
    deleted: bool,
    version: nat)

  datatype Box = Box(events: map<Id, Event>, deliveries: map<(Id, Id), Delivery>, channels: map<Id, Channel>,
    unused: Id)

  const NOTHING: Box := Box(map[], map[], map[], 0)

  // ------------------------------------------------------------------ statements

  function AddEvent(box: Box, event: Event): Box {
    box.(events := box.events[box.unused := event.(publishedAt := None)], unused := box.unused + 1)
  }

  function Publish(box: Box, e: Id, now: Time): Box {
    if e in box.events then box.(events := box.events[e := box.events[e].(publishedAt := Some(now))]) else box
  }

  predicate Matches(channel: Channel, event: Event) {
    && channel.tenant == event.tenant && channel.enabled && !channel.deleted && event.topic in channel.topics
    && (channel.allJobs || (event.job.Some? && event.job.value in channel.jobs))
  }

  function Matching(box: Box, e: Id): set<Id>
    requires e in box.events
  {
    set c | c in box.channels && Matches(box.channels[c], box.events[e])
  }

  predicate HasDeliveries(box: Box, e: Id) {
    exists k :: k in box.deliveries && k.0 == e
  }

  predicate HasWaiting(box: Box, e: Id) {
    exists k :: k in box.deliveries && k.0 == e && box.deliveries[k].standing.Waiting?
  }

  function NewDelivery(now: Time): Delivery {
    Delivery(Waiting, 0, now, None, None, None)
  }

  function AddDeliveries(box: Box, e: Id, channels: set<Id>, now: Time): Box {
    box.(deliveries := box.deliveries + map c | c in Keys(e, channels) && c !in box.deliveries :: NewDelivery(now))
  }

  function Keys(e: Id, channels: set<Id>): set<(Id, Id)> {
    set c | c in channels :: (e, c)
  }

  predicate Preparable(box: Box, e: Id, now: Time) {
    e in box.events && box.events[e].publishedAt.None? && box.events[e].availableAt <= now && !HasDeliveries(box, e)
  }

  /** An event without subscribers is published at once; otherwise its deliveries are inserted. */
  function PrepareOne(box: Box, e: Id, now: Time): Box {
    if !Preparable(box, e, now) then box
    else if Matching(box, e) == {} then Publish(box, e, now)
    else AddDeliveries(box, e, Matching(box, e), now)
  }

  /** PrepareNotificationDeliveries over the rows its query returned. */
  function Prepare(box: Box, rows: seq<Id>, now: Time): Box
    decreases rows
  {
    if rows == [] then box else Prepare(PrepareOne(box, rows[0], now), rows[1..], now)
  }

  predicate Free(d: Delivery, now: Time) {
    d.standing.Waiting? && d.availableAt <= now && (d.lockedUntil.None? || d.lockedUntil.value < now)
  }

  predicate Held(d: Delivery, owner: string, now: Time) {
    d.standing.Waiting? && d.lockedBy == Some(owner) && d.lockedUntil.Some? && d.lockedUntil.value >= now
  }

  function ClaimOne(box: Box, owner: string, k: (Id, Id), now: Time): Box {
    if k in box.deliveries && Free(box.deliveries[k], now) then
      var d := box.deliveries[k];
      box.(deliveries := box.deliveries[k := d.(lockedBy := Some(owner), lockedUntil := Some(now + 30 * SECOND),
        attempts := d.attempts + 1)])
    else box
  }

  function ClaimAll(box: Box, owner: string, rows: seq<(Id, Id)>, now: Time): Box
    decreases rows
  {
    if rows == [] then box else ClaimAll(ClaimOne(box, owner, rows[0], now), owner, rows[1..], now)
  }

  function Ended(d: Delivery, standing: Standing, now: Time): Delivery {
    d.(standing := standing, lockedBy := None, lockedUntil := None, endedAt := Some(now))
  }

  /** finishNotificationDelivery: the last delivery to end publishes the event. */
  function Finish(box: Box, owner: string, k: (Id, Id), standing: Standing, now: Time): Result<Box> {
    if k !in box.deliveries || !Held(box.deliveries[k], owner, now) then Err(Conflict)
    else
      var done := box.(deliveries := box.deliveries[k := Ended(box.deliveries[k], standing, now)]);
      Ok(if HasWaiting(done, k.0) then done else Publish(done, k.0, now))
  }

  function RetryLater(box: Box, owner: string, k: (Id, Id), delay: Time, now: Time): Result<Box> {
    if k !in box.deliveries || !Held(box.deliveries[k], owner, now) then Err(Conflict)
    else Ok(box.(deliveries := box.deliveries[k := box.deliveries[k].(availableAt := now + delay, lockedBy := None,
      lockedUntil := None)]))
  }

  predicate WaitingFor(box: Box, c: Id, k: (Id, Id)) {
    k in box.deliveries && k.1 == c && box.deliveries[k].standing.Waiting?
  }

  predicate WaitingElsewhere(box: Box, c: Id, e: Id) {
    exists k :: k in box.deliveries && k.0 == e && k.1 != c && box.deliveries[k].standing.Waiting?
  }

  /** terminalizePendingNotificationDeliveries: one statement for all of a channel's pending deliveries. */
  function Terminalize(box: Box, c: Id, now: Time): Box {
    box.(deliveries := map k | k in box.deliveries ::
           if WaitingFor(box, c, k) then Ended(box.deliveries[k], Dead, now) else box.deliveries[k],
         events := map e | e in box.events ::
           if WaitingFor(box, c, (e, c)) && !WaitingElsewhere(box, c, e)
           then box.events[e].(publishedAt := Some(now)) else box.events[e])
  }

  function SetEnabled(box: Box, tenant: Id, c: Id, enabled: bool, version: nat, now: Time): Result<Box> {
    if c !in box.channels || box.channels[c].tenant != tenant || box.channels[c].version != version
      || box.channels[c].deleted
    then Err(Conflict)
    else
      var next := box.(channels := box.channels[c := box.channels[c].(enabled := enabled, version := version + 1)]);
      Ok(if enabled then next else Terminalize(next, c, now))
  }

  function DeleteChannel(box: Box, tenant: Id, c: Id, version: nat, now: Time): Result<Box> {
    if c !in box.channels || box.channels[c].tenant != tenant || box.channels[c].version != version
      || box.channels[c].deleted
    then Err(Conflict)
    else
      var gone := box.channels[c].(enabled := false, deleted := true, version := version + 1);
      Ok(Terminalize(box.(channels := box.channels[c := gone]), c, now))
  }

  function CreateChannel(box: Box, channel: Channel): Box {
    box.(channels := box.channels[box.unused := channel.(enabled := true, deleted := false, version := 1)],
      unused := box.unused + 1)
  }

  function UpdateChannel(box: Box, c: Id, channel: Channel): Result<Box> {
    if c !in box.channels || box.channels[c].tenant != channel.tenant || box.channels[c].version != channel.version
      || box.channels[c].deleted
    then Err(Conflict)
    else Ok(box.(channels := box.channels[c := channel.(enabled := box.channels[c].enabled, deleted := false,
      version := channel.version + 1)]))
  }

  // ---------------------------------------------------------------------- system

  datatype Action =
    | DoAdd(event: Event)
    | DoPrepare(rows: seq<Id>, now: Time)
    | DoClaim(owner: string, keys: seq<(Id, Id)>, now: Time)
    | DoFinish(owner: string, key: (Id, Id), delivered: bool, now: Time)
    | DoRetry(owner: string, key: (Id, Id), delay: Time, now: Time)
    | DoSetEnabled(tenant: Id, id: Id, enabled: bool, version: nat, now: Time)
    | DoDelete(tenant: Id, id: Id, version: nat, now: Time)
    | DoCreate(channel: Channel)
    | DoUpdate(id: Id, channel: Channel)

  function Apply(box: Box, a: Action): Result<Box> {
    match a
    case DoAdd(event) => Ok(AddEvent(box, event))
    case DoPrepare(rows, now) => Ok(Prepare(box, rows, now))
    case DoClaim(owner, keys, now) => Ok(ClaimAll(box, owner, keys, now))
    case DoFinish(owner, key, delivered, now) => Finish(box, owner, key, if delivered then Delivered else Dead, now)
    case DoRetry(owner, key, delay, now) => RetryLater(box, owner, key, delay, now)
    case DoSetEnabled(tenant, id, enabled, version, now) => SetEnabled(box, tenant, id, enabled, version, now)
    case DoDelete(tenant, id, version, now) => DeleteChannel(box, tenant, id, version, now)
    case DoCreate(channel) => Ok(CreateChannel(box, channel))
    case DoUpdate(id, channel) => UpdateChannel(box, id, channel)
  }

  function Do(box: Box, a: Action): Box {
    var r := Apply(box, a);
    if r.Ok? then r.value else box
  }

  function Exec(actions: seq<Action>): Box {
    if actions == [] then NOTHING else Do(Exec(actions[..|actions| - 1]), actions[|actions| - 1])
  }
}
