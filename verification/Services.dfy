/** internal/service: the three services as the source has them, changing the tables, the topic, the breaker,
    the lock and the cache one command after another; each proved to take one step of the Lifecycle. */
module Services {
  import opened Prelude
  import opened Domain
  import opened Lifecycle
  import opened Repositories
  import CB = CircuitBreaker
  import EC = EndpointCache
  import EventTypes
  import opened GoStrings
  import Signer

  /** Just the event rows and the topic, for the services that touch nothing else. */
  function EventState(events: Events, topic: multiset<string>): State {
    State(0, events, topic, [], [], CB.NO_KEYS)
  }

  // Create ----------------------------------------------------------------------------------------

  datatype CreateError = Invalid | NoEndpoint | Forbidden | EndpointOff | NotSubscribed | NotInserted

  datatype Input = Input(endpoint: string, eventType: string, payload: string)
  {
    /** The conditions of CreateEventInput.Validate. */
    predicate Valid() { endpoint != "" && eventType != "" && payload != "" && |eventType| <= 255 }
  }

  /** The first objection Create has to an input, in the order it checks. */
  function Objection(tenant: string, input: Input, found: EC.Lookup): Option<CreateError> {
    if !input.Valid() then Some(Invalid)
    else if !found.Found? then Some(NoEndpoint)
    else if found.endpoint.tenant != tenant then Some(Forbidden)
    else if !found.endpoint.active then Some(EndpointOff)
    else if !EventTypes.Subscribed(found.endpoint.eventTypes, input.eventType) then Some(NotSubscribed)
    else None
  }

  /** The header carries the second of `now` and the code of that second and the payload, in the wire format; and
      unless that second is 0 it can be read back, and verifies. */
  ghost predicate SignedAt(mac: Signer.Mac, payload: string, secret: string, now: int64, header: string) {
    exists ts: int64 :: ts * 1_000_000_000 <= now < (ts + 1) * 1_000_000_000
      && header == "t=" + Decimal(ts) + ",v1=" + Signer.Hex(mac(secret, Decimal(ts) + "." + payload))
      && (ts != 0 ==>
            && Signer.Meaning(header) == Ok(Signer.Signature(ts, Signer.Hex(mac(secret, Decimal(ts) + "." + payload))))
            && Signer.Verify(mac, payload, secret, Signer.Meaning(header).value))
  }

  lemma SignatureIsOfTheSecond(mac: Signer.Mac, payload: string, secret: string, now: int64)
    ensures SignedAt(mac, payload, secret, now, Signer.Header(Signer.Sign(mac, payload, secret, Unix(now))))
  {
    var ts: int64 := Unix(now);
    assert ts * 1_000_000_000 <= now < (ts + 1) * 1_000_000_000;
    var header := Signer.Header(Signer.Sign(mac, payload, secret, ts));
    assert header == "t=" + Decimal(ts) + ",v1=" + Signer.Hex(mac(secret, Decimal(ts) + "." + payload));
    if ts != 0 {
      Signer.SignedHeaderMeans(mac, payload, secret, ts);
    }
  }

  /** When each objection is raised, and that nothing else is objected to. */
  lemma ObjectionInFull(tenant: string, input: Input, found: EC.Lookup)
    ensures var o := Objection(tenant, input, found);
            var valid := input.endpoint != "" && input.eventType != "" && input.payload != "" && |input.eventType| <= 255;
            && (o == Some(Invalid) <==> !valid)
            && (o == Some(NoEndpoint) <==> valid && !found.Found?)
            && o != Some(NotInserted)
            && (valid && found.Found? ==>
                  var ep := found.endpoint;
                  var subscribed := ep.eventTypes == []
                                    || exists p :: p in ep.eventTypes && EventTypes.MatchEventType(p, input.eventType);
                  && (o == Some(Forbidden) <==> ep.tenant != tenant)
                  && (o == Some(EndpointOff) <==> ep.tenant == tenant && !ep.active)
                  && (o == Some(NotSubscribed) <==> ep.tenant == tenant && ep.active && !subscribed)
                  && (o == None <==> ep.tenant == tenant && ep.active && subscribed))
  {
    if found.Found? {
      var patterns := found.endpoint.eventTypes;
      if i :| 0 <= i < |patterns| && EventTypes.MatchEventType(patterns[i], input.eventType) {
        assert patterns[i] in patterns;
      }
    }
  }

  class EventService {
    const eventRepo: EventRepo
    const endpointRepo: EC.EndpointRepo
    const publisher: Topic
    const mac: Signer.Mac

    constructor (eventRepo: EventRepo, endpointRepo: EC.EndpointRepo, publisher: Topic, mac: Signer.Mac)
      ensures this.eventRepo == eventRepo && this.endpointRepo == endpointRepo
      ensures this.publisher == publisher && this.mac == mac
    {
      this.eventRepo, this.endpointRepo, this.publisher, this.mac := eventRepo, endpointRepo, publisher, mac;
    }

    /** An accepted input is one Create step, signed with its endpoint's secret in the second of the call; a
        refused one changes nothing. The returned event is the row as stored. */
    method Create(id: string, tenant: string, input: Input, now: int64,
                  readFails: bool, insertFails: bool, sent: bool, marked: bool)
        returns (r: Result<Event>, error: Option<CreateError>)
      requires id !in eventRepo.rows
      modifies eventRepo, publisher
      ensures var found := if readFails then EC.Broken
                           else if input.endpoint in endpointRepo.rows then EC.Found(endpointRepo.rows[input.endpoint])
                           else EC.Missing;
              error == match Objection(tenant, input, found)
                       case Some(e) => Some(e)
                       case None => if insertFails then Some(NotInserted) else None
      ensures r.Err? <==> error.Some?
      ensures error.Some? ==> eventRepo.rows == old(eventRepo.rows) && publisher.messages == old(publisher.messages)
      ensures r.Ok? ==>
        var e := NewEvent(tenant, input.endpoint, input.eventType, input.payload, r.value.signature);
        var after := Accept(EventState(old(eventRepo.rows), old(publisher.messages)), id, e, sent, marked);
        && Enabled(EventState(old(eventRepo.rows), old(publisher.messages)),
                   Lifecycle.Create(id, tenant, input.endpoint, input.eventType, input.payload, r.value.signature, sent, marked))
        && eventRepo.rows == after.events && publisher.messages == after.topic
        && r.value == eventRepo.rows[id]
      ensures r.Ok? ==>
        && input.endpoint in endpointRepo.rows
        && r.value == Event(tenant, input.endpoint, input.eventType, input.payload, r.value.signature,
                            if sent && marked then Queued else Pending, 0, 5, None)
        && eventRepo.rows == old(eventRepo.rows)[id := r.value]
        && publisher.messages == old(publisher.messages) + (if sent then multiset{id} else multiset{})
      ensures r.Ok? ==>
        SignedAt(mac, input.payload, endpointRepo.rows[input.endpoint].secret, now, r.value.signature)
    {
      if !(input.endpoint != "" && input.eventType != "" && input.payload != "" && |input.eventType| <= 255) {
        return Err, Some(Invalid);
      }
      var found := endpointRepo.GetByID(input.endpoint, readFails);
      if !found.Found? {
        return Err, Some(NoEndpoint);
      }
      var endpoint := found.endpoint;
      if endpoint.tenant != tenant {
        return Err, Some(Forbidden);
      }
      if !endpoint.active {
        return Err, Some(EndpointOff);
      }
      var matched := EventTypes.MatchesEventTypes(endpoint.eventTypes, input.eventType);
      if !matched {
        return Err, Some(NotSubscribed);
      }
      var timestamp: int64 := Unix(now);
      var sig := Signer.Sign(mac, input.payload, endpoint.secret, timestamp);
      var event := Event(tenant, input.endpoint, input.eventType, input.payload, Signer.Header(sig),
                         Pending, 0, MAX_ATTEMPTS, None);
      SignatureIsOfTheSecond(mac, input.payload, endpoint.secret, now);
      r := InsertAndPublish(id, event, insertFails, sent, marked);
      error := if r.Err? then Some(NotInserted) else None;
    }

    /** Insert, publish, and mark queued if published. */
    method InsertAndPublish(id: string, event: Event, insertFails: bool, sent: bool, marked: bool) returns (r: Result<Event>)
      requires id !in eventRepo.rows && event.status == Pending
      modifies eventRepo, publisher
      ensures r == if insertFails then Err else Ok(event.(status := if sent && marked then Queued else Pending))
      ensures eventRepo.rows == if r.Ok? then old(eventRepo.rows)[id := r.value] else old(eventRepo.rows)
      ensures publisher.messages == if r.Ok? && sent then old(publisher.messages) + multiset{id} else old(publisher.messages)
    {
      var stored := event;
      var inserted := eventRepo.Create(id, event, insertFails);
      if !inserted {
        return Err;
      }
      var published := publisher.PublishEvent(id, sent);
      if published {
        var ok := eventRepo.UpdateStatus(id, Queued, marked);
        if ok {
          stored := stored.(status := Queued);
        }
      }
      return Ok(stored);
    }
  }

  // The scheduler ---------------------------------------------------------------------------------

  class SchedulerService {
    const eventRepo: EventRepo
    const publisher: Topic
    const batchSize: nat := 100

    constructor (eventRepo: EventRepo, publisher: Topic)
      ensures this.eventRepo == eventRepo && this.publisher == publisher
    {
      this.eventRepo, this.publisher := eventRepo, publisher;
    }

    /** One tick: a Schedule step over the batch it returns, for any set of publishes and updates that work. */
    method ProcessRetryableEvents(now: int, findFails: bool, sent: set<string>, marked: set<string>)
        returns (batch: seq<string>)
      modifies eventRepo, publisher
      ensures findFails ==> batch == [] && eventRepo.rows == old(eventRepo.rows)
                            && publisher.messages == old(publisher.messages)
      ensures !findFails ==> EarliestDue(old(eventRepo.rows), now, 100, batch)
      ensures eventRepo.rows.Keys == old(eventRepo.rows).Keys
      ensures forall id :: id in old(eventRepo.rows) ==>
                eventRepo.rows[id] == if id in batch && id in sent && id in marked
                                      then old(eventRepo.rows)[id].(status := Queued) else old(eventRepo.rows)[id]
      ensures forall id :: publisher.messages[id] ==
                           old(publisher.messages)[id] + if id in batch && id in sent then 1 else 0
      ensures var after := Requeue(EventState(old(eventRepo.rows), old(publisher.messages)), batch, sent, marked);
              eventRepo.rows == after.events && publisher.messages == after.topic
    {
      batch := [];
      ghost var start := EventState(eventRepo.rows, publisher.messages);
      RequeueNothing(start, sent, marked);
      if findFails {
        RequeueInFull(start, [], sent, marked);
        return;
      }
      batch := eventRepo.FindRetryable(batchSize, now);
      for i := 0 to |batch|
        invariant eventRepo.rows == Requeue(start, batch[..i], sent, marked).events
        invariant publisher.messages == Requeue(start, batch[..i], sent, marked).topic
      {
        var id := batch[i];
        RequeueOneMore(start, batch, i, sent, marked);
        assert id in DueIds(start.events, now);
        var published := publisher.PublishEvent(id, id in sent);
        if !published {
          continue;
        }
        var _ := eventRepo.UpdateStatus(id, Queued, id in marked);
      }
      assert batch[..|batch|] == batch;
      RequeueInFull(start, batch, sent, marked);
    }
  }

  /** Requeueing in full: what was published is on the topic once more, and only what was also marked is queued. */
  lemma RequeueInFull(s: State, batch: seq<string>, sent: set<string>, marked: set<string>)
    ensures var s' := Requeue(s, batch, sent, marked);
            && s'.events.Keys == s.events.Keys
            && (forall id :: id in s.events ==>
                  s'.events[id] == if id in batch && id in sent && id in marked
                                   then s.events[id].(status := Queued) else s.events[id])
            && forall id :: s'.topic[id] == s.topic[id] + if id in batch && id in sent then 1 else 0
  {
  }

  lemma RequeueNothing(s: State, sent: set<string>, marked: set<string>)
    ensures Requeue(s, [], sent, marked).events == s.events && Requeue(s, [], sent, marked).topic == s.topic
  {
    assert (set id | id in [] && id in sent) == {};
  }

  lemma PublishedOneMore(batch: seq<string>, x: string, sent: set<string>)
    ensures Published(batch + [x], sent) == Published(batch, sent) + if x in sent then {x} else {}
  {
  }

  lemma RequeueOneMore(s: State, batch: seq<string>, i: nat, sent: set<string>, marked: set<string>)
    requires i < |batch| && Distinct(batch) && batch[i] in s.events
    ensures var before, after := Requeue(s, batch[..i], sent, marked), Requeue(s, batch[..i + 1], sent, marked);
            && after.topic == before.topic + (if batch[i] in sent then multiset{batch[i]} else multiset{})
            && before.events[batch[i]] == s.events[batch[i]]
            && after.events == (if batch[i] in sent && batch[i] in marked
                                then before.events[batch[i] := before.events[batch[i]].(status := Queued)]
                                else before.events)
  {
    var x := batch[i];
    assert x !in batch[..i];
    assert batch[..i + 1] == batch[..i] + [x];
    RequeueTopic(s, batch[..i], x, sent, marked);
    RequeueEvents(s, batch[..i], x, sent, marked);
  }

  lemma RequeueTopic(s: State, batch: seq<string>, x: string, sent: set<string>, marked: set<string>)
    requires x !in batch
    ensures Requeue(s, batch + [x], sent, marked).topic ==
            Requeue(s, batch, sent, marked).topic + (if x in sent then multiset{x} else multiset{})
  {
    PublishedOneMore(batch, x, sent);
    assert Requeue(s, batch, sent, marked).topic == s.topic + multiset(Published(batch, sent));
    assert Requeue(s, batch + [x], sent, marked).topic == s.topic + multiset(Published(batch + [x], sent));
  }

  lemma RequeueEvents(s: State, batch: seq<string>, x: string, sent: set<string>, marked: set<string>)
    requires x !in batch && x in s.events
    ensures var before := Requeue(s, batch, sent, marked).events;
            && before.Keys == s.events.Keys && before[x] == s.events[x]
            && Requeue(s, batch + [x], sent, marked).events ==
                 if x in sent && x in marked then before[x := before[x].(status := Queued)] else before
  {
    var before, after := Requeue(s, batch, sent, marked).events, Requeue(s, batch + [x], sent, marked).events;
    assert after.Keys == s.events.Keys == before.Keys;
    forall id | id in s.events && id != x
      ensures after[id] == before[id]
    {
      assert id in batch + [x] <==> id in batch;
    }
  }
}
