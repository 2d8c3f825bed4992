/** The mutating ticket routes: commit first, then the caches, then the messages. */
module Routes {
  import opened Domain
  import opened Text
  import opened CacheKey
  import opened RedisModel
  import opened CacheService
  import opened TicketOps
  import opened RateLimit

  const TICKET_CREATE_RATE_LIMIT := 30

  /** A ticket.status_changed message on one channel. */
  datatype Message = Message(channel: string, ticket: Uuid, from: TicketStatus, to: TicketStatus)

  const DASHBOARD_CHANNEL := "dashboard"

  function TicketChannel(id: Uuid): string {
    "ticket:" + UuidText(id)
  }

  function CreateQuotaKey(customer: Uuid): string {
    "rate_limit:ticket_create:" + UuidText(customer)
  }

  /** No two tickets share a channel, none is the dashboard's, and no two customers share a quota. */
  lemma ChannelsAndQuotasAreApart(a: Uuid, b: Uuid)
    ensures TicketChannel(a) == TicketChannel(b) <==> a == b
    ensures TicketChannel(a) != DASHBOARD_CHANNEL
    ensures CreateQuotaKey(a) == CreateQuotaKey(b) <==> a == b
  {
    assert TicketChannel(a)[7..] == UuidText(a) && TicketChannel(b)[7..] == UuidText(b);
    assert CreateQuotaKey(a)[25..] == UuidText(a) && CreateQuotaKey(b)[25..] == UuidText(b);
    assert TicketChannel(a)[0] == 't' && DASHBOARD_CHANNEL[0] == 'd';
    if UuidText(a) == UuidText(b) { UuidTextInjective(a, b); }
  }

  datatype CreateReply = RateLimited(retryAfterSeconds: int) | Decided(outcome: Outcome)

  /** Undisturbed, a status change that succeeds is committed, the caches are invalidated unless Redis
      refuses, and both channels hear of the adjacent pair; a refused one changes and tells nothing. */
  method UpdateStatus(service: TicketService, redis: Redis<Entry>, op: Op, now: nat, fate: Fate)
    returns (outcome: Outcome, messages: seq<Message>)
    requires op.ChangeStatus?
    modifies service, redis
    ensures (service.View(), outcome) == Atomic(old(service.View()), op)
    ensures !outcome.Changed? ==> messages == [] && redis.cells == old(redis.cells)
    ensures outcome.Changed? ==>
      && NextStatus(outcome.from) == Some(op.newStatus)
      && messages == [Message(TicketChannel(op.id), op.id, outcome.from, op.newStatus),
                      Message(DASHBOARD_CHANNEL, op.id, outcome.from, op.newStatus)]
      && redis.cells == if fate.Refused? then old(redis.cells) else Invalidated(old(redis.cells), now)
  {
    outcome := service.ChangeTicketStatus(op);
    if !outcome.Changed? {
      return outcome, [];
    }
    InvalidateTicketCaches(redis, now, fate);
    var ticket := service.tickets[op.id];
    messages := [Message(TicketChannel(ticket.id), ticket.id, outcome.from, ticket.status),
                 Message(DASHBOARD_CHANNEL, ticket.id, outcome.from, ticket.status)];
  }

  /** Invalidating leaves every key but the two fixed ones alone and depends on no other. */
  lemma InvalidatedApart(s: Store<Entry>, key: string, now: nat)
    requires key != VersionKey && key != DashboardKey
    ensures Invalidated(s, now) - {key} == Invalidated(s - {key}, now)
    ensures BucketAt(Invalidated(s, now), key) == BucketAt(s, key)
    ensures CachedStats(Invalidated(s, now), now) == None
    ensures VersionOf(s, now).Some? ==> VersionOf(Invalidated(s, now), now) == Some(VersionOf(s, now).value + 1)
    ensures !Live(s, VersionKey, now) ==> VersionOf(Invalidated(s, now), now) == Some(2)
  {
    assert key in s ==> Invalidated(s, now)[key] == s[key];
    assert (Invalidated(s, now) - {key}).Keys == Invalidated(s - {key}, now).Keys;
  }

  lemma QuotaKeyApart(customer: Uuid)
    ensures CreateQuotaKey(customer) != VersionKey && CreateQuotaKey(customer) != DashboardKey
  {
    assert CreateQuotaKey(customer)[0] == 'r' && VersionKey[0] == 't' && DashboardKey[0] == 'd';
  }

  /** The customer's quota is used up. */
  ghost predicate OverQuota(s: Store<Entry>, customer: Uuid, now: nat) {
    var b := Hit(BucketAt(s, CreateQuotaKey(customer)), now, 1000 * RATE_LIMIT_WINDOW_SECONDS);
    Countable(s, CreateQuotaKey(customer), now) && !Decide(b, now, TICKET_CREATE_RATE_LIMIT).allowed
  }

  /** Creating a ticket consumes quota first, exactly once. A request is rejected when Redis answers
      that its quota is used up; it then leaves the tables and every other Redis key alone. An accepted
      one is created whatever becomes of the caches: unless Redis refuses, the list version advances,
      the dashboard entry is forgotten and stored pages stay. */
  method CreateTicket(service: TicketService, redis: Redis<Entry>, op: Op, now: nat, quota: Fate, fate: Fate)
    returns (reply: CreateReply)
    requires op.Create?
    modifies service, redis
    ensures reply.RateLimited? <==> quota.Answered? && OverQuota(old(redis.cells), op.customer, now)
    ensures reply.RateLimited? ==>
      && service.View() == old(service.View()) && reply.retryAfterSeconds >= 1
      && Some(reply.retryAfterSeconds) ==
           Decide(Hit(BucketAt(old(redis.cells), CreateQuotaKey(op.customer)), now, 1000 * RATE_LIMIT_WINDOW_SECONDS),
             now, TICKET_CREATE_RATE_LIMIT).retryAfterSeconds
    ensures reply.Decided? ==> (service.View(), reply.outcome) == Atomic(old(service.View()), op)
    ensures var key, invalidated := CreateQuotaKey(op.customer),
        reply.Decided? && reply.outcome == Succeeded && !fate.Refused?;
      && redis.cells - {key} ==
          (if invalidated then Invalidated(old(redis.cells) - {key}, now) else old(redis.cells) - {key})
      && BucketAt(redis.cells, key) ==
          (if quota.Refused? || !Countable(old(redis.cells), key, now) then BucketAt(old(redis.cells), key)
           else Hit(BucketAt(old(redis.cells), key), now, 1000 * RATE_LIMIT_WINDOW_SECONDS))
      && (invalidated ==>
            && CachedStats(redis.cells, now) == None
            && (VersionOf(old(redis.cells), now).Some? ==>
                  VersionOf(redis.cells, now) == Some(VersionOf(old(redis.cells), now).value + 1))
            && (!Live(old(redis.cells), VersionKey, now) ==> VersionOf(redis.cells, now) == Some(2)))
      && (!invalidated ==>
            && VersionOf(redis.cells, now) == VersionOf(old(redis.cells), now)
            && CachedStats(redis.cells, now) == CachedStats(old(redis.cells), now))
  {
    hide Invalidated, CreateQuotaKey, Atomic, Hit;
    var key := CreateQuotaKey(op.customer);
    QuotaKeyApart(op.customer);
    ghost var before := redis.cells;
    var decision := ConsumeRateLimit(redis, key, TICKET_CREATE_RATE_LIMIT, RATE_LIMIT_WINDOW_SECONDS, now, quota);
    assert redis.cells - {key} == before - {key};
    InvalidatedApart(redis.cells, key, now);
    if !decision.allowed {
      return RateLimited(if decision.retryAfterSeconds.Some? then decision.retryAfterSeconds.value else 1);
    }
    var outcome := service.CreateTicket(op);
    if outcome == Succeeded {
      InvalidateTicketCaches(redis, now, fate);
    }
    reply := Decided(outcome);
  }
}
