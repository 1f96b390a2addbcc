/** Topic names and the routing of event types to topics (topics/topics.go). */
module Topics {
  import opened GoStrings
  import opened EventTypes

  type Topic = GoString

  const USERS: Topic := "txova.users.v1"
  const DRIVERS: Topic := "txova.drivers.v1"
  const RIDES: Topic := "txova.rides.v1"
  const PAYMENTS: Topic := "txova.payments.v1"
  const SAFETY: Topic := "txova.safety.v1"

  /** The dead letter topic of `t`. */
  function DLQ(t: Topic): Topic {
    t + ".dlq"
  }

  /** The topic for an event type; empty when the domain is not one of the five known ones. */
  function ForEventType(t: EventType): Topic {
    var domain := DomainOf(t);
    if domain == "user" then USERS
    else if domain == "driver" then DRIVERS
    else if domain == "ride" then RIDES
    else if domain == "payment" || domain == "payout" then PAYMENTS
    else if domain == "safety" then SAFETY
    else ""
  }

  /** Distinct topics have distinct dead letter topics. */
  lemma DLQInjective(s: Topic, t: Topic)
    requires DLQ(s) == DLQ(t)
    ensures s == t
  {
    assert DLQ(s)[..|s|] == s && DLQ(t)[..|t|] == t;
  }

  /** No topic is its own dead letter topic, and no event type is routed to a dead letter topic. */
  lemma DLQIsAnother(t: Topic, e: EventType)
    ensures DLQ(t) == t + ".dlq" != t
    ensures ForEventType(e) != DLQ(t)
  {
    var d, r := DLQ(t), ForEventType(e);
    assert |d| == |t| + 4 && d[|d| - 1] == 'q';
    assert r == "" || r[|r| - 1] == '1';
  }

  /**
    Routing looks only at the bytes before the first dot: whatever follows that dot, valid UTF-8 or
    not, leaves the topic unchanged, and a type is routed exactly when those bytes name a known domain.
    */
  lemma RoutingDependsOnDomain(domain: EventType, action: EventType)
    requires '.' !in domain
    ensures ForEventType(domain + "." + action) == ForEventType(domain)
    ensures ForEventType(domain) != "" <==> domain in ["user", "driver", "ride", "payment", "payout", "safety"]
  {
    SplitOfJoin(domain, action);
    SplitRebuilds(domain);
  }

  /** The topic is `txova.`, the name, and the suffix. */
  predicate Spells(topic: Topic, name: GoString, suffix: GoString) {
    && |topic| == 6 + |name| + |suffix|
    && topic[..6] == "txova." && topic[6..6 + |name|] == name && topic[6 + |name|..] == suffix
  }

  /** The topic spells the name's plural; safety has none. */
  predicate NamedAfter(topic: Topic, name: GoString) {
    Spells(topic, name, if name == "safety" then ".v1" else "s.v1")
  }

  lemma UsersName()
    ensures NamedAfter(USERS, "user")
  {
  }

  lemma DriversName()
    ensures NamedAfter(DRIVERS, "driver")
  {
  }

  lemma RidesName()
    ensures NamedAfter(RIDES, "ride")
  {
  }

  lemma PaymentsName()
    ensures NamedAfter(PAYMENTS, "payment")
  {
  }

  lemma SafetyName()
    ensures NamedAfter(SAFETY, "safety")
  {
  }

  /** A routed type's topic is named after its domain, except that payouts travel with payments. */
  lemma TopicNamedAfterDomain(t: EventType)
    requires ForEventType(t) != ""
    ensures NamedAfter(ForEventType(t), if DomainOf(t) == "payout" then "payment" else DomainOf(t))
  {
    UsersName();
    DriversName();
    RidesName();
    PaymentsName();
    SafetyName();
  }
}
