/** What the consumer group library gives a claim: messages in offset order, and a mark frontier. */
module Sessions {
  import opened GoStrings

  datatype Incoming = Incoming(offset: nat, value: GoString)

  function Max(a: nat, b: nat): nat {
    if a < b then b else a
  }

  /** The mark frontier after marking `msgs`: marks only ever move it forward. */
  function FrontierAfter(start: nat, msgs: seq<Incoming>): nat {
    if msgs == [] then start else Max(FrontierAfter(start, msgs[..|msgs| - 1]), msgs[|msgs| - 1].offset + 1)
  }

  lemma FrontierMoves(start: nat, msgs: seq<Incoming>, i: nat)
    requires i < |msgs|
    ensures FrontierAfter(start, msgs[..i + 1]) == Max(FrontierAfter(start, msgs[..i]), msgs[i].offset + 1)
  {
    assert msgs[..i + 1][..i] == msgs[..i];
  }

  /** The frontier is the least offset that is not before the start and is past every marked message. */
  lemma {:induction false} FrontierIsLeast(start: nat, msgs: seq<Incoming>)
    ensures var frontier := FrontierAfter(start, msgs);
            && frontier >= start && (forall m | m in msgs :: frontier > m.offset)
            && (frontier == start || exists m | m in msgs :: frontier == m.offset + 1)
  {
    if msgs != [] {
      FrontierIsLeast(start, msgs[..|msgs| - 1]);
    }
  }

  /** The messages of a partition log from offset `lo` up to `hi`. */
  function Incomings(log: seq<GoString>, lo: nat, hi: nat): (msgs: seq<Incoming>)
    requires lo <= hi <= |log|
    ensures |msgs| == hi - lo && forall i | 0 <= i < |msgs| :: msgs[i] == Incoming(lo + i, log[lo + i])
  {
    if lo == hi then [] else Incomings(log, lo, hi - 1) + [Incoming(hi - 1, log[hi - 1])]
  }

  lemma IncomingsExtend(log: seq<GoString>, v: GoString, lo: nat, hi: nat)
    requires lo <= hi <= |log|
    ensures Incomings(log + [v], lo, hi) == Incomings(log, lo, hi)
  {
  }

  /** One claim's view of the session: what happened, as events of type `E`, and the mark frontier. */
  class ClaimSession<E> {
    var events: seq<E>
    var frontier: nat

    constructor (start: nat)
      ensures events == [] && frontier == start
    {
      events, frontier := [], start;
    }

    method Record(e: E)
      modifies `events
      ensures events == old(events) + [e]
    {
      events := events + [e];
    }

    /** Marking the message at offset `o` moves the frontier past it, and never back. */
    method MarkMessage(o: nat, e: E)
      modifies this
      ensures events == old(events) + [e] && frontier == Max(old(frontier), o + 1)
    {
      events := events + [e];
      if frontier < o + 1 {
        frontier := o + 1;
      }
    }
  }
}
