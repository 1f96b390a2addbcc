/**
  The state a `Replayer` guards with its mutex (dlq/replayer.go): the closed flag, the wait group and the
  statistics. Each function is the effect of one lock section; each method performs that section.
  */
module Replayers {
  import opened GoStrings
  import opened Options

  // ---- Statistics ----------------------------------------------------------------------------

  datatype SkipReason = Undecodable | NoEnvelope | Rejected

  datatype Kind = Consumed | Skipped(why: SkipReason) | Failed | Replayed

  datatype Stats = Stats(consumed: nat, replayed: nat, skipped: nat, failed: nat) {
    function Plus(kind: Kind): Stats {
      match kind
      case Consumed => this.(consumed := consumed + 1)
      case Skipped(_) => this.(skipped := skipped + 1)
      case Failed => this.(failed := failed + 1)
      case Replayed => this.(replayed := replayed + 1)
    }
  }

  const NO_STATS := Stats(0, 0, 0, 0)

  // ---- Life cycle ----------------------------------------------------------------------------

  /** `active` is the wait group's counter; `groupCloses` counts calls of the consumer group's `Close`. */
  datatype Life = Life(closed: bool, active: int, groupCloses: nat)

  const NEW_LIFE := Life(false, 0, 0)

  /** Entry of `ReplayWithFilter`: the closed check and the wait group's `Add` under one read lock. */
  function Register(l: Life): Life {
    if l.closed then l else l.(active := l.active + 1)
  }

  function Release(l: Life): Life {
    l.(active := l.active - 1)
  }

  /** Entry of `Close`: only the call that finds the flag clear goes on. */
  function MarkClosed(l: Life): Life {
    l.(closed := true)
  }

  function CloseGroup(l: Life): Life {
    l.(groupCloses := l.groupCloses + 1)
  }

  class Replayer {
    var closed: bool
    var active: int
    var groupCloses: nat
    var stats: Stats

    function View(): Life
      reads this
    {
      Life(closed, active, groupCloses)
    }

    constructor ()
      ensures View() == NEW_LIFE && stats == NO_STATS
    {
      closed, active, groupCloses, stats := false, 0, 0, NO_STATS;
    }

    method TryRegister() returns (ok: bool)
      modifies `active
      ensures ok == !old(closed) && active == old(active) + (if ok then 1 else 0)
      ensures View() == Register(old(View()))
    {
      if closed {
        return false;
      }
      active := active + 1;
      return true;
    }

    method Done()
      modifies `active
      ensures View() == Release(old(View()))
    {
      active := active - 1;
    }

    method TryMarkClosed() returns (winner: bool)
      modifies `closed
      ensures winner == !old(closed) && View() == MarkClosed(old(View()))
    {
      if closed {
        return false;
      }
      closed := true;
      return true;
    }

    method CloseConsumerGroup()
      modifies `groupCloses
      ensures View() == CloseGroup(old(View()))
    {
      groupCloses := groupCloses + 1;
    }

    /**
      The wait passes once the registered loops, which run in other goroutines, have left one by one. Loops
      blocked in the group come back only once it has been closed.
      */
    method Wait()
      requires active >= 0 && closed && groupCloses > 0
      modifies `active
      ensures active == 0
    {
      while active > 0
        invariant active >= 0
      {
        Done();
      }
    }

    /** `Close`: the flag, then the group, then the wait; the result is the group's. */
    method Close(groupErr: Option<GoString>) returns (result: Option<GoString>)
      requires active >= 0
      modifies this
      ensures old(closed) ==> result.None? && View() == old(View())
      ensures !old(closed) ==> result == groupErr && View() == Life(true, 0, old(groupCloses) + 1)
      ensures stats == old(stats)
    {
      var winner := TryMarkClosed();
      if !winner {
        return None;
      }
      CloseConsumerGroup();
      Wait();
      return groupErr;
    }

    method IncrementConsumed()
      modifies `stats
      ensures stats == old(stats).Plus(Consumed)
    {
      stats := stats.(consumed := stats.consumed + 1);
    }

    method IncrementReplayed()
      modifies `stats
      ensures stats == old(stats).Plus(Replayed)
    {
      stats := stats.(replayed := stats.replayed + 1);
    }

    method IncrementSkipped(ghost why: SkipReason)
      modifies `stats
      ensures stats == old(stats).Plus(Skipped(why))
    {
      stats := stats.(skipped := stats.skipped + 1);
    }

    method IncrementFailed()
      modifies `stats
      ensures stats == old(stats).Plus(Failed)
    {
      stats := stats.(failed := stats.failed + 1);
    }
  }
}
