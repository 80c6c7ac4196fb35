/** Redundant message senders, one per swap (messages/sender.go). */
module Senders {
  /** A sender repeats its message until its stop channel is closed; closing it twice would
      panic. */
  class RedundantMessenger {
    var stopped: bool

    constructor ()
      ensures !stopped
    {
      stopped := false;
    }

    method Stop()
      requires !stopped
      modifies this
      ensures stopped
    {
      stopped := true;
    }
  }

  class Manager {
    var messengers: map<string, RedundantMessenger>

    /** Registered senders are running, and each belongs to one swap. */
    ghost predicate Valid()
      reads this, messengers.Values
    {
      && (forall id :: id in messengers ==> !messengers[id].stopped)
      && (forall i, j :: i in messengers && j in messengers && i != j ==> messengers[i] != messengers[j])
    }

    constructor ()
      ensures Valid() && messengers == map[]
    {
      messengers := map[];
    }

    /** Refused exactly when the swap already has a sender. */
    method AddSender(id: string, messenger: RedundantMessenger) returns (ok: bool)
      requires Valid() && !messenger.stopped && messenger !in messengers.Values
      modifies this
      ensures Valid()
      ensures ok <==> id !in old(messengers)
      ensures messengers == if ok then old(messengers)[id := messenger] else old(messengers)
    {
      if id in messengers {
        return false;
      }
      messengers := messengers[id := messenger];
      return true;
    }

    /** Stops and forgets the sender of a swap, if there is one; so no sender is ever stopped
        a second time, and no other sender is touched. */
    method RemoveSender(id: string)
      requires Valid()
      modifies this, if id in messengers then {messengers[id]} else {}
      ensures Valid()
      ensures messengers == old(messengers) - {id}
      ensures id in old(messengers) ==> old(messengers)[id].stopped && old(messengers)[id] !in messengers.Values
    {
      if id in messengers {
        messengers[id].Stop();
      }
      messengers := messengers - {id};
    }
  }
}
