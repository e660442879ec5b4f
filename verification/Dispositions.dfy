/**
 Where dispositions wait for whoever asks for them: a bounded map by event id, from which a disposition
 is taken at most once.
 */
module Dispositions {
  import opened Wrappers
  import opened QueueMachine

  const QUEUE_COMPLETION_DISPOSITION_LIMIT: nat := 1024

  ghost predicate IsOldest(ids: set<nat>, oldest: nat) {
    oldest in ids && forall id :: id in ids ==> oldest <= id
  }

  class DispositionBoard {
    var dispositions: map<nat, Disposition>

    ghost predicate Valid()
      reads this
    {
      |dispositions| <= QUEUE_COMPLETION_DISPOSITION_LIMIT
    }

    constructor ()
      ensures Valid() && dispositions == map[]
    {
      dispositions := map[];
    }

    /** `record_completion_disposition`: a full board gives up its oldest event, and no other. */
    method Record(eventId: nat, disposition: Disposition) returns (forgotten: Option<nat>)
      requires Valid()
      modifies this
      ensures Valid()
      ensures forgotten.Some? <==> |old(dispositions)| == QUEUE_COMPLETION_DISPOSITION_LIMIT
      ensures forgotten.Some? ==> IsOldest(old(dispositions).Keys, forgotten.value)
      ensures dispositions == (old(dispositions) - if forgotten.Some? then {forgotten.value} else {})[eventId := disposition]
    {
      forgotten := None;
      if |dispositions| >= QUEUE_COMPLETION_DISPOSITION_LIMIT {
        assert dispositions.Keys != {};
        var oldest := MinimalKey(dispositions);
        dispositions := dispositions - {oldest};
        forgotten := Some(oldest);
      }
      ghost var room := dispositions;
      dispositions := dispositions[eventId := disposition];
      assert dispositions.Keys == room.Keys + {eventId};
    }

    /** The step of `wait_for_completion_disposition` that looks: what it finds, it removes. */
    method Take(eventId: nat) returns (found: Option<Disposition>)
      requires Valid()
      modifies this
      ensures Valid()
      ensures found == if eventId in old(dispositions) then Some(old(dispositions)[eventId]) else None
      ensures dispositions == old(dispositions) - {eventId}
    {
      found := None;
      if eventId in dispositions {
        found := Some(dispositions[eventId]);
      }
      dispositions := dispositions - {eventId};
    }
  }

  /** The least key, looking at one after the other. */
  method MinimalKey(dispositions: map<nat, Disposition>) returns (oldest: nat)
    requires dispositions.Keys != {}
    ensures IsOldest(dispositions.Keys, oldest)
  {
    var left := dispositions.Keys;
    oldest :| oldest in left;
    while left != {}
      invariant left <= dispositions.Keys && oldest in dispositions.Keys
      invariant forall id :: id in dispositions.Keys && id !in left ==> oldest <= id
      decreases left
    {
      var id :| id in left;
      left := left - {id};
      if id < oldest {
        oldest := id;
      }
    }
  }
}
