/**
 * The registry of WebSocket reservations.
 *
 * `Registry` is the registry's value; the functions below say what one lock section does
 * to it. `RegistryCell` is the object the server shares, whose methods update its fields
 * and are proved against those functions. ConnectionProtocol interleaves the functions.
 */
module ConnectionRegistry {
  type Id = nat

  datatype OwnershipState = PendingUpgrade | Active | Closing | Finished

  datatype Ownership = Ownership(state: OwnershipState, callbackObserved: bool, cancelled: bool)

  datatype CallbackOutcome = CallbackReturned | CallbackRaised

  datatype TerminalOutcome = Failed | Cancelled | Panicked | CallbackCancelled | CallbackPanicked

  datatype Registry = Registry(
    nextId: nat,
    accepting: bool,
    entries: map<Id, Ownership>,
    callbacks: nat,
    panics: nat,
    completions: nat)
  {
    predicate Has(id: Id, states: set<OwnershipState>) {
      id in entries && entries[id].state in states
    }

    predicate Unfinished(id: Id) {
      Has(id, {PendingUpgrade, Active, Closing})
    }

    function Insert(id: Id): Registry {
      this.(entries := entries[id := Ownership(PendingUpgrade, false, false)])
    }

    function MarkActive(id: Id): Answer {
      if Has(id, {PendingUpgrade})
      then Answer(this.(entries := entries[id := entries[id].(state := Active)]), true)
      else Answer(this, false)
    }

    function ObserveCallback(id: Id, outcome: CallbackOutcome): Answer {
      if Has(id, {Active, Closing, Finished}) && !entries[id].callbackObserved then
        var entries := if entries[id].state == Finished
                       then entries - {id}
                       else entries[id := entries[id].(callbackObserved := true)];
        Answer(this.(entries := entries, callbacks := callbacks + 1,
               panics := panics + if outcome == CallbackRaised then 1 else 0), true)
      else
        Answer(this, false)
    }

    function ObserveTerminal(id: Id, outcome: TerminalOutcome): Answer {
      if Has(id, {PendingUpgrade}) then
        Answer(this.(entries := entries - {id},
               callbacks := callbacks + if outcome in {CallbackCancelled, CallbackPanicked} then 1 else 0,
               panics := panics + if outcome in {Panicked, CallbackPanicked} then 1 else 0,
               completions := completions + 1), true)
      else
        Answer(this, false)
    }

    function ObserveCompletion(id: Id, panicked: bool): Answer {
      if Has(id, {Active, Closing}) then
        var entries := if entries[id].callbackObserved
                       then entries - {id}
                       else entries[id := entries[id].(state := Finished)];
        Answer(this.(entries := entries, panics := panics + if panicked then 1 else 0,
               completions := completions + 1), true)
      else
        Answer(this, false)
    }

    function BeginClosing(): Registry {
      this.(entries := map id | id in entries :: Close(entries[id]))
    }

    function CancelOwned(): Registry {
      this.(entries := map id | id in entries :: entries[id].(cancelled := true))
    }
  }

  const EMPTY := Registry(1, true, map[], 0, 0, 0)

  /** What a lock section leaves behind, and the boolean it hands to the supervisor. */
  datatype Answer = Answer(reg: Registry, ok: bool)

  function Close(e: Ownership): Ownership {
    if e.state == Active then e.(state := Closing) else e
  }

  class RegistryCell {
    var nextId: nat
    var accepting: bool
    var entries: map<Id, Ownership>
    var callbacks: nat
    var panics: nat
    var completions: nat

    ghost function View(): Registry
      reads this
    {
      Registry(nextId, accepting, entries, callbacks, panics, completions)
    }

    constructor ()
      ensures View() == EMPTY
    {
      nextId, accepting, entries := 1, true, map[];
      callbacks, panics, completions := 0, 0, 0;
    }

    /** The counter is bumped without the lock. */
    method IssueId() returns (id: Id)
      modifies this`nextId
      ensures id == old(nextId) && nextId == id + 1
    {
      id := nextId;
      nextId := nextId + 1;
    }

    method StopAccepting()
      modifies this`accepting
      ensures !accepting
    {
      accepting := false;
    }

    /** The second look at `accepting`, inside the lock: a refused id is never inserted. */
    method InsertReserved(id: Id) returns (reserved: bool)
      modifies this`entries
      ensures reserved == accepting
      ensures View() == if reserved then old(View()).Insert(id) else old(View())
    {
      reserved := accepting;
      if reserved {
        entries := entries[id := Ownership(PendingUpgrade, false, false)];
      }
    }

    method MarkActive(id: Id) returns (ok: bool)
      modifies this`entries
      ensures Answer(View(), ok) == old(View()).MarkActive(id)
    {
      if id !in entries {
        return false;
      }
      if entries[id].state != PendingUpgrade {
        return false;
      }
      entries := entries[id := entries[id].(state := Active)];
      return true;
    }

    method ObserveCallback(id: Id, outcome: CallbackOutcome) returns (ok: bool)
      modifies this
      ensures Answer(View(), ok) == old(View()).ObserveCallback(id, outcome)
    {
      if id !in entries {
        return false;
      }
      var entry := entries[id];
      if entry.callbackObserved || entry.state == PendingUpgrade {
        return false;
      }
      entries := entries[id := entry.(callbackObserved := true)];
      callbacks := callbacks + 1;
      if outcome == CallbackRaised {
        panics := panics + 1;
      }
      if entry.state == Finished {
        entries := entries - {id};
        assert entries == old(entries) - {id};
      }
      return true;
    }

    method ObserveTerminal(id: Id, outcome: TerminalOutcome) returns (ok: bool)
      modifies this
      ensures Answer(View(), ok) == old(View()).ObserveTerminal(id, outcome)
    {
      if id !in entries || entries[id].state != PendingUpgrade {
        return false;
      }
      entries := entries - {id};
      if outcome == Panicked || outcome == CallbackPanicked {
        panics := panics + 1;
      }
      if outcome == CallbackCancelled || outcome == CallbackPanicked {
        callbacks := callbacks + 1;
      }
      completions := completions + 1;
      return true;
    }

    method ObserveCompletion(id: Id, panicked: bool) returns (ok: bool)
      modifies this
      ensures Answer(View(), ok) == old(View()).ObserveCompletion(id, panicked)
    {
      if id !in entries {
        return false;
      }
      var entry := entries[id];
      if entry.state != Active && entry.state != Closing {
        return false;
      }
      entries := entries[id := entry.(state := Finished)];
      if entry.callbackObserved {
        entries := entries - {id};
        assert entries == old(entries) - {id};
      }
      if panicked {
        panics := panics + 1;
      }
      completions := completions + 1;
      return true;
    }

    method BeginClosing()
      modifies this`entries
      ensures View() == old(View()).BeginClosing()
    {
      var left := entries.Keys;
      while left != {}
        invariant left <= entries.Keys == old(entries).Keys
        invariant forall id :: id in entries ==>
                                 entries[id] == if id in left then old(entries)[id] else Close(old(entries)[id])
        decreases left
      {
        var id :| id in left;
        if entries[id].state == Active {
          entries := entries[id := entries[id].(state := Closing)];
        }
        left := left - {id};
      }
      assert entries == old(View()).BeginClosing().entries;
    }

    method CancelOwned()
      modifies this`entries
      ensures View() == old(View()).CancelOwned()
    {
      var left := entries.Keys;
      while left != {}
        invariant left <= entries.Keys == old(entries).Keys
        invariant forall id :: id in entries ==>
                                 entries[id] == if id in left then old(entries)[id] else old(entries)[id].(cancelled := true)
        decreases left
      {
        var id :| id in left;
        entries := entries[id := entries[id].(cancelled := true)];
        left := left - {id};
      }
      assert entries == old(View()).CancelOwned().entries;
    }
  }
}
