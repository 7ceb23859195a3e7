/** The chat counters of `AppRuntimeState` and the slot semaphore they go with. */
module RuntimeState {

  /** The three numbers the admission protocol shares: free semaphore permits,
      prompts counted as running, prompts counted as waiting. */
  datatype Counters = Counters(free: int, inflight: int, pending: int)

  /** The source's `max(0, n - 1)`. */
  function Decrement(n: int): int {
    if n - 1 > 0 then n - 1 else 0
  }

  function TakePermit(c: Counters): Counters { c.(free := c.free - 1) }

  function GivePermit(c: Counters): Counters { c.(free := c.free + 1) }

  function CountInflight(c: Counters): Counters { c.(inflight := c.inflight + 1) }

  function UncountInflight(c: Counters): Counters { c.(inflight := Decrement(c.inflight)) }

  function CountPending(c: Counters): Counters { c.(pending := c.pending + 1) }

  function UncountPending(c: Counters): Counters { c.(pending := Decrement(c.pending)) }

  function Promote(c: Counters): Counters { CountInflight(UncountPending(c)) }

  /** Each method is one critical section of the source. */
  class AppRuntimeState {
    var chatInflightCount: int
    var chatPendingCount: int
    var slotPermits: int

    function Model(): Counters
      reads this
    {
      Counters(slotPermits, chatInflightCount, chatPendingCount)
    }

    constructor (capacity: nat)
      ensures Model() == Counters(capacity, 0, 0)
    {
      chatInflightCount, chatPendingCount, slotPermits := 0, 0, capacity;
    }

    method TryAcquireSlot() returns (acquired: bool)
      modifies this`slotPermits
      ensures acquired == (old(slotPermits) > 0)
      ensures Model() == if acquired then TakePermit(old(Model())) else old(Model())
      ensures slotPermits == old(slotPermits) - if acquired then 1 else 0
    {
      acquired := slotPermits > 0;
      if acquired {
        slotPermits := slotPermits - 1;
      }
    }

    method IncrementChatInflight() returns (current: int)
      modifies this`chatInflightCount
      ensures Model() == CountInflight(old(Model())) && current == chatInflightCount == old(chatInflightCount) + 1
    {
      current := chatInflightCount + 1;
      chatInflightCount := current;
    }

    method DecrementChatInflight() returns (current: int)
      modifies this`chatInflightCount
      ensures Model() == UncountInflight(old(Model())) && current == chatInflightCount
      ensures chatInflightCount == if old(chatInflightCount) <= 0 then 0 else old(chatInflightCount) - 1
    {
      current := Decrement(chatInflightCount);
      chatInflightCount := current;
    }

    method IncrementChatPending() returns (current: int)
      modifies this`chatPendingCount
      ensures Model() == CountPending(old(Model())) && current == chatPendingCount == old(chatPendingCount) + 1
    {
      current := chatPendingCount + 1;
      chatPendingCount := current;
    }

    method DecrementChatPending() returns (current: int)
      modifies this`chatPendingCount
      ensures Model() == UncountPending(old(Model())) && current == chatPendingCount
      ensures chatPendingCount == if old(chatPendingCount) <= 0 then 0 else old(chatPendingCount) - 1
    {
      current := Decrement(chatPendingCount);
      chatPendingCount := current;
    }

    method PromoteChatPendingToInflight() returns (active: int, pending: int)
      modifies this`chatInflightCount, this`chatPendingCount
      ensures Model() == Promote(old(Model()))
      ensures active == chatInflightCount == old(chatInflightCount) + 1 && pending == chatPendingCount
      ensures chatPendingCount == if old(chatPendingCount) <= 0 then 0 else old(chatPendingCount) - 1
    {
      pending := Decrement(chatPendingCount);
      active := chatInflightCount + 1;
      chatPendingCount := pending;
      chatInflightCount := active;
    }

    method ReleaseChatSlot()
      modifies this`slotPermits
      ensures Model() == GivePermit(old(Model())) && slotPermits == old(slotPermits) + 1
    {
      slotPermits := slotPermits + 1;
    }
  }
}
