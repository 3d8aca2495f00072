/** The lock-free counter that segments and the shared info block carry: a count
    of processes, a flag that is set when the block is about to be unlinked and
    a post bit that is set when it has been. */
module Counters {

  // The count is a bit field 30 bits wide.
  const COUNT_WRAP: nat := 0x4000_0000

  datatype Counter = Counter(count: nat, flag: bool, post: bool)

  function Up(c: Counter): Counter {
    c.(count := (c.count + 1) % COUNT_WRAP)
  }

  function Down(c: Counter): Counter {
    c.(count := (c.count + COUNT_WRAP - 1) % COUNT_WRAP)
  }
}
