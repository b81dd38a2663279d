/** Tuning constants of the scheduler and of the process table, and the C arithmetic they rely on. */
module Params {

  /** The timer frequency stays symbolic.  The lower bound keeps MIN_TIMESLICE at one jiffy or more;
      the upper bound keeps the product 3000 * HZ inside a signed 32-bit word. */
  type Hertz = x: int | 100 <= x <= 700000 witness 100

  const HZ: Hertz

  const MAX_RT_PRIO := 100
  const MAX_PRIO := 140
  const OVERDUE_PRIO := 139

  const MIN_TIMESLICE: int := 10 * HZ / 1000
  const MAX_TIMESLICE: int := 300 * HZ / 1000
  const MAX_SLEEP_AVG: int := 2 * HZ
  const STARVATION_LIMIT: int := 2 * HZ
  const CHILD_PENALTY := 95
  const EXIT_WEIGHT := 3
  const INTERACTIVE_DELTA := 2

  const MAX_USER_RT_PRIO := 100
  const MAX_REQUEST_MS := 3000
  const MIN_REQUESTED_TIME := 1
  const INVALID_REQUESTED_TIME := 0

  const PID_MAX := 0x8000
  const RESERVED_PIDS := 300

  const WORD := 0x1_0000_0000

  /** C division of signed integers: rounds toward zero. */
  function TruncDiv(a: int, b: int): int
    requires b > 0
  {
    if a >= 0 then a / b else -((-a) / b)
  }

  /** Conversion of a signed value to a 32-bit unsigned word. */
  function U32(x: int): (r: int)
    ensures 0 <= r < WORD
    ensures 0 <= x < WORD ==> r == x
    ensures -WORD <= x < 0 ==> r == x + WORD
  {
    x % WORD
  }

  /** CHANGE_MS_TO_JIFFIS. */
  function MsToJiffies(ms: int): int {
    TruncDiv(ms * HZ, 1000)
  }

  function NiceToPrio(nice: int): int {
    MAX_RT_PRIO + nice + 20
  }

  function PrioToNice(prio: int): int {
    prio - MAX_RT_PRIO - 20
  }

  function Min(a: int, b: int): int {
    if a < b then a else b
  }

  function Max(a: int, b: int): int {
    if a < b then b else a
  }
}
