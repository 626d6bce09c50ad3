/**
 P and V of os/src/semaphores.c as seen by one semaphore: its value and those who wait on it, whatever
 they are. The kernel's steps and the protocols on top of them share these.
 */
module Semaphores {
  datatype Decision = Blocks | Wakes | Adjusts

  /** P blocks on zero, otherwise wakes a waiter, otherwise takes one. */
  function DecideP(value: int, waiting: bool): Decision {
    if value == 0 then Blocks else if waiting then Wakes else Adjusts
  }

  /** V blocks on one, otherwise wakes a waiter, otherwise gives one. */
  function DecideV(value: int, waiting: bool): Decision {
    if value == 1 then Blocks else if waiting then Wakes else Adjusts
  }

  datatype Semaphore<T> = Semaphore(value: int, queue: seq<T>) {
    function PDecision(): Decision { DecideP(value, queue != []) }

    function VDecision(): Decision { DecideV(value, queue != []) }

    /** After a P by `me`. */
    function AfterP(me: T): Semaphore<T> {
      match PDecision()
      case Blocks => Semaphore(value, queue + [me])
      case Wakes => Semaphore(value, queue[1..])
      case Adjusts => Semaphore(value - 1, queue)
    }

    /** After a V by `me`. */
    function AfterV(me: T): Semaphore<T> {
      match VDecision()
      case Blocks => Semaphore(value, queue + [me])
      case Wakes => Semaphore(value, queue[1..])
      case Adjusts => Semaphore(value + 1, queue)
    }
  }
}
