/** The reference counters behind every provider's start and stop requests.

    A provider owns a controller with one counter per kind of update. A request that
    moves the counter between 0 and 1 is passed on to the provider itself; -1 marks the
    controller as disabled, and requests are then ignored. */
module Counters {

  datatype Kind = Position | Heading | Velocity

  /** Number of requests a counter at `c` holds after one more (`on`) or one fewer. */
  function Moved(c: int, on: bool): int {
    if c < 0 then c else if on then c + 1 else c - 1
  }

  datatype Counts = Counts(position: int, heading: int, velocity: int) {

    function Of(k: Kind): int {
      match k
      case Position => position
      case Heading => heading
      case Velocity => velocity
    }

    function With(k: Kind, n: int): Counts {
      match k
      case Position => this.(position := n)
      case Heading => this.(heading := n)
      case Velocity => this.(velocity := n)
    }

    function Requested(k: Kind, on: bool): Counts {
      With(k, Moved(Of(k), on))
    }

    /** The request is the first to start or the last to stop, so the provider itself is told. */
    predicate Fires(k: Kind, on: bool) {
      Of(k) == if on then 0 else 1
    }

    predicate AnyPositive() {
      position > 0 || heading > 0 || velocity > 0
    }
  }

  const NONE := Counts(0, 0, 0)
  const DISABLED := Counts(-1, -1, -1)

  /** Three counters updated in place, as the controller of one provider. `fire` tells the
      owner to run its own start or stop hook. */
  class Controller {
    var position: int
    var heading: int
    var velocity: int

    ghost function Value(): Counts
      reads this
    {
      Counts(position, heading, velocity)
    }

    constructor ()
      ensures Value() == NONE
    {
      position, heading, velocity := 0, 0, 0;
    }

    function Counter(k: Kind): (n: int)
      reads this
      ensures n == Value().Of(k)
    {
      match k
      case Position => position
      case Heading => heading
      case Velocity => velocity
    }

    method SetCounter(k: Kind, n: int)
      modifies this
      ensures Value() == old(Value()).With(k, n)
    {
      match k
      case Position => position := n;
      case Heading => heading := n;
      case Velocity => velocity := n;
    }

    method Start(k: Kind) returns (fire: bool)
      modifies this
      ensures Value() == old(Value()).Requested(k, true)
      ensures fire == old(Value()).Fires(k, true)
    {
      if Counter(k) < 0 {
        return false;
      }
      SetCounter(k, Counter(k) + 1);
      fire := Counter(k) == 1;
    }

    method Stop(k: Kind) returns (fire: bool)
      modifies this
      ensures Value() == old(Value()).Requested(k, false)
      ensures fire == old(Value()).Fires(k, false)
    {
      if Counter(k) < 0 {
        return false;
      }
      SetCounter(k, Counter(k) - 1);
      fire := Counter(k) == 0;
    }

    method Enable()
      modifies this
      ensures Value() == NONE
    {
      position, heading, velocity := 0, 0, 0;
    }

    /** The last part of disabling; the owner has already stopped what was running. */
    method MarkDisabled()
      modifies this
      ensures Value() == DISABLED
    {
      position, heading, velocity := -1, -1, -1;
    }
  }
}
