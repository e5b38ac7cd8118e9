/** The wake-up flag of the poll thread (src/poll_common.c, src/poll_poll.c). */
module PollWaker {
  // struct poll_common without its timers.  `asleep` spans the time from the moment the poll thread
  // gives up the mutex to poll until it has it again.
  class Waker {
    var threadWoken: bool
    var pipe: nat          // bytes in the wake-up pipe
    ghost var asleep: bool

    constructor ()
      ensures Valid() && threadWoken && !asleep && pipe == 0
    {
      threadWoken, pipe, asleep := true, 0, false;
    }

    // A thread that sleeps and has been woken finds something in the pipe.
    ghost predicate Valid()
      reads this
    {
      && (asleep || threadWoken)
      && (asleep && threadWoken ==> pipe > 0)
    }

    // poll_common_wake
    method Wake()
      requires Valid()
      modifies this`threadWoken, this`pipe
      ensures Valid() && threadWoken && pipe == old(pipe) + (if old(threadWoken) then 0 else 1)
    {
      if !threadWoken {
        threadWoken := true;
        pipe := pipe + 1;
      }
    }

    // The poll thread lets go of the mutex, to poll.
    method Sleep()
      requires Valid() && !asleep
      modifies this`threadWoken, this`asleep
      ensures Valid() && asleep && !threadWoken
    {
      threadWoken, asleep := false, true;
    }

    // It has the mutex again; poll_dispatch reads a byte if polling saw one.
    method Resume(sawInput: bool)
      requires Valid() && asleep
      modifies this
      ensures Valid() && !asleep && threadWoken
      ensures pipe == if sawInput && old(pipe) > 0 then old(pipe) - 1 else old(pipe)
    {
      threadWoken, asleep := true, false;
      if sawInput && pipe > 0 {
        pipe := pipe - 1;
      }
    }
  }
}
