/** The buffered channel of tokens by which an input bounds its undelivered messages. */
module Tokens {

  class Semaphore {
    var held: nat

    constructor ()
      ensures held == 0
    {
      held := 0;
    }

    /** Receiving from the channel; with no token in it the receiver would block. */
    method Release()
      requires held > 0
      modifies this
      ensures held == old(held) - 1
    {
      held := held - 1;
    }
  }
}
