/**
 * JUCE's ReadWriteLock as sequential state. Thread interleavings are not
 * modelled: the lock is a count of write acquisitions held by the controller
 * thread (the writer may re-enter) and a count of read acquisitions that are
 * held. A non-blocking read attempt fails exactly when a writer holds the lock.
 */
module ReadWriteLocks {

  class ReadWriteLock {
    var writeDepth: nat
    var readers: nat

    constructor ()
      ensures writeDepth == 0 && readers == 0
    {
      writeDepth, readers := 0, 0;
    }

    predicate WriterHolds()
      reads this
    {
      writeDepth > 0
    }

    /** tryEnterRead(): succeeds, and then holds a read, iff no writer holds the lock. */
    method TryEnterRead() returns (entered: bool)
      modifies this
      ensures entered <==> !old(WriterHolds())
      ensures writeDepth == old(writeDepth)
      ensures readers == old(readers) + (if entered then 1 else 0)
    {
      entered := writeDepth == 0;
      if entered {
        readers := readers + 1;
      }
    }

    /** exitRead(): releases a read acquired by TryEnterRead. */
    method ExitRead()
      requires readers > 0
      modifies this
      ensures readers == old(readers) - 1 && writeDepth == old(writeDepth)
    {
      readers := readers - 1;
    }

    /** enterWrite(): the writing thread takes (or re-enters) the write lock. */
    method EnterWrite()
      modifies this
      ensures writeDepth == old(writeDepth) + 1 && readers == old(readers)
    {
      writeDepth := writeDepth + 1;
    }

    /** exitWrite(): releases one write acquisition. */
    method ExitWrite()
      requires writeDepth > 0
      modifies this
      ensures writeDepth == old(writeDepth) - 1 && readers == old(readers)
    {
      writeDepth := writeDepth - 1;
    }
  }
}
