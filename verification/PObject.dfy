/** The reference count of jni/libdevmgr/comm/PObject.cpp. */
module Objects {

  class PObject<T> {
    const it: T                // what the derived class adds: the id of a device, nothing for an observer
    var refCnt: int
    var deleted: bool

    constructor (it: T)
      ensures refCnt == 1 && !deleted && this.it == it
    {
      this.it := it;
      refCnt, deleted := 1, false;
    }

    method AddRef() returns (n: int)
      requires !deleted
      modifies this`refCnt
      ensures n == refCnt == old(refCnt) + 1
    {
      refCnt := refCnt + 1;
      n := refCnt;
    }

    /** The object deletes itself when the count drops to zero. */
    method Release() returns (n: int)
      requires !deleted && refCnt > 0
      modifies this`refCnt, this`deleted
      ensures n == refCnt == old(refCnt) - 1 && (deleted <==> refCnt == 0)
    {
      refCnt := refCnt - 1;
      n := refCnt;
      if n == 0 {
        deleted := true;
      }
    }
  }
}
