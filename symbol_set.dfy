/** `SymbolSet`: a holder of a native symbol-set handle that hands out
    iterators over the set's result list. */
module SymbolSets {
  import opened NativeLib
  import opened Symbols
  import opened SymbolIterators

  class SymbolSet {
    /** The native symbol set, 0 once released. */
    var peer: Handle

    constructor (peer: Handle)
      ensures this.peer == peer
    {
      this.peer := peer;
    }

    /** `iterator()`: an exhausted iterator when the set's first-symbol handle is
        0, otherwise one whose current symbol is a new Symbol wrapping that
        handle. Each call returns a new, independent iterator and leaves the set
        unchanged. */
    method Iterator(lib: Native) returns (it: SymbolIterator)
      ensures fresh(it)
      ensures it.current == null <==> lib.firstSymbol(peer) == NullHandle
      ensures it.current != null ==> fresh(it.current) && it.current.cachedType == NoneType
      ensures it.Cursor() == NonNull(lib.firstSymbol(peer))
    {
      var sym := lib.firstSymbol(peer);
      if sym == NullHandle {
        it := new SymbolIterator(null);
      } else {
        var first := new Symbol(sym);
        it := new SymbolIterator(first);
      }
    }

    /** `destroy()`: releases a non-null peer once and clears it. */
    method Destroy(lib: Native)
      modifies this, lib
      ensures peer == NullHandle
      ensures lib.log == old(lib.log) + DestroyCalls(SymbolSetPeer, old(peer))
    {
      if peer != NullHandle {
        lib.Record(Release(SymbolSetPeer, peer));
        peer := NullHandle;
      }
    }
  }

  /** Iterating a set whose result list is `hs` yields exactly `hs`, in order:
      the iterator returned by `iterator()` starts at the list's head, and
      `hasNext()` turns false after exactly `|hs|` calls of `next()`. */
  lemma SetIterationYieldsList(lib: Native, setPeer: Handle, hs: seq<Handle>)
    requires IsChain(lib.nextSymbol, NonNull(lib.firstSymbol(setPeer)), hs)
    ensures lib.firstSymbol(setPeer) == NullHandle <==> hs == []
    ensures var (rs, last) := AdvanceRepeated(lib.nextSymbol, NonNull(lib.firstSymbol(setPeer)), |hs|);
      |rs| == |hs| && (forall i :: 0 <= i < |hs| ==> rs[i] == Ok(hs[i])) && last == None
  {
    AdvanceFollowsChain(lib.nextSymbol, NonNull(lib.firstSymbol(setPeer)), hs);
  }
}
