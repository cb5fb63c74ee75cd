/** `SymbolIterator`: a single-pass forward cursor over a native result list,
    following each symbol's "next" handle until it reads 0. */
module SymbolIterators {
  import opened NativeLib
  import opened Symbols

  /** The exceptions the iterator raises. */
  datatype IterError = NoSuchElement | UnsupportedOperation

  datatype Result<T> = Ok(value: T) | Err(error: IterError)

  /** One `next()` call on the cursor seen as a handle (None for a null
      `current`): what it yields and where the cursor moves. */
  function Advance(next: Handle -> Handle, cursor: Option<Handle>): (Result<Handle>, Option<Handle>)
  {
    match cursor
    case None => (Err(NoSuchElement), None)
    case Some(h) => (Ok(h), NonNull(next(h)))
  }

  /** `k` successive `next()` calls: the results in order and the final cursor. */
  function AdvanceRepeated(next: Handle -> Handle, cursor: Option<Handle>, k: nat): (seq<Result<Handle>>, Option<Handle>)
    decreases k
  {
    if k == 0 then ([], cursor)
    else
      var (r, c) := Advance(next, cursor);
      var (rs, last) := AdvanceRepeated(next, c, k - 1);
      ([r] + rs, last)
  }

  /** `hs` is the finite list of handles reached from `cursor` by following
      "next" links until a 0 link: the native result list is acyclic. */
  predicate IsChain(next: Handle -> Handle, cursor: Option<Handle>, hs: seq<Handle>)
    decreases |hs|
  {
    match cursor
    case None => hs == []
    case Some(h) => hs != [] && hs[0] == h && IsChain(next, NonNull(next(h)), hs[1..])
  }

  /** Over an acyclic list, `next()` yields the list's symbols in list order;
      the cursor stays non-null for exactly as many calls as the list is long
      and is null afterwards. */
  lemma {:induction false} AdvanceFollowsChain(next: Handle -> Handle, cursor: Option<Handle>, hs: seq<Handle>)
    requires IsChain(next, cursor, hs)
    ensures var (rs, last) := AdvanceRepeated(next, cursor, |hs|);
      |rs| == |hs| && (forall i :: 0 <= i < |hs| ==> rs[i] == Ok(hs[i])) && last == None
    ensures forall k :: 0 <= k < |hs| ==> AdvanceRepeated(next, cursor, k).1.Some?
    decreases |hs|
  {
    match cursor
    case None =>
    case Some(h) =>
      var c := NonNull(next(h));
      AdvanceFollowsChain(next, c, hs[1..]);
      forall k | 0 <= k < |hs| ensures AdvanceRepeated(next, cursor, k).1.Some? {
        if k > 0 {
          assert AdvanceRepeated(next, cursor, k).1 == AdvanceRepeated(next, c, k - 1).1;
        }
      }
  }

  /** Once exhausted, the iterator stays exhausted: every further `next()` fails
      with NoSuchElement. */
  lemma {:induction false} ExhaustedStaysExhausted(next: Handle -> Handle, k: nat)
    ensures var (rs, last) := AdvanceRepeated(next, None, k);
      |rs| == k && (forall i :: 0 <= i < k ==> rs[i] == Err(NoSuchElement)) && last == None
    decreases k
  {
    if k > 0 {
      ExhaustedStaysExhausted(next, k - 1);
    }
  }

  class SymbolIterator {
    /** The symbol the next `next()` returns; null when exhausted. */
    var current: Symbol?

    constructor (first: Symbol?)
      ensures current == first
    {
      current := first;
    }

    /** The cursor as a handle. */
    function Cursor(): Option<Handle>
      reads this, current
    {
      if current == null then None else Some(current.peer)
    }

    /** `hasNext()`. */
    method HasNext() returns (b: bool)
      ensures b <==> current != null
      ensures b <==> Cursor().Some?
    {
      b := current != null;
    }

    /** `next()`: fails on an exhausted iterator; otherwise returns the current
        symbol and moves to a new Symbol wrapping its "next" handle, or to null
        when that handle is 0. */
    method Next(lib: Native) returns (r: Result<Symbol>)
      modifies this
      ensures old(current) == null ==> r == Err(NoSuchElement) && current == null
      ensures old(current) != null ==> r.Ok? && r.value == old(current)
      ensures current != null ==> fresh(current) && current.cachedType == NoneType
      ensures Cursor() == Advance(lib.nextSymbol, old(Cursor())).1
      ensures Advance(lib.nextSymbol, old(Cursor())).0 == if r.Ok? then Ok(r.value.peer) else Err(r.error)
    {
      if current == null {
        return Err(NoSuchElement);
      }
      var result := current;
      var sym := lib.nextSymbol(result.peer);
      if sym != NullHandle {
        current := new Symbol(sym);
      } else {
        current := null;
      }
      r := Ok(result);
    }

    /** `remove()`: always fails; the iterator is left as it was. */
    method Remove() returns (e: IterError)
      ensures e == UnsupportedOperation
    {
      e := UnsupportedOperation;
    }
  }
}
