/** The part of the native ZBar library that the Kotlin classes observe.

    A native object is known to Kotlin only by its handle, a C pointer passed
    as a Long, where 0 means "no object". What the native side answers about a
    handle (a symbol's location points, its type, the next symbol in a result
    list, the first symbol of a set) is fixed data here: the constant fields of
    `Native`. The native calls that allocate, configure or release an object,
    and the type query whose count matters to the caching in `Symbol`, are
    appended to `log` in the order the Kotlin code makes them. */
module NativeLib {

  /** A native pointer as a Kotlin Long. No arithmetic is ever done on it. */
  type Handle = int

  /** The null pointer: "no native object" or "already released". */
  const NullHandle: Handle := 0

  const MinInt32: int := -0x8000_0000
  const MaxInt32: int := 0x7fff_ffff

  /** A Kotlin Int. */
  type Int32 = x: int | MinInt32 <= x <= MaxInt32

  /** Kotlin Int arithmetic: the mathematical value wrapped to 32-bit two's complement. */
  function Wrap32(v: int): (r: Int32)
    ensures MinInt32 <= v <= MaxInt32 ==> r == v
    ensures (v - r) % 0x1_0000_0000 == 0
  {
    var m := v % 0x1_0000_0000;
    if m <= MaxInt32 then m else m - 0x1_0000_0000
  }

  datatype Option<T> = None | Some(value: T)

  /** A handle read back from the native side, as the Kotlin code treats it: 0 becomes null. */
  function NonNull(h: Handle): Option<Handle>
  {
    if h == NullHandle then None else Some(h)
  }

  /** Which native destructor a `destroy()` calls. */
  datatype PeerKind = SymbolPeer | SymbolSetPeer | ImagePeer

  /** A native call with an effect, as recorded in `Native.log`. */
  datatype Call =
    | Create(image: Handle)
    | SetSize(image: Handle, width: Int32, height: Int32)
    | SetFormat(image: Handle, format: string)
    | Convert(image: Handle, format: string, converted: Handle)
    | QueryType(symbol: Handle)
    | Release(kind: PeerKind, peer: Handle)

  class Native {
    /** Number of location points of a symbol. */
    const locationSize: Handle -> Int32
    /** X and Y coordinate of a symbol's location point at an index. */
    const locationX: (Handle, int) -> Int32
    const locationY: (Handle, int) -> Int32
    /** Symbology code of a symbol (0 for "no symbol"). */
    const symbolType: Handle -> Int32
    /** Next symbol of a result list, 0 at the end. */
    const nextSymbol: Handle -> Handle
    /** First symbol of a symbol set, 0 when the set is empty. */
    const firstSymbol: Handle -> Handle

    /** The effectful native calls made so far, oldest first. */
    var log: seq<Call>

    constructor (locationSize: Handle -> Int32,
                 locationX: (Handle, int) -> Int32, locationY: (Handle, int) -> Int32,
                 symbolType: Handle -> Int32,
                 nextSymbol: Handle -> Handle, firstSymbol: Handle -> Handle)
      ensures this.locationSize == locationSize
      ensures this.locationX == locationX && this.locationY == locationY
      ensures this.symbolType == symbolType
      ensures this.nextSymbol == nextSymbol && this.firstSymbol == firstSymbol
      ensures log == []
    {
      this.locationSize := locationSize;
      this.locationX, this.locationY := locationX, locationY;
      this.symbolType := symbolType;
      this.nextSymbol, this.firstSymbol := nextSymbol, firstSymbol;
      log := [];
    }

    /** Makes the native call `c`. */
    method Record(c: Call)
      modifies this
      ensures log == old(log) + [c]
    {
      log := log + [c];
    }
  }

  /** The native calls one `destroy()` makes on an object whose peer field holds `peer`. */
  function DestroyCalls(kind: PeerKind, peer: Handle): seq<Call>
  {
    if peer != NullHandle then [Release(kind, peer)] else []
  }

  /** The native calls made by `k` successive `destroy()` calls, starting from peer field
      `peer`; every `destroy()` leaves the peer field at 0. */
  function DestroyCallsRepeated(kind: PeerKind, peer: Handle, k: nat): seq<Call>
    decreases k
  {
    if k == 0 then [] else DestroyCalls(kind, peer) + DestroyCallsRepeated(kind, NullHandle, k - 1)
  }

  /** `destroy()` is idempotent: however many times it is called, a non-null peer is
      released exactly once and a null peer never. */
  lemma {:induction false} DestroyReleasesAtMostOnce(kind: PeerKind, peer: Handle, k: nat)
    requires k > 0
    ensures DestroyCallsRepeated(kind, peer, k) == DestroyCalls(kind, peer)
    ensures peer != NullHandle ==> DestroyCallsRepeated(kind, peer, k) == [Release(kind, peer)]
    ensures peer == NullHandle ==> DestroyCallsRepeated(kind, peer, k) == []
    decreases k
  {
    if k > 1 {
      DestroyReleasesAtMostOnce(kind, NullHandle, k - 1);
    }
  }
}
