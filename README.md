# ZBar Kotlin binding: a Dafny model of its local logic

The ZBar Android binding wraps the native ZBar barcode reader. Its Kotlin classes
hold native handles (C pointers passed as `Long`, 0 meaning "none"). Nearly every
operation is a foreign call. This project models the few operations that have logic
on the Kotlin side:

- `Symbol.bounds`: one pass over a symbol's location points that keeps a running
  minimum and maximum of x and y, then fills `[xmin, ymin, xmax - xmin, ymax - ymin]`.
  It returns null when the native point count is 0 or less.
- `Symbol.getType`: a lazy cache in which 0 means "not fetched". A native type of
  0 (`NONE`) therefore gets fetched again on every call. The model keeps this
  behaviour.
- `Symbol.getLocationPoint`: marshals one point into a two-element array.
- `destroy` in `Symbol`, `SymbolSet` and `Image`: releases a non-zero peer and
  clears it, so repeated calls release nothing more.
- `SymbolIterator`: a forward cursor that follows each symbol's "next" handle
  until it reads 0. `next()` past the end fails, and `remove()` always fails.
- `SymbolSet.iterator()`: returns an exhausted iterator when the first-symbol
  handle is 0. Otherwise it returns one that starts at that symbol.
- `Image`: constructors that create a native image and then configure it, or
  adopt a given handle; `convert`, which maps a 0 result to null.

The native library is the class `NativeLib.Native`. Its constant fields are what
the library answers about a handle: the location-point count and coordinates, the
symbology type, the next symbol in a result list, and the first symbol of a set.
Its `log` records the effectful native calls in order: create, setSize, setFormat,
convert, type query and release. The native allocator picks the handles that
`create` and `convert` return, so those handles are parameters of the
constructors and of `Convert`.

Kotlin `Int` is the subset type `Int32`. In `bounds`, the width and height are
`Int` subtractions. They are computed with explicit 32-bit wrap-around (`Wrap32`),
which is what the JVM does. The containment lemma therefore assumes that both
spans fit in an `Int`. A separate lemma shows that a negative width or height
comes only from such an overflow.

`bounds` tests `n <= 0` (Symbol.kt:99), so a native point count of 0 or a negative
count gives null.

Modules, one per source file: `NativeLib` (native.dfy), `Symbols` (symbol.dfy),
`SymbolIterators` (symbol_iterator.dfy), `SymbolSets` (symbol_set.dfy) and
`Images` (image.dfy).

## Model

| member | source | states |
|---|---|---|
| `NativeLib.Wrap32` | zbar/src/main/java/com/yanzhenjie/zbar/Symbol.kt:119-120 | Kotlin `Int` subtraction: the result is a 32-bit value congruent to the mathematical difference modulo 2^32, and equal to it when it fits |
| `NativeLib.DestroyReleasesAtMostOnce` | zbar/src/main/java/com/yanzhenjie/zbar/Symbol.kt:147-153 | any number k > 0 of `destroy()` calls releases a non-null peer exactly once and a null peer never |
| `Symbols.LocationPoints` | zbar/src/main/java/com/yanzhenjie/zbar/Symbol.kt:171-175 | definition of the native view that `bounds` reads, not a property of it: the points read through `getLocationSize`, `getLocationX` and `getLocationY`, none when the count is 0 or less, otherwise one point per index with the coordinates the native side reports |
| `Symbols.LoIsMinimum` | zbar/src/main/java/com/yanzhenjie/zbar/Symbol.kt:103-116 | the running minimum is the least coordinate over all points: no point lies below it and some point lies on it |
| `Symbols.HiIsMaximum` | zbar/src/main/java/com/yanzhenjie/zbar/Symbol.kt:103-116 | the running maximum is the greatest coordinate over all points: no point lies above it and some point lies on it |
| `Symbols.BoxOf` | zbar/src/main/java/com/yanzhenjie/zbar/Symbol.kt:102 | a non-empty point list gives a bounds array of exactly four entries |
| `Symbols.BoxIsTightBound` | zbar/src/main/java/com/yanzhenjie/zbar/Symbol.kt:108-120 | when the spans fit in an `Int`, width and height are non-negative, every point lies in `[b0, b0+b2] x [b1, b1+b3]`, and each of the four edges passes through some point |
| `Symbols.BoxWrapsOnlyWhenSpanOverflows` | zbar/src/main/java/com/yanzhenjie/zbar/Symbol.kt:119-120 | width (height) is negative exactly when the x (y) span exceeds `Int.MAX_VALUE` |
| `Symbols.BoxOfSquare` | zbar/src/main/java/com/yanzhenjie/zbar/Symbol.kt:96-122 | the points (1,1), (5,1), (5,4), (1,4) give bounds [1, 1, 4, 3] |
| `Symbols.FetchTypeCachesNonZero` | zbar/src/main/java/com/yanzhenjie/zbar/Symbol.kt:163-167 | over k calls of `getType()`, every answer is the cached type if there is one and the native type otherwise. With a non-zero cache nothing is queried. With an empty cache a non-zero native type is queried once. A native type of 0 is queried on every call and the cache stays 0 |
| `Symbols.Symbol.constructor` | zbar/src/main/java/com/yanzhenjie/zbar/Symbol.kt:44-46 | the new symbol holds the given peer and an unfetched (0) type cache |
| `Symbols.Symbol.Bounds` | zbar/src/main/java/com/yanzhenjie/zbar/Symbol.kt:96-122 | null exactly when the native point count is 0 or less. Otherwise a fresh array equal to `BoxOf` of the location points, i.e. min x, min y, wrapped x span, wrapped y span; the loop invariant keeps the running extrema equal to those of the points read so far |
| `Symbols.Symbol.GetLocationPoint` | zbar/src/main/java/com/yanzhenjie/zbar/Symbol.kt:177-182 | a fresh two-element array holding the native x and y of the index, which is the point at that index whenever the index is in range |
| `Symbols.Symbol.GetType` | zbar/src/main/java/com/yanzhenjie/zbar/Symbol.kt:163-167 | queries and caches the native type only while the cache holds 0, and otherwise answers the cache with no native call; the answer is always the new cache value |
| `Symbols.Symbol.Destroy` | zbar/src/main/java/com/yanzhenjie/zbar/Symbol.kt:147-153 | a non-null peer is released once; the peer is 0 afterwards, so a later call releases nothing |
| `SymbolIterators.AdvanceFollowsChain` | zbar/src/main/java/com/yanzhenjie/zbar/SymbolIterator.kt:42-58 | from the head of an acyclic next-list, as many `next()` calls as the list has entries yield the list's symbols in list order. The cursor is non-null before each of those calls and null after the last one |
| `SymbolIterators.ExhaustedStaysExhausted` | zbar/src/main/java/com/yanzhenjie/zbar/SymbolIterator.kt:50-51 | on an exhausted iterator every further `next()` fails with NoSuchElement, and the iterator stays exhausted |
| `SymbolIterators.SymbolIterator.constructor` | zbar/src/main/java/com/yanzhenjie/zbar/SymbolIterator.kt:35-37 | the cursor starts at the given symbol; a null start is immediately exhausted |
| `SymbolIterators.SymbolIterator.HasNext` | zbar/src/main/java/com/yanzhenjie/zbar/SymbolIterator.kt:42-44 | true exactly when the current symbol is non-null |
| `SymbolIterators.SymbolIterator.Next` | zbar/src/main/java/com/yanzhenjie/zbar/SymbolIterator.kt:49-58 | fails with NoSuchElement and stays null when exhausted. Otherwise it returns the current symbol and moves to a fresh Symbol wrapping the native "next" handle, or to null when that handle is 0. This is one step of `Advance` |
| `SymbolIterators.SymbolIterator.Remove` | zbar/src/main/java/com/yanzhenjie/zbar/SymbolIterator.kt:63-65 | always fails with UnsupportedOperation and changes nothing |
| `SymbolSets.SymbolSet.constructor` | zbar/src/main/java/com/yanzhenjie/zbar/SymbolSet.kt:32 | the set holds the given peer |
| `SymbolSets.SymbolSet.Iterator` | zbar/src/main/java/com/yanzhenjie/zbar/SymbolSet.kt:55-59 | a fresh iterator that is exhausted exactly when the first-symbol handle is 0, and otherwise starts at a fresh Symbol wrapping that handle; the set is not modified, so two calls give independent iterators with the same start |
| `SymbolSets.SymbolSet.Destroy` | zbar/src/main/java/com/yanzhenjie/zbar/SymbolSet.kt:40-45 | a non-null peer is released once; the peer is 0 afterwards, so a second call is a no-op |
| `SymbolSets.SetIterationYieldsList` | zbar/src/main/java/com/yanzhenjie/zbar/SymbolSet.kt:55-59 | iterating a set whose native result list is acyclic yields that list in order. The list is empty exactly when the first-symbol handle is 0 |
| `Images.Image.constructor` | zbar/src/main/java/com/yanzhenjie/zbar/Image.kt:29-31 | one native create call, whose handle becomes the peer |
| `Images.Image.WithSize` | zbar/src/main/java/com/yanzhenjie/zbar/Image.kt:33-35 | create, then setSize on the new peer, in that order |
| `Images.Image.WithSizeAndFormat` | zbar/src/main/java/com/yanzhenjie/zbar/Image.kt:37-39 | create, then setSize, then setFormat on the new peer, in that order |
| `Images.Image.WithFormat` | zbar/src/main/java/com/yanzhenjie/zbar/Image.kt:41-43 | create, then setFormat on the new peer |
| `Images.Image.Wrap` | zbar/src/main/java/com/yanzhenjie/zbar/Image.kt:45-47 | stores the given handle as it is, with no native call |
| `Images.Image.SetSize` | zbar/src/main/java/com/yanzhenjie/zbar/Image.kt:88 | one native setSize call on this image's peer |
| `Images.Image.SetFormat` | zbar/src/main/java/com/yanzhenjie/zbar/Image.kt:85 | one native setFormat call on this image's peer |
| `Images.Image.Convert` | zbar/src/main/java/com/yanzhenjie/zbar/Image.kt:49-55 | null exactly when the native conversion returns handle 0. Otherwise a fresh Image whose peer is the returned handle; the receiver's peer is unchanged |
| `Images.Image.Destroy` | zbar/src/main/java/com/yanzhenjie/zbar/Image.kt:57-63 | a non-null peer is released once; the peer is 0 afterwards, so a second call is a no-op |

## Left out

- The native library itself is not modelled. This covers decoding, scanning, configuration, pixel buffers, format strings and the behaviour of `create`, `convert` and `destroy`. The model records only which native calls are made, with what arguments and in what order.
- External getters of `Symbol` are foreign calls with no Kotlin logic: `configMask`, `modifierMask`, `data`, `dataBytes`, `quality`, `count` and `orientation`. The same holds for `SymbolSet.size` and for the `Image` getters and setters other than `setSize(width, height)` and `setFormat`. The `next` getter appears only as the native "next" link that the iterator reads.
- `Symbol.components` and `Image.symbols`: each only wraps a handle returned by a foreign call in a new `SymbolSet`, which is the modelled `SymbolSet` constructor.
- The relation between `SymbolSet.size` and the number of symbols that iteration yields: `size` is answered by the native side.
- The `Image` field `data` is never read or written by the Kotlin code in the source.
- `finalize()`: it only calls `destroy()`, and the runtime decides when. `@Synchronized` on `destroy()` is left out because the model is sequential.
- The `System.loadLibrary` and `init()` static initialisers (library loading).
- The `ImageScanner` class: every operation is a foreign call, and its only local logic is the `destroy()` guard modelled here for the other three classes.
- The `Config` constant table, and the symbology codes other than NONE (0). The model needs only the 0 code, because it doubles as the "not fetched" value of the type cache.
- Handles are unbounded integers. The Kotlin code never does arithmetic on them, so the 64-bit width plays no part.
- The native data is fixed for the whole run. This covers the location points, the symbol types and the next and first links, so the model does not cover native lists that change or are released during iteration.
