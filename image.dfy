/** `Image`: a holder of a native image handle. Its constructors create and
    configure a native image (or adopt a given handle), `convert` wraps the
    handle of a converted copy, and `destroy` releases the handle once. */
module Images {
  import opened NativeLib

  class Image {
    /** The native image, 0 once released. */
    var peer: Handle

    /** `Image()`: creates a native image; `created` is the handle the native
        allocator returns. */
    constructor (lib: Native, created: Handle)
      modifies lib
      ensures peer == created
      ensures lib.log == old(lib.log) + [Create(created)]
    {
      lib.Record(Create(created));
      peer := created;
    }

    /** `Image(width, height)`: creates, then sets the size. */
    constructor WithSize(lib: Native, created: Handle, width: Int32, height: Int32)
      modifies lib
      ensures peer == created
      ensures lib.log == old(lib.log) + [Create(created), Call.SetSize(created, width, height)]
    {
      lib.Record(Create(created));
      peer := created;
      new;
      SetSize(lib, width, height);
    }

    /** `Image(width, height, format)`: creates, then sets the size, then the format. */
    constructor WithSizeAndFormat(lib: Native, created: Handle, width: Int32, height: Int32, format: string)
      modifies lib
      ensures peer == created
      ensures lib.log == old(lib.log) + [Create(created), Call.SetSize(created, width, height), Call.SetFormat(created, format)]
    {
      lib.Record(Create(created));
      peer := created;
      new;
      SetSize(lib, width, height);
      SetFormat(lib, format);
    }

    /** `Image(format)`: creates, then sets the format. */
    constructor WithFormat(lib: Native, created: Handle, format: string)
      modifies lib
      ensures peer == created
      ensures lib.log == old(lib.log) + [Create(created), Call.SetFormat(created, format)]
    {
      lib.Record(Create(created));
      peer := created;
      new;
      SetFormat(lib, format);
    }

    /** `Image(peer)`: adopts an existing native image without any native call. */
    constructor Wrap(peer: Handle)
      ensures this.peer == peer
    {
      this.peer := peer;
    }

    /** `setSize(width, height)`, applied to this image's peer. */
    method SetSize(lib: Native, width: Int32, height: Int32)
      modifies lib
      ensures lib.log == old(lib.log) + [Call.SetSize(peer, width, height)]
    {
      lib.Record(Call.SetSize(peer, width, height));
    }

    /** `setFormat(format)`, applied to this image's peer. */
    method SetFormat(lib: Native, format: string)
      modifies lib
      ensures lib.log == old(lib.log) + [Call.SetFormat(peer, format)]
    {
      lib.Record(Call.SetFormat(peer, format));
    }

    /** `convert(format)`: `converted` is the handle the native conversion
        returns. A 0 handle (conversion failed) gives null; any other handle a
        new Image adopting it. The receiver keeps its own peer. */
    method Convert(lib: Native, format: string, converted: Handle) returns (r: Image?)
      modifies lib
      ensures lib.log == old(lib.log) + [Call.Convert(peer, format, converted)]
      ensures r == null <==> converted == NullHandle
      ensures r != null ==> fresh(r) && r.peer == converted
      ensures peer == old(peer)
    {
      lib.Record(Call.Convert(peer, format, converted));
      if converted == NullHandle {
        return null;
      }
      r := new Image.Wrap(converted);
    }

    /** `destroy()`: releases a non-null peer once and clears it. */
    method Destroy(lib: Native)
      modifies this, lib
      ensures peer == NullHandle
      ensures lib.log == old(lib.log) + DestroyCalls(ImagePeer, old(peer))
    {
      if peer != NullHandle {
        lib.Record(Release(ImagePeer, peer));
        peer := NullHandle;
      }
    }
  }
}
