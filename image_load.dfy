/**
 * How `scanImage` turns its argument into something it can draw
 * (`_loadImage`), and the load-handler life cycle of `_awaitImageLoad`.
 */
module ImageLoad {
  import opened Wrappers

  /** The size of a drawable image. */
  datatype Dims = Dims(width: nat, height: nat)

  /**
   * Whether `_getImageData` can read the image's pixels: `getImageData` throws
   * an `IndexSizeError` for a rectangle of width or height 0.
   */
  predicate HasPixels(d: Dims)
  {
    d.width > 0 && d.height > 0
  }

  /** The kinds of argument `_loadImage` tells apart. */
  datatype ImageInput =
    | CanvasInput(dims: Dims)       // an HTMLCanvasElement
    | BitmapInput(dims: Dims)       // an ImageBitmap
    | ImageElementInput             // an HTMLImageElement, loaded or not
    | FileInput(file: nat)          // a File
    | UrlInput(href: string)        // a URL object
    | StringInput(text: string)     // a string, used as the image's src
    | OtherInput                    // anything else

  /** Whether the page's global scope defines `ImageBitmap`. */
  datatype Platform = Platform(hasImageBitmap: bool)

  /** Where a freshly created image takes its `src` from. */
  datatype Source =
    | ObjectUrlOf(file: nat)        // `URL.createObjectURL(file)`: a blob URL that should be revoked
    | Href(text: string)            // the URL or string itself

  /** What `_loadImage` returns. */
  datatype LoadPlan =
      /** `Promise.resolve(input)`: the input is drawn as it is. */
    | Ready
      /** Waits for the given image element to load, then draws it. */
    | AwaitElement
      /** A new image with this `src`; waits for it to load, then draws it. */
    | AwaitNewImage(src: Source)
      /** `Promise.reject('Unsupported image type.')`. */
    | Unsupported
      /** `_loadImage` itself throws a ReferenceError (only as written; see `LoadImageAsWritten`). */
    | ThrowsReferenceException

  /**
   * `_loadImage` as written. Its guard `typeof('ImageBitmap') !== 'undefined'`
   * asks for the type of a string literal, which is always `'string'`, so
   * `input instanceof ImageBitmap` is evaluated for every input that is not a
   * canvas, and throws where `ImageBitmap` is not defined.
   */
  function LoadImageAsWritten(platform: Platform, input: ImageInput): (plan: LoadPlan)
    ensures input.CanvasInput? ==> plan == Ready
    ensures !platform.hasImageBitmap && !input.CanvasInput? ==> plan == ThrowsReferenceException
  {
    if input.CanvasInput? then Ready
    else if !platform.hasImageBitmap then ThrowsReferenceException
    else if input.BitmapInput? then Ready
    else LoadOther(input)
  }

  /**
   * `_loadImage` with the guard it evidently intends, `typeof ImageBitmap !==
   * 'undefined'`: canvases and bitmaps are used as they are, image elements are
   * awaited, files, URLs and strings become a new image (a file through a blob
   * URL), and anything else is rejected.
   */
  function LoadImage(platform: Platform, input: ImageInput): (plan: LoadPlan)
    ensures plan.Ready? <==> input.CanvasInput? || (input.BitmapInput? && platform.hasImageBitmap)
    ensures plan.AwaitElement? <==> input.ImageElementInput?
    ensures plan.AwaitNewImage? <==> input.FileInput? || input.UrlInput? || input.StringInput?
    ensures plan.AwaitNewImage? ==> (plan.src.ObjectUrlOf? <==> input.FileInput?)
    ensures input.FileInput? ==> plan == AwaitNewImage(ObjectUrlOf(input.file))
    ensures input.UrlInput? ==> plan == AwaitNewImage(Href(input.href))
    ensures input.StringInput? ==> plan == AwaitNewImage(Href(input.text))
    ensures plan.Unsupported? <==> input.OtherInput? || (input.BitmapInput? && !platform.hasImageBitmap)
    ensures !plan.ThrowsReferenceException?
  {
    if input.CanvasInput? || (platform.hasImageBitmap && input.BitmapInput?) then Ready
    else LoadOther(input)
  }

  /** The branches after the canvas and bitmap tests, shared by both versions. */
  function LoadOther(input: ImageInput): LoadPlan
  {
    match input
    case ImageElementInput => AwaitElement
    case FileInput(f) => AwaitNewImage(ObjectUrlOf(f))
    case UrlInput(u) => AwaitNewImage(Href(u))
    case StringInput(s) => AwaitNewImage(Href(s))
    case _ => Unsupported
  }

  /** Where `ImageBitmap` exists, the code as written and the corrected guard agree on every input. */
  lemma AsWrittenAgreesWithBitmaps(input: ImageInput)
    ensures LoadImageAsWritten(Platform(true), input) == LoadImage(Platform(true), input)
  {
  }

  /** Where `ImageBitmap` does not exist, scanning a URL string throws as written, but would load it. */
  lemma MissingImageBitmapThrows()
    ensures LoadImageAsWritten(Platform(false), StringInput("code.png")) == ThrowsReferenceException
    ensures LoadImage(Platform(false), StringInput("code.png")) == AwaitNewImage(Href("code.png"))
  {
  }

  /**
   * The blob URLs still unrevoked once the load has settled: one for a file
   * whose image failed to load, since the URL is revoked only after a load.
   */
  function UnrevokedUrls(plan: LoadPlan, loaded: bool): (n: nat)
    ensures n <= 1
    ensures n == 1 <==> plan.AwaitNewImage? && plan.src.ObjectUrlOf? && !loaded
  {
    var created := if plan.AwaitNewImage? && plan.src.ObjectUrlOf? then 1 else 0;
    var revoked := if created == 1 && loaded then 1 else 0;
    created - revoked
  }

  /** Loading a file's image always creates exactly one blob URL, and revokes it only when the load succeeds. */
  lemma FileUrlRevokedOnlyOnLoad(platform: Platform, file: nat, loaded: bool)
    ensures UnrevokedUrls(LoadImage(platform, FileInput(file)), loaded) == (if loaded then 0 else 1)
  {
  }

  /**
   * An image element together with the promise one `_awaitImageLoad` call on
   * it returned: `onload` and `onerror` tell whether the handlers are set;
   * `outcome` is `None` while the promise is pending, `Some(true)` once it
   * resolved and `Some(false)` once it rejected.
   */
  class ImageLoadWait {
    var complete: bool
    var naturalWidth: nat
    var onload: bool
    var onerror: bool
    var outcome: Option<bool>

    /** Both handlers are set together, exactly while the promise is pending. */
    ghost predicate Valid()
      reads this
    {
      onload == onerror && (onload <==> outcome.None?)
    }

    /**
     * `_awaitImageLoad(image)`: an image that is complete with a non-zero
     * natural width resolves at once; any other (including a complete but
     * broken one) gets both handlers and waits.
     */
    constructor (complete: bool, naturalWidth: nat)
      ensures Valid()
      ensures this.complete == complete && this.naturalWidth == naturalWidth
      ensures complete && naturalWidth != 0 ==> outcome == Some(true) && !onload && !onerror
      ensures !(complete && naturalWidth != 0) ==> outcome == None && onload && onerror
    {
      this.complete := complete;
      this.naturalWidth := naturalWidth;
      if complete && naturalWidth != 0 {
        onload, onerror := false, false;
        outcome := Some(true);
      } else {
        onload, onerror := true, true;
        outcome := None;
      }
    }

    /** The browser finishes loading the image and fires `load`: the handler clears both handlers and resolves. */
    method FireLoad(width: nat)
      requires Valid()
      modifies this
      ensures Valid()
      ensures complete && naturalWidth == width && !onload && !onerror
      ensures outcome == if old(onload) then Some(true) else old(outcome)
    {
      complete, naturalWidth := true, width;
      if onload {
        onload, onerror := false, false;
        outcome := Some(true);
      }
    }

    /** The image fails to load and the browser fires `error`: the handler clears both handlers and rejects. */
    method FireError()
      requires Valid()
      modifies this
      ensures Valid()
      ensures complete && naturalWidth == 0 && !onload && !onerror
      ensures outcome == if old(onerror) then Some(false) else old(outcome)
    {
      complete, naturalWidth := true, 0;
      if onerror {
        onload, onerror := false, false;
        outcome := Some(false);
      }
    }
  }

  /** Once the promise has settled, later `load` and `error` events change neither it nor the handlers. */
  method SettledWaitIgnoresEvents(w: ImageLoadWait, width: nat)
    requires w.Valid() && w.outcome.Some?
    modifies w
    ensures w.outcome == old(w.outcome) && !w.onload && !w.onerror
  {
    w.FireError();
    w.FireLoad(width);
  }
}
