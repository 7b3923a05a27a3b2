/** The crop step (components/ImageCropper.tsx): the component keeps the last
    pixel area the cropping widget reported, and `handleDone` decodes the source,
    makes a canvas of the area's size and draws the area into it at the origin
    with no scaling, then hands the result to `onCropComplete`.

    Drawing follows `drawImage` of the HTML Living Standard (section 4.12.5.1.14,
    "Drawing images"): a new canvas bitmap is transparent black, the source
    rectangle is clipped to the image, and with equal source and destination
    sizes each destination pixel receives the source pixel at the same offset;
    composited (source-over) onto transparent black, that pixel is copied as is. */
module ImageCropper {
  import opened Wrappers

  datatype Rgba = Rgba(r: int, g: int, b: int, a: int)

  const TransparentBlack := Rgba(0, 0, 0, 0)

  /** The area the widget reports, in source pixels: top-left corner and size. */
  datatype Area = Area(x: int, y: int, width: nat, height: nat)

  /** The area lies inside the image (rows are the first dimension). */
  predicate Within(area: Area, img: array2<Rgba>) {
    && 0 <= area.x && area.x + area.width <= img.Length1
    && 0 <= area.y && area.y + area.height <= img.Length0
  }

  /** The pixel drawing reads at column px, row py: the image's pixel there, or
      transparent black outside the image (the clipped-away part). */
  function SourcePixel(img: array2<Rgba>, px: int, py: int): Rgba
    reads img
  {
    if 0 <= py < img.Length0 && 0 <= px < img.Length1 then img[py, px] else TransparentBlack
  }

  /** A fresh canvas of the area's size with the area drawn into it:
      output pixel (i, j) is source pixel (x + i, y + j). */
  method CropToCanvas(img: array2<Rgba>, area: Area) returns (canvas: array2<Rgba>)
    ensures fresh(canvas)
    ensures canvas.Length0 == area.height && canvas.Length1 == area.width
    ensures forall j, i :: 0 <= j < area.height && 0 <= i < area.width ==>
      canvas[j, i] == SourcePixel(img, area.x + i, area.y + j)
    ensures Within(area, img) ==> forall j, i :: 0 <= j < area.height && 0 <= i < area.width ==>
      canvas[j, i] == img[area.y + j, area.x + i]
  {
    // canvas.width = area.width; canvas.height = area.height
    canvas := new Rgba[area.height, area.width]((_, _) => TransparentBlack);
    // ctx.drawImage(img, x, y, width, height, 0, 0, width, height)
    var j := 0;
    while j < area.height
      invariant 0 <= j <= area.height
      invariant forall jj, ii :: 0 <= jj < j && 0 <= ii < area.width ==>
        canvas[jj, ii] == SourcePixel(img, area.x + ii, area.y + jj)
    {
      var i := 0;
      while i < area.width
        invariant 0 <= i <= area.width
        invariant forall jj, ii :: 0 <= jj < j && 0 <= ii < area.width ==>
          canvas[jj, ii] == SourcePixel(img, area.x + ii, area.y + jj)
        invariant forall ii :: 0 <= ii < i ==> canvas[j, ii] == SourcePixel(img, area.x + ii, area.y + j)
      {
        canvas[j, i] := SourcePixel(img, area.x + i, area.y + j);
        i := i + 1;
      }
      j := j + 1;
    }
  }

  /** What the component calls back: `onCropComplete` with the drawn canvas
      (which it encodes as a PNG data URL), `onCancel`, or nothing. */
  datatype Callback = NoCallback | CropComplete(canvas: array2<Rgba>) | CancelRequested

  /** The `ImageCropper` component's own state and handlers (the cropping
      widget it renders is not part of this model). */
  class CropperComponent {
    /** The data URL of the photo being cropped (the `image` prop). */
    const image: string
    /** The last area the widget reported; null until it reports one. */
    var croppedAreaPixels: Option<Area>

    constructor(image: string)
      ensures this.image == image && croppedAreaPixels == None
    {
      this.image := image;
      croppedAreaPixels := None;
    }

    /** The widget reports the area currently selected. */
    method OnCropCompleteInternal(pixels: Area)
      modifies this
      ensures croppedAreaPixels == Some(pixels)
    {
      croppedAreaPixels := Some(pixels);
    }

    /** handleDone. `decoded` is the outcome of decoding `image` (None when the
        image fails to load, which rejects the awaited promise); `hasContext`
        says whether the canvas yields a 2D context. A rejected decode and the
        missing area (reading a field of null throws) are caught and logged;
        a missing context returns early. Only a completed draw calls back, once. */
    method HandleDone(decoded: Option<array2<Rgba>>, hasContext: bool) returns (cb: Callback)
      ensures cb.CropComplete? <==> decoded.Some? && hasContext && croppedAreaPixels.Some?
      ensures !cb.CropComplete? ==> cb == NoCallback
      ensures cb.CropComplete? ==>
        var area, img, canvas := croppedAreaPixels.value, decoded.value, cb.canvas;
        && fresh(canvas)
        && canvas.Length0 == area.height && canvas.Length1 == area.width
        && forall j, i :: 0 <= j < area.height && 0 <= i < area.width ==>
             canvas[j, i] == SourcePixel(img, area.x + i, area.y + j)
    {
      if decoded.None? {
        // createImage rejected: caught, logged, no callback
        return NoCallback;
      }
      if !hasContext {
        return NoCallback;
      }
      if croppedAreaPixels.None? {
        // croppedAreaPixels.width throws on null: caught, logged, no callback
        return NoCallback;
      }
      var canvas := CropToCanvas(decoded.value, croppedAreaPixels.value);
      cb := CropComplete(canvas);
    }

    /** The Cancel button calls `onCancel` and nothing else. */
    method Cancel() returns (cb: Callback)
      ensures cb == CancelRequested
    {
      cb := CancelRequested;
    }
  }
}
