/**
 * The pure parts of lib/image-utils.ts: the type and size check on an
 * uploaded picture, the size a picture is scaled to before compression, and
 * the storage path of an upload.
 */
module ImageUtils {
  import opened Wrappers
  import JsText

  const MaxSize := 10 * 1024 * 1024
  const AllowedTypes: seq<string> := ["image/jpeg", "image/jpg", "image/png", "image/webp"]
  const TypeMessage := "Kun JPEG, PNG og WebP filer er tillatt"
  const SizeMessage := "Bildet er for stort (maks 10MB)"
  const DefaultMaxWidth := 800.0
  const DefaultMaxHeight := 800.0

  /** `validateImageFile`: the message for the first check that fails, or `None`. */
  function ValidateImageFile(fileType: string, size: int): (message: Option<string>)
    ensures fileType !in AllowedTypes ==> message == Some(TypeMessage)
  {
    if fileType !in AllowedTypes then Some(TypeMessage)
    else if size > MaxSize then Some(SizeMessage)
    else None
  }

  /** A file passes exactly when its type is allowed and it is at most 10 MiB; the type is checked first. */
  lemma ValidateImageFileIff(fileType: string, size: int)
    ensures ValidateImageFile(fileType, size).None? <==>
      fileType in {"image/jpeg", "image/jpg", "image/png", "image/webp"} && size <= 10485760
    ensures fileType in AllowedTypes && size > MaxSize ==> ValidateImageFile(fileType, size) == Some(SizeMessage)
    ensures ValidateImageFile("image/png", 10485760).None?
    ensures ValidateImageFile("image/gif", 20000000) == Some(TypeMessage)
  {
  }

  /**
   * The dimensions `compressImage` draws at: a landscape picture wider than
   * `maxWidth` is narrowed to it, any other picture taller than `maxHeight` is
   * lowered to it, and the other side is scaled by the same factor.
   */
  method ResizeDimensions(imgWidth: nat, imgHeight: nat, maxWidth: real, maxHeight: real) returns (width: real, height: real)
    requires maxWidth >= 0.0 && maxHeight >= 0.0
    ensures width * (imgHeight as real) == height * (imgWidth as real)
    ensures imgWidth > imgHeight && imgWidth as real > maxWidth ==> width == maxWidth
    ensures imgWidth <= imgHeight && imgHeight as real > maxHeight ==> height == maxHeight
    ensures (imgWidth > imgHeight ==> imgWidth as real <= maxWidth) &&
            (imgWidth <= imgHeight ==> imgHeight as real <= maxHeight) ==>
              width == imgWidth as real && height == imgHeight as real
    ensures maxWidth == maxHeight ==> width <= maxWidth && height <= maxHeight
    ensures width <= imgWidth as real && height <= imgHeight as real
  {
    width, height := imgWidth as real, imgHeight as real;
    if width > height {
      if width > maxWidth {
        ScaledDown(height, width, maxWidth);
        height := (height * maxWidth) / width;
        width := maxWidth;
      }
    } else {
      if height > maxHeight {
        ScaledDown(width, height, maxHeight);
        width := (width * maxHeight) / height;
        height := maxHeight;
      }
    }
  }

  /** Scaling the shorter side `a` of `a` by `b` down to `m` keeps it within `m` and within `a`. */
  lemma ScaledDown(a: real, b: real, m: real)
    requires 0.0 <= a <= b && 0.0 <= m < b
    ensures (a * m) / b <= m && (a * m) / b <= a
  {
    assert a * m <= b * m;
    assert a * m <= a * b;
  }

  /** `uploadImageToSupabase`'s path: `<userId>/<Date.now()>.<text after the last ".">`. */
  function UploadFileName(userId: string, now: nat, fileName: string): (path: string)
    ensures var ext := JsText.AfterLast(fileName, '.');
      && path == userId + "/" + JsText.NatToString(now) + "." + ext
      && '.' !in ext
      && ('.' !in fileName ==> ext == fileName)
  {
    userId + "/" + JsText.NatToString(now) + "." + JsText.AfterLast(fileName, '.')
  }

  /** The path ends with the original extension, which is what follows its own last ".". */
  lemma UploadKeepsExtension(userId: string, now: nat, fileName: string)
    ensures var path := UploadFileName(userId, now, fileName);
      JsText.AfterLast(path, '.') == JsText.AfterLast(fileName, '.')
  {
    var ext := JsText.AfterLast(fileName, '.');
    var head := userId + "/" + JsText.NatToString(now);
    JsText.AfterLastSplit(head, '.', ext);
    assert UploadFileName(userId, now, fileName) == head + ['.'] + ext;
  }
}
