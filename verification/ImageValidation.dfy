/** Upload validation: content type by magic bytes, size cap, and the storage key's extension. */
module ImageValidation {
  import opened Wrappers
  import opened Domain

  const MAX_IMAGE_SIZE_BYTES := 5 * 1024 * 1024

  const JPEG_MAGIC: Bytes := [0xff, 0xd8, 0xff]
  const PNG_MAGIC: Bytes := [0x89, 0x50, 0x4e, 0x47, 0x0d, 0x0a, 0x1a, 0x0a]
  const RIFF_MAGIC: Bytes := [0x52, 0x49, 0x46, 0x46]
  const WEBP_MAGIC: Bytes := [0x57, 0x45, 0x42, 0x50]

  /** A slice whose bounds are clipped to the sequence, as `data[lo:hi]` is. */
  function Slice(data: Bytes, lo: nat, hi: nat): Bytes
    requires lo <= hi
  {
    if |data| <= lo then [] else if |data| <= hi then data[lo..] else data[lo..hi]
  }

  function Sniff(data: Bytes): Option<ContentType> {
    if JPEG_MAGIC <= data then Some(Jpeg)
    else if PNG_MAGIC <= data then Some(Png)
    else if Slice(data, 0, 4) == RIFF_MAGIC && Slice(data, 8, 12) == WEBP_MAGIC then Some(WebP)
    else None
  }

  /** What "this file is of that type" means, byte by byte. */
  predicate HasSignature(data: Bytes, t: ContentType) {
    match t
    case Jpeg => |data| >= 3 && data[0] == 0xff && data[1] == 0xd8 && data[2] == 0xff
    case Png =>
      && |data| >= 8
      && data[0] == 0x89 && data[1] == 0x50 && data[2] == 0x4e && data[3] == 0x47
      && data[4] == 0x0d && data[5] == 0x0a && data[6] == 0x1a && data[7] == 0x0a
    case WebP =>
      && |data| >= 12
      && data[0] == 0x52 && data[1] == 0x49 && data[2] == 0x46 && data[3] == 0x46
      && data[8] == 0x57 && data[9] == 0x45 && data[10] == 0x42 && data[11] == 0x50
  }

  /** The three signatures exclude each other, so the order of the tests cannot matter, and a
      file too short to hold a signature never has one. */
  lemma SniffIsExact(data: Bytes)
    ensures forall t :: Sniff(data) == Some(t) <==> HasSignature(data, t)
  {
    PrefixBytes(JPEG_MAGIC, data);
    PrefixBytes(PNG_MAGIC, data);
    PrefixBytes(RIFF_MAGIC, Slice(data, 0, 4));
    PrefixBytes(WEBP_MAGIC, Slice(data, 8, 12));
  }

  lemma PrefixBytes(magic: Bytes, data: Bytes)
    ensures magic <= data <==> |magic| <= |data| && forall i :: 0 <= i < |magic| ==> data[i] == magic[i]
    ensures magic == data <==> magic <= data && |magic| == |data|
  {
  }

  /** A file as it may be stored: at most 5 MiB, and of the type its key's extension names. */
  predicate Storable(data: Bytes, t: ContentType) {
    |data| <= 5_242_880 && HasSignature(data, t)
  }

  datatype Validated = Validated(data: Bytes, contentType: ContentType)

  /** All files, each with its sniffed type; None if any of them is rejected. */
  function Validate(files: seq<Bytes>): (r: Option<seq<Validated>>)
    ensures r.Some? <==> forall i :: 0 <= i < |files| ==> |files[i]| <= MAX_IMAGE_SIZE_BYTES && Sniff(files[i]).Some?
    ensures r.Some? ==>
      && |r.value| == |files|
      && forall i :: 0 <= i < |files| ==> r.value[i].data == files[i] && Sniff(files[i]) == Some(r.value[i].contentType)
  {
    if files == [] then Some([])
    else
      var last := files[|files| - 1];
      var init := Validate(files[..|files| - 1]);
      if init.None? || |last| > MAX_IMAGE_SIZE_BYTES || Sniff(last).None? then None
      else Some(init.value + [Validated(last, Sniff(last).value)])
  }

  lemma ValidatedAreStorable(files: seq<Bytes>)
    requires Validate(files).Some?
    ensures forall i :: 0 <= i < |files| ==>
      Storable(Validate(files).value[i].data, Validate(files).value[i].contentType)
  {
    forall i | 0 <= i < |files|
      ensures Storable(Validate(files).value[i].data, Validate(files).value[i].contentType)
    {
      SniffIsExact(files[i]);
    }
  }
}
