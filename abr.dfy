/**
 * The brush-library front end: the `ImageBrush` record and its `invert`
 * mutator, the header dispatch of `open` and `open_asl`, and the iterator
 * `Brushes`, whose `next` forwards to whichever format decoder `open` chose.
 *
 * The three format decoders (`abr1`, `abr6`, `asl`) are not part of this
 * model. Their states are the type parameters `A1`, `A6` and `S`, and their
 * `open` and `next_brush` functions are passed in as function values.
 */
module Abr {
  import opened Wrappers
  import opened ByteStream

  // ---------------------------------------------------------------------
  // ImageBrush
  // ---------------------------------------------------------------------

  /** The samples of `s`, each replaced by its complement `255 - sample`. */
  function Inverted(s: seq<u8>): (r: seq<u8>)
    ensures |r| == |s|
  {
    if s == [] then [] else [255 - s[0]] + Inverted(s[1..])
  }

  /** Inversion is pointwise: sample `k` of the result is `255` minus sample `k` of the input. */
  lemma {:induction false} InvertedAt(s: seq<u8>, k: nat)
    requires k < |s|
    ensures Inverted(s)[k] == 255 - s[k]
  {
    if k > 0 {
      InvertedAt(s[1..], k - 1);
    }
  }

  /** Inverting twice restores the samples exactly. */
  lemma {:induction false} InvertedInvolutive(s: seq<u8>)
    ensures Inverted(Inverted(s)) == s
  {
    forall k | 0 <= k < |s|
      ensures Inverted(Inverted(s))[k] == s[k]
    {
      InvertedAt(s, k);
      InvertedAt(Inverted(s), k);
    }
  }

  /**
   * An image brush: a `width` by `height` raster of 8-bit samples, stored
   * row-major in `data`. `Valid` is the documented length invariant; the
   * fields are public in the source, so nothing but the decoders' own care
   * establishes it.
   */
  class ImageBrush {
    var width: u32
    var height: u32
    /** Bit depth; always 8 in every decoder's output. */
    var depth: u16
    var data: array<u8>

    ghost predicate Valid()
      reads this
    {
      data.Length == width as int * height as int
    }

    /** The struct literal a decoder writes: every field as given. */
    constructor (width: u32, height: u32, depth: u16, samples: seq<u8>)
      ensures this.width == width && this.height == height && this.depth == depth
      ensures fresh(data) && data[..] == samples
      ensures Valid() <==> |samples| == width as int * height as int
    {
      this.width := width;
      this.height := height;
      this.depth := depth;
      data := new u8[|samples|](i requires 0 <= i < |samples| => samples[i]);
    }

    /**
     * Inverts the image in place: every sample becomes `255 - sample`. The
     * dimensions, the depth and the buffer's length are untouched, so the
     * length invariant holds afterwards exactly when it held before.
     */
    method Invert()
      modifies data
      ensures data[..] == Inverted(old(data[..]))
      ensures forall k :: 0 <= k < data.Length ==> data[k] == 255 - old(data[k])
      ensures unchanged(this)
      ensures Valid() <==> old(Valid())
    {
      ghost var before := data[..];
      for i := 0 to data.Length
        invariant forall k :: 0 <= k < i ==> data[k] == 255 - before[k]
        invariant forall k :: i <= k < data.Length ==> data[k] == before[k]
      {
        data[i] := 255 - data[i];
      }
      forall k | 0 <= k < data.Length
        ensures data[..][k] == Inverted(before)[k]
      {
        InvertedAt(before, k);
      }
    }
  }

  // ---------------------------------------------------------------------
  // Errors and the decoder union
  // ---------------------------------------------------------------------

  /**
   * The failures of `open` and `open_asl`: an I/O failure while reading the
   * header, a header naming no supported format, or (`Other`) any failure a
   * format decoder's own `open` reports, identified only by a code. Every
   * one of them from a format decoder's `open` passes through unchanged.
   */
  datatype OpenError =
    | Io(io: IoError)
    | UnsupportedVersion(version: u16, subversion: u16)
    | Other(code: int)

  /** Exactly one format decoder is active, fixed for the iterator's lifetime. */
  datatype Decoder<A1, A6, S> = Abr1(abr1: A1) | Abr6(abr6: A6) | Asl(asl: S)

  /** `a` and `b` have the same active format. */
  predicate SameVariant<A1, A6, S>(a: Decoder<A1, A6, S>, b: Decoder<A1, A6, S>)
  {
    (a.Abr1? && b.Abr1?) || (a.Abr6? && b.Abr6?) || (a.Asl? && b.Asl?)
  }

  /** A format decoder's `open`: the stream after the header, the version and the subversion. */
  type SubOpen<D> = (seq<u8>, u16, u16) -> Result<D, OpenError>

  // ---------------------------------------------------------------------
  // Header classification
  // ---------------------------------------------------------------------

  /** The two layouts a brush-library header can select. */
  datatype Layout = Abr1Like | Abr6Like

  /** Legacy versions, accepted with any subversion. */
  const LegacyVersions: set<u16> := {1, 2}

  /** The supported (version, subversion) pairs of the modern layout. */
  const ModernHeaders: set<(u16, u16)> := {(6, 1), (6, 2), (10, 1), (10, 2)}

  /**
   * Classifies a header: a legacy version whatever the subversion, else a
   * modern version with subversion 1 or 2, else rejected with the header's
   * own values.
   */
  function Select(version: u16, subversion: u16): (r: Result<Layout, OpenError>)
    ensures r == Ok(Abr1Like) <==> version in LegacyVersions
    ensures r == Ok(Abr6Like) <==> (version, subversion) in ModernHeaders
    ensures r.Err? <==> version !in LegacyVersions && (version, subversion) !in ModernHeaders
    ensures r.Err? ==> r.error == UnsupportedVersion(version, subversion)
  {
    var abr1Like := version == 1 || version == 2;
    var abr6Like := (version == 6 || version == 10) && (subversion == 1 || subversion == 2);
    if abr1Like then Ok(Abr1Like)
    else if abr6Like then Ok(Abr6Like)
    else Err(UnsupportedVersion(version, subversion))
  }

  /** The four header bytes that carry `version` then `subversion`. */
  function EncodeHeader(version: u16, subversion: u16): (b: seq<u8>)
    ensures |b| == 4
  {
    EncodeU16(version) + EncodeU16(subversion)
  }

  // ---------------------------------------------------------------------
  // open
  // ---------------------------------------------------------------------

  /**
   * What `open` does to a stream holding `s`: read the version and the
   * subversion, select a layout, and hand the rest of the stream to that
   * layout's decoder, passing its failure through.
   */
  function OpenSpec<A1, A6, S>(s: seq<u8>, open1: SubOpen<A1>, open6: SubOpen<A6>)
    : (r: Result<Decoder<A1, A6, S>, OpenError>)
    ensures |s| < 4 ==> r == Err(Io(UnexpectedEof))
    ensures r.Ok? ==> |s| >= 4 && !r.value.Asl?
  {
    match ReadBeU16(s)
    case Err(e) => Err(Io(e))
    case Ok(version) =>
      match ReadBeU16(s[2..])
      case Err(e) => Err(Io(e))
      case Ok(subversion) =>
        match Select(version, subversion)
        case Err(e) => Err(e)
        case Ok(Abr1Like) =>
          (match open1(s[4..], version, subversion)
           case Ok(d) => Ok(Abr1(d))
           case Err(e) => Err(e))
        case Ok(Abr6Like) =>
          (match open6(s[4..], version, subversion)
           case Ok(d) => Ok(Abr6(d))
           case Err(e) => Err(e))
  }

  /** A legacy header selects the `abr1` decoder on the rest of the stream, whatever the subversion. */
  lemma OpenLegacyHeader<A1, A6, S>(version: u16, subversion: u16, rest: seq<u8>,
                                    open1: SubOpen<A1>, open6: SubOpen<A6>)
    requires version in LegacyVersions
    ensures var r := OpenSpec<A1, A6, S>(EncodeHeader(version, subversion) + rest, open1, open6);
            var d := open1(rest, version, subversion);
            (d.Ok? ==> r == Ok(Abr1(d.value))) && (d.Err? ==> r == Err(d.error))
  {
  }

  /** A modern header selects the `abr6` decoder on the rest of the stream. */
  lemma OpenModernHeader<A1, A6, S>(version: u16, subversion: u16, rest: seq<u8>,
                                    open1: SubOpen<A1>, open6: SubOpen<A6>)
    requires (version, subversion) in ModernHeaders
    ensures var r := OpenSpec<A1, A6, S>(EncodeHeader(version, subversion) + rest, open1, open6);
            var d := open6(rest, version, subversion);
            (d.Ok? ==> r == Ok(Abr6(d.value))) && (d.Err? ==> r == Err(d.error))
  {
  }

  /** Any other header is rejected with the values it holds, and no decoder is opened. */
  lemma OpenUnsupportedHeader<A1, A6, S>(version: u16, subversion: u16, rest: seq<u8>,
                                         open1: SubOpen<A1>, open6: SubOpen<A6>)
    requires version !in LegacyVersions
    requires (version, subversion) !in ModernHeaders
    ensures OpenSpec<A1, A6, S>(EncodeHeader(version, subversion) + rest, open1, open6)
            == Err(UnsupportedVersion(version, subversion))
  {
  }

  /**
   * `open`: reads the two header fields from `rdr`, selects the layout and
   * opens that layout's decoder on the rest of the stream. Only the header is
   * read here: two bytes if the stream ends inside the subversion, none if
   * it ends inside the version.
   */
  method Open<A1, A6, S>(rdr: Reader, open1: SubOpen<A1>, open6: SubOpen<A6>)
    returns (r: Result<Brushes<A1, A6, S>, OpenError>)
    requires rdr.Valid()
    modifies rdr
    ensures rdr.Valid()
    ensures var spec := OpenSpec<A1, A6, S>(old(rdr.Remaining()), open1, open6);
            && (r.Ok? <==> spec.Ok?)
            && (r.Ok? ==> fresh(r.value) && r.value.dec == spec.value)
            && (r.Err? ==> r.error == spec.error)
    ensures rdr.pos == old(rdr.pos) + (if |old(rdr.Remaining())| >= 4 then 4
                                       else if |old(rdr.Remaining())| >= 2 then 2 else 0)
  {
    ghost var s := rdr.Remaining();
    var v := rdr.ReadU16();
    if v.Err? {
      return Err(Io(v.error));
    }
    var version := v.value;
    var sv := rdr.ReadU16();
    if sv.Err? {
      return Err(Io(sv.error));
    }
    var subversion := sv.value;
    assert rdr.Remaining() == s[4..];
    var layout := Select(version, subversion);
    var dec: Decoder<A1, A6, S>;
    match layout {
      case Err(e) =>
        return Err(e);
      case Ok(Abr1Like) =>
        var d := open1(rdr.Remaining(), version, subversion);
        if d.Err? {
          return Err(d.error);
        }
        dec := Abr1(d.value);
      case Ok(Abr6Like) =>
        var d := open6(rdr.Remaining(), version, subversion);
        if d.Err? {
          return Err(d.error);
        }
        dec := Abr6(d.value);
    }
    var brushes := new Brushes(dec);
    return Ok(brushes);
  }

  // ---------------------------------------------------------------------
  // open_asl
  // ---------------------------------------------------------------------

  /** A style-library decoder's `open`: the stream after the header and the version. */
  type AslOpen<D> = (seq<u8>, u16) -> Result<D, OpenError>

  /**
   * What `open_asl` does to a stream holding `s`: read one version field,
   * accept only version 2 and hand the rest to the `asl` decoder; any other
   * version is rejected with subversion 0.
   */
  function OpenAslSpec<A1, A6, S>(s: seq<u8>, openAsl: AslOpen<S>)
    : (r: Result<Decoder<A1, A6, S>, OpenError>)
    ensures |s| < 2 ==> r == Err(Io(UnexpectedEof))
    ensures r.Ok? ==> |s| >= 2 && r.value.Asl?
  {
    match ReadBeU16(s)
    case Err(e) => Err(Io(e))
    case Ok(version) =>
      if version == 2 then
        (match openAsl(s[2..], version)
         case Ok(d) => Ok(Asl(d))
         case Err(e) => Err(e))
      else Err(UnsupportedVersion(version, 0))
  }

  /** Version 2 opens the `asl` decoder on the rest of the stream, passing its failure through. */
  lemma OpenAslVersionTwo<A1, A6, S>(rest: seq<u8>, openAsl: AslOpen<S>)
    ensures var r := OpenAslSpec<A1, A6, S>(EncodeU16(2) + rest, openAsl);
            var d := openAsl(rest, 2);
            (d.Ok? ==> r == Ok(Asl(d.value))) && (d.Err? ==> r == Err(d.error))
  {
  }

  /** Every other version is rejected, reporting that version and subversion 0. */
  lemma OpenAslOtherVersion<A1, A6, S>(version: u16, rest: seq<u8>, openAsl: AslOpen<S>)
    requires version != 2
    ensures OpenAslSpec<A1, A6, S>(EncodeU16(version) + rest, openAsl)
            == Err(UnsupportedVersion(version, 0))
  {
  }

  /** `open_asl`: reads the version from `rdr` and, if it is 2, opens the `asl` decoder. */
  method OpenAsl<A1, A6, S>(rdr: Reader, openAsl: AslOpen<S>)
    returns (r: Result<Brushes<A1, A6, S>, OpenError>)
    requires rdr.Valid()
    modifies rdr
    ensures rdr.Valid()
    ensures var spec := OpenAslSpec<A1, A6, S>(old(rdr.Remaining()), openAsl);
            && (r.Ok? <==> spec.Ok?)
            && (r.Ok? ==> fresh(r.value) && r.value.dec == spec.value)
            && (r.Err? ==> r.error == spec.error)
    ensures rdr.pos == old(rdr.pos) + (if |old(rdr.Remaining())| >= 2 then 2 else 0)
  {
    ghost var s := rdr.Remaining();
    var v := rdr.ReadU16();
    if v.Err? {
      return Err(Io(v.error));
    }
    var version := v.value;
    assert rdr.Remaining() == s[2..];
    if version == 2 {
      var d := openAsl(rdr.Remaining(), version);
      if d.Err? {
        return Err(d.error);
      }
      var brushes := new Brushes(Asl(d.value));
      return Ok(brushes);
    } else {
      return Err(UnsupportedVersion(version, 0));
    }
  }

  // ---------------------------------------------------------------------
  // The iterator
  // ---------------------------------------------------------------------

  /**
   * A format decoder's `next_brush`: its new state and the item it yields, if
   * any. In the source `Item` is `Result<ImageBrush, BrushError>`; the
   * forwarding never looks inside it, so it stays a type parameter here and
   * `BrushError` is not modelled.
   */
  type NextFn<!D, Item> = D -> (D, Option<Item>)

  /**
   * One `next` step: the active decoder's `next_brush` is applied to its own
   * state; the active format never changes.
   */
  function NextBrush<A1, A6, S, Item>(d: Decoder<A1, A6, S>, next1: NextFn<A1, Item>,
                                      next6: NextFn<A6, Item>, nextAsl: NextFn<S, Item>)
    : (r: (Decoder<A1, A6, S>, Option<Item>))
    ensures SameVariant(r.0, d)
    ensures d.Abr1? ==> r.0.abr1 == next1(d.abr1).0 && r.1 == next1(d.abr1).1
    ensures d.Abr6? ==> r.0.abr6 == next6(d.abr6).0 && r.1 == next6(d.abr6).1
    ensures d.Asl? ==> r.0.asl == nextAsl(d.asl).0 && r.1 == nextAsl(d.asl).1
  {
    match d
    case Abr6(dec) => var (dec', item) := next6(dec); (Abr6(dec'), item)
    case Abr1(dec) => var (dec', item) := next1(dec); (Abr1(dec'), item)
    case Asl(dec) => var (dec', item) := nextAsl(dec); (Asl(dec'), item)
  }

  /** The decoder after `n` calls of `next`. */
  function Advance<A1, A6, S, Item>(d: Decoder<A1, A6, S>, n: nat, next1: NextFn<A1, Item>,
                                    next6: NextFn<A6, Item>, nextAsl: NextFn<S, Item>)
    : Decoder<A1, A6, S>
    decreases n
  {
    if n == 0 then d else Advance(NextBrush(d, next1, next6, nextAsl).0, n - 1, next1, next6, nextAsl)
  }

  /** However many times `next` is called, the iterator never re-dispatches to another format. */
  lemma {:induction false} AdvanceKeepsVariant<A1, A6, S, Item>(
    d: Decoder<A1, A6, S>, n: nat,
    next1: NextFn<A1, Item>, next6: NextFn<A6, Item>, nextAsl: NextFn<S, Item>)
    ensures SameVariant(Advance(d, n, next1, next6, nextAsl), d)
    decreases n
  {
    if n > 0 {
      AdvanceKeepsVariant(NextBrush(d, next1, next6, nextAsl).0, n - 1, next1, next6, nextAsl);
    }
  }

  /** An iterator over the image brushes of one stream, owning its one active decoder. */
  class Brushes<A1, A6, S> {
    var dec: Decoder<A1, A6, S>

    constructor (dec: Decoder<A1, A6, S>)
      ensures this.dec == dec
    {
      this.dec := dec;
    }

    /** `next`: forwards to the active decoder's `next_brush` and keeps its new state. */
    method Next<Item>(next1: NextFn<A1, Item>, next6: NextFn<A6, Item>, nextAsl: NextFn<S, Item>)
      returns (item: Option<Item>)
      modifies this
      ensures (dec, item) == NextBrush(old(dec), next1, next6, nextAsl)
      ensures SameVariant(dec, old(dec))
    {
      match dec
      case Abr6(d) =>
        var (d', it) := next6(d);
        dec, item := Abr6(d'), it;
      case Abr1(d) =>
        var (d', it) := next1(d);
        dec, item := Abr1(d'), it;
      case Asl(d) =>
        var (d', it) := nextAsl(d);
        dec, item := Asl(d'), it;
    }
  }
}
