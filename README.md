# abrupng brush-library front end, in Dafny

This project models the front end of the `abr` module of abrupng, a decoder
for Adobe brush libraries (ABR) and style libraries (ASL). It covers three
pieces of `src/abr/mod.rs`:

- `ImageBrush`, a `width` × `height` raster of 8-bit samples stored row-major
  in `data`, and its in-place `invert` mutator. It is the class
  `Abr.ImageBrush`, with `data` an array, and `Invert` is a loop proved
  against the specification function `Inverted`.
- `open` and `open_asl`. They read the big-endian header, choose the format
  decoder (`Abr1` for versions 1 and 2, `Abr6` for versions 6 and 10 with
  subversion 1 or 2, `Asl` for style-library version 2) and reject every other
  header with `UnsupportedVersion`, which carries the header's values. The
  pure functions `OpenSpec` and `OpenAslSpec` state what they compute.
  `Open` and `OpenAsl` are methods that consume a `ByteStream.Reader`.
- `Brushes::next`. It forwards to the active decoder's `next_brush` and never
  changes which decoder is active.

The format decoders `abr1`, `abr6` and `asl` are not part of this model. Their
states are the type parameters `A1`, `A6` and `S` of `Decoder` and `Brushes`.
Their `open` and `next_brush` functions are passed in as function values.
A failure from a decoder's `open` is passed through unchanged.

Files: `wrappers.dfy` (`Option`, `Result`), `byte_stream.dfy` (byte and integer
types, the big-endian 16-bit read, the stream `Reader`), `abr.dfy` (everything
else).

The decoder union `Decoder` (src/abr/mod.rs:12-16) is a datatype with the
three variants `Abr1`, `Abr6` and `Asl`, exactly one of which is active.

- `open_asl` builds its own `Asl` variant through `asl::open`
  (src/abr/mod.rs:69).
- `open` and `open_asl` themselves read only the header
  (src/abr/mod.rs:45-46, 65); everything after it is read by the chosen
  format decoder.

The item that `next` yields is `Result<ImageBrush, BrushError>` in the source
(src/abr/mod.rs:77). The forwarding never looks inside it, so the model keeps
it as the type parameter `Item`; `BrushError` is not modelled.

## Model

| member | source | states |
|---|---|---|
| `ByteStream.ReadBeU16` | src/abr/mod.rs:45-46 | a big-endian `u16` read succeeds exactly when two bytes are available, and the value's big-endian encoding is those two bytes; a shorter stream is an `UnexpectedEof` error, never a padded value |
| `ByteStream.ReadEncodedU16` | src/abr/mod.rs:45-46 | round trip: reading the encoding of any `u16`, whatever follows it, gives that value back |
| `ByteStream.Reader.ReadU16` | src/abr/mod.rs:45 | reading from the stream returns `ReadBeU16` of the unread bytes, and advances the position by 2 on success and by 0 on failure |
| `Abr.Inverted` | src/abr/mod.rs:33-37 | inverting a sample sequence keeps its length |
| `Abr.InvertedAt` | src/abr/mod.rs:34-36 | after inversion, sample `k` equals 255 minus the original sample `k` |
| `Abr.InvertedInvolutive` | src/abr/mod.rs:35 | inverting twice restores the original samples exactly |
| `Abr.ImageBrush.constructor` | src/abr/mod.rs:20-29 | a brush holds the given width, height, depth and samples in a fresh buffer; it satisfies the width×height length invariant exactly when the sample count is width × height |
| `Abr.ImageBrush.Invert` | src/abr/mod.rs:33-37 | in place, every sample becomes `255 - old sample`; width, height, depth and the buffer are unchanged, so the length invariant holds afterwards exactly when it held before |
| `Abr.Select` | src/abr/mod.rs:48-60 | `Abr1` exactly when the version is 1 or 2, whatever the subversion; `Abr6` exactly when (version, subversion) is (6,1), (6,2), (10,1) or (10,2); rejection exactly otherwise, with `UnsupportedVersion` carrying both values; the three outcomes are disjoint |
| `Abr.OpenSpec` | src/abr/mod.rs:44-62 | a stream shorter than the 4-byte header is an I/O error; `open` never yields an `Asl` decoder |
| `Abr.OpenLegacyHeader` | src/abr/mod.rs:48-49 | a header with version 1 or 2 opens the `abr1` decoder on the bytes after the header, whatever the subversion; that decoder's failure is returned unchanged |
| `Abr.OpenModernHeader` | src/abr/mod.rs:50-57 | a header with version 6 or 10 and subversion 1 or 2 opens the `abr6` decoder on the bytes after the header; that decoder's failure is returned unchanged |
| `Abr.OpenUnsupportedHeader` | src/abr/mod.rs:58-59 | any other header gives `UnsupportedVersion` with exactly the decoded version and subversion, and no decoder is opened |
| `Abr.Open` | src/abr/mod.rs:44-62 | `open` on a reader returns what `OpenSpec` gives for its unread bytes, in a freshly built iterator on success; it consumes 4 header bytes, or 2 or 0 when the stream ends inside the header |
| `Abr.OpenAslSpec` | src/abr/mod.rs:64-74 | a stream shorter than 2 bytes is an I/O error; `open_asl` only ever yields an `Asl` decoder |
| `Abr.OpenAslVersionTwo` | src/abr/mod.rs:68-69 | version 2 opens the `asl` decoder on the bytes after the version; its failure is returned unchanged |
| `Abr.OpenAslOtherVersion` | src/abr/mod.rs:70-71 | any version other than 2 gives `UnsupportedVersion` with that version and subversion 0 |
| `Abr.OpenAsl` | src/abr/mod.rs:64-74 | `open_asl` on a reader returns what `OpenAslSpec` gives for its unread bytes; it consumes 2 bytes, or 0 when the stream is shorter |
| `Abr.NextBrush` | src/abr/mod.rs:79-85 | one `next` step keeps the active decoder variant and yields exactly what that decoder's `next_brush` yields, with that decoder's new state |
| `Abr.AdvanceKeepsVariant` | src/abr/mod.rs:76-85 | after any number of `next` calls the active decoder variant is the one chosen at open |
| `Abr.Brushes.constructor` | src/abr/mod.rs:41 | an iterator owns the decoder it is built with |
| `Abr.Brushes.Next` | src/abr/mod.rs:79-85 | `next` updates the iterator's decoder and returns the item as `NextBrush` states, and keeps the active variant |

## Left out

- The modules `abr1`, `abr6`, `asl`, `err` and `util` (src/abr/mod.rs:2-6) are not part of this model. Their decoders' `open` and `next_brush` are parameters. The run-length row decompressor, the descriptor-tree reader and the per-format record layouts live there and are not modelled.
- `OpenError` has the two variants `mod.rs` builds, `Io` and `UnsupportedVersion`, and one `Other(code)` that stands for every failure the format decoders' own `open` may report; their actual variants in `err` are not modelled.
- The only I/O failure modelled is the end of the stream (`UnexpectedEof`). Other faults of the underlying reader are not modelled, and neither is `Seek`.
- ByteStream.Reader.ReadU16: after a short read the standard library leaves the stream position unspecified; the model leaves it where it was.
- Abr.Open: the Rust reader is moved into the chosen decoder, which goes on reading from it. The model hands that decoder the unread bytes after the 4-byte header as a value, and the caller's `Reader` stays positioned just after the header.
- Abr.OpenAsl: likewise, the `asl` decoder receives the unread bytes after the 2-byte version as a value, and the caller's `Reader` stays positioned just after the version.
- `data` is a growable `Vec<u8>` in the source; the model uses a fixed-length array, because `invert` never changes its length.
- The width × height length invariant is documented but not enforced by the source's public struct; the model states it as `ImageBrush.Valid` and proves that `Invert` keeps it, but does not require it.
- Rust generics over the reader type, the `Iterator` trait machinery and `#[derive(Debug)]` carry no behaviour and are not modelled.
