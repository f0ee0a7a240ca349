# DALI core, modelled in Dafny

This project models a part of NVIDIA DALI, the GPU-accelerated data loading library, in Dafny and proves properties of the model. It covers two areas.

**Batch containers and external input.**
- `TensorVector`: a batch held either as one contiguous block that its samples alias, or as independent samples. The model covers its view counting, resizing, retyping, copying, sharing, reserving and conversion to a `TensorList`.
- `InputOperator`: the ingestion policy behind DALI's external sources. The model covers the copy / no-copy override, the routing of each user batch to the share path or the copy path of the operator's backend, the queues of batches, states and CUDA events, the warning about mixing input kinds, and the recycling of spent buffers.

**imgcodec.**
- The JPEG and TIFF dimension parsers.
- The mapping from Exif orientation values.
- The strided conversion loop and the choice of image-format conversion.
- The libtiff-backed decoder: its checks, region of interest, scanline requests and row copies.
- The OpenCV fallback decoder: its type mapping, imread flags and the shape it hands to `Convert`.
- The `.npy` header reader of the decoder tests: magic and length checks, and the parser of the header's Python dict literal.

## Layout

| file | module | what it holds |
|---|---|---|
| `common.dfy` | `Wrappers`, `DaliTypes`, `ByteIO` | result types, DALI element types and shapes, big- and little-endian reads and writes |
| `batch.dfy` | `Batch` | the `Tensor` and `TensorList` values that a `TensorVector` manipulates, and the effect of their operations |
| `tensor_vector.dfy` | `TensorVectors` | class `TensorVector`, with the functions specifying it |
| `input_operator.dfy` | `InputOperators` | `CachingList`, and class `InputOperator` |
| `numpy_header.dfy` | `NumpyHeader` | the header-text parser |
| `numpy_file.dfy` | `NumpyFile` | the file-level header checks |
| `jpeg_parser.dfy` | `JpegParser` | the JPEG marker walk |
| `tiff_parser.dfy` | `TiffParser` | the TIFF IFD scan |
| `image_orientation.dfy` | `ImageOrientation` | the Exif orientation mapping |
| `convert.dfy` | `ImageConvert` | the strided `Convert` loop and the format dispatch |
| `tiff_libtiff.dfy` | `LibTiffDecode` | the libtiff decoder |
| `opencv_fallback.dfy` | `OpenCvFallback` | the OpenCV decoder |

### How the model works

- **Methods and specification functions.** Each loop and each state change is a `method`. Its `ensures` ties the result, or the new state, to a specification function of the inputs and the old state (for example `Refreshed`, `ResizedTensors`, `Visits`, `CopyRows`, `HeaderMetadata`). Lemmas then prove what the source promises about those functions.
- **View counting.** In `TensorVector`, the deleter attached to a view (`ViewRefDeleter`) is the method `ReleaseView`. The class invariant `Valid()` keeps `viewsCount` equal to the number of samples that alias the block.
- **InputOperator history.** The class carries a ghost `history` of the paths each call took. `Valid()` ties the queues to it.

## Model

| member | source | states |
|---|---|---|
| ImageOrientation.FromExifOrientation | dali/imgcodec/image_orientation.cc:21-42 | accepts exactly the eight Exif values; states the rotation and both flips of each, and fails on any other value |
| ImageOrientation.FromExifRoundTrip | dali/imgcodec/image_orientation.cc:21-42 | every accepted value maps to an orientation that the inverse mapping turns back into that value |
| ImageOrientation.ToExifRoundTrip | dali/imgcodec/image_orientation.cc:21-42 | every orientation the switch can produce comes from its inverse value |
| ImageOrientation.FromExifInjective | dali/imgcodec/image_orientation.cc:21-42 | no two Exif values map to the same orientation |
| JpegParser.SofMarkerMatchesTable | dali/imgcodec/parsers/jpeg.cc:27-34 | isSofMarker accepts exactly FF followed by one of the thirteen SOFn codes of Table B.1 of ITU-T T.81 |
| JpegParser.NamedMarkersValid | dali/imgcodec/parsers/jpeg.cc:23-34 | SOI, EOI and SOS are valid markers and open no frame; a zero second byte is never a valid marker |
| JpegParser.StepAt | dali/imgcodec/parsers/jpeg.cc:45-60 | one turn of the marker loop either stops with a three-element shape or moves at least two bytes forward, staying inside the stream |
| JpegParser.WalkFrom | dali/imgcodec/parsers/jpeg.cc:44-63 | the walk from a marker yields a shape of three extents or fails |
| JpegParser.GetInfo | dali/imgcodec/parsers/jpeg.cc:36-65 | the loop method returns what the walk over the stream, after the SOI check, yields |
| JpegParser.GetInfoImpliesCanParse | dali/imgcodec/parsers/jpeg.cc:40-41 | GetInfo only succeeds on a stream that CanParse accepts |
| JpegParser.CanParseRejects | dali/imgcodec/parsers/jpeg.cc:67-71 | an empty stream, and a stream starting with a SOF marker, are rejected by both CanParse and GetInfo |
| JpegParser.WalkSkips | dali/imgcodec/parsers/jpeg.cc:50-60 | the walk passes over non-frame segments by their length fields alone |
| JpegParser.WalkAtFrame | dali/imgcodec/parsers/jpeg.cc:52-58 | at a frame header the walk yields (height, width, components) read after the precision byte |
| JpegParser.WalkAtSos | dali/imgcodec/parsers/jpeg.cc:48-63 | reaching SOS before a frame header fails |
| JpegParser.EncodedStreamInfo | dali/imgcodec/parsers/jpeg.cc:36-65 | round trip: SOI, any skippable segments, then an encoded frame header give back the header's height, width and components |
| JpegParser.NoFrameFails | dali/imgcodec/parsers/jpeg.cc:48-63 | SOI, skippable segments, then SOS fail |
| TiffParser.Read16 | dali/imgcodec/parsers/tiff.cc:30-37 | a 16-bit read in the header's byte order is below 2^16 |
| TiffParser.Encode16 | dali/imgcodec/parsers/tiff.cc:30-37 | inverse of Read16 in either byte order |
| TiffParser.Encode32 | dali/imgcodec/parsers/tiff.cc:30-37 | inverse of Read32 in either byte order |
| TiffParser.Record | dali/imgcodec/parsers/tiff.cc:71-80 | an entry with another tag leaves the dimensions read so far unchanged |
| TiffParser.Finish | dali/imgcodec/parsers/tiff.cc:84-89 | succeeds exactly when width, height and channel count were all read, with shape (height, width, nchannels) |
| TiffParser.GetInfo | dali/imgcodec/parsers/tiff.cc:39-90 | the loop method returns the functional specification of the IFD scan; fewer than eight bytes fail; the IFD offset is read little-endian exactly for the II header and big-endian for every other header, and an offset with no room for the entry count fails with end of stream |
| TiffParser.ReadStoredEntry | dali/imgcodec/parsers/tiff.cc:56-69 | a stored IFD entry reads back as its meaning: ignored, a SHORT or LONG value of count 1, or a failure |
| TiffParser.ScanStored | dali/imgcodec/parsers/tiff.cc:51-82 | the byte-level scan equals the scan over the decoded entries |
| TiffParser.LayoutInfo | dali/imgcodec/parsers/tiff.cc:39-105 | on a file laid out with its IFD at offset 8, GetInfo is the scan of the entries, and CanParse accepts it |
| TiffParser.EncodedFileInfo | dali/imgcodec/parsers/tiff.cc:39-105 | round trip over an encoded file in either byte order |
| TiffParser.ThreeDimensionEntries | dali/imgcodec/parsers/tiff.cc:51-89 | width, height and samples-per-pixel entries give the shape (height, width, nchannels) |
| TiffParser.BadDimensionEntryFails | dali/imgcodec/parsers/tiff.cc:57-69 | a dimension entry whose count is not 1, or whose type is neither SHORT nor LONG, fails |
| TiffParser.ScanStopsWhenAllRead | dali/imgcodec/parsers/tiff.cc:51-53 | once all three dimensions are known, later entries are not read |
| ImageConvert.LoadChannels | dali/imgcodec/util/convert.h:92-95 | channel c of the loaded vector is the input element c channel strides away |
| ImageConvert.StoreChannels | dali/imgcodec/util/convert.h:101-104 | the output becomes the specification of a strided store |
| ImageConvert.StoreEffect | dali/imgcodec/util/convert.h:101-104 | a store writes each channel at its strided position and leaves every other position untouched |
| ImageConvert.ApplyFunctor | dali/imgcodec/util/convert.h:106-110 | load, apply the colour function, then store; the output equals the functor's specification |
| ImageConvert.ConvertStrided | dali/imgcodec/util/convert.h:37-70 | the output is the functor applied at every visit of the recursion, in order |
| ImageConvert.ConvertOuter | dali/imgcodec/util/convert.h:50-69 | the loop over the outermost dimension runs the inner visits from the bases moved by k strides |
| ImageConvert.RunAllAppend | dali/imgcodec/util/convert.h:62-68 | running two lists of visits one after the other is running their concatenation |
| ImageConvert.VisitsAreIndices | dali/imgcodec/util/convert.h:37-70 | the k-th visit is the k-th point of the size box in row-major order, at the bases moved by that point's offset under each stride set |
| ImageConvert.MultiIndicesMember | dali/imgcodec/util/convert.h:37-70 | the points visited are exactly the points of the size box |
| ImageConvert.MultiIndicesCount | dali/imgcodec/util/convert.h:37-70 | there are as many visits as the volume of the box |
| ImageConvert.MultiIndicesSorted | dali/imgcodec/util/convert.h:37-70 | the visits come in strictly increasing lexicographic order |
| ImageConvert.MultiIndicesDistinct | dali/imgcodec/util/convert.h:37-70 | no point is visited twice |
| ImageConvert.SelectConversion | dali/imgcodec/util/convert.h:133-146 | only channels-last layouts, and only the identity or RGB to and from grey, are accepted; every other pair is Unsupported |
| ImageConvert.LoopDims | dali/imgcodec/util/convert.h:148 | the loop walks every dimension for a type change, and all but the channel dimension for a colour change |
| ImageConvert.ConvertImage | dali/imgcodec/util/convert.h:129-150 | fails exactly when the selection fails, leaving the output untouched; otherwise the output is the chosen functor over the loop dimensions |
| LibTiffDecode.CheckSupported | dali/imgcodec/decoders/tiff_libtiff.cc:120-131 | passes exactly for RGB output of an 8-bit, 3-channel, untiled image |
| LibTiffDecode.DecodeRoi | dali/imgcodec/decoders/tiff_libtiff.cc:140-143 | without use_roi the region is the whole output, from the origin |
| LibTiffDecode.ReadScanline | dali/imgcodec/decoders/tiff_libtiff.cc:163 | a row inside the image yields its scanline; any other row fails |
| LibTiffDecode.RowStartMono | dali/imgcodec/decoders/tiff_libtiff.cc:166 | output rows are placed in order and do not overlap |
| LibTiffDecode.CopyRow | dali/imgcodec/decoders/tiff_libtiff.cc:166-167 | _TIFFmemcpy writes the source bytes at the offset and nothing else |
| LibTiffDecode.SkipRows | dali/imgcodec/decoders/tiff_libtiff.cc:154-158 | the rows above the region are requested in order; fails at the first row outside the image |
| LibTiffDecode.CopyRegionRow | dali/imgcodec/decoders/tiff_libtiff.cc:163-167 | region row r goes to output offset r times the row stride |
| LibTiffDecode.CopyRegion | dali/imgcodec/decoders/tiff_libtiff.cc:162-168 | passes exactly when the region's rows lie in the image; the requests are the region's rows; the output is the copy of the rows done |
| LibTiffDecode.CopyRowsContent | dali/imgcodec/decoders/tiff_libtiff.cc:162-168 | byte c of output row r is byte begin[1]*3 + c of scanline begin[0] + r |
| LibTiffDecode.CopyRowsKeep | dali/imgcodec/decoders/tiff_libtiff.cc:162-168 | bytes after the copied rows keep their old values |
| LibTiffDecode.ReadsPrefix | dali/imgcodec/decoders/tiff_libtiff.cc:153-168 | a decode stopped in the copy loop has requested a prefix of the expected rows |
| LibTiffDecode.ReadRegion | dali/imgcodec/decoders/tiff_libtiff.cc:153-168 | passes exactly when every request is inside the image; the requests are a prefix of the expected ones; the output is the copied rows |
| LibTiffDecode.Decode | dali/imgcodec/decoders/tiff_libtiff.cc:103-171 | an unsupported image fails with no read and no write; otherwise the region is read and copied as ReadRegion states |
| OpenCvFallback.CvToDaliType | dali/imgcodec/decoders/opencv_fallback.cc:23-42 | accepts exactly CV_8U to CV_64F; any other depth is InvalidType |
| OpenCvFallback.CvTypeRoundTrip | dali/imgcodec/decoders/opencv_fallback.cc:23-42 | every accepted depth maps to a type that maps back to it |
| OpenCvFallback.DaliTypeRoundTrip | dali/imgcodec/decoders/opencv_fallback.cc:23-42 | every type OpenCV can hold is reached from its own depth |
| OpenCvFallback.ReadFlagsMeaning | dali/imgcodec/decoders/opencv_fallback.cc:47-62 | any data is read unchanged; grey as one channel and colour as three, both ignoring orientation; the depth is kept exactly when the type is not uint8 |
| OpenCvFallback.ChooseFlags | dali/imgcodec/decoders/opencv_fallback.cc:47-62 | the flag word built by the switch is the specified one |
| OpenCvFallback.BgrToRgb | dali/imgcodec/decoders/opencv_fallback.cc:75-76 | the colour conversion is defined exactly for three and four channels and gives three |
| OpenCvFallback.AnyDataGreyFailsAsWritten | dali/imgcodec/decoders/opencv_fallback.cc:75-76 | as written, a request for any data passes the IMREAD_COLOR test, and a one-channel image then fails the conversion |
| OpenCvFallback.SwapsChannelsAgrees | dali/imgcodec/decoders/opencv_fallback.cc:75-76 | the corrected test agrees with the written one except for any data, where it never makes the conversion fail |
| OpenCvFallback.SampleShape | dali/imgcodec/decoders/opencv_fallback.cc:86-90 | the shape is the spatial sizes followed by the channel count |
| OpenCvFallback.Decode | dali/imgcodec/decoders/opencv_fallback.cc:44-107 | states the flags; whether Convert is called and with what shape, type and layout; success; and when an exception is recorded. With `asWritten` the colour test is the source's `flags & IMREAD_COLOR`, so a request for any data always converts and a grey or failed read records an exception; without it, the intended test of the fifth finding |
| NumpyHeader.TypeFromNumpyStr | dali/imgcodec/decoders/test/numpy_helper.cc:33-46 | accepts exactly the eleven codes; the kind letter gives the signedness or float class, and the digit gives the element size |
| NumpyHeader.NumpyStrRoundTrip | dali/imgcodec/decoders/test/numpy_helper.cc:33-46 | round trip with the code NumPy writes for each type |
| NumpyHeader.SkipSpaces | dali/imgcodec/decoders/test/numpy_helper.cc:48-51 | the loop stops at the first non-space from the cursor |
| NumpyHeader.MatchesIffPrefix | dali/imgcodec/decoders/test/numpy_helper.cc:53-68 | the strncmp test holds exactly when the text continues with the literal |
| NumpyHeader.Skip | dali/imgcodec/decoders/test/numpy_helper.cc:53-58 | succeeds exactly on a match, and then passes the literal |
| NumpyHeader.TrySkip | dali/imgcodec/decoders/test/numpy_helper.cc:60-68 | reports a match and passes the literal, or leaves the cursor |
| NumpyHeader.SkipAgreesWithTrySkip | dali/imgcodec/decoders/test/numpy_helper.cc:53-68 | Skip fails exactly where TrySkip does not move |
| NumpyHeader.SkipFieldName | dali/imgcodec/decoders/test/numpy_helper.cc:70-79 | the method computes the position after spaces, the quoted name, spaces, a colon and spaces |
| NumpyHeader.Clamp64 | dali/imgcodec/decoders/test/numpy_helper.cc:84 | strtol's result lies in the 64-bit range and equals the value when that fits |
| NumpyHeader.IntegerAt | dali/imgcodec/decoders/test/numpy_helper.cc:81-88 | on success the cursor ends after the last digit of the run, with a 64-bit value |
| NumpyHeader.ParseInteger | dali/imgcodec/decoders/test/numpy_helper.cc:81-88 | the digit loop computes IntegerAt |
| NumpyHeader.IntegerRoundTrip | dali/imgcodec/decoders/test/numpy_helper.cc:81-88 | a printed int64, after spaces and an optional minus sign, is read back |
| NumpyHeader.StringFrom | dali/imgcodec/decoders/test/numpy_helper.cc:93-121 | on success the value ends after a closing quote inside the text |
| NumpyHeader.ParseStringValue | dali/imgcodec/decoders/test/numpy_helper.cc:90-124 | the loop method computes the corrected StringValue |
| NumpyHeader.StringFromAsWritten | dali/imgcodec/decoders/test/numpy_helper.cc:93-121 | the loop as written; an overrun reads one past the terminating NUL |
| NumpyHeader.TrailingBackslashOverrun | dali/imgcodec/decoders/test/numpy_helper.cc:94-95 | on the text `'\` the loop as written reads index 3 of a two-character string; the corrected loop fails |
| NumpyHeader.StringFromAgrees | dali/imgcodec/decoders/test/numpy_helper.cc:93-121 | the corrected loop returns what the written one returns wherever that stays in the text, and fails where it overruns |
| NumpyHeader.StringRoundTrip | dali/imgcodec/decoders/test/numpy_helper.cc:90-124 | a quoted, escaped string without NUL is read back, whatever follows it |
| NumpyHeader.ParseShape | dali/imgcodec/decoders/test/numpy_helper.cc:150-159 | the tuple loop method computes ShapeFrom |
| NumpyHeader.ShapeRoundTrip | dali/imgcodec/decoders/test/numpy_helper.cc:150-159 | a tuple printed as Python prints it (`(3,)`, `(3, 4)`) is read back |
| NumpyHeader.DescrField | dali/imgcodec/decoders/test/numpy_helper.cc:131-136 | a successful descr field names a type with a NumPy code |
| NumpyHeader.ParseDescr | dali/imgcodec/decoders/test/numpy_helper.cc:131-136 | the method computes DescrField |
| NumpyHeader.ParseFortran | dali/imgcodec/decoders/test/numpy_helper.cc:140-147 | the method computes FortranField: True, False, or a failure |
| NumpyHeader.ParseHeaderMetadata | dali/imgcodec/decoders/test/numpy_helper.cc:126-164 | the method computes HeaderMetadata |
| NumpyHeader.DictRoundTrip | dali/imgcodec/decoders/test/numpy_helper.cc:126-164 | the dict numpy.save writes is read back as its type, order and shape, with the shape reversed in Fortran order |
| NumpyFile.ReadAt | dali/imgcodec/decoders/test/numpy_helper.cc:169-170 | a read returns at most n bytes, and exactly the bytes at the position when they exist |
| NumpyFile.CString | dali/imgcodec/decoders/test/numpy_helper.cc:171-174 | the string holds the bytes before the first zero byte |
| NumpyFile.HeaderAt | dali/imgcodec/decoders/test/numpy_helper.cc:166-201 | ParseHeader with the magic check corrected to the whole word NUMPY (fourth finding): on success the data offset is a multiple of 16 inside the file, and the type has a NumPy code; fewer than ten bytes is EndOfStream |
| NumpyFile.HeaderAtAsWritten | dali/imgcodec/decoders/test/numpy_helper.cc:166-201 | ParseHeader as written, with `find_first_of`: the same guarantees on success and at the end of the file |
| NumpyFile.HeaderAtAgrees | dali/imgcodec/decoders/test/numpy_helper.cc:175-176 | the written and the corrected reader differ exactly on a preamble that holds a letter of NUMPY but not the word and that the written reader does not reject later with ParseError; wherever the corrected one succeeds, they agree |
| NumpyFile.HeaderBody | dali/imgcodec/decoders/test/numpy_helper.cc:189-200 | the data offset is 10 plus the header length |
| NumpyFile.MagicImpliesAsWritten | dali/imgcodec/decoders/test/numpy_helper.cc:175-176 | the corrected magic check accepts nothing the written one rejects |
| NumpyFile.ZipPassesMagicCheck | dali/imgcodec/decoders/test/numpy_helper.cc:175-176 | the first ten bytes of a ZIP archive pass the written check but contain no NUMPY |
| NumpyFile.FileLayout | dali/imgcodec/decoders/test/numpy_helper.cc:168-194 | the preamble and header text read back, and the preamble passes the corrected magic check |
| NumpyFile.FileRead | dali/imgcodec/decoders/test/numpy_helper.cc:166-201 | a file whose header text parses is read back, with its data at 10 plus the header length |
| NumpyFile.FileRoundTrip | dali/imgcodec/decoders/test/numpy_helper.cc:166-201 | round trip over a version 1.0 file as numpy.save writes it |
| TensorVectors.CountViews | dali/pipeline/data/tensor_vector.cc:437-443 | the number of samples carrying this batch's ViewRefDeleter is at most the number of samples |
| TensorVectors.CountViewsUpdate | dali/pipeline/data/tensor_vector.cc:437-443 | replacing a sample changes the count by the view dropped and the view taken |
| TensorVectors.CountViewsAll | dali/pipeline/data/tensor_vector.cc:270-273 | the count reaches the number of samples exactly when every sample is a view |
| TensorVectors.ResizedTensors | dali/pipeline/data/tensor_vector.cc:406-425 | growing appends fresh samples with the pinned flag; shrinking resets the dropped samples that share data; nothing else changes |
| TensorVectors.ResizedViews | dali/pipeline/data/tensor_vector.cc:406-425 | resize_tensors creates no view |
| TensorVectors.Viewed | dali/pipeline/data/tensor_vector.cc:428-448 | the refreshed sample is a view exactly when the slice is not null or the shape is not `{0}`, the shape assumed after `Tensor::Reset`; the view has the slice, shape, type, volume-times-size bytes and metadata |
| TensorVectors.Refreshed | dali/pipeline/data/tensor_vector.cc:377-390 | the first n samples refreshed from the block, the rest untouched |
| TensorVectors.MetasCopied | dali/pipeline/data/tensor_vector.cc:399-401 | the block with each in-use sample's metadata, everything else kept |
| TensorVectors.SumBytesWithinCapacity | dali/pipeline/data/tensor_vector.cc:66-91 | over any vector of samples: when every sample's bytes fit its capacity, the sum of the bytes (nbytes of a non-contiguous batch) is at most the sum of the capacities (its capacity) |
| TensorVectors.TensorVector.IsContiguousMeans | dali/pipeline/data/tensor_vector.cc:270-273 | contiguous exactly when the state says so and every sample in use carries the batch's ViewRefDeleter |
| TensorVectors.TensorVector.ReleaseView | dali/pipeline/data/tensor_vector.cc:441 | the deleter decrements the count and changes nothing else |
| TensorVectors.TensorVector.ResizeTensors | dali/pipeline/data/tensor_vector.cc:406-425 | the samples become ResizedTensors of the old ones, the size becomes n, and the count stays exact |
| TensorVectors.TensorVector.GrowTensors | dali/pipeline/data/tensor_vector.cc:408-416 | appends fresh samples with the given pinned flag |
| TensorVectors.TensorVector.ResetTrailing | dali/pipeline/data/tensor_vector.cc:417-423 | resets the dropped samples that share data |
| TensorVectors.TensorVector.UpdateView | dali/pipeline/data/tensor_vector.cc:428-448 | sample i becomes Viewed, and the count follows the view it dropped and the view it took (the corrected count of the second finding) |
| TensorVectors.TensorVector.UpdateViews | dali/pipeline/data/tensor_vector.cc:377-390 | nothing changes for an invalid block type; otherwise the batch takes the block's type, every sample in use is refreshed, Valid holds with the corrected count of the second finding, and a contiguous batch is fully contiguous exactly when every slice can be viewed |
| TensorVectors.TensorVector.RefreshAll | dali/pipeline/data/tensor_vector.cc:386-389 | the loop refreshes every sample in use and keeps the count exact (the corrected count of the second finding) |
| TensorVectors.TensorVector.UpdateViewsAsWritten | dali/pipeline/data/tensor_vector.cc:377-390 | as written, refreshing a fully contiguous batch that has samples leaves it not contiguous |
| TensorVectors.TensorVector.RefreshAllAsWritten | dali/pipeline/data/tensor_vector.cc:386-389 | as written, the count loses one for each view released and gains none for the new views |
| TensorVectors.TensorVector.UpdateViewAsWritten | dali/pipeline/data/tensor_vector.cc:428-448 | as written, the reset releases the sample's view and the new view goes uncounted |
| TensorVectors.TensorVector.constructor | dali/pipeline/data/tensor_vector.cc:19-30 | a non-contiguous batch of batchSize fresh samples, no views, no type |
| TensorVectors.TensorVector.FromList | dali/pipeline/data/tensor_vector.cc:33-42 | a contiguous batch over the block, taking its pinned flag, whose samples view the block when its type is valid |
| TensorVectors.TensorVector.Resize | dali/pipeline/data/tensor_vector.cc:110-125 | an invalid type is refused with no change; otherwise one sample per shape, with the block resized and viewed again when contiguous, and each sample resized when not |
| TensorVectors.TensorVector.ResizeContiguous | dali/pipeline/data/tensor_vector.cc:115-119 | the block is resized to the shapes and type, and the samples are refreshed from it |
| TensorVectors.TensorVector.ResizeNoncontiguous | dali/pipeline/data/tensor_vector.cc:115-124 | each sample in use is resized to its own shape; the recorded type stays |
| TensorVectors.TensorVector.ResizeSamples | dali/pipeline/data/tensor_vector.cc:122-124 | sample i is resized to shape i, for every sample in use |
| TensorVectors.TensorVector.SetSize | dali/pipeline/data/tensor_vector.cc:128-132 | a negative size fails with no change; otherwise the samples are resize_tensors'd to the size |
| TensorVectors.TensorVector.SetType | dali/pipeline/data/tensor_vector.cc:135-148 | NoType fails with no change; the same type changes nothing; otherwise the batch, block and every sample take the type, and type() reports it |
| TensorVectors.TensorVector.Retype | dali/pipeline/data/tensor_vector.cc:140-144 | the batch, its block and every sample take the new type |
| TensorVectors.TensorVector.TypeAllSamples | dali/pipeline/data/tensor_vector.cc:142-144 | every sample, in use or not, takes the type |
| TensorVectors.TensorVector.Reset | dali/pipeline/data/tensor_vector.cc:286-295 | no samples, size 0, no type, no views; a contiguous batch also resets its block |
| TensorVectors.TensorVector.Copy | dali/pipeline/data/tensor_vector.cc:298-307 | contiguous, the block holds a copy of the source, and there is one sample per source sample, each viewing its slice |
| TensorVectors.TensorVector.CopyBatch | dali/pipeline/data/tensor_vector.cc:310-319 | Copy of the source batch's samples in use, with its type: the batch is contiguous with the source's size, and its samples are the resized samples refreshed as views of the copied block when the type is valid |
| TensorVectors.TensorVector.ShareData | dali/pipeline/data/tensor_vector.cc:322-331 | the batch takes the list itself, with its type and pinned flag, and views it |
| TensorVectors.TensorVector.ShareDataBatch | dali/pipeline/data/tensor_vector.cc:333-350 | corrected (first finding): a contiguous source's block is shared, and every sample is the old one resized to the block's size and, for a valid type, refreshed from it; otherwise the block is reset, sample i shares source sample i for every i below the source's size, even when that is zero, the samples past it are the old ones as resized, and Valid holds |
| TensorVectors.TensorVector.ShareEach | dali/pipeline/data/tensor_vector.cc:345-348 | sample i shares the data of source sample i, for every i below n |
| TensorVectors.TensorVector.ShareDataBatchAsWritten | dali/pipeline/data/tensor_vector.cc:333-350 | as written: the count is zeroed first; an empty non-contiguous source leaves the old size and samples over a reset block with a count of 0, so any views they held go uncounted; a source with samples leaves sample i sharing source sample i and the count at minus the views released |
| TensorVectors.TensorVector.Reserve | dali/pipeline/data/tensor_vector.cc:247-256 | contiguous, the block reserves at least the bytes, and a non-contiguous batch drops its samples first |
| TensorVectors.TensorVector.ReservePerSample | dali/pipeline/data/tensor_vector.cc:259-267 | non-contiguous with batchSize samples, each with capacity at least the bytes |
| TensorVectors.TensorVector.ReserveEach | dali/pipeline/data/tensor_vector.cc:264-266 | every sample in use reserves the bytes |
| TensorVectors.TensorVector.AsTensorList | dali/pipeline/data/tensor_vector.cc:393-403 | refused when checked and not contiguous; otherwise the block with each sample's metadata copied in |
| TensorVectors.TensorVector.CopyMetas | dali/pipeline/data/tensor_vector.cc:399-401 | the block takes the metadata of every sample in use |
| TensorVectors.TensorVector.Nbytes | dali/pipeline/data/tensor_vector.cc:66-77 | the block's bytes when contiguous, otherwise the sum over every sample held |
| TensorVectors.TensorVector.Capacity | dali/pipeline/data/tensor_vector.cc:80-91 | the block's capacity when contiguous, otherwise the sum over every sample held |
| InputOperators.ActualNoCopy | dali/pipeline/operator/builtin/input_operator.h:387-398 | FORCE_COPY gives false, FORCE_NO_COPY gives true, DEFAULT the operator's no_copy |
| InputOperators.PathForRoutes | dali/pipeline/operator/builtin/input_operator.h:400-404 | a no-copy call takes a share path and a copy call a copy path; host paths exactly on a CPU operator; the zero-copy GPU path exactly for a contiguous batch |
| InputOperators.StateOf | dali/pipeline/operator/builtin/input_operator.h:40-52 | no_copy holds exactly for the share paths, copied_shared_data exactly for a gathered GPU batch |
| InputOperators.EventsOfHost | dali/pipeline/operator/builtin/input_operator.h:318-343 | a CPU operator never queues a copy event |
| InputOperators.TakeEmpty | dali/pipeline/operator/builtin/input_operator.h:413-414 | a spent element when there is one, otherwise a new one; the queue is untouched |
| InputOperators.PushBack | dali/pipeline/operator/builtin/input_operator.h:267 | the element joins the end of the queue |
| InputOperators.Recycle | dali/pipeline/operator/builtin/input_operator.h:233-236 | spent elements join the end of the free list |
| InputOperators.RecycledIsReused | dali/pipeline/operator/builtin/input_operator.h:227-237 | a recycled element is the next one handed out |
| InputOperators.TakeThenRecycle | dali/pipeline/operator/builtin/input_operator.h:227-237 | taking and recycling an element only rotates the free list |
| InputOperators.Serve | dali/pipeline/operator/builtin/input_operator.h:253-377 | one call served on a path: exactly one batch is queued, taken from the front of the free list or made; the share paths queue the user's list itself, the others a copy of its samples and type; only the GPU copies take and queue an event, the gathered share's on the caller's order, the GPU copy's on the caller's order when that is a device order and on the internal order otherwise; the next name grows by one per batch or event made |
| InputOperators.AdoptPinned | dali/pipeline/operator/builtin/input_operator.h:262-265 | a list whose pinned flag differs is reset and takes the flag; otherwise it is kept |
| InputOperators.InputOperator.constructor | dali/pipeline/operator/builtin/input_operator.h:100-111 | no data queued; a GPU operator binds batches to its internal stream, a CPU one to the host |
| InputOperators.InputOperator.GetEmptyOutputBatch | dali/pipeline/operator/builtin/input_operator.h:413-417 | a pooled or new batch, bound to the internal copy order |
| InputOperators.InputOperator.GetEmptyEvent | dali/pipeline/operator/builtin/input_operator.h:350-356 | a pooled or new event |
| InputOperators.InputOperator.HandleDataAvailability | dali/pipeline/operator/builtin/input_operator.h:213-222 | ready exactly when a state is queued; otherwise a blocking operator waits and a non-blocking one fails |
| InputOperators.InputOperator.RecycleBuffer | dali/pipeline/operator/builtin/input_operator.h:227-237 | the spent batches, and the spent events when given, return to their pools |
| InputOperators.InputOperator.ShareUserData | dali/pipeline/operator/builtin/input_operator.h:240-315 | a batch on the other device is refused with no change; otherwise the backend's share path queues it, and the queues, the free lists and the next name change as Serve states for that path; the warning is raised exactly for a gathered GPU batch after a zero-copy one |
| InputOperators.InputOperator.ShareHostBatch | dali/pipeline/operator/builtin/input_operator.h:253-268 | the user's list is queued with state (false, true) |
| InputOperators.InputOperator.ShareDeviceBatch | dali/pipeline/operator/builtin/input_operator.h:293-297 | the user's list and order are queued, and the zero-copy flag is set |
| InputOperators.InputOperator.ShareGatheredBatch | dali/pipeline/operator/builtin/input_operator.h:298-314 | a copy is queued with an event recorded on the caller's order, state (true, true); warns exactly when the flag was set |
| InputOperators.InputOperator.CopyHostBatch | dali/pipeline/operator/builtin/input_operator.h:318-343 | copies in host order for a host source and in the caller's order otherwise; adopts the source's pinned flag; state (false, false) |
| InputOperators.InputOperator.CopyDeviceBatch | dali/pipeline/operator/builtin/input_operator.h:346-377 | a non-device order is replaced by the batch's own; the copy and its event use that order; state (false, false) |
| InputOperators.InputOperator.SetDataSourceHelper | dali/pipeline/operator/builtin/input_operator.h:380-406 | fails, with no change, exactly for a no-copy call with a batch on the other device; any other call queues one batch and one state on the chosen path, with the queues, the free lists and the next name as Serve states for that path, and the zero-copy flag set exactly by a contiguous GPU share |
| InputOperators.InputOperator.SetDataSource | dali/pipeline/operator/builtin/input_operator.h:135-147 | an empty vector fails with no change; otherwise the samples form a list (ListOf) handed to SetDataSourceHelper, and the queues, the state and the flag change as Serve states for that list's path |
| InputOperators.InputOperator.WarningMeaning | dali/pipeline/operator/builtin/input_operator.h:428-433 | the flag is set exactly when a contiguous batch was shared on the GPU, and never on a CPU operator |
| InputOperators.InputOperator.EventsMeaning | dali/pipeline/operator/builtin/input_operator.h:346-377 | the queued events are those of the GPU copies: none on a CPU operator, never more than the queued batches |

## Findings

| source | as written | input that shows it | evidently intended | confidence | as-written member | corrected member |
|---|---|---|---|---|---|---|
| dali/pipeline/data/tensor_vector.cc:344-348 | the non-contiguous branch of ShareData(TensorVector) calls resize_tensors inside the loop over the source's samples | a non-contiguous source with no samples, shared into a batch of 3 samples: the batch keeps 3 samples over a reset block, and their views are no longer counted | resize to the source's size once, before the loop | high, not executed | TensorVectors.TensorVector.ShareDataBatchAsWritten | TensorVectors.TensorVector.ShareDataBatch |
| dali/pipeline/data/tensor_vector.cc:386-388 | UpdateViews sets views_count_ to the size before update_view resets each sample, and each reset runs the deleter of the view it drops | a contiguous batch of 2 samples, both views, refreshed again: the count ends at 0, so IsContiguous() is false | the count equals the views after the refresh | medium (the deleter's body is in tensor_vector.h, which is not part of this model), not executed | TensorVectors.TensorVector.UpdateViewsAsWritten | TensorVectors.TensorVector.UpdateViews |
| dali/imgcodec/decoders/test/numpy_helper.cc:94-95 | after a backslash the cursor moves to the next character, even the terminating NUL, and the loop then reads past it | the header text `'\`: the loop reads index 3 of a two-character string | a backslash before the end of the text fails | high, not executed | NumpyHeader.TrailingBackslashOverrun | NumpyHeader.StringFrom |
| dali/imgcodec/decoders/test/numpy_helper.cc:175-176 | the magic test uses find_first_of("NUMPY"), which looks for any one of the letters N, U, M, P, Y | the first ten bytes of a ZIP archive (an .npz file), `PK\x03\x04\x14\0...`, contain a P and pass | find("NUMPY"), the whole word | high, not executed | NumpyFile.ZipPassesMagicCheck | NumpyFile.HeaderAt |
| dali/imgcodec/decoders/opencv_fallback.cc:75-76 | the BGR-to-RGB step runs when flags & IMREAD_COLOR, and IMREAD_UNCHANGED is -1 with every bit set | format ANY_DATA with a one-channel image: cvtColor rejects it and the decode fails | swap channels for a colour read, and for an unchanged read only when the image has three or four channels | medium, not executed | OpenCvFallback.AnyDataGreyFailsAsWritten | OpenCvFallback.SwapsChannelsAgrees |

In each case the rest of the model uses the corrected member:
- the class uses `ShareDataBatch` and `UpdateViews`;
- `ParseStringValue` computes the corrected `StringValue`;
- `HeaderAt` checks `Magic`;
- `Decode` uses `SwapsChannels` unless `asWritten` is set.

The as-written models are `ShareDataBatchAsWritten`, `UpdateViewsAsWritten` with `RefreshAllAsWritten` / `UpdateViewAsWritten`, `StringFromAsWritten`, `MagicAsWritten` with `HeaderAtAsWritten`, and `SwapsChannelsAsWritten` with `Decode` under `asWritten`.

## Left out

- **Outside code as parameters.**
  - File and stream I/O, libtiff, OpenCV, CUDA, the colour kernels and the saturating conversion are not modelled.
  - Each is a parameter or an abstract value:
    - the bytes of a file or stream;
    - libtiff's tag values and decoded scanlines;
    - the image imread returns for a set of flags;
    - CUDA orders and events as tokens;
    - `ConvertSatNorm` and the colour functions as functions.
- **Tensors and lists.**
  - tensor.h, tensor_list.h and buffer.h are not part of this model.
  - Module `Batch` gives the effect of their operations as the functions `ResizeTensor`, `Reserved`, `ShareTensor`, `ResizeList`, `CopyList` and the rest. The effect is reduced to what `TensorVector` relies on.
  - Growing shared storage is taken as a fresh allocation; the source's buffer may refuse it instead.
  - The shape of a reset tensor is taken as `{0}`, one extent of zero, as the shape after `Tensor::Reset`.
- **Header defaults.**
  - A default-constructed batch starts non-contiguous.
  - A new TensorList is pinned.
  - Both are header defaults not shown here.
- **TensorVector members not modelled:**
  - the move constructor and move assignment (`tensor_vector.cc:45-63, 354-374`), which rewire the deleters to the new count;
  - `shape()`, `type_info()`, `SetLayout` / `GetLayout`, `GetMeta` / `SetMeta`, `set_pinned` and `SetContiguous`, which only read or assign fields;
  - `type()` and `is_pinned()`, which are modelled as the functions `Type()` and `IsPinned()` without a contract of their own.
- **TensorVector assumptions.**
  - `views_count_` is atomic in the source; the model is sequential.
  - Views held outside the batch are not modelled: a sample is a view only while the batch holds it.
- TensorVectors.TensorVector.ShareDataBatch: keeps the view count exact instead of zeroing it first (`tensor_vector.cc:338`, in both branches). Zeroing first would undercount, as in the second finding; ShareDataBatchAsWritten models the zeroing.
- TensorVectors.TensorVector.UpdateViews: keeps the count exact, unlike `views_count_ = curr_tensors_size_` before the refresh (`tensor_vector.cc:386-388`); UpdateViewsAsWritten models the source's order (second finding).
- TensorVectors.TensorVector.UpdateView: adjusts the count by the view dropped and the view taken, the corrected count of the second finding; UpdateViewAsWritten lowers the count only by the view the reset releases, as the source's deleter does, and leaves the count of the new view to UpdateViews' assignment.
- TensorVectors.TensorVector.RefreshAll: keeps the count exact over the loop, the corrected count of the second finding; RefreshAllAsWritten is the source's loop.
- NumpyFile.HeaderAt: checks the whole word NUMPY, the corrected test of the fourth finding, instead of `find_first_of` (`numpy_helper.cc:175`); HeaderAtAsWritten is the source's test and HeaderAtAgrees states where the two differ.
- OpenCvFallback.Decode: the rest of the model reads the intended colour test of the fifth finding; the source's `flags & IMREAD_COLOR`, under which a request for any data with a grey or failed read throws, is `Decode` with `asWritten` set.
- TensorVectors.TensorVector.AsTensorList: an unchecked call (`check_contiguity` false) requires the block to hold every sample in use (`currSize <= |tl.samples|`). The source runs `tl_->SetMeta(idx, ...)` for every `idx < curr_tensors_size_` with no check (`tensor_vector.cc:398-401`), and on a non-contiguous batch the block may be stale or empty, for example after `SetSize(n)`; there SetMeta would index past the block, which tensor_list.h (not part of this model) decides. TensorVectors.TensorVector.CopyMetas, the loop itself, carries the same requirement.
- TensorVectors.SumBytesWithinCapacity: the bound holds under the hypothesis that each sample's bytes fit its capacity. The class invariant does not carry that per-sample fit, so no member states `Nbytes() <= Capacity()` for a TensorVector.
- TensorVectors.TensorVector.Reserve: requires the assertion of UpdateViews (`tensor_vector.cc:384`), that the samples in use match the block's samples. TensorVectors.TensorVector.SetType requires the same for a contiguous batch whose type changes.
- **InputOperator concurrency.** The mutex, the condition variable, the worker thread, `sync`, `use_copy_kernel`, cudaEventSynchronize and the DeviceGuard are not modelled. Calls are taken one at a time.
- InputOperators.InputOperator.HandleDataAvailability: the blocking wait is the result `Waits`.
- **InputOperator reading side.** `ForwardCurrentData`, `PeekCurrentData`, `NextBatchSize` and `Advance` are not modelled, and the queues are never popped.
  - Their bodies are not in input_operator.h.
  - Because of this, the invariant that every queued batch has one state holds over pushes only.
- InputOperators.InputOperator.SetDataSource: the list built from a vector of samples is taken as not contiguous, because tensor_list.h is not part of this model. The TensorList overload (`input_operator.h:153-159`) is SetDataSourceHelper itself.
- InputOperators.InputOperator.ShareHostBatch: the reset and pinned adjustment before ShareData is computed but not visible, because ShareData replaces the list.
- **Numpy header.**
  - NumpyHeader.IntegerAt: strtol is read as saturating at the 64-bit limits, as `long` is on the platforms DALI targets.
  - The header length is read little-endian, as on a little-endian host.
  - Version 2.0 headers, with a 4-byte length, are not read: the code reads two bytes.
  - The header text is read as the C string up to its first NUL.
- ImageConvert.ConvertImage: requires a colour change to have at least one dimension. For `ndim == 0` the source would call the strided loop with ndim -1.
- The `Convert` overload over SampleView (`convert.h` from line 152) is not part of this model. Neither is the header that defines `DALIImageType`; its values are the enum `ImageFormat`.
- LibTiffDecode.Decode: requires the region's rows to fit the output buffer, and the region to be planar when given. It also requires the region's columns to lie inside the scanline: `0 <= begin[1]`, a non-negative width, and `begin[1] + width` at most the image width, with every scanline `width * 3` bytes long. The source checks none of these. Outside them, the `_TIFFmemcpy` at `tiff_libtiff.cc:166-167` reads past the end of the scanline buffer `row_in`, or before its start, or is given a negative size (converted to a huge unsigned one). The same requirement, through CopyFits, is on ReadRegion and CopyRegion.
- LibTiffDecode.ReadRegion: a negative region height reads no rows, which matches the loop test in the source.
