# richard, modelled in Dafny

richard is a small C++ neural-network library. A network is a chain of layers (dense, convolutional, max-pooling and an output layer) built from a JSON-like configuration. It trains sample by sample on the CPU, or mini-batch by mini-batch through a Vulkan compute backend. It ships loaders for CSV files and for directories of BMP images, a labelled data set that turns labels into one-hot vectors, a classifier that tallies correct guesses, and an event system for progress reports.

This project models the exact, non-floating-point logic of that library and proves what it promises:

- **Vulkan backend:** workgroup partitioning, the buffer-flag table, the specialization-constant layout and the barrier rule over the set of active buffers.
- **Configuration store:** the typed variant map, its numeric coercions, conversion from and to a JSON tree, and its one-sided equality.
- **Tensor addressing:** the flat layout of `Matrix`, `Kernel` and their aliasing views, and the bounds-checked `ContigMultiArray`.
- **Layers:**
  - shapes, preconditions and buffer sizes;
  - the bias-then-kernel and B-then-W parameter streams;
  - the max-pooling forward pass (region maxima and the one-hot mask) and the routing of deltas back through the mask;
  - the full-convolution accumulation of the older max-pooling layer.
- **Networks:** layer construction and shape chaining for both trainers, and the mini-batch schedule of each.
- **Data handling:**
  - CSV tokenisation;
  - round-robin sampling over class directories;
  - one-hot class vectors;
  - classifier tallies;
  - event dispatch;
  - BMP row layout, with the load/save round trip.

Numbers of type `netfloat_t` are Dafny `real`s, so only comparisons, copies and index arithmetic are exact. Where a source routine changes state step by step, the model is a class or a method with loop invariants, proved against a specification function. The network trainers are classes that record, as a sequence of steps, the calls they make on their layers, data set, GPU and event system. Their methods are proved to produce exactly the sequence a specification function describes, and lemmas state what that sequence guarantees: the update schedule, sample numbering, and the order of forward and backward passes.

Layout: one Dafny module per source file, named after the file's component (`Vulkan`, `Config`, `Math`, `ContigArray`, `Bitmap`, `Pooling`, `CpuMaxPooling`, `MaxPooling`, `CpuConvolution`, `DenseLayers`, `GpuConvolution`, `GpuMaxPooling`, `CpuNeuralNet`, `GpuNeuralNet`, `Classifying`, `CsvLoading`, `ImageLoading`, `LabelledData`, `Events`), plus the shared modules:
- `Wrappers`: `Result` and `Option`;
- `Utils`: shapes and sets;
- `Limits`: `numeric_limits` constants;
- `Layers`: the layer-type names, configuration lookups and the parameter stream;
- `NeuralNets`: hyperparameters, the type dispatch and the fetch plan;
- `GpuUtils`: the 64-capped workgroup split;
- `Samples`: the labelled sample a loader yields.

## Model

| member | source | states |
|---|---|---|
| Utils.CalcProduct | librichard/include/richard/utils.hpp:22-24 | the product of the three extents; it is zero exactly when some extent is, and otherwise bounds each extent |
| Utils.CalcSum | librichard/include/richard/utils.hpp:26-28 | the sum of the three extents; zero exactly when all are, and never below any extent |
| Utils.SetDifferenceInPlace | librichard/include/richard/utils.hpp:30-35 | erasing each element of `B` leaves `A \ B` (the loop's invariant is the difference over the elements visited) |
| Utils.SetUnionInPlace | librichard/include/richard/utils.hpp:42-45 | inserting the elements of `B` leaves `A ∪ B` |
| Utils.SetDifference | librichard/include/richard/utils.hpp:37-40 | `result` gains exactly `A \ B` and keeps what it held |
| Utils.SetUnion | librichard/include/richard/utils.hpp:47-50 | `result` gains exactly `A ∪ B` and keeps what it held |
| Utils.SetIntersection | librichard/include/richard/utils.hpp:57-61 | `result` gains exactly `A ∩ B` and keeps what it held |
| Utils.NatToString | richard/src/cpu/convolutional_layer.cpp:38-39 | a number streamed into a message is a non-empty string of decimal digits |
| Utils.NatToStringValue | richard/src/cpu/convolutional_layer.cpp:38-39 | reading the streamed digits back gives the number, and only 0 starts with a zero digit |
| GpuUtils.OptimumWorkgroups | richard/src/gpu/gpu_utils.cpp:7-27 | succeeds exactly when each of x and y is at most 64 or a multiple of 64; then x and y workgroups are `min(extent, 64)`, z is the z extent, the counts are the quotients with one z group, and size × count gives back the extent; otherwise the error names the first axis that fails |
| GpuUtils.AxisSplit | richard/src/gpu/gpu_utils.cpp:10-26 | on one capped axis the split is exact iff the extent is at most 64 or a multiple of 64, and an extent of at most 64 makes one workgroup |
| Vulkan.MaxValue | librichard/src/gpu/vulkan.cpp:25-35 | returns the index of the first strictly largest extent and that extent as the value |
| Vulkan.LowestDivisor | librichard/src/gpu/vulkan.cpp:37-44 | returns the smallest divisor of `value` in `[2, value)`, or `value` when there is none, and that happens exactly when `value` is below 2 or prime |
| Vulkan.ChooseBufferFlags | librichard/src/gpu/vulkan.cpp:157-185 | a uniform buffer exactly for read-only without large; uniform buffers are host-visible, coherent and mapped; storage buffers are device-local, mapped and host-visible with frequent host access, otherwise unmapped (when host access is asked for) with transfer source and destination usage added for host reads and writes |
| Vulkan.LittleEndian32 | librichard/src/gpu/vulkan.cpp:253 | a 32-bit word is written as four bytes |
| Vulkan.ReadU32 | librichard/src/gpu/vulkan.cpp:253 | four bytes read as a little-endian word give a value below 2^32 |
| Vulkan.Word | librichard/src/gpu/vulkan.cpp:261-276 | the 32-bit word a constant contributes; a bool is 1 when true and 0 when false |
| Vulkan.ReadLittleEndian32 | librichard/src/gpu/vulkan.cpp:253 | the four bytes written for a word read back as that word wherever they sit in the data |
| Vulkan.CreateSpecializationInfo | librichard/src/gpu/vulkan.cpp:243-287 | fails exactly when some constant's value does not match its type; otherwise entries 0-2 hold the workgroup sizes at offsets 0, 4 and 8, constant `k` has id `3 + k`, offset `4 * (3 + k)` and size 4, the data has `4 * (3 + n)` bytes, and each word reads back as the constant's value |
| Vulkan.Reads | librichard/src/gpu/vulkan.cpp:318-327 | the buffers bound in read mode, exactly |
| Vulkan.Writes | librichard/src/gpu/vulkan.cpp:318-327 | the buffers bound in write mode, exactly |
| Vulkan.PartitionBindings | librichard/src/gpu/vulkan.cpp:318-327 | the loop over the bindings collects exactly `Reads` and `Writes` |
| Vulkan.Vulkan.constructor | librichard/src/gpu/vulkan.cpp:134-155 | the workgroup cap is the configured "maxWorkgroupSize" or the largest uint32; no buffers, pipelines or active buffers, and not recording |
| Vulkan.Vulkan.OptimumWorkgroups | librichard/src/gpu/vulkan.cpp:564-600 | with positive limits the loop ends with workgroup size × count equal to the work size on every axis, the invocations within both the configured cap and the device limit, and every axis within the device's maximum |
| Vulkan.Vulkan.SmallWorkgroupFits | librichard/src/gpu/vulkan.cpp:570-584 | a workgroup of at most one invocation per axis fits any positive limits, so the loop stops before it divides an extent of 1 |
| Vulkan.Vulkan.AllocateBuffer | librichard/src/gpu/vulkan.cpp:187-214 | appends one buffer with the chosen descriptor type and returns its index, so handles are 0, 1, 2, …; nothing else changes |
| Vulkan.Vulkan.AddShader | librichard/src/gpu/vulkan.cpp:289-351 | fails exactly when a constant is ill-typed; otherwise appends one pipeline holding the workgroup split of the work size, a specialization map of the workgroup size followed by the given constants, and the read and write sets, and returns its index; buffers and recording state are unchanged |
| Vulkan.Vulkan.QueueShader | librichard/src/gpu/vulkan.cpp:365-421 | records a barrier for each buffer in `active ∩ (reads ∪ writes)`, then sets the active set to `(active \ mustWait) ∪ writes`, and starts recording |
| Vulkan.Vulkan.FlushQueue | librichard/src/gpu/vulkan.cpp:423-449 | when recording, submits what was recorded, clears the active set and stops recording; otherwise changes nothing |
| Vulkan.Barriers | librichard/src/gpu/vulkan.cpp:377-398 | exactly one barrier per waited-on buffer, from shader write to the read access its descriptor type needs |
| Vulkan.MakeBarriers | librichard/src/gpu/vulkan.cpp:376-398 | the loop over `mustWait` builds exactly `Barriers` |
| Vulkan.MustWait | librichard/src/gpu/vulkan.cpp:370-374 | the buffers the shader touches that are active, exactly |
| Vulkan.ActiveAfter | librichard/src/gpu/vulkan.cpp:400-401 | the shader's writes are active afterwards, and any other active buffer was active before and untouched by the shader |
| Vulkan.HazardGetsBarrier | librichard/src/gpu/vulkan.cpp:370-401 | when one queued shader writes a buffer and a later one touches it, with none in between touching it and no flush, the later one waits on that buffer |
| Vulkan.StaysActive | librichard/src/gpu/vulkan.cpp:400-401 | a written buffer stays active while no later shader touches it |
| Vulkan.ActiveOnlyIfWritten | librichard/src/gpu/vulkan.cpp:400-401 | after a flush a buffer becomes active only by being written, so no barrier is spurious |
| Config.WrapSigned64 | richard/librichard/src/config.cpp:96-98 | the conversion of an unsigned JSON number to `long`: the result is in the 64-bit signed range, congruent to the input, and equal to it when it already fits |
| Config.Truncate | librichard/include/richard/config.hpp:40 | a floating value cast to an integer is truncated toward zero |
| Config.Cast | librichard/include/richard/config.hpp:39-40 | `static_cast<T>` gives a value of `T`, keeps a value that already is one, turns an integer into the same real for floating `T`, and truncates a real for integral `T` when the truncation fits |
| Config.Zero | librichard/include/richard/config.hpp:41 | `T{}` is zero, as an integer or a real as `T` requires |
| Config.SortedKeys | richard/librichard/src/config.cpp:86 | the keys in the order the map iterates them: each key exactly once, strictly increasing in string order |
| Config.LongElement | richard/librichard/src/config.cpp:64 | `get<long>` on an array element succeeds exactly for the number kinds |
| Config.DoubleElement | richard/librichard/src/config.cpp:68 | `get<double>` on an array element succeeds exactly for the number kinds |
| Config.StringElement | richard/librichard/src/config.cpp:72 | `get<std::string>` on an array element succeeds exactly for strings |
| Config.Elements | richard/librichard/src/config.cpp:64-72 | converting a whole array succeeds exactly when every element converts, then element `i` is the conversion of item `i`; otherwise some element failed |
| Config.ValueFromJsonArray | richard/librichard/src/config.cpp:54-81 | an empty array is "Array is empty"; success needs a first element that is an integer, float or string, and gives a long, double or string array of the same length respectively |
| Config.FromJson | richard/librichard/src/config.cpp:83-128 | null and the empty array give an empty config; success otherwise needs an object, whose keys become exactly the config's keys |
| Config.FirstElementOfNonObject | richard/librichard/src/config.cpp:86-87 | iterating a non-empty non-object as an object always fails |
| Config.ConvertMembers | richard/librichard/src/config.cpp:86-125 | the member loop adds exactly the converted keys to what was there |
| Config.ConvertMember | richard/librichard/src/config.cpp:87-124 | null is "Unsupported JSON type"; a bool, a float and a string are stored as such; integers become longs (unchanged when in range) |
| Config.CreateConfigArray | richard/librichard/src/config.cpp:14-20 | one config per remaining element |
| Config.ToJson | richard/librichard/src/config.cpp:28-52 | a config without entries becomes null; otherwise an object with exactly the config's keys |
| Config.DumpRoundTrip | richard/librichard/src/config.cpp:28-128 | a config without empty arrays or empty nested configs loads back from its dump with exactly the same entries |
| Config.ObjectRoundTrip | richard/librichard/src/config.cpp:83-128 | an object whose members each convert to the target values loads as exactly those entries |
| Config.EntryRoundTrip | richard/librichard/src/config.cpp:31-49 | each dumped entry converts back to the stored value |
| Config.CreateArrayRoundTrip | richard/librichard/src/config.cpp:14-20 | an array of dumped configs loads back as those configs |
| Config.EmptyArrayBreaksRoundTrip | richard/librichard/src/config.cpp:46-57 | an empty long array is dumped as `[]` and fails to load with "Array is empty" |
| Config.EmptyObjectBreaksRoundTrip | richard/librichard/src/config.cpp:29-122 | an empty nested config is dumped as null and fails to load with "Unsupported JSON type" (lines 29-33 and 121-122) |
| Config.Equal | richard/librichard/src/config.cpp:196-253 | equality implies every key on the left is on the right |
| Config.EqualAt | richard/librichard/src/config.cpp:196-253 | the same for the nested comparisons, in whichever order they are made |
| Config.EqualReflexive | richard/librichard/src/config.cpp:196-257 | every config equals itself and is not unequal to itself |
| Config.EqualIsOneSided | richard/librichard/src/config.cpp:197-199 | an empty config equals one with a key, but not the other way round |
| Config.DumpThenLoadIsEqual | richard/librichard/src/config.cpp:181-253 | a dumped and reloaded config compares equal to the original |
| Config.StoredNumber | librichard/include/richard/config.hpp:70-75 | `setNumber` stores a double exactly for floating types, and a long otherwise |
| Config.NumberOf | librichard/include/richard/config.hpp:35-43 | `getNumber<T>` gives a value of `T`: a stored number that already is one comes back unchanged, and a non-number gives `T{}` |
| Config.NumberRoundTrip | librichard/include/richard/config.hpp:35-75 | a number stored with `setNumber<T>` reads back unchanged with `getNumber<T>`, wrapped unsigned values included |
| Config.NumberArrayRoundTrip | librichard/include/richard/config.hpp:45-82 | an array stored with `setNumberArray<T>` reads back unchanged with `getNumberArray<T>` |
| Config.StoredNumbers | librichard/include/richard/config.hpp:77-82 | `setNumberArray` stores a double array for floating types and a long array otherwise, of the same length, element by element |
| Config.NumbersOf | librichard/include/richard/config.hpp:45-53 | number arrays are converted element by element to the same length; anything else gives an empty vector |
| Config.FixedNumbersOf | librichard/include/richard/config.hpp:55-63 | exactly `N` values: the first `min(len, N)` converted, the rest `T{}` |
| Config.FixedNumbersInDomain | librichard/include/richard/config.hpp:55-63 | every value returned is a value of `T` |
| Config.CoerceVectorType | librichard/include/richard/config.hpp:123-130 | a vector of the same size holding each element converted |
| Config.VectorToArray | librichard/include/richard/config.hpp:114-121 | `N` slots: the first `min(len, N)` converted, the rest value-initialised |
| Config.Config.constructor | librichard/include/richard/config.hpp:19 | a new config has no entries |
| Config.Config.Copy | librichard/include/richard/config.hpp:19 | a copy holds the same entries |
| Config.Config.Contains | richard/librichard/src/config.cpp:130-132 | true exactly when the key has an entry |
| Config.Config.GetEntry | richard/librichard/src/config.cpp:134-137 | the stored value, or "No 'k' value found in config" when the key is absent |
| Config.Config.GetBoolean | richard/librichard/src/config.cpp:139-141 | succeeds exactly when the entry is a bool, with its value; otherwise not-found or a wrong-alternative error |
| Config.Config.GetString | richard/librichard/src/config.cpp:143-145 | as `GetBoolean`, for strings |
| Config.Config.GetStringArray | richard/librichard/src/config.cpp:147-149 | as `GetBoolean`, for string arrays |
| Config.Config.GetObject | richard/librichard/src/config.cpp:176-179 | a copy of the nested config, not-found when absent, a wrong-alternative error otherwise |
| Config.Config.GetObjectArray | richard/librichard/src/config.cpp:167-170 | the stored configs, not-found when absent, a wrong-alternative error otherwise |
| Config.Config.GetNumber | librichard/include/richard/config.hpp:35-43 | not-found exactly when the key is absent; otherwise `NumberOf` the entry, a value of `T` |
| Config.Config.GetNumberArray | librichard/include/richard/config.hpp:45-53 | not-found exactly when the key is absent; otherwise `NumbersOf` the entry |
| Config.Config.GetFixedNumberArray | librichard/include/richard/config.hpp:55-63 | not-found exactly when the key is absent; otherwise `FixedNumbersOf` the entry |
| Config.Config.GetFixedStringArray | librichard/include/richard/config.hpp:65-68 | fails as `getStringArray` does; otherwise the first `N` strings, padded with empty strings |
| Config.Config.SetBoolean | richard/librichard/src/config.cpp:151-153 | overwrites only its own key, and the value reads back |
| Config.Config.SetString | richard/librichard/src/config.cpp:155-157 | overwrites only its own key, and the value reads back |
| Config.Config.SetStringArray | richard/librichard/src/config.cpp:159-161 | overwrites only its own key, and the value reads back |
| Config.Config.SetObject | richard/librichard/src/config.cpp:172-174 | stores a copy of the config as it was at the call, under its own key only, and it reads back |
| Config.Config.SetObjectArray | richard/librichard/src/config.cpp:163-165 | overwrites only its own key, and the value reads back |
| Config.Config.SetNumber | librichard/include/richard/config.hpp:70-75 | stores `StoredNumber` under its own key only, and `getNumber<T>` reads the value back |
| Config.Config.SetNumberArray | librichard/include/richard/config.hpp:77-82 | stores `StoredNumbers` under its own key only, and `getNumberArray<T>` reads the values back |
| Config.Config.Dump | richard/librichard/src/config.cpp:181-184 | null exactly for an empty config, and a config without empty arrays or empty nested configs loads back unchanged from its dump |
| Config.Config.Equals | richard/librichard/src/config.cpp:196-253 | the loop that stops at the first mismatch returns exactly `Equal` |
| Config.Config.Load | richard/librichard/src/config.cpp:83-128 | building through the setters gives exactly `FromJson`, or its error |
| Config.Config.LoadObject | richard/librichard/src/config.cpp:86-125 | the member loop in key order gives exactly `ConvertMembers` |
| Config.Config.SetFromJson | richard/librichard/src/config.cpp:87-124 | one member's `switch` stores `ConvertMember` under its key, or fails with its error |
| Config.Config.LoadArray | richard/librichard/src/config.cpp:14-20 | the element loop gives exactly `CreateConfigArray` |
| Config.FromJsonObject | richard/librichard/src/config.cpp:86 | an object is converted member by member in key order |
| Config.CreateArrayFirstError | richard/librichard/src/config.cpp:14-20 | the first element that fails to load decides the error |
| Config.CreateArrayHead | richard/librichard/src/config.cpp:14-20 | an element that fails is the error of the array from it on; an element that loads passes on the error of the elements after it |
| Math.MatrixIndicesInRange | richard/src/math.hpp:306-312 | every cell of a `cols` by `rows` matrix has a flat index below `size()` |
| Math.MatrixIndexInjective | richard/src/math.hpp:310-316 | distinct cells have distinct flat indices, so `set` touches one cell |
| Math.KernelIndexInRange | richard/src/math.hpp:489-498 | every kernel cell has a flat index below `size()` |
| Math.KernelIndexInjective | richard/src/math.hpp:497-503 | distinct kernel cells have distinct flat indices |
| Math.Vector.constructor | richard/src/math.hpp:70 | an owning vector of `length` elements at offset 0 |
| Math.Vector.Shallow | richard/src/math.hpp:131-138 | a view of `n` elements of an existing buffer from `from`, which is shallow |
| Math.Vector.Storage | richard/src/math.hpp:145-157 | the owned storage exactly when the vector is not shallow, otherwise "Attempt to retrieve storage of shallow object" |
| Math.Vector.Set | richard/src/math.hpp:167-169 | writing element `i` changes exactly one element of the underlying buffer |
| Math.Vector.Subvector | richard/src/math.hpp:183-189 | a shallow view over the same buffer whose element `i` is element `from + i` |
| Math.Matrix.constructor | richard/src/math.hpp:202 | an owning `cols` by `rows` matrix |
| Math.Matrix.Shallow | richard/src/math.hpp:269-276 | a shallow `cols` by `rows` view of an existing buffer |
| Math.Matrix.Storage | richard/src/math.hpp:284-296 | the owned storage exactly when the matrix is not shallow, otherwise the shallow-storage error |
| Math.Matrix.Size | richard/src/math.hpp:306-308 | `cols * rows`, and every cell's flat index is below it |
| Math.Matrix.Set | richard/src/math.hpp:314-316 | writes exactly the buffer element at `row * cols + col`; that cell reads back the value and every other cell is unchanged |
| Math.Matrix.Slice | richard/src/math.hpp:334-340 | a shallow view of row `row` over the same buffer, whose element `c` is cell (`c`, `row`) |
| Math.WriteThroughRow | richard/src/math.hpp:334-340 | writing through a row view changes the matrix cell under it |
| Math.Kernel.constructor | richard/src/math.hpp:358 | an owning kernel of the given extents |
| Math.Kernel.Shallow | richard/src/math.hpp:426-435 | a shallow view of an existing buffer with the given extents |
| Math.Kernel.Storage | richard/src/math.hpp:467-479 | the owned storage exactly when the kernel is not shallow, otherwise the shallow-storage error |
| Math.Kernel.Size | richard/src/math.hpp:489-491 | `W * H * D`, and every cell's flat index is below it |
| Math.Kernel.Shape | richard/src/math.hpp:493-495 | the extents in the order W, H, D, whose product is `size()` |
| Math.Kernel.Set | richard/src/math.hpp:501-503 | writes exactly the element at `z * W * H + y * W + x`; that cell reads back the value and every other cell is unchanged |
| Math.Kernel.Slice | richard/src/math.hpp:517-523 | a shallow `W` by `H` view from offset `z * W * H` whose cell (`x`, `y`) is cell (`x`, `y`, `z`) |
| Math.WriteThroughSlice | richard/src/math.hpp:517-523 | writing through a depth slice changes the kernel cell under it |
| Math.Kernel.SetData | richard/src/math.hpp:460-465 | adopts a buffer of exactly `size()` elements as owned storage, keeping the extents |
| ContigArray.ProductZero | tools/common/array.hpp:54-58 | an array has no elements exactly when some extent is zero |
| ContigArray.ProductSnoc | tools/common/array.hpp:54-58 | one more extent multiplies the element count by it |
| ContigArray.ProductFrom | tools/common/array.hpp:54-115 | the counting loop of the constructors and `computeStride` gives the product of the extents from `from` on (lines 54-58 and 109-115) |
| ContigArray.ContigMultiArray.constructor | tools/common/array.hpp:50-63 | allocates exactly the product of the extents, owns it, and the stride is the product of the extents after the first |
| ContigArray.ContigMultiArray.View | tools/common/array.hpp:65-77 | wraps an existing buffer with the given extents, owning it only when top-level |
| ContigArray.ContigMultiArray.FromElements | tools/common/array.hpp:135-147 | a fresh owned one-dimensional array holding the elements in order |
| ContigArray.ContigMultiArray.Move | tools/common/array.hpp:19-133 | takes over the buffer, extents and ownership and leaves the source with a null buffer, so only one of them frees it (lines 19-27 and 127-133) |
| ContigArray.ContigMultiArray.Subscript | tools/common/array.hpp:87-95 | "Subscript out of range" exactly when the slice is not below the first extent; otherwise a non-owning view at `slice * stride` with the remaining extents |
| ContigArray.ContigMultiArray.At | tools/common/array.hpp:171-177 | reading index `i` fails exactly when `i` is not below the extent, otherwise gives `data[i]` |
| ContigArray.ContigMultiArray.Put | tools/common/array.hpp:179-185 | writing index `i` fails exactly when it is out of range, leaving the data unchanged; otherwise changes only `data[i]` |
| ContigArray.Overwrite | tools/common/array.hpp:45 | a `memcpy` into a sequence: the copied part is found at its offset and nothing outside it changes |
| ContigArray.LayAll | tools/common/array.hpp:43-47 | after the copy loop, part `k` is found at offset `k * stride` |
| ContigArray.LayHolds | tools/common/array.hpp:43-47 | after the first `n` parts are copied, each of them is found at its offset |
| ContigArray.OverwriteKeeps | tools/common/array.hpp:45 | copying a later part does not disturb an earlier one |
| ContigArray.CopySlice | tools/common/array.hpp:45 | the copy of one part is exactly `Overwrite` at its offset |
| ContigArray.CopyParts | tools/common/array.hpp:43-47 | the copy loop gives exactly `Lay` over all parts |
| ContigArray.FromParts | tools/common/array.hpp:29-48 | the first extent is the number of parts, the rest come from the first part, the stride is the first part's element count, and part `k` is copied to offset `k * stride` |
| Bitmap.PaddedRowBytes | cpputils/src/bitmap.cpp:33 | the padded row is a multiple of four, holds the row, and exceeds it by less than four |
| Bitmap.PaddedRowBytesLeast | cpputils/src/bitmap.cpp:33 | no smaller multiple of four holds the row |
| Bitmap.MakeHeader | cpputils/include/cpputils/bitmap.hpp:14-53 | the packed header: pixel offset 54, the given width, height and image size, and a bit count that gives back the channel count when it fits 16 bits |
| Bitmap.EncodeHeader | cpputils/include/cpputils/bitmap.hpp:14-54 | the packed header is exactly 54 bytes |
| Bitmap.DecodeHeader | cpputils/src/bitmap.cpp:17-18 | `read` of the packed header gives six fields, each within its 16- or 32-bit width |
| Bitmap.HeaderRoundTrip | cpputils/src/bitmap.cpp:18-60 | reading back the 54 bytes `saveBitmap` writes gives the same header fields, whatever follows them |
| Bitmap.ExactRowsLength | cpputils/src/bitmap.cpp:37-41 | `n` rows of `rowBytes` bytes are exactly `n * rowBytes` bytes |
| Bitmap.LoadRowsExact | cpputils/src/bitmap.cpp:37-41 | loading `n` rows gives `n` rows of `rowBytes` bytes |
| Bitmap.RowsRoundTrip | cpputils/src/bitmap.cpp:37-72 | loading the rows of a saved body, padding skipped, gives back the pixel bytes |
| Bitmap.ImgSizeAsWritten | cpputils/src/bitmap.cpp:57 | `rows * paddedRowSize * channels` taken modulo 2^32 |
| Bitmap.ImgSize | cpputils/src/bitmap.cpp:57 | the size of the padded rows, modulo 2^32 |
| Bitmap.SaveRowsLength | cpputils/src/bitmap.cpp:66-72 | `n` saved rows with padding take `n * (rowBytes + pad)` bytes |
| Bitmap.ImgSizeCountsChannelsTwice | cpputils/src/bitmap.cpp:55-57 | for a 2 by 2 RGB image the written field is 48 while the rows take 16 bytes |
| Bitmap.ImgSizeIsBodySize | cpputils/src/bitmap.cpp:57-72 | the corrected field equals the number of bytes written after the header |
| Bitmap.SavedHeader | cpputils/src/bitmap.cpp:52-59 | the header `saveBitmap` builds is well formed; its image-size field is the as-written `rows * paddedRowSize * channels` |
| Bitmap.PixelStream | cpputils/src/bitmap.cpp:30 | the stream after seeking to the header's pixel offset, empty when the offset is past the end |
| Bitmap.LoadedExtents | cpputils/src/bitmap.cpp:20-25 | three extents: height, width and `bitCount / 8` |
| Bitmap.LoadedPixels | cpputils/src/bitmap.cpp:30-41 | `height` rows of `width * channels` bytes |
| Bitmap.SaveLoadRoundTrip | cpputils/src/bitmap.cpp:8-73 | loading a saved bitmap gives back its extents and its pixel bytes |
| Bitmap.SavedFileSplits | cpputils/src/bitmap.cpp:46-73 | a saved file decodes to the saved extents with pixel offset 54, and its pixel stream is exactly the saved rows |
| Bitmap.ReadInto | cpputils/src/bitmap.cpp:38 | one read places the bytes at the cursor and keeps those before it |
| Bitmap.ReadRowStep | cpputils/src/bitmap.cpp:38-40 | reading a row and ignoring its padding leaves the stream at the next row |
| Bitmap.ReadRows | cpputils/src/bitmap.cpp:36-41 | the row loop fills the buffer with exactly the loaded rows, padding dropped |
| Bitmap.ReadRow | cpputils/src/bitmap.cpp:37-40 | one row read into the buffer at the write position, its padding skipped, keeps the buffer equal to the rows loaded so far |
| Bitmap.LoadBitmap | cpputils/src/bitmap.cpp:8-44 | "Error loading bitmap from" exactly when the file cannot be opened; otherwise a fresh owned bitmap with the header's extents holding the loaded rows |
| Bitmap.WriteRows | cpputils/src/bitmap.cpp:62-72 | the output gains exactly the saved rows, each followed by its zero padding |
| Bitmap.SaveBitmap | cpputils/src/bitmap.cpp:46-73 | "Error saving bitmap at" exactly when the file cannot be opened; otherwise the header followed by the padded rows |
| Classifying.LargestUnique | librichard/src/classifier.cpp:16-26 | at most one index is the one `largestComponent` picks |
| Classifying.LargestExists | librichard/src/classifier.cpp:16-26 | every vector, the empty one included, has an index `largestComponent` picks |
| Classifying.Largest | librichard/src/classifier.cpp:16-26 | 0 when no component exceeds `numeric_limits<float>::min()`, otherwise the first component above it that no other exceeds |
| Classifying.LargestOneHot | librichard/src/classifier.cpp:16-105 | the one-hot class vector of class `i` has its largest component at `i` (lines 16-26 and 105) |
| Classifying.LargestComponent | librichard/src/classifier.cpp:16-26 | the running-maximum loop returns the index `Largest` specifies |
| Classifying.OutputsMatch | librichard/src/classifier.cpp:15-29 | true exactly when both vectors have their largest component at the same index |
| Classifying.OutputsMatchSymmetric | librichard/src/classifier.cpp:15-29 | `outputsMatch(x, y)` equals `outputsMatch(y, x)` |
| Classifying.CountTrue | librichard/src/classifier.cpp:107-114 | the number of true guesses is at most the number of guesses |
| Classifying.TallyStep | librichard/src/classifier.cpp:104-114 | one more sample throws when its label has no class vector, otherwise adds one guess and one to `good` or `bad` |
| Classifying.TallyErrSticks | librichard/src/classifier.cpp:100-121 | once a sample has thrown, later samples change nothing |
| Classifying.TallyErr | librichard/src/classifier.cpp:105 | the tally throws exactly when some sample's label has no class vector |
| Classifying.TallyCounts | librichard/src/classifier.cpp:107-114 | without a throw there is one guess per sample, `good` counts the true guesses and `good + bad` the samples |
| Classifying.TallyGuesses | librichard/src/classifier.cpp:107-114 | without a throw, guess `k` says whether sample `k` matched its class vector |
| Classifying.Classifier.constructor | librichard/src/classifier.cpp:51-66 | a new classifier is not trained |
| Classifying.Classifier.FromStream | librichard/src/classifier.cpp:33-49 | a classifier read from a stream is trained |
| Classifying.Classifier.WriteToStream | librichard/src/classifier.cpp:72-76 | succeeds exactly when the classifier is trained, otherwise "Classifier not trained" |
| Classifying.Classifier.Train | librichard/src/classifier.cpp:78-81 | the classifier is trained afterwards |
| Classifying.Classifier.Test | librichard/src/classifier.cpp:83-126 | "Classifier not trained" when untrained; otherwise the tally of every sample of the batches before the first empty one |
| Classifying.TallyBatches | librichard/src/classifier.cpp:97-121 | the batch loop gives the tally of all samples before the first empty batch |
| Classifying.TallyBatch | librichard/src/classifier.cpp:100-118 | the sample loop extends the tally by exactly the batch's samples |
| CsvLoading.Fields | librichard/src/csv_data_loader.cpp:36-42 | at least one field, none holding a comma |
| CsvLoading.Join | librichard/src/csv_data_loader.cpp:36-42 | the line rebuilt from its fields has one comma between each pair of them |
| CsvLoading.JoinFields | librichard/src/csv_data_loader.cpp:36-42 | splitting a line at its commas and joining the fields gives the line back |
| CsvLoading.FieldsJoin | librichard/src/csv_data_loader.cpp:36-42 | comma-free fields joined and split again are the same fields |
| CsvLoading.ParsedLine | librichard/src/csv_data_loader.cpp:32-55 | a sample has shape (inputSize, 1, 1) and a non-empty label; the error cases are an unconvertible value and "Input too large" |
| CsvLoading.ParseLine | librichard/src/csv_data_loader.cpp:32-55 | the token loop gives exactly what `ParsedLine` says of the line's fields |
| CsvLoading.ExampleLine | librichard/src/csv_data_loader.cpp:7-55 | the line "1,0,255,128" with input size 3 gives label "1" and the three converted values (lines 7-15 and 32-55) |
| CsvLoading.ExampleFields | librichard/src/csv_data_loader.cpp:36-42 | the line "1,0,255,128" splits at its commas into "1", "0", "255" and "128" |
| CsvLoading.ParsedLines | librichard/src/csv_data_loader.cpp:31-56 | what each line of the stream yields on its own, one result per line |
| CsvLoading.Fetch | librichard/src/csv_data_loader.cpp:27-63 | the stream position afterwards is between the start and the end |
| CsvLoading.Prepend | librichard/src/csv_data_loader.cpp:55 | samples read earlier stay in front of those read later; an error replaces them |
| CsvLoading.FetchOk | librichard/src/csv_data_loader.cpp:27-63 | a successful fetch returns the samples of the lines it consumed, in order, at most `fetchSize` (at least one line when `fetchSize` is 0), fewer only at the end of the stream |
| CsvLoading.FetchErr | librichard/src/csv_data_loader.cpp:37-48 | a failing fetch stops just after the first line that throws, with its message |
| CsvLoading.OneLineStream | librichard/src/csv_data_loader.cpp:27-63 | a one-line stream yields that line's sample or error whatever the fetch size |
| CsvLoading.FetchedNext | librichard/src/csv_data_loader.cpp:55-59 | one more sample either reaches the fetch size and ends the fetch or keeps the loop going |
| CsvLoading.FetchLines | librichard/src/csv_data_loader.cpp:31-60 | the line loop returns what `Fetch` specifies, leaves the stream where it says, and reports whether its last `getline` failed, which happens only at the end of the stream |
| CsvLoading.ReadsToEndAtEnd | librichard/src/csv_data_loader.cpp:31-60 | a fetch whose loop ends on a failed `getline` leaves the stream at its end |
| CsvLoading.Rewound | librichard/src/csv_data_loader.cpp:23-25 | `seekg(0)` moves to the first line of a good stream and leaves a failed stream where it is |
| CsvLoading.RewindAfterEndReadsNothing | librichard/src/csv_data_loader.cpp:23-31 | after a fetch that read to the end, a rewind leaves every later fetch empty |
| CsvLoading.SecondEpochEmpty | librichard/src/csv_data_loader.cpp:23-31 | a one-line stream with fetches of 1: the first epoch reads the line, the next fetch hits the end, and after the rewind the second epoch reads nothing, where a cleared stream reads the line again |
| CsvLoading.CsvDataLoader.constructor | librichard/src/csv_data_loader.cpp:16-21 | keeps the stream, input size, normalisation and fetch size, at the start of the stream with no failbit |
| CsvLoading.CsvDataLoader.SeekToBeginning | librichard/src/csv_data_loader.cpp:23-25 | `seekg(0)`: back at the first line while the stream is good; once the failbit is set the stream stays where it is and stays failed |
| CsvLoading.CsvDataLoader.Rewind | librichard/src/csv_data_loader.cpp:23-25 | the intended rewind, clearing the stream state before seeking: the loader is back in the state its constructor leaves it in |
| CsvLoading.CsvDataLoader.LoadSamples | librichard/src/csv_data_loader.cpp:27-63 | returns what `Fetch` gives from the current position and moves the stream to where it stops; the failbit is set exactly when it was already set or the loop ended on a `getline` that found no line |
| CpuConvolution.ZeroFilters | richard/src/cpu/convolutional_layer.cpp:48-184 | the cleared gradient filters have the layer's shape (lines 48 and 183-184) |
| CpuConvolution.FilterStreamSnoc | richard/src/cpu/convolutional_layer.cpp:189-193 | writing one more filter appends its bias and then its kernel |
| CpuConvolution.ReadFilters | richard/src/cpu/convolutional_layer.cpp:20-24 | reading keeps the number of filters and each kernel's size |
| CpuConvolution.FilterStreamRoundTrip | richard/src/cpu/convolutional_layer.cpp:20-194 | reading back what `writeToStream` wrote restores every filter and leaves the rest of the stream (lines 20-24 and 188-194) |
| CpuConvolution.WriteFilters | richard/src/cpu/convolutional_layer.cpp:188-194 | the write loop appends exactly each filter's bias and kernel in order |
| CpuConvolution.ReadFiltersFrom | richard/src/cpu/convolutional_layer.cpp:20-24 | the read loop gives exactly what `ReadFilters` specifies |
| CpuConvolution.ReadAdvance | richard/src/cpu/convolutional_layer.cpp:21-23 | reading one more filter's bias and kernel keeps the read loop's invariant |
| CpuConvolution.PerSlice | richard/src/cpu/convolutional_layer.cpp:151-170 | a slice-by-slice routine yields one result slice per input slice |
| CpuConvolution.PerSliceAt | richard/src/cpu/convolutional_layer.cpp:151-170 | cell `c` of result slice `z` is cell `c` of the routine applied to input slice `z` |
| CpuConvolution.FilterInputDelta | richard/src/cpu/convolutional_layer.cpp:151-160 | a filter's part of the input delta has the input's size |
| CpuConvolution.InputDeltaSum | richard/src/cpu/convolutional_layer.cpp:137-160 | the input delta after any number of filters has the input's size |
| CpuConvolution.GradientStep | richard/src/cpu/convolutional_layer.cpp:162-172 | a gradient filter keeps its kernel size after a sample |
| CpuConvolution.Backprop | richard/src/cpu/convolutional_layer.cpp:137-173 | the filter loop leaves the input delta the sum of every filter's part from zero, and gradient filter `i` its old value plus this sample's step |
| CpuConvolution.ConvolutionalLayer.constructor | richard/src/cpu/convolutional_layer.cpp:44-54 | the given filters, zero gradients, and zero activations and input delta of the right sizes |
| CpuConvolution.ConvolutionalLayer.Create | richard/src/cpu/convolutional_layer.cpp:11-55 | the first missing setting is the error; then "Kernel width" or "Kernel height" when the kernel is larger than the input, width first; otherwise a layer of `depth` filters with zero biases |
| CpuConvolution.ConvolutionalLayer.OutputSize | richard/src/cpu/convolutional_layer.cpp:65-72 | `inputW - kernelW + 1` by `inputH - kernelH + 1` by the number of filters, whose product is the activation size |
| CpuConvolution.ConvolutionalLayer.NumOutputs | richard/src/cpu/convolutional_layer.cpp:74-77 | the product of the output extents, which is the activation size |
| CpuConvolution.ConvolutionalLayer.WriteToStream | richard/src/cpu/convolutional_layer.cpp:188-194 | the stream gains each filter's bias and kernel in order |
| CpuConvolution.ConvolutionalLayer.UpdateDeltas | richard/src/cpu/convolutional_layer.cpp:125-174 | the delta is the output delta times `reluPrime(Z)`; the input delta is the sum of every filter's part from zero; each gradient adds this sample's step; filters and activations unchanged |
| CpuConvolution.ConvolutionalLayer.UpdateParams | richard/src/cpu/convolutional_layer.cpp:176-186 | each kernel and bias moves against its gradient times `learnRate * learnRateDecay^epoch`, and every gradient is cleared |
| CpuConvolution.ConvolutionalLayer.SetFilters | richard/src/cpu/convolutional_layer.cpp:196-198 | replaces the filters and nothing else |
| CpuConvolution.Descend | richard/src/cpu/convolutional_layer.cpp:179-182 | every kernel cell and bias is its old value minus the gradient times the rate, keeping the shape |
| CpuConvolution.InitialFilters | richard/src/cpu/convolutional_layer.cpp:44-49 | `depth` filters of the kernel's shape with zero biases |
| CpuMaxPooling.MaxPoolingLayer.constructor | richard/src/cpu/max_pooling_layer.cpp:8-25 | the given shape, with zero activations, mask and input delta of the right sizes |
| CpuMaxPooling.MaxPoolingLayer.Create | richard/src/cpu/max_pooling_layer.cpp:8-25 | succeeds exactly when the region divides the input; "Region width" when it does not divide the width, else "Region height" |
| CpuMaxPooling.MaxPoolingLayer.OutputSize | richard/src/cpu/max_pooling_layer.cpp:27-33 | the input extents divided by the region, as deep as the input; the product is the activation size |
| CpuMaxPooling.MaxPoolingLayer.TrainForward | richard/src/cpu/max_pooling_layer.cpp:43-78 | every activation is the maximum of its region, and, when some value of the region exceeds lowest(), the mask is 1 at exactly the first largest cell of that region and 0 elsewhere in it; a region with no value above lowest() pools to lowest() and has its 1 written at image cell (0, 0, z) |
| CpuMaxPooling.MaxPoolingLayer.EvalForward | richard/src/cpu/max_pooling_layer.cpp:80-112 | every output cell is the maximum of its region; the layer is not changed |
| CpuMaxPooling.MaxPoolingLayer.UpdateDeltas | richard/src/cpu/max_pooling_layer.cpp:114-140 | every input cell gets its region's output delta where the mask is set and 0 elsewhere |
| CpuNeuralNet.Limit | librichard/src/cpu/cpu_neural_net.cpp:225-235 | an epoch stops after `batchSize` samples, or after the first when `batchSize` is 0 |
| CpuNeuralNet.FetchAdvance | librichard/src/cpu/cpu_neural_net.cpp:206-239 | one pass of the fetch loop either reaches the limit and completes the epoch's trace or leaves the rest of the plan still to run |
| CpuNeuralNet.NoSampleNumbers | librichard/src/cpu/cpu_neural_net.cpp:157-189 | layer calls raise no event |
| CpuNeuralNet.SampleCallsRaiseNothing | librichard/src/cpu/cpu_neural_net.cpp:217-223 | the forward pass, backpropagation and update of a sample raise no event |
| CpuNeuralNet.SampleStepsNumbers | librichard/src/cpu/cpu_neural_net.cpp:212-227 | sample `k` raises exactly one `ESampleProcessed`, numbered `k` |
| CpuNeuralNet.SamplesNumbers | librichard/src/cpu/cpu_neural_net.cpp:212-232 | samples `a` to `b - 1` raise one event each, in order |
| CpuNeuralNet.ExpandNumbers | librichard/src/cpu/cpu_neural_net.cpp:206-239 | consecutive chunks of the fetch loop number their samples in order |
| CpuNeuralNet.EpochSampleNumbers | librichard/src/cpu/cpu_neural_net.cpp:198-244 | an epoch raises `ESampleProcessed` for samples 0, 1, ... in order, as many as the data set holds before its first empty fetch but no more than the limit |
| CpuNeuralNet.UpdateSchedule | librichard/src/cpu/cpu_neural_net.cpp:220-223 | the parameters are updated after sample `k` exactly when `k + 1` is a multiple of the mini-batch size or equals the batch size |
| CpuNeuralNet.BackpropInputsMatchForward | librichard/src/cpu/cpu_neural_net.cpp:157-183 | each layer's `updateDeltas` gets the input its forward pass read, and the label or the next layer's input delta as output delta |
| CpuNeuralNet.ChainedAppend | librichard/src/cpu/cpu_neural_net.cpp:90-93 | a layer built for the shape the chain ends with extends the chain |
| CpuNeuralNet.WrittenStep | librichard/src/cpu/cpu_neural_net.cpp:148-150 | writing one more layer appends its parameters |
| CpuNeuralNet.CpuNeuralNet.constructor | librichard/src/cpu/cpu_neural_net.cpp:78-99 | keeps the shapes, hyperparameters and layers with an empty trace |
| CpuNeuralNet.CpuNeuralNet.ConstructDense | librichard/src/cpu/cpu_neural_net.cpp:114-131 | a fresh dense or output layer with `calcProduct(prev)` inputs |
| CpuNeuralNet.CpuNeuralNet.ConstructConv | librichard/src/cpu/cpu_neural_net.cpp:119-123 | a fresh convolutional layer that accepts the previous shape |
| CpuNeuralNet.CpuNeuralNet.ConstructPool | librichard/src/cpu/cpu_neural_net.cpp:124-126 | a fresh max-pooling layer that accepts the previous shape |
| CpuNeuralNet.CpuNeuralNet.ConstructLayer | librichard/src/cpu/cpu_neural_net.cpp:109-135 | a missing "type" is its error, an unknown one "Don't know how to construct layer of type"; a built layer accepts the previous shape; a max-pooling layer reads nothing from the stream |
| CpuNeuralNet.CpuNeuralNet.BuildHidden | librichard/src/cpu/cpu_neural_net.cpp:87-94 | the hidden layers in order, each built for the shape the one before outputs, forming a chain |
| CpuNeuralNet.CpuNeuralNet.BuildNext | librichard/src/cpu/cpu_neural_net.cpp:90-93 | one more hidden layer, of the type its configuration names and built for the shape the chain ends with, extends the chain; the layers before stay as they were |
| CpuNeuralNet.CpuNeuralNet.ConstructOutput | librichard/src/cpu/cpu_neural_net.cpp:96-98 | a fresh output layer that accepts the shape the hidden layers end with |
| CpuNeuralNet.CpuNeuralNet.ChainLayers | librichard/src/cpu/cpu_neural_net.cpp:85-98 | the hidden layers, then the output layer, every one fresh, forming a chain from the input shape whose hidden layers have the types their configurations name |
| CpuNeuralNet.CpuNeuralNet.Create | librichard/src/cpu/cpu_neural_net.cpp:63-99 | a missing "hyperparams" is the error; otherwise a chained network ending in an output layer, trained exactly when read from a stream |
| CpuNeuralNet.CpuNeuralNet.FeedForward | librichard/src/cpu/cpu_neural_net.cpp:157-167 | every layer's `trainForward` in order, each on the previous layer's activations |
| CpuNeuralNet.CpuNeuralNet.BackPropagate | librichard/src/cpu/cpu_neural_net.cpp:169-183 | every layer's `updateDeltas` from the last down to the first |
| CpuNeuralNet.CpuNeuralNet.UpdateLayers | librichard/src/cpu/cpu_neural_net.cpp:185-189 | every layer's `updateParams(epoch)` in order |
| CpuNeuralNet.CpuNeuralNet.ProcessSample | librichard/src/cpu/cpu_neural_net.cpp:213-227 | forward, backpropagation, the update when scheduled, then the sample's event |
| CpuNeuralNet.CpuNeuralNet.ProcessFetch | librichard/src/cpu/cpu_neural_net.cpp:212-232 | processes the fetch's samples in order until the limit, counting them |
| CpuNeuralNet.CpuNeuralNet.RunEpoch | librichard/src/cpu/cpu_neural_net.cpp:198-244 | the start event, the fetch loop's samples, the completion event and the rewind |
| CpuNeuralNet.CpuNeuralNet.FetchLoop | librichard/src/cpu/cpu_neural_net.cpp:203-239 | the samples of the fetches in order, each fetch after a load, until the data runs out or the batch size is reached |
| CpuNeuralNet.CpuNeuralNet.Train | librichard/src/cpu/cpu_neural_net.cpp:191-248 | every epoch until the abort flag is seen, then the network is trained |
| CpuNeuralNet.CpuNeuralNet.Evaluate | librichard/src/cpu/cpu_neural_net.cpp:250-258 | the composition of every layer's `evalForward`, starting from the sample |
| CpuNeuralNet.CpuNeuralNet.WriteToStream | librichard/src/cpu/cpu_neural_net.cpp:145-151 | "Neural net is not trained" when untrained, otherwise every layer's parameters in order |
| DenseLayers.Row | librichard/src/cpu/dense_layer.cpp:60-73 | row `r` of the weight matrix holds the weights of neuron `r` |
| DenseLayers.Column | librichard/src/cpu/dense_layer.cpp:88 | column `c` of the weight matrix holds the weights every neuron gives input `c` |
| DenseLayers.Forward | librichard/src/cpu/dense_layer.cpp:60 | neuron `r` outputs the activation of its row dotted with the input plus its bias |
| DenseLayers.ForwardExample | librichard/test/src/cpu_dense_layer_test.cpp:29-44 | the worked example of the layer's test: weights [[2, 1, 3], [1, 4, 2]], biases (5, 7), input (3, 4, 2) and `f(x) = 2x` give (42, 60) |
| DenseLayers.Zeros | librichard/src/cpu/dense_layer.cpp:30-35 | a freshly constructed vector of `n` zeros |
| DenseLayers.Pow | librichard/src/cpu/dense_layer.cpp:95 | `pow` of a non-negative base is non-negative, and at most 1 for a base in [0, 1] |
| DenseLayers.DecayedRate | librichard/src/cpu/dense_layer.cpp:95 | `learnRate * pow(learnRateDecay, epoch)`: the initial rate in epoch 0, and between 0 and the initial rate for a decay in [0, 1] |
| DenseLayers.DecayedRateStep | librichard/src/cpu/dense_layer.cpp:95 | each epoch multiplies the rate by the decay once more |
| DenseLayers.Deserialized | librichard/src/cpu/dense_layer.cpp:14-19 | reads `size` biases, then `inputSize * size` weights |
| DenseLayers.StreamRoundTrip | librichard/src/cpu/dense_layer.cpp:14-42 | reading back what `writeToStream` wrote restores the biases and weights and leaves the rest of the stream |
| DenseLayers.DenseLayer.constructor | librichard/src/cpu/dense_layer.cpp:21-36 | every parameter, gradient and the input delta are zeros of the right sizes, with the sigmoid as activation |
| DenseLayers.DenseLayer.Create | librichard/src/cpu/dense_layer.cpp:8-36 | the first missing setting of "size", "learnRate", "learnRateDecay", "dropoutRate" is the error; otherwise random weights, or the biases and weights read from the stream |
| DenseLayers.DenseLayer.WriteToStream | librichard/src/cpu/dense_layer.cpp:38-42 | the stream gains the biases, then the weights |
| DenseLayers.DenseLayer.OutputSize | librichard/src/cpu/dense_layer.cpp:44-46 | (size, 1, 1), whose product is the number of neurons |
| DenseLayers.DenseLayer.EvalForward | librichard/src/cpu/dense_layer.cpp:56-63 | output `k` is the activation of row `k` dotted with the input plus bias `k` |
| DenseLayers.DenseLayer.TrainForward | librichard/src/cpu/dense_layer.cpp:65-81 | `Z` is `W x + B`; each activation is 0 where dropped and otherwise what `evalForward` gives; parameters unchanged |
| DenseLayers.DenseLayer.UpdateDeltas | librichard/src/cpu/dense_layer.cpp:83-92 | the input delta is `Wᵀ · delta`; the gradients gain `delta` and its outer product with the inputs; parameters unchanged |
| DenseLayers.DenseLayer.UpdateParams | librichard/src/cpu/dense_layer.cpp:94-102 | weights and biases move against their gradients times `learnRate * learnRateDecay^epoch`, and the gradients are cleared |
| DenseLayers.DenseLayer.SetWeights | librichard/src/cpu/dense_layer.cpp:104-106 | replaces the weights, keeping the shape and everything else |
| DenseLayers.Delta | librichard/src/cpu/dense_layer.cpp:87 | the output delta times the activation's slope at each weighted input |
| DenseLayers.AddVector | librichard/src/cpu/dense_layer.cpp:91 | element-by-element sum |
| DenseLayers.Backward | librichard/src/cpu/dense_layer.cpp:88 | input `c` receives column `c` dotted with the delta |
| DenseLayers.Mul | librichard/src/cpu/dense_layer.cpp:60-73 | neuron `r`'s weighted input is row `r` dotted with the input |
| DenseLayers.DotLinear | librichard/src/cpu/dense_layer.cpp:88-90 | the dot product is linear in its first argument |
| DenseLayers.BackwardIsAdjoint | librichard/src/cpu/dense_layer.cpp:73-88 | the input delta is the gradient with respect to the inputs: `delta · (W x) == (Wᵀ delta) · x` for every `x` |
| DenseLayers.Descend | librichard/src/cpu/dense_layer.cpp:97-98 | each parameter minus its gradient times the rate |
| DenseLayers.AddOuter | librichard/src/cpu/dense_layer.cpp:90 | the accumulated weight gradient keeps its size |
| DenseLayers.AddOuterCell | librichard/src/cpu/dense_layer.cpp:90 | cell (`c`, `row`) of the weight gradient gains `delta[row] * inputs[c]` |
| Events.Min | librichard/src/event_system.cpp:16-29 | the least id of a non-empty set: a member no larger than any other |
| Events.Dispatch | librichard/src/event_system.cpp:27-32 | one call per registered handler |
| Events.DispatchNone | librichard/src/event_system.cpp:27-32 | raising an event nobody listens to calls nothing |
| Events.DispatchCallsEach | librichard/src/event_system.cpp:27-32 | `raise` calls every registered handler and nothing else |
| Events.DispatchOrder | librichard/src/event_system.cpp:16-31 | a handler with a smaller id is called before one with a larger id |
| Events.DispatchAppend | librichard/src/event_system.cpp:19-31 | a handler registered under an id above every other is called after all of them |
| Events.ListenedCalledLast | librichard/src/event_system.cpp:21-31 | the handler `listen` just registered is called after every handler already there |
| Events.MinOf | librichard/src/event_system.cpp:29 | the scan finds the least id |
| Events.CallAll | librichard/src/event_system.cpp:29-31 | the loop calls the handlers least id first, as `Dispatch` says |
| Events.IdCounter.constructor | librichard/src/event_system.cpp:19 | the id counter starts at 1 |
| Events.Listened | librichard/src/event_system.cpp:23 | adds the handler under the new id for that event, keeping every other handler |
| Events.Erased | librichard/src/event_system.cpp:51 | removes that handler id for that event, keeping every other handler |
| Events.EraseUndoesListen | librichard/src/event_system.cpp:21-53 | destroying the handle right after `listen` restores every event's handlers |
| Events.EventSystem.constructor | librichard/src/event_system.cpp:7-57 | no handlers, sharing the id counter (lines 7-17 and 55-57) |
| Events.EventSystem.Listen | librichard/src/event_system.cpp:21-25 | takes the next id, advances the counter, registers the handler under a new id and returns its handle |
| Events.EventSystem.Raise | librichard/src/event_system.cpp:27-32 | calls the event's handlers in ascending id order, leaving an empty entry for an unknown event |
| Events.EventHandle.constructor | librichard/src/event_system.cpp:36-39 | keeps the system, event id and handler id |
| Events.EventHandle.Moved | librichard/src/event_system.cpp:41-47 | takes over the source's handler and sets the source's id to 0 |
| Events.EventHandle.Destroy | librichard/src/event_system.cpp:49-53 | removes the handle's handler, and nothing for a handle moved from |
| GpuConvolution.FiltersOf | librichard/src/gpu/convolutional_layer.cpp:30-36 | the flat kernel and bias arrays cut into one filter per bias |
| GpuConvolution.FiltersOfFlatten | librichard/src/gpu/convolutional_layer.cpp:30-315 | cutting the flat arrays into filters and laying them out again gives the arrays back (lines 30-36 and 307-315) |
| GpuConvolution.SetFilterAt | librichard/src/gpu/convolutional_layer.cpp:33-35 | overwriting filter `i` in the flat arrays changes exactly its kernel slice and its bias |
| GpuConvolution.ReadParams | librichard/src/gpu/convolutional_layer.cpp:30-36 | the read loop gives what reading the same stream filter by filter gives, keeping the array sizes |
| GpuConvolution.ParamsAdvance | librichard/src/gpu/convolutional_layer.cpp:33-35 | reading filter `i` into the flat arrays keeps the read loop's invariant |
| GpuConvolution.ParamsRoundTrip | librichard/src/gpu/convolutional_layer.cpp:30-315 | reading back what `writeToStream` wrote restores every kernel value and bias and leaves the rest of the stream (lines 30-36 and 307-315) |
| GpuConvolution.InitialKernels | librichard/src/gpu/convolutional_layer.cpp:51-59 | `depth * kernelSize` random kernel values |
| GpuConvolution.ConvolutionalLayer.OutputSize | librichard/src/gpu/convolutional_layer.cpp:259-265 | `inputW - kernelW + 1` by `inputH - kernelH + 1` by `depth` |
| GpuConvolution.ConvolutionalLayer.Size | librichard/src/gpu/convolutional_layer.cpp:255-257 | the product of the output extents |
| GpuConvolution.ConvolutionalLayer.constructor | librichard/src/gpu/convolutional_layer.cpp:39-66 | keeps the shapes, settings and parameter arrays |
| GpuConvolution.ConvolutionalLayer.Create | librichard/src/gpu/convolutional_layer.cpp:11-66 | the first missing setting is the error; then "Kernel width" or "Kernel height" when the kernel is larger than the input, width first; otherwise random kernels and zero biases, overwritten from the stream when there is one |
| GpuConvolution.ConvolutionalLayer.WriteToStream | librichard/src/gpu/convolutional_layer.cpp:307-315 | for each filter its bias, then its kernel: the layout the CPU layer writes |
| GpuConvolution.ConvolutionalLayer.AllocateGpuBuffers | librichard/src/gpu/convolutional_layer.cpp:68-97 | eight new buffers in the order K, B, Z, A, D, input delta, kernel gradient, bias gradient, each with its size in bytes and flags |
| GpuConvolution.ConvolutionalLayer.AllocateForwardBuffers | librichard/src/gpu/convolutional_layer.cpp:77-80 | the kernel, bias and feature-map buffers, in order |
| GpuConvolution.ConvolutionalLayer.AllocateBackwardBuffers | librichard/src/gpu/convolutional_layer.cpp:81-86 | the delta, input delta and gradient buffers, in order |
| GpuConvolution.ConvolutionalLayer.CreateGpuShaders | librichard/src/gpu/convolutional_layer.cpp:99-110 | six new pipelines in the source's order, each reading and writing the buffers its bindings name, with its work size and its specialization constants |
| GpuConvolution.ConvolutionalLayer.CreateForwardShaders | librichard/src/gpu/convolutional_layer.cpp:104-106 | the evaluation, training and delta pipelines, with their bindings, work sizes and constants |
| GpuConvolution.ConvolutionalLayer.CreateBackwardShaders | librichard/src/gpu/convolutional_layer.cpp:107-109 | the input delta, gradient and update pipelines, with their bindings, work sizes and constants |
| GpuConvolution.ConvolutionalLayer.CreateEvalForwardShader | librichard/src/gpu/convolutional_layer.cpp:112-132 | reads the input, K and B and writes A, over the output extents, specialized with the kernel width and height and the input depth |
| GpuConvolution.ConvolutionalLayer.CreateTrainForwardShader | librichard/src/gpu/convolutional_layer.cpp:134-161 | reads status, input, K and B and writes Z and A, with a 4-byte seed, specialized with the kernel extents, whether the layer is first and the dropout rate |
| GpuConvolution.ConvolutionalLayer.CreateBackpropDeltaShader | librichard/src/gpu/convolutional_layer.cpp:163-176 | reads Z and the next layer's input delta and writes D, with no constants beyond the workgroup size |
| GpuConvolution.ConvolutionalLayer.CreateBackpropInputDeltaShader | librichard/src/gpu/convolutional_layer.cpp:178-199 | reads K and D and writes the input delta, over the input extents, specialized with the kernel extents, input depth and layer depth |
| GpuConvolution.ConvolutionalLayer.CreateBackpropParamDeltasShader | librichard/src/gpu/convolutional_layer.cpp:201-228 | reads status, input and D and writes the kernel and bias gradients, specialized with the output and input extents and whether the layer is first |
| GpuConvolution.ConvolutionalLayer.CreateUpdateParamsShader | librichard/src/gpu/convolutional_layer.cpp:230-253 | reads status and writes K, B and both gradients, specialized with the kernel extents, the learn rate and its decay |
| GpuConvolution.ConvolutionalLayer.EvalForward | librichard/src/gpu/convolutional_layer.cpp:267-269 | queues exactly the evaluation shader |
| GpuConvolution.ConvolutionalLayer.TrainForward | librichard/src/gpu/convolutional_layer.cpp:271-274 | queues exactly the training shader |
| GpuConvolution.ConvolutionalLayer.Backprop | librichard/src/gpu/convolutional_layer.cpp:276-280 | queues the delta, input delta and gradient shaders, in that order |
| GpuConvolution.ConvolutionalLayer.UpdateParams | librichard/src/gpu/convolutional_layer.cpp:282-284 | queues exactly the update shader |
| GpuConvolution.ConvolutionalLayer.RetrieveBuffers | librichard/src/gpu/convolutional_layer.cpp:302-305 | the kernels and biases become what the device buffers hold |
| GpuConvolution.ConvolutionalLayer.SetKernels | librichard/src/gpu/convolutional_layer.cpp:317-319 | replaces the kernel data |
| GpuConvolution.ConvolutionalLayer.SetBiases | librichard/src/gpu/convolutional_layer.cpp:321-323 | replaces the bias data |
| GpuMaxPooling.RegionConstants | librichard/src/gpu/max_pooling_layer.cpp:53-56 | two well-typed unsigned constants holding the region width and height |
| GpuMaxPooling.Tiling | librichard/src/gpu/max_pooling_layer.cpp:23-112 | regions that tile the input leave one output value per `regionW * regionH` input values (lines 23-26 and 106-112) |
| GpuMaxPooling.MaxPoolingLayer.constructor | librichard/src/gpu/max_pooling_layer.cpp:10-27 | keeps the device and the shape |
| GpuMaxPooling.MaxPoolingLayer.Create | librichard/src/gpu/max_pooling_layer.cpp:10-27 | a missing "regionSize" is the error; then "Region width" when the region does not divide the width, else "Region height"; otherwise a layer of that shape |
| GpuMaxPooling.MaxPoolingLayer.OutputSize | librichard/src/gpu/max_pooling_layer.cpp:110-112 | the input extents divided by the region, as deep as the input |
| GpuMaxPooling.MaxPoolingLayer.Size | librichard/src/gpu/max_pooling_layer.cpp:106-108 | the number of output values, each standing for `regionW * regionH` input values |
| GpuMaxPooling.MaxPoolingLayer.AllocateGpuBuffers | librichard/src/gpu/max_pooling_layer.cpp:29-35 | three new buffers: the activations, then the input delta and the mask as large as the input |
| GpuMaxPooling.MaxPoolingLayer.CreateGpuShaders | librichard/src/gpu/max_pooling_layer.cpp:37-104 | three new pipelines, each specialized with the region width and height: evaluation reads the input and writes Z; training also writes the mask; backprop reads the next layer's input delta and the mask and writes the input delta |
| GpuMaxPooling.MaxPoolingLayer.AddPoolingShader | librichard/src/gpu/max_pooling_layer.cpp:53-63 | a pipeline with the region constants, reading and writing what its bindings say, over the output extents |
| GpuMaxPooling.MaxPoolingLayer.EvalForward | librichard/src/gpu/max_pooling_layer.cpp:114-116 | queues exactly the evaluation shader |
| GpuMaxPooling.MaxPoolingLayer.TrainForward | librichard/src/gpu/max_pooling_layer.cpp:118-120 | queues exactly the training shader |
| GpuMaxPooling.MaxPoolingLayer.Backprop | librichard/src/gpu/max_pooling_layer.cpp:122-124 | queues exactly the backprop shader |
| GpuMaxPooling.MaxPoolingLayer.WriteToStream | librichard/src/gpu/max_pooling_layer.cpp:150 | writes nothing |
| GpuMaxPooling.MaxPoolingLayer.UpdateParams | librichard/src/gpu/max_pooling_layer.cpp:126 | changes neither the layer nor the device |
| GpuMaxPooling.MaxPoolingLayer.RetrieveBuffers | librichard/src/gpu/max_pooling_layer.cpp:148 | changes neither the layer nor the device |
| GpuMaxPooling.MaxPoolingLayer.WeightsBuffer | librichard/src/gpu/max_pooling_layer.cpp:132-134 | always "Max pooling layer does not have a weights buffer" |
| GpuMaxPooling.MaxPoolingLayer.DeltaBuffer | librichard/src/gpu/max_pooling_layer.cpp:136-138 | always "Max pooling layer does not have a delta buffer" |
| GpuNeuralNet.ChainedAppend | librichard/src/gpu/gpu_neural_net.cpp:112-115 | a layer built for the shape the chain ends with extends the chain |
| GpuNeuralNet.ShadersChained | librichard/src/gpu/gpu_neural_net.cpp:219-225 | the first layer reads the sample buffer, every other reads the output buffer of the layer before it, and only the last has no next layer |
| GpuNeuralNet.CopiesAsWritten | librichard/src/gpu/gpu_neural_net.cpp:259-301 | the source copies a whole mini-batch, samples `cursor` to `cursor + miniBatchSize - 1`, however many the fetch has left |
| GpuNeuralNet.ShortFetchOverread | librichard/src/gpu/gpu_neural_net.cpp:300-301 | a fetch of 3 samples with mini-batches of 2 makes the second mini-batch copy sample 3, past the fetch |
| GpuNeuralNet.Copies | librichard/src/gpu/gpu_neural_net.cpp:300-301 | the corrected copies: samples `cursor`, `cursor + 1`, … in order, each inside the fetch, a whole mini-batch when the fetch holds one and at least one while samples remain |
| GpuNeuralNet.CopiesStayInFetch | librichard/src/gpu/gpu_neural_net.cpp:300-301 | the corrected copies read only samples the fetch has, and equal the source's whenever a whole mini-batch is left |
| GpuNeuralNet.CopiesFit | librichard/src/gpu/gpu_neural_net.cpp:196-264 | every copy slot of a mini-batch fits the buffers sized for one mini-batch, and no two copies overlap (lines 196-197 and 256-264) |
| GpuNeuralNet.RoundsShape | librichard/src/gpu/gpu_neural_net.cpp:304-314 | each of the `miniBatchSize` rounds runs every layer forward, every layer backward, then the costs shader |
| GpuNeuralNet.RoundOrder | librichard/src/gpu/gpu_neural_net.cpp:305-313 | a round runs the layers forward in order, then backward from the last, then the costs shader |
| GpuNeuralNet.CeilBound | librichard/src/gpu/gpu_neural_net.cpp:300 | `k` mini-batches hold `a` samples exactly when `k` is at least `ceil(a / m)` |
| GpuNeuralNet.BatchLimit | librichard/src/gpu/gpu_neural_net.cpp:322-327 | the number of mini-batches after which an epoch stops is at least one |
| GpuNeuralNet.StopRule | librichard/src/gpu/gpu_neural_net.cpp:322-327 | the test `samplesProcessed >= batchSize` after `k` mini-batches holds exactly from the limit on |
| GpuNeuralNet.LoopCount | librichard/src/gpu/gpu_neural_net.cpp:300-328 | a fetch loop stopping at the limit or at the end of the fetch runs `min(ceil(size / m), limit - done)` mini-batches |
| GpuNeuralNet.BatchCounts | librichard/src/gpu/gpu_neural_net.cpp:300 | one mini-batch count per fetch |
| GpuNeuralNet.CountPositive | librichard/src/gpu/gpu_neural_net.cpp:297-300 | a fetch has mini-batches exactly when it has samples |
| GpuNeuralNet.FetchAdvance | librichard/src/gpu/gpu_neural_net.cpp:297-335 | one pass of the fetch loop either reaches the limit and completes the epoch's trace or leaves the rest of the plan still to run |
| GpuNeuralNet.EpochMiniBatches | librichard/src/gpu/gpu_neural_net.cpp:292-335 | an epoch runs its mini-batches in order, no more from a fetch than it holds, as many as the data holds but no more than the limit; the stop test fails before the last and holds after it when the data lasts |
| GpuNeuralNet.MiniBatchReadsWithin | librichard/src/gpu/gpu_neural_net.cpp:300-321 | a corrected mini-batch reads only samples of its fetch |
| GpuNeuralNet.FetchReadsWithin | librichard/src/gpu/gpu_neural_net.cpp:300-328 | the corrected mini-batches of a fetch read only samples it has |
| GpuNeuralNet.GpuNeuralNet.constructor | librichard/src/gpu/gpu_neural_net.cpp:100-125 | keeps the device, shapes, hyperparameters, layers and output size with an empty trace |
| GpuNeuralNet.GpuNeuralNet.ConstructDense | librichard/src/gpu/gpu_neural_net.cpp:144-168 | a missing "size" is the error; otherwise a dense or output layer of `calcProduct(prev)` inputs |
| GpuNeuralNet.GpuNeuralNet.ConstructConv | librichard/src/gpu/gpu_neural_net.cpp:151-157 | a fresh convolutional layer that accepts the previous shape |
| GpuNeuralNet.GpuNeuralNet.ConstructPool | librichard/src/gpu/gpu_neural_net.cpp:158-161 | a fresh max-pooling layer that accepts the previous shape |
| GpuNeuralNet.GpuNeuralNet.ConstructLayer | librichard/src/gpu/gpu_neural_net.cpp:139-172 | a missing "type" is its error, an unknown one "Don't know how to construct layer of type"; a built layer accepts the previous shape; a max-pooling layer reads nothing from the stream |
| GpuNeuralNet.GpuNeuralNet.BuildHidden | librichard/src/gpu/gpu_neural_net.cpp:109-116 | the hidden layers in order, each built for the shape the one before outputs, forming a chain |
| GpuNeuralNet.GpuNeuralNet.BuildNext | librichard/src/gpu/gpu_neural_net.cpp:112-113 | one more hidden layer, of the type its configuration names and built for the shape the chain ends with, extends the chain; the layers before stay as they were |
| GpuNeuralNet.GpuNeuralNet.ConstructFrom | librichard/src/gpu/gpu_neural_net.cpp:112 | a layer built from a copy of a hidden configuration has the type that configuration names and accepts the previous shape |
| GpuNeuralNet.GpuNeuralNet.ConstructOutput | librichard/src/gpu/gpu_neural_net.cpp:118-120 | an output layer that accepts the shape the hidden layers end with |
| GpuNeuralNet.GpuNeuralNet.ChainLayers | librichard/src/gpu/gpu_neural_net.cpp:108-120 | the hidden layers, then the output layer, forming a chain from the input shape whose hidden layers have the types their configurations name |
| GpuNeuralNet.GpuNeuralNet.BuildLayers | librichard/src/gpu/gpu_neural_net.cpp:103-120 | a missing "hyperparams" is the error; otherwise the hyperparameters read from it and a chain of the hidden layers ending in an output layer |
| GpuNeuralNet.GpuNeuralNet.Create | librichard/src/gpu/gpu_neural_net.cpp:100-125 | a missing "hyperparams" is the error; otherwise a chained network ending in an output layer whose size is the output size, with its resources allocated, trained exactly when read from a stream |
| GpuNeuralNet.GpuNeuralNet.AllocateGpuResources | librichard/src/gpu/gpu_neural_net.cpp:195-251 | the sample, label and status buffers, every layer's buffers, every layer's shaders chained, then the costs buffer and shader |
| GpuNeuralNet.ResourceBuffersMapped | librichard/src/gpu/gpu_neural_net.cpp:199-232 | the "Expected … buffer to be memory mapped" asserts hold: the flags chosen for the sample, label, status and costs buffers make them mapped and host-visible |
| GpuNeuralNet.GpuNeuralNet.AllocateLayerResources | librichard/src/gpu/gpu_neural_net.cpp:215-217 | every layer's `allocateGpuBuffers`, in order |
| GpuNeuralNet.GpuNeuralNet.CreateLayerShaders | librichard/src/gpu/gpu_neural_net.cpp:219-225 | every layer's `createGpuShaders`, in order, each given the previous output buffer and its next layer |
| GpuNeuralNet.GpuNeuralNet.LoadSampleBuffers | librichard/src/gpu/gpu_neural_net.cpp:253-266 | copies sample `cursor + i` and its label to slot `i`, for each of `count` samples |
| GpuNeuralNet.GpuNeuralNet.FeedForward | librichard/src/gpu/gpu_neural_net.cpp:305-307 | every layer's `trainForward`, in order |
| GpuNeuralNet.GpuNeuralNet.BackPropagate | librichard/src/gpu/gpu_neural_net.cpp:309-311 | every layer's `backprop`, from the last down to the first |
| GpuNeuralNet.GpuNeuralNet.UpdateLayers | librichard/src/gpu/gpu_neural_net.cpp:316-318 | every layer's `updateParams`, in order |
| GpuNeuralNet.GpuNeuralNet.MiniBatch | librichard/src/gpu/gpu_neural_net.cpp:301-323 | the copies, the status reset, the rounds, the updates, the flush and the sample event of one mini-batch |
| GpuNeuralNet.GpuNeuralNet.RunRounds | librichard/src/gpu/gpu_neural_net.cpp:304-314 | for each sample slot, every layer forward in order, every layer backward from the last, then the costs shader |
| GpuNeuralNet.GpuNeuralNet.ProcessFetch | librichard/src/gpu/gpu_neural_net.cpp:300-328 | processes the fetch's mini-batches in order until the limit, counting them |
| GpuNeuralNet.GpuNeuralNet.RunEpoch | librichard/src/gpu/gpu_neural_net.cpp:285-345 | the start event, the cost and status reset, the fetch loop's mini-batches, the completion event and the rewind |
| GpuNeuralNet.GpuNeuralNet.FetchLoop | librichard/src/gpu/gpu_neural_net.cpp:294-335 | the corrected mini-batches of the fetches in order, each fetch after a load, until the data runs out or the batch limit is reached |
| GpuNeuralNet.GpuNeuralNet.RunEpochs | librichard/src/gpu/gpu_neural_net.cpp:280-346 | epoch after epoch of corrected mini-batches over the same fetches, stopping at the first epoch that sees the abort flag set |
| GpuNeuralNet.GpuNeuralNet.RetrieveLayerBuffers | librichard/src/gpu/gpu_neural_net.cpp:348-350 | every layer's `retrieveBuffers`, in order |
| GpuNeuralNet.GpuNeuralNet.Train | librichard/src/gpu/gpu_neural_net.cpp:268-353 | "Dataset fetch size must be multiple of mini-batch size", then "Batch size must be multiple of mini-batch size"; otherwise every epoch until the abort flag is seen, then every layer's buffers are retrieved and the network is trained |
| GpuNeuralNet.GpuNeuralNet.Evaluate | librichard/src/gpu/gpu_neural_net.cpp:355-365 | copies the sample, queues every layer's `evalForward`, flushes once, and returns the composition of the layers' functions |
| GpuNeuralNet.GpuNeuralNet.WriteToStream | librichard/src/gpu/gpu_neural_net.cpp:183-189 | "Neural net is not trained" when untrained, otherwise every layer's `writeToStream` in order |
| ImageLoading.Decompose | librichard/src/image_data_loader.cpp:53-58 | every flat index below `w * h * d` is the index of a cell within the extents; its column, row and slice are the remainders and quotient by the row width and the slice size |
| ImageLoading.CellOf | librichard/src/image_data_loader.cpp:53-58 | the cell whose flat index is `n`, within the extents |
| ImageLoading.CellOfIndex | librichard/src/image_data_loader.cpp:53-58 | the cell at the flat index of (`x`, `y`, `z`) is (`x`, `y`, `z`) |
| ImageLoading.Grid | librichard/src/image_data_loader.cpp:53 | an array of `w * h * d` values |
| ImageLoading.GridCells | librichard/src/image_data_loader.cpp:53-58 | cell (`x`, `y`, `z`) of the array built from `f` is `f(x, y, z)` |
| ImageLoading.GridUnique | librichard/src/image_data_loader.cpp:53-58 | an array is determined by its cells |
| ImageLoading.CopyPixels | librichard/src/image_data_loader.cpp:49-61 | "Subscript out of range" exactly when the loops subscript the bitmap past its extents; otherwise an array of `imgW * imgH * channels` values |
| ImageLoading.CopyReads | librichard/src/image_data_loader.cpp:55-61 | a copy that succeeds holds `normalize(image[j][i][k])` in cell (`i`, `j`, `k`) |
| ImageLoading.CopyNext | librichard/src/image_data_loader.cpp:58 | one more cell copied keeps the copy loop's invariant |
| ImageLoading.CopyImage | librichard/src/image_data_loader.cpp:53-61 | the three nested loops give exactly `CopyPixels` |
| ImageLoading.CopyRow | librichard/src/image_data_loader.cpp:56-60 | row `j` of the copy either throws as `CopyPixels` does or copies every cell of the row |
| ImageLoading.NonSquareThrows | librichard/src/image_data_loader.cpp:49-58 | with the extents as written, a bitmap with pixels throws exactly when it is not square |
| ImageLoading.IntendedCopyReads | librichard/src/image_data_loader.cpp:49-61 | with the extents swapped the copy never throws and cell (`i`, `j`, `k`) is `normalize(image[j][i][k])` |
| ImageLoading.ImageSample | librichard/src/image_data_loader.cpp:49-63 | a bitmap with pixels that is not square throws "Subscript out of range"; otherwise it becomes a sample of the directory's label, shaped by the bitmap's extents 0, 1 and 2 as the copy takes them |
| ImageLoading.ItemOf | librichard/src/image_data_loader.cpp:46-65 | an entry that is not a regular file is skipped; a regular one fails with the bitmap's load error or the copy's subscript error, and otherwise yields a sample with the label |
| ImageLoading.PlanOf | librichard/src/image_data_loader.cpp:20-65 | what each entry of each label's directory yields, in iteration order |
| ImageLoading.RemainingAdvance | librichard/src/image_data_loader.cpp:67 | moving an unfinished cursor on leaves one entry fewer to visit |
| ImageLoading.LabelsOf | librichard/src/image_data_loader.cpp:63 | the labels of the samples, in order |
| ImageLoading.Visit | librichard/src/image_data_loader.cpp:46-67 | a visit throws exactly when the entry's bitmap fails to load, leaving the cursor; otherwise appends the entry's sample if any and moves the cursor on |
| ImageLoading.VisitEntry | librichard/src/image_data_loader.cpp:46-67 | the visit of one entry is exactly `Visit`: a bitmap that fails to load throws, otherwise the cursor moves on and the sample is appended |
| ImageLoading.Pass | librichard/src/image_data_loader.cpp:39-72 | a pass only appends samples, and counts at most the cursors it looks at as finished |
| ImageLoading.PassProgress | librichard/src/image_data_loader.cpp:40-72 | a pass that does not throw and finds some cursor unfinished moves a cursor on |
| ImageLoading.PassAllFinished | librichard/src/image_data_loader.cpp:41-76 | a pass that counts every cursor as finished changes nothing, and they are all exhausted |
| ImageLoading.ExhaustedPass | librichard/src/image_data_loader.cpp:41-44 | a pass over exhausted cursors counts them all and changes nothing |
| ImageLoading.PassRoundRobin | librichard/src/image_data_loader.cpp:40-72 | when each cursor is at a sample and there is room, a pass appends one sample per label, in label order |
| ImageLoading.Load | librichard/src/image_data_loader.cpp:35-80 | a call only appends samples and moves cursors on |
| ImageLoading.LoadStops | librichard/src/image_data_loader.cpp:38-76 | a call that does not throw stops only with a full fetch or with every cursor exhausted |
| ImageLoading.ExhaustedLoadsNothing | librichard/src/image_data_loader.cpp:38-80 | with every cursor exhausted a call appends nothing and returns 0 |
| ImageLoading.Decode | librichard/src/image_data_loader.cpp:47-65 | visiting one entry gives exactly `ItemOf` |
| ImageLoading.RunPass | librichard/src/image_data_loader.cpp:39-72 | the inner loop gives exactly `Pass` |
| ImageLoading.LoadFrom | librichard/src/image_data_loader.cpp:38-77 | the outer loop gives exactly `Load` |
| ImageLoading.OpenDirectories | librichard/src/image_data_loader.cpp:20-26 | one cursor per label, over `path/label`, exactly when every such directory exists; otherwise "is not a directory" for the first missing one |
| ImageLoading.ImageDataLoader.constructor | librichard/src/image_data_loader.cpp:10-27 | every cursor at the start of its directory |
| ImageLoading.ImageDataLoader.Create | librichard/src/image_data_loader.cpp:10-27 | "is not a directory" for a missing directory, then for the first missing label directory; otherwise every cursor at the start |
| ImageLoading.ImageDataLoader.SeekToBeginning | librichard/src/image_data_loader.cpp:29-33 | every cursor back to the start of its directory |
| ImageLoading.ImageDataLoader.LoadSamples | librichard/src/image_data_loader.cpp:35-80 | appends what `Load` gives, at most `fetchSize` samples, and returns how many |
| LabelledData.OneHot | librichard/src/labelled_data_set.cpp:14-16 | 1 at index `i` and 0 elsewhere |
| LabelledData.OneHotDistinct | librichard/src/labelled_data_set.cpp:14-16 | one-hot vectors are equal exactly when their 1s are at the same index |
| LabelledData.FirstIndex | librichard/src/labelled_data_set.cpp:13-18 | the first position of a label |
| LabelledData.FirstIndexDistinct | librichard/src/labelled_data_set.cpp:13-18 | without duplicates, label `i` is first found at `i` |
| LabelledData.BuildClassVectors | librichard/src/labelled_data_set.cpp:13-18 | each label maps to the one-hot vector of its first position, since `insert` does not overwrite |
| LabelledData.ClassVectorOfDistinct | librichard/src/labelled_data_set.cpp:13-18 | without duplicate labels, label `i` maps to the one-hot vector with its 1 at `i` |
| LabelledData.ClassVectorsDistinct | librichard/src/labelled_data_set.cpp:13-18 | different labels map to different vectors |
| LabelledData.LabelledDataSet.constructor | librichard/src/labelled_data_set.cpp:9-19 | keeps the loader and labels |
| LabelledData.LabelledDataSet.ClassOutputVector | librichard/src/labelled_data_set.cpp:13-18 | the label's one-hot vector exactly when the label is in the set, otherwise the `std::map::at` error |
| LabelledData.LabelledDataSet.SeekToBeginning | librichard/src/labelled_data_set.cpp:21-23 | delegates to the loader: image cursors go back to the start; the CSV stream goes back to its first line only while its failbit is clear |
| LabelledData.LabelledDataSet.LoadSamples | librichard/src/labelled_data_set.cpp:25-28 | clears the samples, then returns what the loader loads and its count; for CSV, the failbit afterwards as the loader sets it |
| Layers.TypeName | richard/src/cpu/cpu_neural_net.cpp:290-298 | each layer type prints as its own upper-case name |
| Layers.TypeNameInjective | richard/src/cpu/cpu_neural_net.cpp:290-298 | distinct layer types print differently |
| Layers.GetSize | librichard/include/richard/config.hpp:35-43 | the stored number as a `size_t` exactly when the key is present, otherwise not-found |
| Layers.GetNetFloat | librichard/include/richard/config.hpp:35-43 | the stored number as a `netfloat_t` exactly when the key is present, otherwise not-found |
| Layers.SizePairOf | librichard/include/richard/config.hpp:55-63 | the first two sizes of the stored entry, zero-filled |
| Layers.GetSizePair | librichard/include/richard/config.hpp:55-63 | the pair exactly when the key is present, otherwise not-found |
| Layers.ReadValues | librichard/src/cpu/dense_layer.cpp:17-18 | a read copies as many values as the stream holds, keeps the rest of the buffer, and leaves the stream after them |
| Layers.ReadWritten | librichard/src/cpu/dense_layer.cpp:17-41 | reading back written values returns them and leaves the rest of the stream |
| Pooling.SetCells | richard/src/cpu/max_pooling_layer.cpp:69-74 | a cell write stays inside the buffer and changes no other cell |
| Pooling.Set3 | richard/src/cpu/max_pooling_layer.cpp:69-74 | `Array3::set`: the written cell holds the value and every other cell is unchanged |
| Pooling.RegionFits | richard/src/cpu/max_pooling_layer.cpp:57-60 | every region of the output lies inside the image |
| Pooling.ScanRowsInv | richard/src/cpu/max_pooling_layer.cpp:57-71 | after `j` rows of a region the running maximum is at least `start` and every value scanned, and sits where the first strict maximum so far is |
| Pooling.ScanInImage | richard/src/cpu/max_pooling_layer.cpp:54-73 | the position the mask's 1 is written to lies in the image |
| Pooling.RegionBestIsFirstMax | richard/src/cpu/max_pooling_layer.cpp:53-74 | the scan of a region ends on its first strict maximum above `start`, or on `start` at (0, 0) when no value exceeds it |
| Pooling.PoolRow | richard/src/cpu/max_pooling_layer.cpp:58-70 | one row of the region loop continues the scan and zeroes that row's mask cells |
| Pooling.PoolRegion | richard/src/cpu/max_pooling_layer.cpp:53-73 | the region loop gives the scan's result and leaves the region's mask zero except for the 1 at the scan's position |
| Pooling.RegionMax | richard/src/cpu/max_pooling_layer.cpp:92-104 | the region loop of `evalForward` gives the same maximum as that of `trainForward` |
| Pooling.PadRegion | richard/src/cpu/max_pooling_layer.cpp:124-136 | every cell of one region gets the region's delta where the mask is set and 0 elsewhere |
| Pooling.RegionOf | richard/src/cpu/max_pooling_layer.cpp:59-60 | image column `X` is in region column `x` exactly when `X / regionW == x` |
| Pooling.PosRegion | richard/src/cpu/max_pooling_layer.cpp:54-66 | the scan ends on a cell of its own region or on image cell (0, 0) |
| Pooling.NotPointedEarlier | richard/src/cpu/max_pooling_layer.cpp:50-77 | no earlier region writes its 1 into a later region |
| Pooling.PoolSlice | richard/src/cpu/max_pooling_layer.cpp:51-76 | the loops over one slice pool every region of it and leave its mask as the regions' scans set it |
| Pooling.PoolForward | richard/src/cpu/max_pooling_layer.cpp:43-78 | every activation is its region's running maximum from `start`, and every mask cell is `MaskCell` |
| Pooling.EvalSlice | richard/src/cpu/max_pooling_layer.cpp:90-108 | the loops of `evalForward` over one slice pool every region of it |
| Pooling.EvalPool | richard/src/cpu/max_pooling_layer.cpp:80-112 | every output of `evalForward` equals the activation `trainForward` records |
| Pooling.PadRow | richard/src/cpu/max_pooling_layer.cpp:123-137 | one row of regions is padded through the mask |
| Pooling.PadSlice | richard/src/cpu/max_pooling_layer.cpp:122-138 | one slice is padded through the mask |
| Pooling.PadDelta | richard/src/cpu/max_pooling_layer.cpp:114-140 | every input cell gets its region's output delta where the mask is set and 0 elsewhere |
| Pooling.RegionBestIsMax | richard/src/cpu/max_pooling_layer.cpp:53-74 | when every value of a region is at least the starting value, the pooled value is the region's maximum, attained in the region |
| Pooling.BestIsFirstMax | richard/src/cpu/max_pooling_layer.cpp:63-67 | when some value exceeds the start, the scan ends on the region's first strict maximum in row-major order |
| Pooling.OwnRegion | richard/src/cpu/max_pooling_layer.cpp:59-60 | every image cell is covered by the region its coordinates divide down to |
| Pooling.FirstMaxUnique | richard/src/cpu/max_pooling_layer.cpp:63-67 | a region holds at most one first strict maximum |
| Pooling.MaskIsFirstMax | richard/src/cpu/max_pooling_layer.cpp:69-73 | with every region above the start, the mask is 1 exactly at each region's first strict maximum and 0 elsewhere |
| Pooling.MaskOneHot | richard/src/cpu/max_pooling_layer.cpp:69-73 | each such region has exactly one 1 in the mask |
| Pooling.MaskFallback | richard/src/cpu/max_pooling_layer.cpp:54-73 | a region with no value above the start pools to the start and puts its 1 at image cell (0, 0) |
| Pooling.UnitRegions | richard/src/cpu/max_pooling_layer.cpp:43-78 | with 1 by 1 regions the activations are the input and the mask is all ones |
| Pooling.DblMinStartMisses | richard/src/max_pooling_layer.cpp:60-95 | starting from `numeric_limits<double>::min()`, a region whose values are all below it pools to that positive value, above every value of the region, with its 1 at (0, 0) |
| MaxPooling.SumFmZero | richard/src/max_pooling_layer.cpp:163-180 | a zero convolution delta contributes nothing |
| MaxPooling.AddWindowRow | richard/src/max_pooling_layer.cpp:170-175 | the `i` loop adds one kernel row's contribution and nothing else |
| MaxPooling.AddWindow | richard/src/max_pooling_layer.cpp:168-177 | the `z`, `j`, `i` loops add `kernel(i, j, z) * nextDelta(fmX, fmY, fm)` to exactly the delta cells the kernel covers |
| MaxPooling.AddFeatureMapRow | richard/src/max_pooling_layer.cpp:167-178 | the `fmX` loop accumulates one feature-map row |
| MaxPooling.AddFeatureMap | richard/src/max_pooling_layer.cpp:166-179 | the `fmY` loop accumulates one filter's feature map |
| MaxPooling.BackpropFromConvLayer | richard/src/max_pooling_layer.cpp:144-181 | fails unless there is a filter and the kernels are as deep as the input; otherwise adds to every delta cell the full convolution of the next layer's delta with the kernels |
| MaxPooling.ZeroConvDeltaAddsNothing | richard/src/max_pooling_layer.cpp:163-180 | a zero delta in the next layer leaves the pooling layer's delta as it was |
| MaxPooling.UnexpectedType | richard/src/max_pooling_layer.cpp:197 | the message is the fixed prefix followed by the layer type's name |
| MaxPooling.MaxPoolingLayer.constructor | richard/src/max_pooling_layer.cpp:5-26 | the given shape, with zero activations, delta, padded delta and mask of the right sizes |
| MaxPooling.MaxPoolingLayer.Create | richard/src/max_pooling_layer.cpp:5-26 | succeeds exactly when the region divides the input; "Region width" when it does not divide the width, else "Region height" |
| MaxPooling.MaxPoolingLayer.OutputSize | richard/src/max_pooling_layer.cpp:34-40 | the input extents divided by the region, as deep as the input; the product is the activation size |
| MaxPooling.MaxPoolingLayer.TrainForward | richard/src/max_pooling_layer.cpp:50-81 | every activation is its region's running maximum from `numeric_limits<double>::min()`, and the mask is `MaskCell` from that start |
| MaxPooling.MaxPoolingLayer.EvalForward | richard/src/max_pooling_layer.cpp:83-112 | the same pooled values as `trainForward`, without changing the layer |
| MaxPooling.MaxPoolingLayer.UpdateDelta | richard/src/max_pooling_layer.cpp:183-202 | a dense or output next layer replaces the delta with its weighted delta `Wᵀ·δ`, a convolutional one adds its full convolution, any other type throws; then the delta is padded through the mask |
| NeuralNets.Uint32Of | librichard/src/neural_net.cpp:17-19 | the stored number cast to `uint32_t` exactly when the key is present, otherwise not-found |
| NeuralNets.HyperparamsOf | librichard/src/neural_net.cpp:16-20 | the three counts exactly when all three keys are present; otherwise not-found for the first missing, in the order epochs, batch size, mini-batch size |
| NeuralNets.TypeOf | librichard/src/cpu/cpu_neural_net.cpp:112-133 | the type a "type" string names, and none exactly when no type has that name |
| NeuralNets.TypeOfConfigName | librichard/src/cpu/cpu_neural_net.cpp:112-133 | every layer type is reached by its own configuration name |
| NeuralNets.RegionOf | librichard/src/cpu/cpu_neural_net.cpp:124-126 | a positive region size reads back as two positive sizes |
| NeuralNets.HiddenConfigs | librichard/src/cpu/cpu_neural_net.cpp:86-93 | the "hiddenLayers" array when present, and no hidden layers when the key is absent |
| NeuralNets.FetchPlanStep | librichard/src/cpu/cpu_neural_net.cpp:205-240 | one fetch of the loop processes `min(fetch size, what is left of the batch)` samples |
| NeuralNets.FetchPlanCovers | librichard/src/cpu/cpu_neural_net.cpp:202-240 | the fetch loop processes the available samples in order, stops at the batch size, and takes no more from a fetch than it holds |

## Left out

- Floating point: `netfloat_t` and `double` values are exact reals, so rounding, NaN and infinities are not modelled. `numeric_limits` values appear as named constants (`Limits`).
- Activation functions, the sigmoid and rectifier derivatives, the 2-D convolution routines and the shader programs are floating-point arithmetic. They appear as parameters, or not at all. The layer and network models carry only where values go, not what the arithmetic produces.
- Cost: the quadratic cost, the epoch cost and its division by the number of samples processed are not modelled. This covers the CPU trainer, the GPU costs shader read back at librichard/src/gpu/gpu_neural_net.cpp:337-341, and the classifier's cost.
- Concurrency: the `std::async` prefetch of the next batch is modelled as the sequence of batches the data set returns. The atomic abort flag is the parameter `abortSeen`, which says whether an abort is seen at the start of each epoch.
- I/O: the file system, directory iteration, input and output streams and `loadBitmap` are parameters: sequences of entries, lines or values. Logging is not modelled.
- Vulkan device plumbing is not part of this model: instance and device creation, memory allocation, descriptor sets, pipelines, command buffers, fences and the driver calls. The `Vulkan` class keeps only the integer and set state the library derives from them. The device limits are given as fields.
- `createGpu` and the GPU device factory are not part of this model; the network takes the `Vulkan` object it is given. The GPU dense and output layers are not part of this model either: the GPU network sees them through their input and output sizes and their buffers.
- Randomness: the dropout draw and the initial random weights are parameters.
- The trainers' `modelDetails`, `abort` and the `test_` accessors only return or set stored values, and are left out.
- Layer validity (the shapes of each layer's own buffers) is kept by each layer's class, but it is not part of the networks' `Valid()`, which records only the layer shapes.
- The networks' `writeToStream` appends each layer's `Stream()` function rather than calling the layer's method, so aliasing between layers and the network's stream is not modelled.
- The two-argument in-place `setIntersection` (librichard/include/richard/utils.hpp:52-55) discards its result and changes nothing, so it is left out; the three-argument form is modelled.
- CpuNeuralNet.CpuNeuralNet.BackPropagate: requires at least two layers. With the output layer alone the source reads `m_layers[-1]`, which has no defined outcome. CpuNeuralNet.CpuNeuralNet.ProcessSample, ProcessFetch, RunEpoch and Train carry the same requirement.
- CpuNeuralNet.CpuNeuralNet.Train: requires a positive mini-batch size, because the source takes a remainder by it. GpuNeuralNet.GpuNeuralNet.Train requires the same.
- GpuUtils.OptimumWorkgroups: requires positive x and y extents, because the source divides by them.
- GpuMaxPooling.MaxPoolingLayer.Create: requires a positive region size when one is given, because the source takes a remainder by it. CpuMaxPooling.MaxPoolingLayer.Create and MaxPooling.MaxPoolingLayer.Create require the same.
- CpuNeuralNet.CpuNeuralNet.ProcessFetch: the `uint32_t` sample counter is unbounded. It never exceeds `batchSize`, itself a `uint32_t`, so it cannot wrap.
- GpuNeuralNet.GpuNeuralNet.Create: requires every hidden max-pooling layer to have a positive region size, for the same reason as the layer's own constructor.
- GpuConvolution.ConvolutionalLayer.AllocateGpuBuffers: states the sizes and flags of the buffers it creates, not the upload of the kernel and bias values or of the zeroed gradient buffers (librichard/src/gpu/convolutional_layer.cpp:88-96), because buffer contents on the device are not modelled.
- DenseLayers.Zeros: assumes that a freshly sized `DataArray` holds zeros. The definition of `DataArray` is not part of this model. The dense layer's zero biases in `DenseLayers.DenseLayer.Create`, the "0 past the last field" of `CsvLoading.ParsedLine` and the zero start of `ImageLoading.CopyStart` rest on the same assumption.
- GpuNeuralNet.GpuNeuralNet.MiniBatch: copies the corrected number of samples, at most what the fetch has left (`GpuNeuralNet.Copies`). The source copies a whole mini-batch and reads past a short fetch, which has no defined outcome; `GpuNeuralNet.ShortFetchOverread` shows that case (see "## Findings").
- GpuNeuralNet.GpuNeuralNet.ProcessFetch: runs the corrected mini-batches of `GpuNeuralNet.GpuNeuralNet.MiniBatch`.
- GpuNeuralNet.GpuNeuralNet.RunEpoch: its trace holds the corrected mini-batches of `GpuNeuralNet.GpuNeuralNet.MiniBatch`.
- GpuNeuralNet.GpuNeuralNet.FetchLoop: its trace holds the corrected mini-batch copies of `GpuNeuralNet.GpuNeuralNet.MiniBatch`, at most what each fetch has left, where the source copies a whole mini-batch past a short fetch.
- GpuNeuralNet.GpuNeuralNet.RunEpochs: its trace holds the corrected mini-batches of `GpuNeuralNet.GpuNeuralNet.MiniBatch`, and its `fetches` parameter gives the same fetches after every rewind, which a CSV stream at end of file does not do (see "## Findings").
- GpuNeuralNet.GpuNeuralNet.Train: always ends trained. Exceptions thrown while loading samples (a CSV line too large, a number `std::stof` cannot read, a non-square bitmap) and by the class lookup of `classOutputVector` are not modelled; they would leave the network untrained. Its mini-batches are the corrected ones, and its `fetches` parameter gives the same fetches after every rewind, which a CSV stream at end of file does not do (see "## Findings").
- CpuNeuralNet.CpuNeuralNet.Train: always ends trained, for the same reason as the GPU trainer: exceptions from loading samples and from `classOutputVector` are not modelled. Its `fetches` parameter gives the same fetches after every rewind, which a CSV stream at end of file does not do (see "## Findings").
- Bitmap.SaveBitmap: requires extents whose rows and columns fit in 32 bits, whose channel count fits in 16 bits and whose padded row size fits in 32 bits (`Bitmap.Saveable`). The source narrows these with `static_cast` and writes whatever the truncated values give; a bitmap that large is not modelled. `Bitmap.SavedHeader` carries the same requirement.
- Bitmap.LoadBitmap: requires a file long enough for its header and for the rows the header announces. The source reads a short file without checking, and what it then holds is not modelled.
- Error messages: the exceptions carry the message text only. The " (file, line)" suffix that the `EXCEPTION` and `ASSERT_MSG` macros append is not modelled.
- Events.EventSystem.Listen: handler ids are unbounded, so a wrap-around of the shared `handlerId_t` counter is not modelled; the width of `handlerId_t` is not part of this model.
- GpuNeuralNet.GpuNeuralNet.ProcessFetch: the `uint32_t` count of samples processed is unbounded. It grows by the mini-batch size and stops the epoch once it reaches `batchSize`, so it wraps only for a batch size within one mini-batch of 2^32.

## Findings

| source | as written | input that shows it | evidently intended | confidence | as-written member | corrected member |
|---|---|---|---|---|---|---|
| cpputils/src/bitmap.cpp:57 | the header's image-size field is `rows * paddedRowSize * channels`, but `paddedRowSize` already counts the channels | a 2 by 2 RGB image: the field says 48 bytes, but the rows written take 16 | the field is the size of the padded rows, `rows * paddedRowSize` | high; not executed | Bitmap.ImgSizeCountsChannelsTwice | Bitmap.ImgSizeIsBodySize |
| richard/src/max_pooling_layer.cpp:60-95 | the running maximum starts at `numeric_limits<double>::min()`, the smallest positive double | a 1 by 1 region holding -1: it pools to `DBL_MIN`, and its mask 1 goes to image cell (0, 0) | start at the lowest value, `lowest()`, as the CPU layer does (richard/src/cpu/max_pooling_layer.cpp:53) | medium; not executed | Pooling.DblMinStartMisses | Pooling.RegionBestIsMax |
| librichard/src/image_data_loader.cpp:49-50 | the copy takes its width from `size()[0]` (the bitmap's rows) and its height from `size()[1]` (its columns), then reads `image[j][i]` | a bitmap of 1 row of 2 pixels: the copy subscripts row 1 and throws "Subscript out of range" | width from `size()[1]`, height from `size()[0]` | high; not executed | ImageLoading.NonSquareThrows | ImageLoading.IntendedCopyReads |
| librichard/src/gpu/gpu_neural_net.cpp:300-301 | `loadSampleBuffers` copies a whole mini-batch from the cursor, however many samples the fetch has left | a fetch of 3 samples with mini-batches of 2: the second mini-batch copies sample 3, past the fetch | copy only the samples left in the fetch | medium; not executed | GpuNeuralNet.ShortFetchOverread | GpuNeuralNet.CopiesStayInFetch |
| librichard/src/csv_data_loader.cpp:23-25 | `seekToBeginning` only calls `seekg(0)`; after the last `getline` has failed at end of file the stream keeps its failbit, so the seek does nothing and every later read fails | a one-line stream read in fetches of 1: the first epoch reads the line, the next fetch hits the end, and after the rewind the second epoch reads nothing | clear the stream state before seeking, so that every epoch reads the file from its first line | high; not executed | CsvLoading.SecondEpochEmpty | CsvLoading.CsvDataLoader.Rewind |
