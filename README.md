# nn-conv1d: planar convolution and periodic sub/up-sampling, in Dafny

This project models the three C kernels of the Torch package `nn-conv1d`.

- **PlanarConvolution** is a "planar" 2-D convolution. Input plane `i` is
  convolved with kernel `i` only, and the result is added to output plane `i`
  on top of `bias[i]`. The kernel offers `updateOutput`, `updateGradInput` and
  `accGradParameters`. Each of them runs a 3-D input as a batch of one and
  restores the 3-D headers afterwards.
- **SpatialSubSamplingPeriodic** picks every `dH`-th row and every `dW`-th
  column, starting at row `iH` and column `iW`: output (y, x) reads input
  row `y*dH + iH`, column `x*dW + iW`. Its backward pass zeroes gradInput
  and adds gradOutput (y, x) into row `dH*y + iH` but column `dW*x - iW`.
  The two column maps agree only when `iW == 0`.
- **SpatialUpSamplingPeriodic** writes output element o as the input
  element whose spatial indices are o's divided by `scale_factor`, when
  both spatial indices of o divide by the scale.
  Otherwise it writes 0, and where it writes that 0 depends on the rank:
  - rank 3: into o itself, so the result is the zero-inserting upsampling;
  - rank 4: into the first cell of o's row, not into o. With a scale of 2
    or more and rows of two or more cells, the first cell of every row ends
    at 0, and a non-divisible cell past the first column keeps the value it
    had before the call.

  Its backward pass zeroes gradInput and adds to every gradInput element
  the gradOutput element at `scale_factor` times its spatial indices.

## How the model is built

- Tensors are a storage (`array<real>`) plus a strided header (`Strided.View`:
  offset, sizes, strides). Indices are four slots (`Strided.Ix`); rank-3 tensors
  leave the last slot at 0.
- Every kernel keeps its C loop nest as nested `while` loops. Each method is
  proved against a closed-form function of the inputs. The loops are split
  into methods as follows:
  - the PlanarConvolution loops: one method per loop level (`ConvKernels`,
    `ConvBackward`, `ConvGrad`, `ConvBatch`);
  - `SubSampling.UpdateOutput`: all four loops in one method;
  - `SubSampling.UpdateGradInput`, `UpSampling.UpdateOutput` and
    `UpSampling.UpdateGradInput`: the two outer loops, with the two inner
    loops in `ScatterRows`, `UpsampleRows` and `GatherRows`, and one
    iteration's step in `AddInto` and `UpsampleOne`.

  The closed forms are:
  - `ConvSpec.ConvAt` is the forward value.
  - `ConvSpec.GradInputAt` is the input gradient.
  - `ConvSpec.WeightStep` and `ConvSpec.PlaneDot` are the parameter gradients.
  - `SubSampling.OutputAt`, `SubSampling.GradInputAt`, `UpSampling.OutputAt`
    and `UpSampling.GradInputAt` are the resampling values.
- Lemmas then relate those closed forms to each other:
  - target and preimage invert each other;
  - the PlanarConvolution backward pass is adjoint to its forward pass, for
    rank-4 headers with unit column stride, with nInputPlane ==
    nOutputPlane, against the forward result without its bias;
  - the subsampling backward pass is adjoint to its forward pass when
    `iW == 0`;
  - the upsampling backward pass is adjoint to its forward pass for rank 3;
  - for rank 3, upsampling followed by subsampling with the same step and
    no offset is the identity;
  - the backward pass of upsampling is a subsampling.
- The Lua module object of PlanarConvolution is the class
  `Planar.PlanarConvolution`. Its fields are `weight`, `bias`, `output`,
  `gradInput`, `gradWeight`, `gradBias` and `ones`. THTensor resize and
  allocation become fresh arrays with contiguous headers.
- A Lua argument error becomes the `Planar.Status` value `ArgError`, carrying
  the message text the C code uses.
- Sums are exact over `real`. `Sums.Sum` is the finite sum of the first `n`
  terms.

## Model

| member | source | states |
|---|---|---|
| Planar.Batched | nn-conv1d/generic/PlanarConvolution.c:23-28 | a 3-D header becomes the contiguous [1, planes, h, w] header at the same storage offset; a 4-D header is kept |
| Planar.Restored | nn-conv1d/generic/PlanarConvolution.c:73-77 | a 3-D header is given back as contiguous [planes, h, w] at the same offset; a 4-D header is untouched |
| Planar.PlanarConvolution.constructor | nn-conv1d/generic/PlanarConvolution.c:9-18 | the module object holds the layer's configuration, weight, bias and gradient tensors, with empty output, gradInput and ones |
| Planar.PlanarConvolution.UpdateOutput | nn-conv1d/generic/PlanarConvolution.c:7-80 | a rank other than 3 or 4 gives the rank error and changes nothing; otherwise output is a fresh contiguous [B, nOutputPlane, oH, oW] tensor (3-D header for a 3-D input) whose every element is the bias plus the kernel sum of its plane, and the input header is restored |
| Planar.PlanarConvolution.UpdateGradInput | nn-conv1d/generic/PlanarConvolution.c:83-153 | a gradOutput plane count different from nOutputPlane gives the plane error and changes nothing; otherwise gradInput is a fresh zero-initialised tensor shaped like the batched input, holding at every element the sum of the weighted gradOutput taps that reach it; a 3-D call gives gradInput the header [nInputPlane, H, W], growing its storage when that header needs more cells, and restores the input and gradOutput headers |
| Planar.PlanarConvolution.ResizeOnes | nn-conv1d/generic/PlanarConvolution.c:187-190 | ones ends as a vector of at least n elements; it is kept when it already was one, else replaced by n ones |
| Planar.GrowStorage | nn-conv1d/generic/PlanarConvolution.c:147 | the grown storage has the requested length and keeps every element of the old one |
| Planar.PlanarConvolution.AccGradParameters | nn-conv1d/generic/PlanarConvolution.c:156-236 | the plane error leaves gradWeight, gradBias and ones as they were; otherwise every kernel tap of gradWeight gains the scaled dot products over all B batch elements, nothing else in gradWeight changes, gradBias gains B times the scaled row sum of gradOutput, ones is resized per the source's condition, and the 3-D headers are restored |
| ConvKernels.Fill | nn-conv1d/generic/PlanarConvolution.c:48-51 | THVector fill: exactly the n elements from start become v |
| ConvKernels.AddScaled | nn-conv1d/generic/PlanarConvolution.c:58-62 | THVector add: exactly the n elements from ys gain c times the matching source elements |
| ConvKernels.ConvTaps | nn-conv1d/generic/PlanarConvolution.c:57-63 | the k loop adds one kernel row's taps to output row j and nothing else |
| ConvKernels.ConvRow | nn-conv1d/generic/PlanarConvolution.c:56-64 | the (h, k) loops add the whole kernel sum to every cell of output row j and nothing else |
| ConvKernels.ConvPlane | nn-conv1d/generic/PlanarConvolution.c:55-65 | the j loop adds the kernel sum to every cell of plane i and leaves memory outside the plane alone |
| ConvKernels.FillBiases | nn-conv1d/generic/PlanarConvolution.c:48-51 | every cell of every output plane i holds bias[i]; nothing outside the element's block changes |
| ConvKernels.ConvPlanes | nn-conv1d/generic/PlanarConvolution.c:54-66 | planes i < nInputPlane gain their kernel sums; other planes and other memory keep their values |
| ConvKernels.ForwardSample | nn-conv1d/generic/PlanarConvolution.c:43-66 | after the bias loop and the plane loop, every output cell of element e holds ConvAt |
| ConvKernels.RowInBlock | nn-conv1d/generic/PlanarConvolution.c:58-59 | row j of a contiguous block of n rows lies inside the block |
| ConvKernels.Slot | nn-conv1d/generic/PlanarConvolution.c:58-59 | the address of column b of row a lies in its row, and the row lies in the block |
| ConvKernels.PlaneCell | nn-conv1d/generic/PlanarConvolution.c:49 | cell (j, c) of plane i lies inside the element's block of nP planes |
| ConvKernels.RowsNext | nn-conv1d/generic/PlanarConvolution.c:56 | the partial kernel sum over rows grows by one kernel row per step of h |
| ConvKernels.TapsNext | nn-conv1d/generic/PlanarConvolution.c:57 | the partial kernel-row sum grows by one tap per step of k |
| ConvSpec.KernelTerm | nn-conv1d/generic/PlanarConvolution.c:57-62 | one forward tap: weight (h, k) of plane i times input element (e, i, j + h, c + k) for a unit column stride |
| ConvSpec.ConvAt | nn-conv1d/generic/PlanarConvolution.c:46-66 | the forward value: bias[i] alone for planes i >= nInputPlane; for the others bias[i] plus the double sum over h < kH, k < kW of weight (h, k) times input element (e, i, j + h, c + k) |
| ConvSpec.KernelSumAt | nn-conv1d/generic/PlanarConvolution.c:54-66 | the raw-address kernel sum equals the double sum over tensor elements when the column stride is 1 |
| ConvSpec.Contrib | nn-conv1d/generic/PlanarConvolution.c:129-134 | iteration (j, h, k) adds to gradInput cell (r, col) only when r = j + h and col - k is an output column, and then adds weight (h, k) times gradOutput (e, i, j, col - k) |
| ConvSpec.GradInputAt | nn-conv1d/generic/PlanarConvolution.c:126-138 | the backward value is nonzero only for planes below nOutputPlane, rows below oH + kH - 1 and columns below oW + kW - 1 |
| ConvSpec.OutsideReach | nn-conv1d/generic/PlanarConvolution.c:126-138 | a gradInput cell outside the rows and columns the kernel reaches from an output cell receives nothing |
| ConvSpec.RowDot | nn-conv1d/generic/PlanarConvolution.c:207-215 | the dot of gradOutput row j with input row j + h shifted by k is the sum over c < oW of gradOutput (e, i, j, c) times input (e, i, j + h, c + k) for a unit column stride |
| ConvSpec.RowDotAt | nn-conv1d/generic/PlanarConvolution.c:209-215 | the raw-address dot and the tensor-index dot agree when the input column stride is 1 |
| ConvSpec.WeightStep | nn-conv1d/generic/PlanarConvolution.c:203-216 | one batch element adds scale times the sum over j < oH of the row dots to tap (h, k) of plane i |
| ConvSpec.PlaneDot | nn-conv1d/generic/PlanarConvolution.c:187-199 | with at least n ones in the vector, the bias-gradient dot of plane i is the plain sum of the n entries of matrix row i |
| ConvBatch.ForwardBatch | nn-conv1d/generic/PlanarConvolution.c:36-71 | every element of the flat [B, nOutputPlane, oH, oW] output is ConvAt of its index |
| ConvBatch.BlocksApart | nn-conv1d/generic/PlanarConvolution.c:43-44 | the newSelect blocks of distinct batch elements do not overlap |
| ConvBatch.CellIsContig | nn-conv1d/generic/PlanarConvolution.c:43-49 | cell (j, c) of plane i of element e's block is the flat contiguous address of (e, i, j, c) |
| ConvBatch.BackwardBatch | nn-conv1d/generic/PlanarConvolution.c:113-143 | from a zeroed gradInput, every element of the flat [B, P, H, W] gradInput is GradInputAt of its index |
| ConvBatch.BatchWeightNext | nn-conv1d/generic/PlanarConvolution.c:193-227 | the weight gradient over the first n + 1 elements is that over the first n plus element n's step |
| ConvBatch.AccGradSample | nn-conv1d/generic/PlanarConvolution.c:196-222 | one batch element: each tap gains its WeightStep, gradWeight outside the kernels is kept, and gradBias gains one scaled row dot per plane |
| ConvBatch.WeightAccumulatedNext | nn-conv1d/generic/PlanarConvolution.c:193-219 | e accumulated elements followed by one step give e + 1 accumulated elements |
| ConvBatch.BiasAccumulatedNext | nn-conv1d/generic/PlanarConvolution.c:193-222 | e addmv calls followed by one more give e + 1 calls' worth of the same row dot |
| ConvBatch.AccGradStep | nn-conv1d/generic/PlanarConvolution.c:193-227 | one turn of the batch loop carries the accumulated gradients from e to e + 1 elements |
| ConvBatch.AccGradBatch | nn-conv1d/generic/PlanarConvolution.c:192-227 | the batch loop leaves gradWeight accumulated over all B elements, gradWeight outside the kernels kept, and gradBias raised by B times the scaled row dot |
| ConvBackward.TapsDoneNext | nn-conv1d/generic/PlanarConvolution.c:129 | the partial backward sum grows by one tap contribution per step of k |
| ConvBackward.RowsDoneNext | nn-conv1d/generic/PlanarConvolution.c:128 | the partial backward sum grows by one kernel row per step of h |
| ConvBackward.PlaneDoneNext | nn-conv1d/generic/PlanarConvolution.c:127 | the partial backward sum grows by one output row per step of j |
| ConvBackward.TapOffRow | nn-conv1d/generic/PlanarConvolution.c:130-131 | kernel row h of output row j touches only input row j + h |
| ConvBackward.BackTaps | nn-conv1d/generic/PlanarConvolution.c:129-135 | the k loop adds kernel row h's taps into input row j + h and nothing else |
| ConvBackward.SlotInRow | nn-conv1d/generic/PlanarConvolution.c:130-131 | a cell lies in row t's address range exactly when its row is t |
| ConvBackward.TapsInPlane | nn-conv1d/generic/PlanarConvolution.c:129-135 | row-local updates of row j + h are the plane-wide tap update, zero off that row |
| ConvBackward.BackTapsInPlane | nn-conv1d/generic/PlanarConvolution.c:129-135 | the k loop seen over the whole input plane: each cell gains its BackTap |
| ConvBackward.BackRows | nn-conv1d/generic/PlanarConvolution.c:128-136 | the (h, k) loops add the backward row contribution of output row j to every input cell of the plane |
| ConvBackward.BackPlane | nn-conv1d/generic/PlanarConvolution.c:127-137 | the j loop adds GradInputAt to every input cell of plane i; other memory is kept |
| ConvBackward.BackwardSample | nn-conv1d/generic/PlanarConvolution.c:121-138 | every input plane cell of element e gains GradInputAt; nothing outside the element's block changes |
| ConvGrad.Dot | nn-conv1d/generic/PlanarConvolution.c:208-215 | THBlas dot returns the strided dot product of n elements |
| ConvGrad.DotIsRowDot | nn-conv1d/generic/PlanarConvolution.c:209-215 | the dot's pointer arithmetic walks gradOutput row j and input row j + h shifted by k |
| ConvGrad.RowsAddedNext | nn-conv1d/generic/PlanarConvolution.c:206-207 | the partial tap gradient grows by scale times one row dot per step of j |
| ConvGrad.RowsInside | nn-conv1d/generic/PlanarConvolution.c:209-215 | every read of the dot lies inside gradOutput and input |
| ConvGrad.TapGrad | nn-conv1d/generic/PlanarConvolution.c:206-216 | gradWeight cell q gains scale times the sum of row dots over j; no other cell changes |
| ConvGrad.GradCell | nn-conv1d/generic/PlanarConvolution.c:207 | tap (i, h, k) lies inside kernel row h of plane i's kernel block |
| ConvGrad.RowGrad | nn-conv1d/generic/PlanarConvolution.c:205-217 | the k loop updates exactly the kW cells of kernel row h |
| ConvGrad.KernelGrad | nn-conv1d/generic/PlanarConvolution.c:204-218 | the (h, k) loops update every tap of plane i and nothing outside its kernel block |
| ConvGrad.KernelsApart | nn-conv1d/generic/PlanarConvolution.c:207 | with stride[0] at least kH * kW, the kernel blocks of distinct planes are disjoint |
| ConvGrad.WeightGradSample | nn-conv1d/generic/PlanarConvolution.c:203-219 | every tap of every output plane gains its WeightStep; memory outside all kernel blocks is kept |
| ConvGrad.DotIsPlaneDot | nn-conv1d/generic/PlanarConvolution.c:198-199 | the dot over row i of the [nOutputPlane, oH * oW] matrix view is PlaneDot |
| ConvGrad.MatrixRowInside | nn-conv1d/generic/PlanarConvolution.c:198-199 | the reads of that dot lie inside gradOutput and ones |
| ConvGrad.MatrixRowDot | nn-conv1d/generic/PlanarConvolution.c:222 | one row of the matrix-vector product equals PlaneDot |
| ConvGrad.AddMv | nn-conv1d/generic/PlanarConvolution.c:222 | addmv: gradBias[i] gains scale times row i dotted with ones, for i < nOutputPlane only |
| ConvProps.ZeroWeightsGiveBias | nn-conv1d/generic/PlanarConvolution.c:46-66 | a plane whose kernel is all zero outputs exactly its bias |
| ConvProps.UnitTaps | nn-conv1d/generic/PlanarConvolution.c:56-63 | a kernel whose every tap contributes 1 sums to kH * kW |
| ConvProps.WorkedExample | nn-conv1d/generic/PlanarConvolution.c:46-66 | a 3 x 3 input of ones under a 2 x 2 kernel of ones and zero bias gives 4 in each of the four output cells |
| ConvProps.SumRows | nn-conv1d/generic/PlanarConvolution.c:198-199 | a sum over oH * oW entries is the sum over oH rows of oW entries |
| ConvProps.FirstPlaneCell | nn-conv1d/generic/PlanarConvolution.c:198-199 | entry j * oW + c of matrix row i is element (0, i, j, c) of the 4-D gradOutput |
| ConvProps.FirstPlaneRow | nn-conv1d/generic/PlanarConvolution.c:198-199 | row j of matrix row i, summed over its oW entries, is row j of plane i of batch element 0 |
| ConvProps.BiasGradIsFirstPlaneSum | nn-conv1d/generic/PlanarConvolution.c:198-222 | the bias-gradient dot of plane i is the sum of plane i of batch element 0, whichever element the addmv runs for |
| ConvProps.Rank3AsBatch | nn-conv1d/generic/PlanarConvolution.c:25-28 | for a contiguous 3-D input, element (i, r, c) is element (0, i, r, c) of its batch-of-one header |
| Strided.ContiguousStrides | nn-conv1d/generic/PlanarConvolution.c:36 | a contiguous header has stride 1 on the last dimension and each stride is the next size times the next stride |
| Strided.Zero | nn-conv1d/generic/SpatialSubSamplingPeriodic.c:117 | THTensor zero: every element the header addresses becomes 0, other memory is kept |
| Strided.UnitStep | nn-conv1d/generic/PlanarConvolution.c:58-62 | with column stride 1, adding k to an element's address reaches the element k columns further along |
| Contiguous.Contig | nn-conv1d/generic/PlanarConvolution.c:36 | a resized tensor gets a well-formed contiguous header of the given sizes |
| Contiguous.ContigOffset | nn-conv1d/generic/PlanarConvolution.c:36 | the offset of a contiguous header is the row-major (Horner) address |
| Contiguous.ContigInjective | nn-conv1d/generic/PlanarConvolution.c:36 | distinct in-range indices of a contiguous header address distinct elements |
| Contiguous.ContigFits | nn-conv1d/generic/PlanarConvolution.c:36 | a contiguous header addresses only [offset, offset + volume) |
| Contiguous.Flat | nn-conv1d/generic/PlanarConvolution.c:36 | the flat address of an in-range index lies below the volume |
| ConvAdjoint.BackwardIsAdjoint | nn-conv1d/generic/PlanarConvolution.c:46-138 | for rank-4 headers with unit column stride and nInputPlane == nOutputPlane, the sum over the input of gradInput times x equals the sum over gradOutput of g times the bias-free forward result |
| ConvAdjoint.SumAdjoint | nn-conv1d/generic/PlanarConvolution.c:46-138 | the same equality for any functions equal to the two integrands, proved plane by plane; planes no output plane covers contribute 0 |
| ConvAdjoint.PlaneAdjoint | nn-conv1d/generic/PlanarConvolution.c:54-66 | plane i of element e contributes the same to both sides |
| ConvAdjoint.LeftRow | nn-conv1d/generic/PlanarConvolution.c:126-138 | row r of the gradInput side is the abstract kernel's backward plane times x along row r |
| ConvAdjoint.LeftPlane | nn-conv1d/generic/PlanarConvolution.c:126-138 | the gradInput side of plane i is the abstract kernel's pairing of its backward plane with x |
| ConvAdjoint.RightRow | nn-conv1d/generic/PlanarConvolution.c:54-66 | row j of the gradOutput side is the sum of the abstract kernel's forward terms along row j |
| ConvAdjoint.RightCell | nn-conv1d/generic/PlanarConvolution.c:54-66 | at each output cell, g times the bias-free forward result is the abstract kernel's forward term |
| ConvAdjoint.KernelAdjoint | nn-conv1d/generic/PlanarConvolution.c:54-66 | for one plane: the backward plane paired with x equals the sum over output cells of g times the kernel sum |
| ConvAdjoint.BackwardPair | nn-conv1d/generic/PlanarConvolution.c:127-137 | the backward plane paired with x is the sum over output rows of their tap pairings |
| ConvAdjoint.OutputRowPair | nn-conv1d/generic/PlanarConvolution.c:128-136 | output row j's backward contribution paired with x is its sum over kernel taps and columns |
| ConvAdjoint.KernelRowPair | nn-conv1d/generic/PlanarConvolution.c:129-135 | kernel row h's backward contribution paired with x is its sum over taps and columns |
| ConvAdjoint.TapPair | nn-conv1d/generic/PlanarConvolution.c:130-134 | one tap's backward segment paired with x is the sum over output columns of g times that forward tap |
| ConvAdjoint.TapSegment | nn-conv1d/generic/PlanarConvolution.c:130-134 | one tap's backward segment is nonzero only on row j + h, columns k .. k + oW - 1, so its pairing is a sum over that segment |
| ConvAdjoint.ForwardRow | nn-conv1d/generic/PlanarConvolution.c:56-63 | the forward terms of row j summed over columns are the tap sums taken column-innermost |
| ConvAdjoint.FwdAsTaps | nn-conv1d/generic/PlanarConvolution.c:56-63 | g times the kernel sum at a cell is the sum of g times each tap |
| ConvAdjoint.FwdKernelRow | nn-conv1d/generic/PlanarConvolution.c:57-62 | g times a kernel row is the sum of g times each of its taps |
| ConvAdjoint.TapOrder | nn-conv1d/generic/PlanarConvolution.c:56-63 | summing the taps of kernel row h over columns first or taps first gives the same |
| ConvAdjoint.PlaneOf | nn-conv1d/generic/PlanarConvolution.c:54-66 | plane i of element e as an abstract kernel with the layer's kH, kW and output size, well formed for a valid layer |
| ConvAdjoint.ContribIs | nn-conv1d/generic/PlanarConvolution.c:129-134 | a backward contribution of the source is the abstract kernel's contribution |
| ConvAdjoint.BackTapIs | nn-conv1d/generic/PlanarConvolution.c:129-135 | a backward kernel row of the source is the abstract kernel's |
| ConvAdjoint.BackRowIs | nn-conv1d/generic/PlanarConvolution.c:128-136 | a backward output row of the source is the abstract kernel's |
| ConvAdjoint.GradIs | nn-conv1d/generic/PlanarConvolution.c:126-138 | GradInputAt is the abstract kernel's backward plane |
| ConvAdjoint.KernelRowIs | nn-conv1d/generic/PlanarConvolution.c:56-63 | a forward kernel row of the source is the abstract kernel's |
| ConvAdjoint.KernelSumIs | nn-conv1d/generic/PlanarConvolution.c:54-66 | the forward kernel sum of the source is the abstract kernel's |
| ConvAdjoint.RawIsAt | nn-conv1d/generic/PlanarConvolution.c:58-62 | with column stride 1, the raw column read is the tensor element |
| ConvAdjoint.PairLinear | nn-conv1d/generic/PlanarConvolution.c:127-137 | pairing a sum of planes with x is the sum of the pairings, as the accumulating loops need |
| ConvAdjoint.Spike | nn-conv1d/generic/PlanarConvolution.c:130-134 | a plane nonzero only on one row segment pairs to the sum over that segment |
| ConvAdjoint.SumSwap | nn-conv1d/generic/PlanarConvolution.c:54-66 | the order of two finite sums can be exchanged |
| SubSampling.PreimageOfTarget | nn-conv1d/generic/SpatialSubSamplingPeriodic.c:139-144 | every backward target is hit, and its preimage is the gradOutput index it came from |
| SubSampling.TargetOfPreimage | nn-conv1d/generic/SpatialSubSamplingPeriodic.c:139-144 | a hit gradInput index is the target of its preimage |
| SubSampling.TargetInjective | nn-conv1d/generic/SpatialSubSamplingPeriodic.c:139-144 | distinct gradOutput indices have distinct targets, so no two are added into the same cell |
| SubSampling.TargetedValue | nn-conv1d/generic/SpatialSubSamplingPeriodic.c:117-145 | the gradInput cell targeted by gradOutput index a ends holding gradOutput[a] |
| SubSampling.UntargetedZero | nn-conv1d/generic/SpatialSubSamplingPeriodic.c:117-145 | a gradInput cell no gradOutput index targets ends at 0 |
| SubSampling.Lattice | nn-conv1d/generic/SpatialSubSamplingPeriodic.c:139-140 | the backward index map as an affine map per dimension, agreeing with Target everywhere |
| SubSampling.Adjoint | nn-conv1d/generic/SpatialSubSamplingPeriodic.c:5-152 | with iW = 0 and steps of at least 1, the backward pass is the adjoint of the forward pass: the sum over x of gradInput times x equals the sum over gradOutput of g times output |
| SubSampling.AdjointScatter | nn-conv1d/generic/SpatialSubSamplingPeriodic.c:119-145 | the gradInput pairing, reindexed through the lattice, is the gradOutput pairing scattered to its targets |
| SubSampling.AdjointTerm | nn-conv1d/generic/SpatialSubSamplingPeriodic.c:139-145 | each gradInput term is the matching gradOutput term at its preimage, or 0 off the lattice |
| SubSampling.UpdateOutput | nn-conv1d/generic/SpatialSubSamplingPeriodic.c:5-76 | every output element (for an injective output header) is the input element at row y * dH + iH, column x * dW + iW; memory outside the output is kept |
| SubSampling.UpdateGradInput | nn-conv1d/generic/SpatialSubSamplingPeriodic.c:78-152 | after the zero and the scatter, every gradInput element (injective header, dW, dH >= 1) is the sum of the gradOutput elements targeting it; memory outside gradInput is kept |
| SubSampling.ScatterRows | nn-conv1d/generic/SpatialSubSamplingPeriodic.c:125-147 | the (i2, i3) loops carry the scatter invariant across one (i0, i1) block |
| SubSampling.Carry | nn-conv1d/generic/SpatialSubSamplingPeriodic.c:119-149 | the scatter invariant depends only on which in-range indices precede the loop position |
| SubSampling.AddInto | nn-conv1d/generic/SpatialSubSamplingPeriodic.c:145 | one addition keeps the scatter invariant at the next loop position |
| SubSampling.PartialStep | nn-conv1d/generic/SpatialSubSamplingPeriodic.c:145 | the partial scatter sum grows by gradOutput[c] exactly when c targets the cell |
| SubSampling.Source | nn-conv1d/generic/SpatialSubSamplingPeriodic.c:61-62 | the forward source index is the backward target of the same index exactly when iW == 0 |
| SubSampling.OutputAt | nn-conv1d/generic/SpatialSubSamplingPeriodic.c:61-69 | with steps 1 and offsets 0 the forward pass is the identity |
| SubSampling.GradInputAt | nn-conv1d/generic/SpatialSubSamplingPeriodic.c:139-145 | a gradInput cell is nonzero only when it is the target of an in-range gradOutput index |
| UpSampling.UpdateOutput | nn-conv1d/generic/SpatialUpSamplingPeriodic.c:5-76 | every output element (injective header) ends as OutputAt: a copy of input[i / s] where divisible, a zero written to the row's first cell otherwise, with the rank-4 write order preserved; memory outside the output is kept |
| UpSampling.UpsampleRows | nn-conv1d/generic/SpatialUpSamplingPeriodic.c:47-71 | the (i2, i3) loops carry the write invariant across one (i0, i1) block |
| UpSampling.UpsampleOne | nn-conv1d/generic/SpatialUpSamplingPeriodic.c:54-69 | one iteration, the zero branch or the copy, keeps the write invariant |
| UpSampling.Carry | nn-conv1d/generic/SpatialUpSamplingPeriodic.c:41-73 | the write invariant depends only on which indices and row prefixes precede the loop position |
| UpSampling.OutputAt | nn-conv1d/generic/SpatialUpSamplingPeriodic.c:54-68 | with scale 1 every output element is a copy of the input element |
| UpSampling.PartialDone | nn-conv1d/generic/SpatialUpSamplingPeriodic.c:41-73 | once the loops have passed an element's whole batch element, it holds its final value |
| UpSampling.UpdateGradInput | nn-conv1d/generic/SpatialUpSamplingPeriodic.c:78-150 | after the zero, every gradInput element (injective header) is gradOutput at s times its index; memory outside gradInput is kept |
| UpSampling.GatherRows | nn-conv1d/generic/SpatialUpSamplingPeriodic.c:121-146 | the (i2, i3) loops carry the gather invariant across one (i0, i1) block |
| UpSampling.GradInputAt | nn-conv1d/generic/SpatialUpSamplingPeriodic.c:137-143 | with scale 1 gradInput is gradOutput at the same position |
| UpSampling.Rank3Output | nn-conv1d/generic/SpatialUpSamplingPeriodic.c:50-69 | for rank 3 the output is a copy where both indices divide by s and 0 elsewhere |
| UpSampling.Rank4FirstColumnZero | nn-conv1d/generic/SpatialUpSamplingPeriodic.c:54-64 | for rank 4 with s >= 2 and rows of two or more, the first cell of every row ends at 0 |
| UpSampling.RoundTrip | nn-conv1d/generic/SpatialUpSamplingPeriodic.c:5-76 | for rank 3, subsampling with step s and no offset after upsampling by s gives back the input |
| UpSampling.BackwardIsSubsampling | nn-conv1d/generic/SpatialUpSamplingPeriodic.c:131-143 | the upsampling backward pass is subsampling with step s and no offset |
| UpSampling.BackwardReadsLattice | nn-conv1d/generic/SpatialUpSamplingPeriodic.c:137-143 | gradInput depends only on the gradOutput elements whose indices divide by s |
| UpSampling.Lattice | nn-conv1d/generic/SpatialUpSamplingPeriodic.c:137-142 | the backward index map as an affine map per dimension, agreeing with BackSource |
| UpSampling.AdjointTerm | nn-conv1d/generic/SpatialUpSamplingPeriodic.c:54-68 | each forward pairing term is the backward term at its lattice preimage, or 0 off the lattice |
| UpSampling.Adjoint | nn-conv1d/generic/SpatialUpSamplingPeriodic.c:5-150 | for rank 3, the backward pass is the adjoint of the forward pass: the sum of g times the upsampled x equals the sum of x times gradInput |
| UpSampling.AdjointScatter | nn-conv1d/generic/SpatialUpSamplingPeriodic.c:54-68 | the forward pairing, reindexed through the lattice, is the backward pairing scattered onto the lattice |

## Left out

- The Lua glue is not modelled: reading fields, type checks, `luaL_optnumber`
  (its default of 1 for `scale`) and the return counts. The object's fields
  are class fields and the arguments are parameters.
- OpenMP: the forward and backward batch loops are run sequentially. Distinct
  batch elements write disjoint blocks (`ConvBatch.BlocksApart`).
- Floating point is modelled as exact `real` arithmetic: no rounding and no
  overflow. The C `int`/`long` index arithmetic is unbounded.
- THTensor storage reuse is not modelled. The source resizes `output` and
  `gradInput`, possibly in their old storage; the model allocates a fresh
  contiguous array with offset 0. `ones` is the one exception: it is kept
  when the source keeps it.
- `weight`, `bias` and `gradBias` are read through `THTensor_(data)` and
  `get1d` as offset-0 contiguous arrays; `gradWeight` keeps its storage offset
  and `stride[0]`.
- Planar.PlanarConvolution.UpdateOutput: requires oH, oW >= 1,
  nInputPlane <= nOutputPlane <= #bias and in-bounds reads. The source does
  not check these; out of range they read or write outside the buffers.
- Planar.PlanarConvolution.UpdateGradInput: requires a ranked input and
  gradOutput of the same rank, nOutputPlane <= the input's plane count and
  in-bounds reads. The source reads `gradOutput->size[...]` without checking
  the rank.
- Planar.PlanarConvolution.AccGradParameters: requires the same, plus:
  - gradWeight `stride[0]` >= kH * kW;
  - gradBias of exactly nOutputPlane elements;
  - a contiguous gradOutput prefix of nOutputPlane * oH * oW elements;
  - a kept `ones` vector of no more than oH * oW elements. A longer one makes
    TH's addmv reject the size mismatch, which is not modelled.
- Planar.PlanarConvolution.AccGradParameters: the bias gradient is kept as
  written. The addmv reads the matrix view at gradOutput's own storage offset
  for every batch element, so gradBias gains B times the row sums of batch
  element 0 (`ConvProps.BiasGradIsFirstPlaneSum`), not the sum over the batch.
- Rank 5 is not modelled. The resampler loops address at most four
  dimensions, so the model covers ranks 3 and 4.
- SubSampling.UpdateOutput: the value of an output element is stated only
  when the output header is injective (no two indices share storage). The
  source writes through any header; with aliasing, later writes win. The
  same holds for SubSampling.UpdateGradInput, UpSampling.UpdateOutput and
  UpSampling.UpdateGradInput.
- SubSampling.UpdateGradInput: the values of gradInput are stated only for
  dW, dH >= 1 (the method still runs, and keeps memory outside gradInput,
  for any steps). The source does not check the steps. With a step of 0
  every gradOutput index of a row or column adds into the same cell, so a
  cell is the sum of many gradOutput elements. The model's closed form
  (`SubSampling.GradInputAt`) reads the single gradOutput element at the
  unique preimage, which only exists for steps of at least 1.
- SubSampling.UpdateOutput: requires every source index to be in range, and
  the other resampling methods require the same of their index maps. The
  source has no shape checks and would read or write out of bounds.
- SubSampling.Adjoint: proved only for iW == 0 and dW, dH >= 1. With
  iW != 0 the backward target column is dW * x - iW while the forward source
  column is x * dW + iW, so the two passes are not adjoint (the ensures of
  `SubSampling.Source`).
- UpSampling.Adjoint: proved for rank 3 only. In rank 4 the zero branch
  writes the row's first cell instead of the current one, so the forward
  pass is not the upsampling the adjoint pairs with
  (`UpSampling.Rank4FirstColumnZero`).
- ConvAdjoint.BackwardIsAdjoint: proved only when nInputPlane ==
  nOutputPlane, for rank-4 headers whose last stride is 1, and against the
  forward result without its bias. With nInputPlane != nOutputPlane the two
  loops cover different planes. A 3-D call reaches these headers through
  `Planar.Batched`, and the bias is a constant the backward pass does not
  see.
- Planar.PlanarConvolution.UpdateGradInput: the `resize3d` of the input
  itself (line 147) is modelled as the returned header only. When
  nInputPlane exceeds the input's plane count, the source may grow the
  input's storage; the model leaves the input array unchanged.
