# HOOMD-blue: MPCD integrator, Saru generator and HDF5 log, in Dafny

This project models three parts of HOOMD-blue and proves properties of each.

- **The MPCD integrator** (`hoomd/mpcd/__init__.py`, class `integrator`):
  - the Python object that holds the time step `dt` and the anisotropic mode `aniso`;
  - `set_params`;
  - `update_methods`, which rebuilds the C++ integrator's list of MD integration methods, installs or removes the MPCD streaming and collision methods, and enforces that the collision period is a multiple of the streaming period;
  - the multi-rate schedule promised by the class docstring.

  The C++ integrator is an abstract record, `Engine`. The global `hoomd.context.current` is an explicit `Context` input, and warnings are returned rather than printed.
- **The Saru random number generator** (`hoomd/Saru.h`, class `Saru`): the key and counter that the constructor lays out from its seeds, and the rule that every draw evaluates Philox-4x32 once and then advances counter word 0 by one, modulo 2^32. It also covers how output words are packed into 64-bit values. Philox is a block function handed to the constructor, and every property holds for any such function.
- **The HDF5 logger** (`hoomd/hdf5.py`, class `log`): `_write_header`, `_write_single_values`, `_write_matrix_values`, `_write_hdf5` and `set_params`.
  - An open HDF5 file is a class whose field maps dataset names to datasets. Each dataset holds its inner shape, its rows and its attribute table.
  - h5py writes through at once, so a write that raises leaves behind what it already changed. Each specification function returns the datasets together with the error, and each method is proved to produce exactly that.

Files:
- `common.dfy`: `Option` and `Result`.
- `saru.dfy`: module `SaruRng`.
- `mpcd_integrator.dfy`: module `MpcdIntegrator`.
- `hdf5_log.dfy`: module `Hdf5Log`.

## Model

| member | source | states |
|---|---|---|
| SaruRng.Inc32 | hoomd/Saru.h:193 | `m_ctr[0] += 1` on an unsigned 32-bit word: the result is x + 1 modulo 2^32 |
| SaruRng.Pack64 | hoomd/Saru.h:220 | `uint64_t(hi) << 32` or-ed with `lo`: the high 32 bits of the result are `hi` and the low 32 bits are `lo`, so the packing is injective |
| SaruRng.AdvanceNMovesWord0Only | hoomd/Saru.h:189-195 | n draws add n to counter word 0 modulo 2^32 and leave words 1 to 3 unchanged |
| SaruRng.NoCounterRepeats | hoomd/Saru.h:87-88 | within fewer than 2^32 draws, no counter value is given to Philox twice |
| SaruRng.Word0CountsDraws | hoomd/Saru.h:180-193 | after n < 2^32 draws from a fresh generator, the counter is (n, counter3, counter2, counter1) |
| SaruRng.CounterPeriod | hoomd/Saru.h:193 | after exactly 2^32 draws the counter returns to its starting value |
| SaruRng.Saru.constructor | hoomd/Saru.h:174-182 | key = (seed1, seed2) and counter = (0, counter3, counter2, counter1); every omitted argument defaults to 0, so each shorter form is the five-value form with zeros |
| SaruRng.Saru.U32 | hoomd/Saru.h:189-195 | returns word 0 of Philox on the counter from before the draw; the key and counter words 1 to 3 are unchanged and word 0 advances by one |
| SaruRng.Saru.F | hoomd/Saru.h:202-208 | the float comes from word 0 of the block for the counter before the draw; the state advances one step |
| SaruRng.Saru.D | hoomd/Saru.h:215-222 | the double comes from word 0 (high half) and word 1 (low half); the state advances one step |
| SaruRng.Saru.S | hoomd/Saru.h:230-246 | `s<float>` is exactly `f()` and `s<double>` is exactly `d()`, one step each |
| SaruRng.Saru.FRange | hoomd/Saru.h:255-258 | `a + (b - a) * f()`: one base draw, one step |
| SaruRng.Saru.DRange | hoomd/Saru.h:267-270 | `a + (b - a) * d()`: one base draw, one step |
| SaruRng.Saru.SRange | hoomd/Saru.h:280-298 | delegates to `f(a, b)` or `d(a, b)`: one step |
| SaruRng.Saru.Normal | hoomd/Saru.h:306-330 | `normal<float>` pairs words 0 and 1; `normal<double>` pairs the 64-bit values (word 0, word 1) and (word 2, word 3); one step |
| SaruRng.DrawFresh | hoomd/Saru.h:180-194 | a freshly built generator returns, for any sequence of draws, a list that depends only on the constructor arguments: the i-th value is read from Philox on the initial counter advanced i times, so two generators built and drawn alike agree |
| MpcdIntegrator.AnisoModes | hoomd/mpcd/__init__.py:169-172 | the `_aniso_modes` lookup under Python's `==`: None gives Automatic; True, 1 and 1.0 give Anisotropic; False, 0 and 0.0 give Isotropic; every other hashable value is missing, both ways |
| MpcdIntegrator.PeriodCheck | hoomd/mpcd/__init__.py:222-224 | a zero streaming period raises ZeroDivisionError; otherwise the check passes exactly when the streaming period divides the collision period, and a failure is the ValueError naming both periods |
| MpcdIntegrator.PyMod | hoomd/mpcd/__init__.py:222 | Python's `%` on integers: zero exactly when b divides a; for b > 0 it is the Euclidean remainder; for b < 0 it lies in (b, 0] |
| MpcdIntegrator.Integrator.constructor | hoomd/mpcd/__init__.py:151-159 | stores dt and aniso and builds a C++ integrator with that time step, no methods and the Automatic mode |
| MpcdIntegrator.NewIntegrator | hoomd/mpcd/__init__.py:145-167 | with no MPCD system, RuntimeError is raised before any object exists. Otherwise a non-None aniso goes through `set_params`, whose errors propagate, and construction succeeds exactly when neither raises. On success the object is fresh, consistent, and has the table's mode for aniso |
| MpcdIntegrator.Integrator.SetParams | hoomd/mpcd/__init__.py:174-202 | an uninitialized system raises and changes nothing. A given dt is stored and forwarded; a None dt changes nothing. None aniso leaves the mode alone; a known aniso sets the table's mode (True/1 Anisotropic, False/0 Isotropic); an unknown one raises after dt is applied and leaves aniso and the mode as they were. The mode never becomes Automatic anew, and consistency of dt, aniso and the C++ integrator is preserved |
| MpcdIntegrator.Integrator.UpdateMethods | hoomd/mpcd/__init__.py:204-229 | the MD method list equals the context's list, in order. A missing streaming or collision method yields a warning and its removal, never an error. With both present, a collision period that is not a multiple of the streaming period raises (ValueError, or ZeroDivisionError for period 0) after the MD methods and the streaming method are set, and the collision method stays as it was. With no streaming method there is no period check. dt and the mode are untouched |
| MpcdIntegrator.MpcdDataStep | hoomd/mpcd/__init__.py:123-137 | the step whose state the MPCD data holds at step t is a multiple of the streaming period in [t, t + period) |
| MpcdIntegrator.RunMatchesDocstring | hoomd/mpcd/__init__.py:123-137 | after n steps the MD data is at step n and the MPCD data at the end of the current streaming interval (period 5, step 3: MPCD step 5) |
| MpcdIntegrator.UniqueBoundary | hoomd/mpcd/__init__.py:123-137 | the end of the streaming interval is unique: any multiple of the period in [t, t + period) is it |
| MpcdIntegrator.CollisionStepsAreStreamingSteps | hoomd/mpcd/__init__.py:220-226 | the collision period is a multiple of the streaming period exactly when every collision step is also a streaming step |
| Hdf5Log.SyncAttrsSpec | hoomd/hdf5.py:327-338 | the name/column loop succeeds exactly when the names are distinct and agree with the stored table (a stored name at its own index, a new name's index free); on success each name sits at its index, stored entries are kept, and nothing else is added |
| Hdf5Log.ClashPersists | hoomd/hdf5.py:329-337 | once a pass raises, the later passes do nothing |
| Hdf5Log.HeaderEffect | hoomd/hdf5.py:311-324 | after a successful header, single_values exists and has one column per quantity |
| Hdf5Log.HeaderAcceptsIff | hoomd/hdf5.py:311-338 | a rank-one single_values raises and changes nothing. A missing single_values, or a width change on a dataset with no rows, succeeds exactly when the names are distinct. A width change with rows logged raises and changes nothing. A dataset of the right width needs its stored table to agree as well |
| Hdf5Log.HeaderPlacesNames | hoomd/hdf5.py:312-338 | after a successful header, `attrs[quantities[i]] == i` for every i. The rows are kept, or none remain after a reset. A created or reset table holds the names and nothing else, since a reset deletes every attribute. A table of the right width keeps every stored entry and gains only names. Every other dataset is unchanged |
| Hdf5Log.DuplicateNamesRejected | hoomd/hdf5.py:328-337 | a name listed twice always makes the header raise |
| Hdf5Log.SingleWriteAppendsOneRow | hoomd/hdf5.py:237-249 | a single-value write succeeds exactly when the header does and the array has one entry per quantity; then single_values gains exactly one row, the array, while its attribute table stays as the header left it and every other dataset is unchanged |
| Hdf5Log.FirstMismatch | hoomd/hdf5.py:292-297 | the first dimension where two shapes of equal rank differ: all earlier dimensions agree, and the one it names differs |
| Hdf5Log.StoreMatrixAppendsOneRow | hoomd/hdf5.py:265-302 | one matrix is stored exactly when it is an ndarray with a non-zero dimension (a 0-dimensional array is rejected) and its shape equals that of any existing dataset of that name. It then creates the dataset if needed and appends exactly one row, the matrix. Any rejection changes nothing |
| Hdf5Log.NonRootLeavesFileAlone | hoomd/hdf5.py:265 | on a rank other than the root, the matrix write changes no dataset. This holds by construction of MatrixEffect, whose root flag guards every change. In the methods a non-root rank has no file at all, so Log.WriteMatrixValues and Log.WriteHdf5 state only the error it raises |
| Hdf5Log.MatrixWriteShapes | hoomd/hdf5.py:279-302 | after a successful matrix write every listed quantity has a dataset shaped like the value it logged |
| Hdf5Log.MatrixErrorPersists | hoomd/hdf5.py:256-263 | once a quantity raises, the later quantities are not processed |
| Hdf5Log.Log.SetParams | hoomd/hdf5.py:101-122 | None leaves a list of quantities unchanged; a given list replaces it |
| Hdf5Log.Log.WriteHeader | hoomd/hdf5.py:307-338 | on the root rank the file ends as HeaderEffect says, including the partial effects of a raise; with no file nothing happens |
| Hdf5Log.Log.WriteSingleValues | hoomd/hdf5.py:234-249 | on the root rank the file ends as SingleValuesEffect says; with no file nothing happens |
| Hdf5Log.Log.WriteMatrixValues | hoomd/hdf5.py:253-302 | on the root rank the file ends as MatrixEffect says. Every rank raises on an unobtainable value; the rest of the checks run only on the root |
| Hdf5Log.StoreMatrixValue | hoomd/hdf5.py:265-302 | one quantity on the root rank: the file ends as StoreMatrix says |
| Hdf5Log.Log.WriteHdf5 | hoomd/hdf5.py:218-230 | single values first; the matrices only when those succeed |

## Left out

- Philox-4x32: its rounds are foreign Random123 code. The block function is a parameter of the constructor, and all properties hold for every such function.
- `r123::u01`, `uneg11`, Box-Muller and the float arithmetic `a + (b - a) * x`: draws return the exact integer words those conversions receive, so no floating-point value is computed.
- SaruRng.Saru.Normal: returns the pair Box-Muller receives, not its first output `n.x`.
- MpcdIntegrator.Integrator.constructor: the C++ integrator is assumed to start in the Automatic mode. Its C++ constructor is not part of this model.
- Also left out of the MPCD integrator:
  - `setMPCDCommunicator`, `system.setIntegrator` and `hoomd.integrate._integrator.__init__`: foreign C++ and global bookkeeping;
  - `metadata_fields` and `supports_methods`: constant metadata;
  - the status and message output (warnings are returned as values).
- `dt` is not checked or converted: the source stores any value, and the model takes a real.
- The stream and collision methods are abstract values with a period. Streaming, collision and the MD integration step themselves are not modelled. The schedule lemmas speak of the step numbers only.
- The MPCD docstring's data-step rule is read as "the end of the current streaming interval", as its example says: at step 3 with period 5 the data is for step 5.
- Also left out of the HDF5 logger:
  - opening and closing the file, `os.remove`, the constructor of `log`, and the MPI rank query: the file is passed in, or null on a non-root rank;
  - callbacks, `query`, `update_quantities`, `enable` and `disable`.
- The C++ `LogHDF5` object is left out. The logged quantity names are the fields of `Log`, the single-value array is a parameter, and each matrix value is a parameter: an array, another object, or an exception.
- h5py's element types are left out. A dataset records its inner shape and its rows. The rows are flattened to a sequence of reals, and a matrix's elements are not checked against its shape.
- Hdf5Log.Log.WriteHeader: datasets of rank above two are not distinguished. A rank-one single_values raises IndexError at `shape[1]` (hoomd/hdf5.py:314) before anything changes, modelled as SingleValuesRank. For a single_values of rank three or more whose width differs and which has no rows, the source's two-axis resize (hoomd/hdf5.py:316) would raise, while the model sets the inner shape to the single column count.
- Hdf5Log.HeaderAcceptsIff: h5py's `maxshape` is not modelled. The program creates single_values with its width as the maximum (hoomd/hdf5.py:324), so widening an empty single_values beyond the width it was created with makes the resize (hoomd/hdf5.py:316) raise ValueError before any attribute is deleted. The model accepts that case whenever the names are distinct. Narrowing, and widening back up to the created width after an earlier narrowing, stay within the maximum and match the model.
- Hdf5Log.Log.SetParams: quantity names are taken as strings. The `str(item)` conversion of other objects (hoomd/hdf5.py:113, 120) is not modelled.
- MpcdIntegrator.AnisoModes: an unhashable aniso (a list, say) makes the `in` test of hoomd/mpcd/__init__.py:196 raise TypeError. The model treats it as an unknown value, so SetParams reports the RuntimeError of hoomd/mpcd/__init__.py:200 instead. The state effects are the same: dt is applied and aniso is unchanged.
