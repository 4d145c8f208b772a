# ssrltools core, modelled in Dafny

This project models the bookkeeping logic of `ssrltools`, the SSRL beamline
toolkit built on ophyd and bluesky. Four pieces are modelled:

- **Asset documents of array signals.** Covers `ArraySignal` and the simulated
  `ArraySynSignal`, modules `AssetDocs`, `ArraySignals` and `ArraySynSignals`.
  - Every `trigger()` caches a `resource` entry and then its `datum` entry, and
    stores a reading whose value is the datum id.
  - `read()` refuses to answer before the first trigger.
  - `collect_asset_docs()` hands out the cached entries in order and empties
    the cache.
  - The simulated signal numbers its points and names its `.tiff` file after
    the point number.
  - The simulated signal's cache is a class attribute, so every instance
    shares it.
- **Xspress3 datum generation.** `SSRLXspress3Detector`, module `Xspress3`.
  - Staging installs a datum counter.
  - `complete()` copies the HDF5 plugin's cached resources and then emits one
    datum per (frame, channel) pair, frame-major, with ids `"<resource uid>/<n>"`.
  - `collect()` reports one event per id.
  - `collect_asset_docs()` drains the deque.
- **Shutter control.** `ShutterBase` together with the simulated
  `SynShutter`, module `Shutter`.
  - Case-folded synonym lists, `choices`, `validTarget` and `inPosition`.
  - The `busy` guard of `set()` and its "already there" shortcut.
  - The worker thread, modelled as an explicit step method that raises `busy`,
    moves, lowers `busy` and finishes the status.
  - The simulated `state`, `open()` and `close()`.
- **HiTp sample locations.** Modules `WaferGrid`, `HitpGrid`, `SampleLocs`,
  `HiTp` and `SimHiTp`.
  - `gen_wafer_locs` as an integer disc filter over a meshgrid. Coordinates are
    in half-millimetre units, so the `'hitp'` grid has step 9 and radius 63.
  - The `HiTpStage` registry: `sample`, `save_sample_loc`,
    `set_all_vert_theta` and `sample_loc_list`.
  - The simulated stage's registry and `move_to_sample_plan`.
  - The per-step hook that skips grid points outside a radius or above a
    detector threshold.

Module `SimSetup` covers the simulated slits and filter box of the
simulation setup script. Module `NoiseArgs` covers the `noise` argument
check shared by the simulated detectors.

The repository carries the device classes twice, in `ssrltools/devices.py`
and `ssrltools/devices/__init__.py`, and the simulated signal twice, in
`ssrltools/sim.py` and `ssrltools/sim/__init__.py`. Each pair is
identical in the modelled logic, so each is modelled once and the table
cites both copies.

Things the code reads from outside are parameters of the model: motor
positions, uuids, the HDF5 plugin's `num_captured`, `channels`,
`_resource_uid` and cached resources, the clock, and the rows of the
position table.

Status objects are records `Status(done, success)`. `NullStatus` is
`Status(true, true)`.

Where the code and its documentation differ, the model follows the code.
Xspress3 `collect()` leaves `_datum_ids` in place, so a repeated call
reports the same events.

## Model

| member | source | states |
|---|---|---|
| AssetDocs.DatumIdInjective | ssrltools/devices/xspress3.py:96 | Ids `"<uid>/<n>"` built from one resource uid are equal exactly when their counter values are equal |
| AssetDocs.AppendPairKeepsResourcesFirst | ssrltools/devices/__init__.py:43-44 | Appending a resource and then a datum that points to it keeps every datum after the resource it names |
| AssetDocs.AssetCache.AppendPair | ssrltools/devices/__init__.py:43-44 | The cache grows by exactly the resource entry followed by the datum entry |
| AssetDocs.AssetCache.Drain | ssrltools/devices/__init__.py:68-72 | Returns the cached entries in insertion order and leaves the cache empty |
| ArraySignals.ArraySignal.constructor | ssrltools/devices/__init__.py:16-23 | A new signal has an empty cache of its own and no stored reading, so `read()` fails |
| ArraySignals.ArraySignal.Read | ssrltools/devices.py:78-81 | Fails ("read before being triggered") exactly when no reading is stored; otherwise returns the stored reading unchanged |
| ArraySignals.ArraySignal.Trigger | ssrltools/devices.py:40-66 | Appends the `npy` resource and then its datum to the cache, and makes `read()` return the reading whose value is that datum's id |
| ArraySignals.ArraySignal.CollectAssetDocs | ssrltools/devices.py:83-87 | Yields the cached entries in order, each datum after its resource, and leaves the cache empty |
| ArraySignals.TriggerTwiceCollectTwice | ssrltools/devices/__init__.py:25-72 | After two triggers the first drain yields both resource/datum pairs in trigger order and a second drain yields nothing; `read()` gives the second trigger's reading |
| ArraySynSignals.TiffSuffix | ssrltools/sim/__init__.py:100-101 | The suffix `f'_{n}.tiff'` is `"_"`, then the decimal digits of n, then `".tiff"` |
| ArraySynSignals.TemplateNamesWrittenFile | ssrltools/sim/__init__.py:92-101 | Filling the handler's `'%s%s_%d.tiff'` template with path, filename and point number gives the path followed by the name of the file `trigger()` writes |
| ArraySynSignals.ArraySynSignal.constructor | ssrltools/sim/__init__.py:70-72 | A new signal joins the shared cache, has no stored reading and has point number 0 |
| ArraySynSignals.ArraySynSignal.Read | ssrltools/sim.py:113-131 | Fails exactly when no reading is stored; otherwise returns the stored reading |
| ArraySynSignals.ArraySynSignal.Trigger | ssrltools/sim/__init__.py:74-109 | Point number goes up by one; the shared cache gains the AD_TIFF resource and then the datum carrying the new point number; the written file name is `<filename>_<point number>.tiff`; `read()` returns the datum id |
| ArraySynSignals.ArraySynSignal.CollectAssetDocs | ssrltools/sim/__init__.py:136-140 | Yields the shared cache in order, each datum after its resource, and empties it for every instance |
| ArraySynSignals.SharedCacheScenario | ssrltools/sim/__init__.py:70 | Two signals share one cache: after a trigger on the first, draining through the second yields that pair, and draining through the first then yields nothing |
| NoiseArgs.CheckNoise | ssrltools/sim/__init__.py:157-158 | Accepts exactly None, `'poisson'` and `'uniform'`; any other value is rejected with the one `ValueError`, which names the admitted values and not the value given |
| NoiseArgs.CheckNoiseRoundTrip | ssrltools/sim.py:156-157 | Every accepted noise kind maps back to the argument that selected it, and every argument accepted is one of the three |
| NoiseArgs.CaseMatters | scripts/setupSim_HiTp.py:146-147 | The comparison is exact: `'Poisson'` and the empty string are rejected |
| Text.Lower | ssrltools/devices/__init__.py:225-227 | The result is lower case and leaves an already lower-case string unchanged |
| Text.LowerIdempotent | ssrltools/devices/__init__.py:186-187 | Lower-casing twice equals lower-casing once, so validating the already lowered value accepts the same targets |
| Text.NatToStringInjective | ssrltools/devices/xspress3.py:96 | Distinct counter values print as distinct decimal strings |
| Text.ParseNatToString | ssrltools/sim/__init__.py:100-101 | Reading back the decimal string of a number gives the number |
| Shutter.LowerAll | ssrltools/devices/__init__.py:145-148 | Each synonym is replaced by its lower-case form in place, and a list that is already lower case is unchanged |
| Shutter.Choices | ssrltools/devices/__init__.py:220-223 | The open synonyms followed by the close synonyms; a text is a choice exactly when it is in one of the lists |
| Shutter.ValidTarget | ssrltools/devices/__init__.py:229-242 | True exactly when the lower-cased target is a choice; an unacceptable target raises `ValueError` with the target when raising is requested and returns False otherwise |
| Shutter.InPosition | ssrltools/devices.py:175-183 | An unacceptable target raises; otherwise True exactly for an open synonym while open or a close synonym while closed |
| Shutter.SynState | scripts/setupSim_HiTp.py:56-66 | The state is always one of `'open'`, `'close'` and `'unknown'` |
| Shutter.IsOpen | ssrltools/devices/__init__.py:150-153 | Open only when the state is the first open synonym; a state equal to a later, different synonym is not open |
| Shutter.IsClosed | ssrltools/devices/__init__.py:155-158 | Closed only when the state is the first close synonym; a state equal to a later, different synonym is not closed |
| Shutter.SynOpen | scripts/setupSim_HiTp.py:36-44 | `open()` writes the open value or nothing; with `'open'` as first synonym the shutter always ends open, and an open shutter is left as it is |
| Shutter.SynClose | scripts/setupSim_HiTp.py:46-54 | `close()` writes the close value or nothing; it never leaves the shutter open, closes an open one, and does nothing unless open |
| Shutter.Move | ssrltools/devices/__init__.py:198-201 | The worker's motion: an open synonym (tested first, even if also a close synonym) ends open, a close-only synonym never ends open, and any other target writes nothing |
| Shutter.SynStateQueries | ssrltools/devices.py:165-173 | `isOpen` holds exactly when the signal holds 1, and `isClosed` exactly when it holds 0 |
| Shutter.LaterSynonymIsNoState | ssrltools/devices/__init__.py:150-158 | A state equal to a later synonym (`'opened'`, `'closed'`) counts as neither open nor closed |
| Shutter.OpenCloseEffects | scripts/setupSim_HiTp.py:36-54 | `open()` always ends open and a second `open()` writes nothing new; `close()` closes an open shutter and changes nothing otherwise, including from `'unknown'` |
| Shutter.MoveAgreesWithInPosition | ssrltools/devices/__init__.py:191-203 | With disjoint synonym lists, a target already in position needs no motion; the worker's motion reaches an open target from any state and a close target from any known state, and from `'unknown'` a close target leaves the signal as it was |
| Shutter.SynShutter.constructor | ssrltools/devices/__init__.py:145-148 | A fresh shutter has the lower-cased default synonym lists, signal 0, no status, no worker, and reports `'close'` |
| Shutter.SynShutter.State | scripts/setupSim_HiTp.py:56-66 | The device reports `'open'` exactly when its signal holds 1 and `'close'` exactly when it holds 0 |
| Shutter.SynShutter.ChoicesNow | ssrltools/devices/__init__.py:220-223 | The current open synonyms followed by the current close synonyms |
| Shutter.SynShutter.AddOpenValue | ssrltools/devices/__init__.py:215-218 | Appends the lower-cased text to the open synonyms, changes nothing else, and returns the new choices |
| Shutter.SynShutter.AddCloseValue | ssrltools/devices/__init__.py:210-213 | Appends the lower-cased text to the close synonyms, changes nothing else, and returns the new choices |
| Shutter.SynShutter.Set | ssrltools/devices/__init__.py:170-206 | While busy it fails before anything else; an unacceptable target fails. A target already in position gets a finished successful status and no worker. Any other gets a pending status and a worker that has not run, so `busy` is still false |
| Shutter.SynShutter.WorkerStep | ssrltools/devices.py:210-218 | The worker raises `busy`, then opens for an open synonym (tested first) or closes for a close one, then lowers `busy`, then finishes its status successfully and ends |
| Shutter.OpenThroughWorker | ssrltools/devices/__init__.py:189-205 | From closed, `set` of an open synonym returns a pending status with `busy` false; stepping its worker makes `busy` true while moving, then leaves the shutter open, not busy, with the status finished |
| Shutter.CloseWhenClosed | ssrltools/devices/__init__.py:191-193 | Setting a closed shutter to a close synonym finishes the status at once, starts no worker and leaves `busy` false |
| Shutter.BusyGuard | ssrltools/devices/__init__.py:183-184 | While a worker holds `busy`, `set()` raises; before the worker runs a second `set()` is still accepted |
| Shutter.RejectUnknownTarget | ssrltools/devices.py:198-202 | An unknown target raises `ValueError` with the lowered target and creates no status |
| Xspress3.DatumsLength | ssrltools/devices/xspress3.py:94-101 | `complete()` produces exactly `num_captured × len(channels)` datums, none for a non-positive frame count |
| Xspress3.DatumsAt | ssrltools/devices/xspress3.py:94-100 | Datum `f·len(channels) + c` belongs to frame f and channel `channels[c]` and takes counter value `n + f·len(channels) + c`: frame-major, then channel order |
| Xspress3.DatumsIds | ssrltools/devices/xspress3.py:96-97 | The i-th datum's id is `"<uid>/<n+i>"` and it names the HDF5 resource |
| Xspress3.DatumIdsDistinct | ssrltools/devices/xspress3.py:94-102 | No datum id repeats within one `complete()` |
| Xspress3.SuccessiveCompletesDisjoint | ssrltools/devices/xspress3.py:94-97 | Two `complete()` calls in one staging, the second continuing the counter, share no datum id |
| Xspress3.CollectEvents | ssrltools/devices/xspress3.py:106-112 | One event per datum id, in order, each holding that id, one shared timestamp and `filled` False; without ids from a `complete()` it fails |
| Xspress3.SSRLXspress3Detector.constructor | ssrltools/devices/xspress3.py:64-65 | A new detector has an empty deque, no counter and no datum ids |
| Xspress3.SSRLXspress3Detector.Stage | ssrltools/devices/xspress3.py:73-79 | More than one spectrum per point is refused before anything changes; otherwise the counter restarts at 0 |
| Xspress3.SSRLXspress3Detector.Unstage | ssrltools/devices/xspress3.py:81-84 | Trigger mode goes back to 0 (software) and the counter is unset; documents and ids are kept |
| Xspress3.SSRLXspress3Detector.AppendResources | ssrltools/devices/xspress3.py:87-88 | Every cached HDF5 resource is appended, in order, as a resource entry |
| Xspress3.SSRLXspress3Detector.AppendFrame | ssrltools/devices/xspress3.py:95-102 | One frame appends a datum per channel to the deque and its id to the id list, and advances the counter by the channel count |
| Xspress3.SSRLXspress3Detector.AppendFrames | ssrltools/devices/xspress3.py:94-102 | All frames together append exactly the datums of the frame/channel enumeration, and the counter advances by their number |
| Xspress3.SSRLXspress3Detector.Complete | ssrltools/devices/xspress3.py:86-104 | Resources first, then the datums, the id list reset to exactly their ids, the counter advanced, and `NullStatus` returned; unstaged with any datum to produce, it fails after the resources were appended and the ids reset |
| Xspress3.SSRLXspress3Detector.Collect | ssrltools/devices/xspress3.py:106-112 | Reports the events of the current id list without changing it, so a repeated call gives the same events |
| Xspress3.SSRLXspress3Detector.CollectAssetDocs | ssrltools/devices/xspress3.py:114-118 | Yields the deque's contents in order and empties it; counter and ids are kept |
| Xspress3.StagedRun | ssrltools/devices/xspress3.py:73-118 | Two `complete()` calls in one staging each return `NullStatus`; the documents are each call's resources followed by its datums, the second call's counters continue after the first's, `collect()` reports only the second call's ids, and the deque ends empty |
| Xspress3.CompleteUnstaged | ssrltools/devices/xspress3.py:86-96 | Without staging, `complete()` on at least one frame and channel fails, leaving only the resource entries and an empty id list |
| Xspress3.CollectBeforeComplete | ssrltools/devices/xspress3.py:106-108 | `collect()` before any `complete()` has no id list to read and fails |
| WaferGrid.Linspace | ssrltools/devices/hitp.py:22 | n values, the k-th being `lo + step·k` |
| WaferGrid.GenWaferLocs | ssrltools/devices/hitp.py:17-54 | Fails (`linspace` with a negative sample count) exactly when `2·radius + 1 < 0`, for every shape |
| WaferGrid.CircleLocs | ssrltools/devices/hitp.py:22-36 | `'circle'` keeps exactly the lattice points of `[-r, r]²` with `x² + y² ≤ r²`, boundary included, in meshgrid row-major order |
| WaferGrid.OtherShapeLocs | ssrltools/devices/hitp.py:53-54 | Any shape other than `'circle'` and `'hitp'` returns the whole `(2r+1)²` grid, unfiltered, in row-major order |
| WaferGrid.MeshMembers | ssrltools/devices/hitp.py:24-27 | A point is in the flattened meshgrid exactly when its y is a row value and its x a column value; the mesh has `|ys|·|xs|` points |
| WaferGrid.Mesh | ssrltools/devices/hitp.py:24-27 | The flattened meshgrid has one point per (row value, column value) pair |
| WaferGrid.DiscFilter | ssrltools/devices/hitp.py:31-34 | Every kept point lies in the disc, and no more points are kept than were given |
| WaferGrid.MeshRowMajor | ssrltools/devices/hitp.py:24-27 | With increasing axis values the flattened meshgrid is in row-major order: y outer, x inner |
| WaferGrid.DiscFilterMembers | ssrltools/devices/hitp.py:31-34 | The filter keeps exactly the points inside the disc and never more points than it was given |
| WaferGrid.DiscFilterRowMajor | ssrltools/devices/hitp.py:31-34 | Filtering keeps the row-major order of the points it keeps |
| WaferGrid.EvenGridValues | ssrltools/devices/hitp.py:22 | In half-millimetre units the axis values are exactly the even integers from `-2r` to `2r` |
| WaferGrid.CountGridIsFilterSize | ssrltools/devices/hitp.py:41-50 | The number of points the disc filter keeps from a lattice equals the sum of the per-row counts |
| WaferGrid.CountStepsMirror | ssrltools/devices/hitp.py:48 | A row and its mirror image through the x axis keep as many points |
| HitpGrid.HitpCount | ssrltools/devices/hitp.py:37-52 | `gen_wafer_locs('hitp')` returns the 15 × 15 grid at spacing 4.5 cut to radius 31.5, and that is 149 points |
| SampleLocs.Put | ssrltools/devices/hitp.py:116-121 | Assigning a key keeps every key listed once in insertion order |
| SampleLocs.Get | ssrltools/devices/hitp.py:109-110 | Succeeds exactly for a stored key and fails with `KeyError` naming the key otherwise |
| SampleLocs.PutGet | ssrltools/sim/hitp.py:80-89 | After `d[k] = loc`, `d[k]` is `loc`, every other key reads as before, and only a new key extends the insertion order |
| SampleLocs.Values | ssrltools/sim/hitp.py:65 | `values()` gives the records in insertion order |
| SampleLocs.Column | ssrltools/sim/hitp.py:61-67 | A record key's list holds that field of every record in insertion order; a component no record has gets an empty list |
| SampleLocs.PairedLists | ssrltools/devices/hitp.py:150-164 | Component j and its position list sit at `2j` and `2j+1`, in component order |
| SampleLocs.RecordArgs | ssrltools/sim/hitp.py:96-99 | The motor/value pairs of one record in its key order |
| SampleLocs.RecordArgsRoundTrip | ssrltools/sim/hitp.py:96-99 | Two records give the same motor/value pairs exactly when they are equal, so the pairs lose nothing |
| SampleLocs.IndexArgs | ssrltools/devices/hitp.py:175-179 | Succeeds exactly when every chosen index is stored, with ten arguments per index; otherwise `KeyError` for the first index without a record |
| SampleLocs.IndexArgsBlocks | ssrltools/devices/hitp.py:176-179 | Block j of ten arguments is the motor/value pairs of the j-th chosen record |
| HiTp.SampleLocListAsWritten | ssrltools/devices/hitp.py:150-181 | A falsy index gives the all-samples pairs and `'center'` the centre's pairs; a non-empty list gives its records' pairs or the first `KeyError`; a non-zero `int` raises `TypeError`; any other value returns None |
| HiTp.SampleLocList | ssrltools/devices/hitp.py:173-181 | As written, except that a non-zero `int` index gives that sample's pairs, or `KeyError` when it is not stored |
| HiTp.IntIndexRaises | ssrltools/devices/hitp.py:173-175 | For any stored non-zero sample, the code as written raises, while the corrected form gives the same pairs as the one-element list of that index |
| HiTp.AllSamplesForm | ssrltools/devices/hitp.py:150-164 | The all-samples form has 14 arguments: the seven components in order, `stage_z` and `lrf` with empty lists, and `theta` with every record's theta in insertion order |
| HiTp.RegisterPoints | ssrltools/devices/hitp.py:93-99 | Grid point i is stored under key i, converted back to millimetres, with plate and theta 0, and there are no other keys |
| HiTp.FirstMissing | ssrltools/devices/hitp.py:128-129 | The first key of a range that is not stored, with all keys before it stored, or none when the whole range is stored |
| HiTp.HiTpStage.constructor | ssrltools/devices/hitp.py:89-106 | Keys 0 to 148 hold the `'hitp'` grid points in order, each with plate and theta 0, and the centre is all zeros |
| HiTp.HiTpStage.Sample | ssrltools/devices/hitp.py:109-110 | The stored record, or `KeyError` |
| HiTp.HiTpStage.SaveSampleLoc | ssrltools/devices/hitp.py:112-121 | The five current positions go under the index, and no other key changes |
| HiTp.HiTpStage.SetAllVertTheta | ssrltools/devices/hitp.py:123-131 | Keys 0 to len−1 in turn get the current theta and plate positions with their stage positions kept; at the first missing key it raises `KeyError` with the earlier keys already updated; the key set and order are unchanged |
| HiTp.HiTpStage.SampleLocListNow | ssrltools/devices/hitp.py:134-181 | `sample_loc_list` on the stage's own registry and centre with the `int` case corrected (see Findings): `'center'` gives the centre's pairs, and a stored non-zero `int` index gives that sample's pairs where the code as written raises `TypeError` |
| HiTp.VertThetaFreshStage | ssrltools/devices/hitp.py:123-131 | On a fresh stage `set_all_vert_theta` updates all 149 samples |
| HiTp.FreshStageLists | ssrltools/devices/hitp.py:166-181 | On a fresh stage `'center'` gives the five zero positions; index 3 raises `TypeError` as written, and with the `int` case corrected (see Findings) gives sample 3's pairs |
| HiTp.GridHasNoGap | ssrltools/devices/hitp.py:128 | A registry built from a grid has every key below its length |
| HiTp.StrayKeyStopsVertTheta | ssrltools/devices/hitp.py:128-129 | A sample saved under a key past the grid makes `len` one larger, and the first key `set_all_vert_theta` misses is the grid's size |
| HiTp.VertThetaWithStrayKey | ssrltools/devices/hitp.py:112-131 | With one sample saved past the grid, `set_all_vert_theta` updates keys 0 to 148, raises `KeyError(149)` and leaves the extra sample as it was |
| SimHiTp.FieldColumn | ssrltools/sim/hitp.py:65-67 | The field of each of the first n records, in order |
| SimHiTp.SynHiTpStage.constructor | ssrltools/sim/hitp.py:42-49 | Row i of the position table becomes sample i with stage positions from the row and plate and theta 0, and there are no other keys |
| SimHiTp.SynHiTpStage.Sample | ssrltools/sim/hitp.py:77-78 | The stored record, unchanged, or `KeyError` |
| SimHiTp.SynHiTpStage.SaveSampleLoc | ssrltools/sim/hitp.py:80-89 | The five current positions go under the index, and no other key changes |
| SimHiTp.SynHiTpStage.SampleLocList | ssrltools/sim/hitp.py:52-75 | Each component is followed by its position list, in component order, each list in insertion order |
| SimHiTp.SynHiTpStage.MoveToSamplePlan | ssrltools/sim/hitp.py:92-101 | The motor/value pairs of the sample in the record's key order, or `KeyError` when there is no such sample |
| SimHiTp.GatherColumns | ssrltools/sim/hitp.py:61-67 | The per-component lists after the gathering loops: each is that field of every record in order |
| SimHiTp.PairedListsSnoc | ssrltools/sim/hitp.py:71-73 | Emitting one more component appends its name and list at the end |
| SimHiTp.SumSquares | ssrltools/sim/hitp.py:136 | The sum of squares is never negative |
| SimHiTp.PerStepRuns | ssrltools/sim/hitp.py:134-147 | The step runs exactly when the sum of squares is at most radius² and no detector reads above the threshold |
| SimHiTp.Admits | ssrltools/sim/hitp.py:136-144 | An admitted step lies within the radius and no detector reads above the threshold; a first detector above the threshold already rejects; an empty step with no detectors is admitted |
| SimHiTp.AdmitsBoundaries | ssrltools/sim/hitp.py:137-144 | A point exactly on the radius runs, as does a detector exactly at the threshold; any point beyond the radius or any detector above the threshold is skipped |
| SimHiTp.SumSquaresMirror | ssrltools/sim/hitp.py:136-137 | A point and its mirror image through the origin are skipped or run alike |
| SimHiTp.MoveBetweenSamples | ssrltools/sim/hitp.py:77-101 | From a one-row table sample 0 gives its row's pairs, sample 1 gives `KeyError` until it is saved, and then the saved positions |
| SimSetup.SynSlits.constructor | scripts/setupSim_HiTp.py:80-84 | Each slit is put to half the gap, so `gap` reports the constructor's argument |
| SimSetup.SlitsReportGap | scripts/setupSim_HiTp.py:86-89 | A fresh pair of slits reports the gap it was built with, each slit holding half of it |
| SimSetup.SynSlits.Gap | scripts/setupSim_HiTp.py:86-89 | The total gap is the sum of the two slit distances |
| SimSetup.SynFilters.constructor | scripts/setupSim_HiTp.py:106-111 | The first four entries become the four filters |
| SimSetup.SynFilters.Put | scripts/setupSim_HiTp.py:117-121 | `filt0` to `filt3` take `filters[0]` to `filters[3]` in turn; a shorter list raises `IndexError` at its length after the earlier filters were written; nothing else changes |
| SimSetup.FiltersPut | scripts/setupSim_HiTp.py:117-121 | A full list replaces all four filters; a two-entry list writes two, raises `IndexError(2)` and keeps the rest |

## Left out

- File and library I/O is not modelled, and the file write is treated as having happened:
  - `np.save`, `tifffile.imsave` and `os.makedirs`;
  - the CSV load of the position table, whose rows are a constructor parameter of `SimHiTp.SynHiTpStage`;
  - `print`.
- Fresh uuids, the clock and motor positions come in as parameters.
- ArraySynSignals.ArraySynSignal.constructor: the class-level cache is passed in, so callers must hand every instance the one shared `AssetCache`; the model does not enforce that all instances share it.
- ArraySignals.ArraySignal.Trigger: the status returned by the base class's `trigger()` is not modelled, because that class is not among the modelled files; the method returns nothing.
- ArraySynSignals.ArraySynSignal.Trigger: the status returned by the base class's `trigger()` is likewise not modelled; only the written file name is returned.
- `resource_factory` is an ophyd helper whose code is not part of this model. Its resource is a record of the fields the code passes, and its single datum's id is `"<resource uid>/0"`.
- Generators (`collect`, `collect_asset_docs`) are modelled as the sequence they yield. Laziness is not modelled.
- `Text.Lower`: only ASCII letters are case-folded, because Python's full Unicode `lower()` is out of scope. `str(value)` of a non-string target is not modelled; targets are strings.
- Floating point:
  - motor positions and table rows are Dafny `real`;
  - `gen_wafer_locs` works on exact half-millimetre integers, which is exact for its grids;
  - a non-integer `radius` is not modelled.
- The worker thread is not concurrent. `Shutter.SynShutter.WorkerStep` performs one worker's next action, and the caller chooses the interleaving.
- The `delay_s` sleeps are left out.
- The `open()`/`close()` hooks are those of the simulated shutter. The base class's `NotImplementedError` hooks are left out.
- `Shutter.SynShutter.Set`: the status handle is the index of a record in `statuses`. It is not an object shared with the worker.
- `SynSlits.set_gap` is not modelled. It replaces the slit signals with plain numbers, after which `gap` no longer reads signals.
- `SynFilters.atten` (an exponential) is not modelled.
- `SimSetup.SynFilters.constructor` requires at least four entries; a shorter list would raise `IndexError` in the constructor.
- The image generators of the simulated detectors are not modelled, nor the noise they inject. `SynHiTpDet`'s random values are also left out.
- `describe()`, `stop()`, and the `super().stage()`/`super().unstage()` calls into the hxntools and ophyd base classes are not modelled. Their effects are outside the modelled state.
- `index is 'center'` is an identity test, which Python only happens to satisfy for interned strings. `HiTp.SampleLocListAsWritten` models it as string equality.
- The simulated stage's per-component lists are indexed by component position instead of by name. They hold the same values, because the component names are the record keys.
- `Xspress3.SSRLXspress3Detector.Complete` does not clear the HDF5 plugin's cache. A second `complete()` in one staging therefore re-emits the same resources, as the code does.
- `level_stage_single`, the stage-leveling routine called by the run script, is not part of this model, because its definition is not among the modelled files.
- `move_to_sample_plan` is modelled as the argument list it hands to `bps.mv`. The bluesky messages are not modelled.
- `per_step_fn` is modelled as the run-or-skip decision. The `one_nd_step` messages are not modelled.

## Findings

| source | as written | input that shows it | evidently intended | confidence | as-written member | corrected member |
|---|---|---|---|---|---|---|
| ssrltools/devices/hitp.py:173-181 | A non-zero `int` index reaches `list(index)`, which raises `TypeError: 'int' object is not iterable`, although the comment says the branch also catches the int case | `sample_loc_list(index=3)` on a fresh stage, where sample 3 is stored (the run script calls it this way) | Move to sample 3, exactly as the one-element list `[3]` does | not executed | HiTp.SampleLocListAsWritten, HiTp.IntIndexRaises | HiTp.SampleLocList |
