# APLpy FITSFigure layer registry in Dafny

APLpy's `FITSFigure` draws an astronomical image and lays contour sets and
marker (scatter) sets over it. It keeps track of these overlays in a small
registry:

- `layers_list`, an ordered list of `{name, visible}` entries;
- `ax1.collections`, the ordered list of drawn primitives, each of which may
  carry an `aplpy_layer_name` attribute;
- two counters, `contour_counter` and `scatter_counter`, which number the
  automatic layer names `contour_set_N` and `scatter_set_N`.

The operations on it are `layer_exists`, `name_empty_layers`, `remove`,
`hide` and `show`, and the registry steps of `contour` and `markers`. This
project also models the image-size truncation that the constructor applies
when it is asked to downsample.

The project has five files:

- `naming.dfy` (module `Naming`) builds the layer names: Python's `str(n)`
  for a counter, and the substring test `"contour_set_" in layer`.
- `downsampling.dfy` (module `Downsampling`) holds `numpy.mod` with the sign
  of the divisor, and the truncated dimension `n - mod(n, d)`.
- `registry.dfy` (module `Registry`) treats the registry as a value, a
  `State`. It has one function per operation giving the `Outcome`: how the
  call ended and the state it leaves. A `Status` records the printed
  "does not exist" no-op (`NoSuchLayer`) and the exception described below
  (`UntaggedAt`).
- `registry_properties.dfy` (module `RegistryProperties`) proves what the
  operations promise about those functions.
- `figure.dfy` (module `Figure`) holds the class `FITSFigure`. Its fields are
  the registry, the image size and the extent. Its methods run the same
  loops as the source: building the index list and then tagging, and popping
  or restyling from the end of each list. Each method is proved to leave
  exactly the state that the matching `Registry` function gives.

Three behaviours of the code are kept as written:

- Layer names are not unique. `name_empty_layers` appends an entry without
  checking for an existing one, and `remove`, `hide` and `show` act on every
  matching entry.
- Primitives are deleted or restyled only for names containing
  `contour_set_` or `scatter_set_`. For any other name, only the registry
  entries change.
- Those loops read `aplpy_layer_name` on every primitive, from the last one
  down. A primitive that never got the attribute raises `AttributeError` at
  that point. In the model, the primitives above it have already been
  processed and `layers_list` is untouched. The model returns
  `UntaggedAt(i)` with exactly that partial state. `contour` and `markers`
  let the exception of their `remove(replace)` propagate before drawing
  anything. Once a `contour` or `markers` call has completed, every
  primitive is tagged (`OverlayRegisters`), and no run of public calls
  leaves a primitive untagged once all are tagged (`RunKeepsAllTagged`). So
  the exception needs a primitive that was added by other means.

A layer design in which names are unique and every layer owns its
primitives is not what the code does, and the model follows the code:

- Names are not unique.
- `remove` deletes no primitives for names such as `user`.
- With `replace`, the re-registered entry moves to the end of `layers_list`.
  Every entry with that name goes; a `user` entry is appended first if some
  primitive was still untagged after the remove; the re-registered entry is
  appended only if something was drawn (`ReplaceSweepsStrays`). So the
  length of `layers_list` is unchanged only in particular cases, for
  instance when every primitive is tagged, exactly one entry had that name
  and something was drawn (`ReplaceReusesName`).

`replace` is an `Option<string>` that counts only when it is truthy in
Python's sense (`Truthy`: present and non-empty). `downsample` is an integer
whose value 0 stands for `False`.

## Model

| member | source | states |
|---|---|---|
| `Naming.Decimal` | aplpy/aplpy.py:270 | `str(counter)` is a non-empty string of decimal digits that spells the counter (`DigitsValue(s) == n`), has no leading zero unless the counter is 0, and is one character long exactly when the counter is below 10 |
| `Naming.AutoName` | aplpy/aplpy.py:270 | `prefix + str(counter)` is longer than the prefix and starts with it |
| `Naming.AutoNameSpellsCounter` | aplpy/aplpy.py:270 | what follows the prefix of an auto-name is `str(counter)` and spells the counter |
| `Naming.DecimalInjective` | aplpy/aplpy.py:269-270 | different counter values print as different strings |
| `Naming.AutoNameInjective` | aplpy/aplpy.py:362-363 | two auto-names with the same prefix are equal only when their counters are |
| `Naming.AutoNameIsSetName` | aplpy/aplpy.py:411 | every `contour_set_N` / `scatter_set_N` name passes the substring test, so remove/hide/show reach its primitives |
| `Naming.ContainsIsSubstring` | aplpy/aplpy.py:411 | `Contains(s, sub)`, the test behind `IsSetName`, holds exactly when sub occurs in s at some offset, which is Python's `sub in s` |
| `Downsampling.FloorDiv` | aplpy/aplpy.py:64 | `a // b` is the floor of the quotient: `b*q <= a < b*q + b` for positive b and `b*q + b < a <= b*q` for negative b |
| `Downsampling.FloorMod` | aplpy/aplpy.py:64-65 | `numpy.mod(a, b)` lies in `[0, b)` for positive b and in `(b, 0]` for negative b, and `a - mod(a, b)` is a multiple of b |
| `Downsampling.Downsampled` | aplpy/aplpy.py:63-65 | the truncated size is `d * (n // d)`; for `d > 0` it is at most n and within d of it; for `d < 0` it is at least n and within `-d` of it; for `d == 0` (no downsampling) it is n |
| `Registry.LastUntagged` | aplpy/aplpy.py:412-413 | finds the primitive where a loop from the end first reads a missing `aplpy_layer_name`: it is untagged and all above it are tagged, and the result is None exactly when all are tagged |
| `Registry.SweepTags` | aplpy/aplpy.py:392-400 | afterwards every primitive is tagged; those already tagged are unchanged; the untagged ones get the name; the order, count and visibility stay the same |
| `Registry.NameEmpty` | aplpy/aplpy.py:390-403 | after `name_empty_layers` every primitive is tagged and none is added or removed; `layers_list` keeps its old entries as a prefix; the counters do not change |
| `Registry.Drawn` | aplpy/aplpy.py:257-269 | before the final sweep, the old primitives are all tagged, exactly k untagged visible primitives follow them, and the family's counter has gone up by one unless replace is truthy |
| `Registry.Filter` | aplpy/aplpy.py:416-418 | the survivors of a deleting loop are elements of the input satisfying the test, and every element satisfying it survives |
| `Registry.DeleteTagged` | aplpy/aplpy.py:412-414 | the collections loop of remove completes exactly when every primitive is tagged, and otherwise raises `UntaggedAt`; it never adds primitives; when it completes, no survivor is tagged with the name |
| `Registry.Remove` | aplpy/aplpy.py:405-420 | remove reports NoSuchLayer exactly for an unregistered name; it raises exactly for a registered set name with an untagged primitive; when it does not complete, `layers_list` is as it was; the counters never change |
| `Registry.RestyleTagged` | aplpy/aplpy.py:429-431 | the collections loop of hide/show completes exactly when every primitive is tagged, and otherwise raises `UntaggedAt`; it keeps the number of primitives and every tag |
| `Registry.SetVisibility` | aplpy/aplpy.py:422-455 | hide/show report NoSuchLayer exactly for an unregistered name; they raise exactly for a registered set name with an untagged primitive; when they do not complete, `layers_list` is as it was; the counters never change |
| `Registry.Draw` | aplpy/aplpy.py:257-272 | after the drawing steps every primitive is tagged, exactly k primitives were added, and the old entries of `layers_list` stay as a prefix |
| `Registry.Overlay` | aplpy/aplpy.py:235-274 | contour/markers report NoSuchLayer exactly when a truthy replace names no layer, and then change nothing; they raise exactly when a truthy replace is a registered set name and some primitive is untagged, and then leave exactly the partial state of that `remove`; without a truthy replace the call always completes; a completed call leaves every primitive tagged |
| `RegistryProperties.FilterIsSubsequence` | aplpy/aplpy.py:412-418 | deleting in place from the end keeps the survivors in their original relative order |
| `RegistryProperties.FilterCounts` | aplpy/aplpy.py:412-418 | a deleting loop keeps every copy of an element it keeps and no copy of one it deletes |
| `RegistryProperties.SweepIsIdempotent` | aplpy/aplpy.py:390-403 | a second `name_empty_layers`, under any name, changes nothing |
| `RegistryProperties.SweepRegisters` | aplpy/aplpy.py:402-403 | after `name_empty_layers(n)` a name is registered iff it was before or it is n and some primitive was untagged; exactly one visible entry for n is appended iff some primitive was untagged, otherwise `layers_list` is unchanged |
| `RegistryProperties.SweepFresh` | aplpy/aplpy.py:257-272 | sweeping k fresh primitives drawn after tagged ones tags exactly the fresh ones, and finds work exactly when k > 0 |
| `RegistryProperties.RemoveErrors` | aplpy/aplpy.py:405-414 | remove reports NoSuchLayer exactly when no entry has the name, and then changes nothing; it raises exactly for a registered set name when some primitive is untagged, and then leaves `layers_list` as it was |
| `RegistryProperties.RemoveUnregisters` | aplpy/aplpy.py:416-418 | after a remove that did not raise, `layer_exists(n)` is false |
| `RegistryProperties.RemoveKeepsOthers` | aplpy/aplpy.py:411-418 | a completed remove keeps every entry with another name, in order and with every duplicate copy (multiset counts), and drops every entry named n; for a set name it deletes exactly the primitives tagged n and keeps every copy of the others, in order; otherwise the primitives are untouched; the counters do not change |
| `RegistryProperties.VisibilityKeepsShape` | aplpy/aplpy.py:428-435 | hide/show change no name, tag, length or order, and leave entries and primitives of other names and both counters alone |
| `RegistryProperties.VisibilityApplies` | aplpy/aplpy.py:428-435 | a completed hide/show gives every entry named n, and for a set name every primitive tagged n, the requested visibility; for other names the primitives are untouched |
| `RegistryProperties.VisibilityErrors` | aplpy/aplpy.py:442-449 | show/hide report NoSuchLayer exactly for an unregistered name and change nothing; they raise exactly for a registered set name with an untagged primitive, without touching `layers_list` |
| `RegistryProperties.VisibilityIsIdempotent` | aplpy/aplpy.py:440-453 | hiding (showing) twice has the same status and state as once, including on the path that raises |
| `RegistryProperties.ToggleAllKeepsShape` | aplpy/aplpy.py:422-453 | any sequence of hide/show calls keeps all names, tags and lengths |
| `RegistryProperties.LastCallWins` | aplpy/aplpy.py:422-453 | after any sequence of hide/show calls on a registered name, the entries named n (and for a set name the primitives tagged n) have the visibility of the last call naming n; for a name that is not a set name this holds whatever the tags, and for a set name it needs every primitive tagged, since otherwise each call raises before touching the registry |
| `RegistryProperties.MissingLayerIsNoOp` | aplpy/aplpy.py:237-240 | for an unregistered name, remove, hide, show and contour/markers with that name as replace all return NoSuchLayer with the state unchanged |
| `RegistryProperties.OverlayCounters` | aplpy/aplpy.py:266-270 | without a truthy replace, contour/markers always complete and raise their own family's counter by exactly one; with one, no counter moves; the other family's counter never moves |
| `RegistryProperties.DrawRegisters` | aplpy/aplpy.py:257-272 | drawing leaves every primitive tagged, the k new primitives at the end tagged with replace's name or the next auto-name, and, when k > 0, that name registered last and visible |
| `RegistryProperties.OverlayRegisters` | aplpy/aplpy.py:354-365 | the same for a completed markers/contour call, with the name chosen from the state the call started in |
| `RegistryProperties.ReplaceReusesName` | aplpy/aplpy.py:235-272 | replacing a registered layer when all primitives are tagged: the old entries go, and so do the old primitives for a set name; the k new primitives take the same name, which is registered once at the end when k > 0; the counters are unchanged |
| `RegistryProperties.AutoNamedOverlay` | aplpy/aplpy.py:235-272 | a contour (or markers) call without replace, with every primitive tagged: that family's counter goes up by one; if anything was drawn, one visible entry named with the next auto-name is appended, and the k new primitives carry that name; nothing else changes |
| `RegistryProperties.DrawIs` | aplpy/aplpy.py:257-272 | the drawing steps from any state: stray untagged primitives are tagged `user` and one visible `user` entry is appended exactly when there were any; tagged primitives are kept; the k new primitives take replace's name or the next auto-name, which is appended last when k > 0; the counter moves only without a truthy replace |
| `RegistryProperties.AutoNamedOverlaySweepsStrays` | aplpy/aplpy.py:354-365 | markers (or contour) without replace, from any state: the strays join a `user` entry appended first, the k new primitives join an entry under the next auto-name appended after it, the old primitives and entries otherwise stay, and the counter goes up by one |
| `RegistryProperties.ReplaceSweepsStrays` | aplpy/aplpy.py:235-272 | contour (or markers) replacing a registered layer, whenever the remove does not raise (every primitive tagged, or a name that is not a set name): all entries with the name go, and for a set name its primitives; the remaining strays join a `user` entry; the k new primitives join an entry under the replaced name appended last; no counter moves |
| `RegistryProperties.NumbersAreNotReused` | aplpy/aplpy.py:266-272 | contour, contour, `remove("contour_set_1")`, then contour: `layers_list` holds `contour_set_2` then `contour_set_3`, so a removed number is not given out again |
| `RegistryProperties.CountersNeverDecrease` | aplpy/aplpy.py:359-363 | no sequence of calls, removes included, decreases either counter |
| `RegistryProperties.AutoNamesNeverRepeat` | aplpy/aplpy.py:266-270 | once a call without replace has used an auto-name, the next auto-name of that family after any further calls is different |
| `RegistryProperties.StepKeepsAllTagged` | aplpy/aplpy.py:384-455 | no public registry call leaves a primitive untagged when all were tagged before it |
| `RegistryProperties.RunKeepsAllTagged` | aplpy/aplpy.py:405-455 | once every primitive is tagged, every sequence of calls keeps it so, so the AttributeError of remove, hide and show needs a primitive added by other means |
| `Figure.FITSFigure.constructor` | aplpy/aplpy.py:40-70 | the registry starts empty with both counters 0; the sizes are the downsampled NAXIS1/NAXIS2; the extent is `(0.5, nx + 0.5, 0.5, ny + 0.5)` |
| `Figure.FITSFigure.LayerExists` | aplpy/aplpy.py:384-388 | returns true exactly when some entry of `layers_list` has the name |
| `Figure.FITSFigure.UntaggedIndices` | aplpy/aplpy.py:392-397 | the first loop collects, in increasing order, exactly the indices of the untagged primitives |
| `Figure.FITSFigure.TagAt` | aplpy/aplpy.py:399-400 | the second loop tags exactly the primitives at the collected indices |
| `Figure.FITSFigure.NameEmptyLayers` | aplpy/aplpy.py:390-403 | leaves exactly the state `Registry.NameEmpty` describes |
| `Figure.FITSFigure.DeleteTagged` | aplpy/aplpy.py:412-414 | the pop loop over the collections from the end deletes the primitives tagged n, or raises at the last untagged one with the part above it processed |
| `Figure.FITSFigure.DropEntries` | aplpy/aplpy.py:416-418 | the pop loop over `layers_list` from the end leaves exactly the entries with other names, in order |
| `Figure.FITSFigure.Remove` | aplpy/aplpy.py:405-420 | leaves exactly the status and state `Registry.Remove` describes |
| `Figure.FITSFigure.RestyleTagged` | aplpy/aplpy.py:429-431 | the loop over the collections from the end restyles the primitives tagged n, or raises at the last untagged one |
| `Figure.FITSFigure.RestyleEntries` | aplpy/aplpy.py:433-435 | the loop over `layers_list` restyles exactly the entries named n |
| `Figure.FITSFigure.SetVisibility` | aplpy/aplpy.py:422-455 | the common body of hide and show leaves exactly the status and state `Registry.SetVisibility` describes |
| `Figure.FITSFigure.Hide` | aplpy/aplpy.py:422-437 | leaves exactly the status and state `Registry.SetVisibility(_, n, false)` describes |
| `Figure.FITSFigure.Show` | aplpy/aplpy.py:440-455 | leaves exactly the status and state `Registry.SetVisibility(_, n, true)` describes |
| `Figure.FITSFigure.DrawAndName` | aplpy/aplpy.py:257-272 | sweep into 'user', draw, bump the counter unless replacing, sweep into the chosen name: exactly `Registry.Draw` |
| `Figure.FITSFigure.Contour` | aplpy/aplpy.py:235-274 | leaves exactly the status and state `Registry.Overlay(_, ContourSets, replace, k)` describes |
| `Figure.FITSFigure.Markers` | aplpy/aplpy.py:339-367 | leaves exactly the status and state `Registry.Overlay(_, ScatterSets, replace, k)` describes |
| `Figure.FITSFigure.Overlay` | aplpy/aplpy.py:235-274 | the common body of contour and markers (the replace check, the propagated remove, then the drawing steps) leaves exactly the status and state `Registry.Overlay` describes |

## Left out

- Reading the FITS file, repairing its header, reprojecting it north-up and building the WCS (aplpy/aplpy.py:48-60) are calls into pyfits, pywcs, `check_header` and montage. The constructor takes NAXIS1 and NAXIS2 as parameters. Its read-failure path, which prints a message and returns a half-built object, is not modelled.
- Slicing and block-averaging the pixel data (aplpy/aplpy.py:66-67) happen inside numpy and `resample`. Only the size arithmetic is modelled.
- All drawing is left out: `imshow`, `contour`/`contourf`, `scatter`, `draw_new_contours`, `plot_grid`, `add_patch`, `refresh` and the canvas redraw at the end of each operation. Drawing in `contour` and `markers` is modelled as appending k untagged, visible primitives, where k is a parameter.
- Reading the contour file in `contour` (aplpy/aplpy.py:249-255) is left out, and so are exceptions from foreign code in general. An example is `pyfits.open` failing after the replaced layer has already been removed.
- `markers` calls `world2pix(wcs, ...)` with a name that this file does not define (aplpy/aplpy.py:356). Whether it resolves depends on `apl_util`, which is not part of this model. The model assumes the conversion succeeds.
- The style options are left out: the `cmap`/`colors` defaults of `contour`, and the `edgecolor`/`facecolor`/`s` defaults of `markers`.
- `theme`, `frame`, `labels`, `xylabels`, `ticks`, `grid`, `reset_view` and the tick locators and formatters only set attributes of matplotlib objects.
- `colorscale`, `grayscale` and `rgb` need floating-point percentiles and stretches from `percentile_function` and `stretcher`, which are not part of this model.
- `save` computes its dpi by floating-point division over the figure's geometry.
- `layers()` only prints diagnostics.
- `ds9` hands its work to a region parser that is not part of this model.
- The view-limit listeners registered with `callbacks.connect` belong to matplotlib's event mechanism.
- The image extent is computed with exact reals; the source computes Python floats (`nx + 0.5`, aplpy/aplpy.py:70), which agree only while the size is below 2^52 (from 2^52 on, `nx + 0.5` is not a double and rounds).
- The printed error messages are I/O; the model returns them as the status `NoSuchLayer`.
