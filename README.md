# GMAG galaxy record and random sky field, in Dafny

GMAG fetches galaxy images from the SDSS sky survey. This project models two
pieces of its package `gmag`:

- **Random field selection** (`gmag/sdss.py`). A rejection loop draws an
  integer corner `(ra, dec)` with `ra` in 0..349 and `dec` in -30..79. It
  rejects corners that lie strictly inside one of three excluded sky regions.
  It returns the 10° × 10° box `(ra, ra + 10, dec, dec + 10)`. Module `Sdss`
  has the exclusion test (`Excluded`), a reference function (`FirstAccepted`)
  and the loop as a method (`GetRandomField`). The random generator is not
  modelled. Its output is an input sequence of draws, and each draw already
  lies in the range `randint` promises (subset types `RaDraw`, `DecDraw`).
  The source keeps drawing until a draw is accepted, with no limit on the
  number of draws. The model loops over a finite sequence and returns
  `None` when every given draw is rejected.
- **The `Galaxy` record** (`gmag/galaxy.py`). Module `GalaxyRecord` holds a
  class `Galaxy` with the dataclass's fields. It has the `name`, `data` and
  `jpg_data` getters as functions and their setters as methods. `State()`
  takes a snapshot of all fields, so each setter can say exactly which field
  changed. NumPy arrays are `NdArray` values that the model stores and
  returns but never looks inside. The first line of `info()` is
  `InfoNameLine`. It is built from module `Format`, which models the string
  format spec `>40.35s`.

The exclusion test is modelled as the code writes it. It uses strict
inequalities on the corner only. The doc-comment of the function gives the
regions as closed intervals. `DocumentedExcluded` models the doc-comment, and
`ExcludedWithinDocumented` shows how the two differ. For example, the
corners (0, 60) and (10, 50), and every corner with Dec -30, are accepted by
the code but lie on a documented region.

## Model

| member | source | states |
|---|---|---|
| `Sdss.Excluded` | gmag/sdss.py:29-31 | the corner lies strictly inside one of the three regions; only the corner is tested; every excluded corner lies in a documented region |
| `Sdss.Box` | gmag/sdss.py:34 | the returned box `(ra, ra + 10, dec, dec + 10)` has the draw as its corner and is exactly 10 wide in RA and in Dec |
| `Sdss.GetRandomField` | gmag/sdss.py:25-34 | the loop returns the box of the first draw that is not rejected, with every earlier draw rejected, and the box is well formed; it returns nothing only when every draw is rejected; it agrees with `FirstAccepted` |
| `Sdss.BoxWellFormed` | gmag/sdss.py:26-34 | the box of an accepted draw is exactly 10 wide in RA and in Dec, has RA bounds 0..349 and 10..359 and Dec bounds -30..79 and -20..89, and its corner is not excluded |
| `Sdss.FirstAcceptedWellFormed` | gmag/sdss.py:24-34 | every box the selection returns is well formed (shape, bounds, corner outside the three regions, Dec never below -30) |
| `Sdss.FirstAcceptedAt` | gmag/sdss.py:25-34 | when draw i is accepted and every draw before it is rejected, the result is the box of draw i |
| `Sdss.FirstAcceptedNone` | gmag/sdss.py:25-34 | no box is returned exactly when every draw is rejected |
| `Sdss.SkipRejected` | gmag/sdss.py:29-32 | a prefix of rejected draws does not change the result |
| `Sdss.LaterDrawsIgnored` | gmag/sdss.py:33-34 | once a draw is accepted, any later draws do not change the result |
| `Sdss.ExcludedWithinDocumented` | gmag/sdss.py:17-31 | every corner the code excludes lies in a region of the doc-comment; corners with RA 0, Dec 50 or Dec -30 are never excluded, although (0, 60) and Dec -30 lie on documented regions |
| `GalaxyRecord.Galaxy.constructor` | gmag/galaxy.py:9-19 | a fresh galaxy has empty band and jpg arrays, an empty name, and redshift, RA and Dec 0 |
| `GalaxyRecord.Galaxy.Create` | gmag/galaxy.py:6-19 | the dataclass initialiser stores every given field unchanged |
| `GalaxyRecord.Galaxy.SetName` | gmag/galaxy.py:21-32 | the name reads back exactly as set, at every length; the setter warns exactly when the name is longer than 35 characters; no other field changes |
| `GalaxyRecord.Galaxy.SetData` | gmag/galaxy.py:41-49 | five values read back as `u, g, r, i, z` in order and only those five fields change; too many or too few values give the unpacking error and change nothing |
| `GalaxyRecord.Galaxy.SetJpgData` | gmag/galaxy.py:51-59 | the jpg data reads back as set and no other field changes |
| `GalaxyRecord.InfoNameLine` | gmag/galaxy.py:34-36 | the line has 47 characters: "Name: ", then `40 - k` spaces, then the first `k = min(len(name), 35)` characters of the name, then a newline |
| `GalaxyRecord.WouldWarn` | gmag/galaxy.py:29-36 | the name setter's warning condition, longer than 35 characters, holds exactly when the info line would cut the name |
| `GalaxyRecord.Galaxy.Name` | gmag/galaxy.py:21-24 | the `name` getter returns the stored name |
| `GalaxyRecord.Galaxy.Data` | gmag/galaxy.py:41-44 | the `data` getter returns the five band arrays in order `u, g, r, i, z` |
| `GalaxyRecord.Galaxy.JpgData` | gmag/galaxy.py:51-54 | the `jpg_data` getter returns the stored preview array |
| `GalaxyRecord.InfoNameLineRoundTrip` | gmag/galaxy.py:36 | the name read back from the info line is the shown part of the name without leading spaces |
| `GalaxyRecord.InfoNameLineRecoversName` | gmag/galaxy.py:36 | a name of at most 35 characters that does not start with a space is read back exactly from its info line |
| `GalaxyRecord.InfoNameLineIgnoresTail` | gmag/galaxy.py:36 | characters after the 35th never reach the info line |
| `GalaxyRecord.InfoNameLineHidesLeadingSpace` | gmag/galaxy.py:36 | the info line cannot tell a short name from the same name with a leading space |
| `Format.FormatString` | gmag/galaxy.py:36 | the format spec `>W.Ps` keeps the first `min(len, P)` characters, right-aligned with spaces in a field of at least W characters |

## Left out

- Random number generation (`np.random.randint`): the draws are an input sequence whose values lie in `randint`'s ranges.
- Sdss.GetRandomField: the source keeps drawing until a draw is accepted, with no limit on the number of draws. The model returns `None` when its finite draw sequence holds no acceptable draw.
- `get_random_galaxy` (gmag/sdss.py:6-12): it only constructs a `Galaxy`, modelled by `GalaxyRecord.Galaxy.constructor`.
- `__get_random_galaxy_objid` and `__get_galaxy_imaging_data` (gmag/sdss.py:37-60): HTTP requests to the SDSS SQL service and indexing of its JSON reply.
- The redshift, RA and Dec lines of `info()` (gmag/galaxy.py:37-39): they format floats with `.5f`.
- The `warnings.warn` call: the name setter returns a boolean saying whether it would warn.
- NumPy array contents and shapes: arrays are opaque values the model never inspects. Up to Python 3.10 the dataclass shares one default `np.empty(0)` object among all instances. That aliasing is not modelled, because nothing here mutates an array in place.
- GalaxyRecord.Galaxy.constructor: follows the dataclass behaviour of Python 3.10 and earlier. From Python 3.11 on, `dataclasses` refuses an unhashable default such as an `np.ndarray` (it asks for `default_factory`), so defining the class at gmag/galaxy.py:9-14 raises `ValueError` and no `Galaxy()` is ever built. The model describes the defaults the class declares.
- The dataclass's generated `__repr__` and `__eq__`.
- GalaxyRecord.Galaxy.SetData: the argument is a sequence of arrays. Python would also raise `TypeError` for a value that cannot be iterated; the model's types exclude that case.
- Redshift, RA and Dec are plain public fields with no setter logic. Callers assign them directly.
