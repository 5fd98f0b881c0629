# Barcode aligner: linker positions, gate cascade and batch classification

This project models the barcode aligner plugin of readfish, which decides for each partially
sequenced read whether to keep sequencing it, to stop receiving it (its linker structure has been
confirmed) or to eject it.

- `LinkerPositions` (positions.dfy) models `get_most_probable_positions`. Three fixed linkers are
  searched for in order by an approximate substring search with an edit-distance budget of 10. Each
  search reports a match end `end_i`, and the estimate `start + end_i - 20` is written into a
  three-entry array initialised to -1. The cursor `start` then becomes `end_i`. The scan stops as
  soon as fewer than 15 characters follow `end_i`. The search itself (`sub_edit_distance`) belongs
  to an external library: it is the parameter `subEd`, and nothing is assumed about what it returns.
  The method writes the array in a loop and is proved equal to the specification functions
  `Reached`, `Cursor` and `Estimate`.
- `BarcodeGate` (has_barcode.dfy) models `has_barcode`. `Classify` is the nested gate cascade:
  the poly(A) seed, the first estimate found, a tail of at least 100 characters after it, then the
  order and the exclusive spacing (25, 45) of the second and of the third estimate. `HasBarcode`
  writes the decision into the read's `alignmentData` field and into no other field: an empty list
  means keep sequencing, one `DummyAlignment("yes", 0, 1, 1)` means stop receiving, and one
  `DummyAlignment("no", 0, 1, 1)` means eject. It runs the linker search only once the seed has
  been seen.
- `Aligner` (aligner.dfy) models the `BarcodeAligner` class: the configuration check `validate`,
  construction with its runtime error, and `map_reads`. `map_reads` is modelled as a sequential map
  that keeps the input order.

The code searches the whole read for every linker, and it still adds the previous match end as an
offset. The model follows the code here, not a search restricted to the rest of the read. As a
consequence, the spacing the gates test between the first two estimates is the second linker's
absolute match end. The spacing between the last two estimates is `end_2 - end_0`
(`SpacingsAreMatchEnds`). The contract of `Outcome` states the whole decision in terms of the
three match ends. For example, a read that holds the linkers exactly at offsets 0, 30 and 62 is ejected when the
search reports their match ends 20, 50 and 82 (`EvenlySpacedLinkersEjected`).

## Model

| member | source | states |
|---|---|---|
| `LinkerPositions.GetMostProbablePositions` | src/readfish/plugins/barcode_aligner.py:23-35 | Returns exactly three entries. Entry i is `cursor_i + end_i - 20` if the scan reaches linker i and -1 otherwise. The cursor is 0 for the first linker and the previous match end after that. The first linker is always reached. Linker i+1 is reached exactly when linker i was reached and at least 15 characters follow `end_i`. |
| `LinkerPositions.ReachedIsPrefix` | src/readfish/plugins/barcode_aligner.py:29-34 | After the `break` the scan never resumes. The linkers that get an estimate form a prefix of the linker list, so every later entry stays -1. |
| `LinkerPositions.SpacingsAreMatchEnds` | src/readfish/plugins/barcode_aligner.py:28-32 | Because the cursor is added to an absolute match end, `p1 - p0 == end_1` whenever linker 2 is reached, and `p2 - p1 == end_2 - end_0` whenever linker 3 is reached. |
| `BarcodeGate.OccursIffAtSomeOffset` | src/readfish/plugins/barcode_aligner.py:40 | The seed test `pat in s` holds exactly when `pat` occurs at some offset `k` of `s`, in both directions. |
| `BarcodeGate.Classify` | src/readfish/plugins/barcode_aligner.py:39-64 | The decision is Continue exactly when the seed is missing, `p0 < 0` or `n - p0 < 100`. It is StopReceiving exactly when the seed is present, `p0 >= 0`, `n - p0 >= 100`, `p1 > p0`, `25 < p1 - p0 < 45`, `p2 > p1` and `25 < p2 - p1 < 45`, so gaps of exactly 25 or 45 fail. In every other case it is Eject. |
| `BarcodeGate.AlignmentsFor` | src/readfish/plugins/barcode_aligner.py:41-64 | Every decision is written as at most one alignment. Decoding the alignment data with the model's own inverse `DecisionOf` (empty, a "yes" contig, any other entry) gives back the decision that was written. |
| `BarcodeGate.ShortReadContinues` | src/readfish/plugins/barcode_aligner.py:39-46 | A read shorter than 100 characters, including the empty read, is never accepted or ejected. |
| `BarcodeGate.Outcome` | src/readfish/plugins/barcode_aligner.py:23-64 | The whole pipeline in terms of the match ends. A read is kept exactly when the seed is missing, `end_0 < 20` or `n - end_0 < 80`. It is accepted exactly when the seed is present, `20 <= end_0`, `n - end_0 >= 80`, `n - end_1 >= 15`, `25 < end_1 < 45` and `25 < end_2 - end_0 < 45`. Otherwise it is ejected. |
| `BarcodeGate.EvenlySpacedLinkersEjected` | src/readfish/plugins/barcode_aligner.py:30-32 | A 200-character read that contains the three linkers exactly at offsets 0, 30 and 62 (30 and 32 apart) and starts with the seed is ejected when the search reports their exact match ends 20, 50 and 82. |
| `BarcodeGate.HasBarcode` | src/readfish/plugins/barcode_aligner.py:38-65 | Returns the same read. Its alignment data becomes the written form of the read's decision, with at most one entry. Only the `alignmentData` field is modified. |
| `Aligner.BarcodeAligner.constructor` | src/readfish/plugins/barcode_aligner.py:69-71 | Stores the configuration as given. |
| `Aligner.BarcodeAligner.Validate` | src/readfish/plugins/barcode_aligner.py:75-77 | Passes exactly when the configuration has the key `n_threads`. Otherwise it raises a runtime error with the message "Need the number of threads for alignment.". |
| `Aligner.BarcodeAligner.Create` | src/readfish/plugins/barcode_aligner.py:69-73 | Construction fails exactly when `n_threads` is missing or below one. A missing key raises the runtime error with the validation message. A size below one makes the pool raise a value error, "max_workers must be greater than 0". Otherwise it yields a new, valid aligner holding the configuration, with a worker pool of `n_threads` workers. |
| `Aligner.BarcodeAligner.MapReads` | src/readfish/plugins/barcode_aligner.py:86-87 | On a constructed aligner, returns the input reads themselves, one per input and in input order. Each read's alignment data is the written form of its own decision, and its sequence and read id are unchanged. A read listed twice receives the same value both times. |

## Left out

- The internals of `sub_edit_distance` (the external `fast_edit_distance` library) are not modelled. It is the function parameter `subEd`, and no property of its results is assumed.
- The thread pool is not modelled: its construction, the parallel dispatch in `map_reads` and any concurrency. Only the order-preserving map semantics of `executor.map` are modelled, sequentially. The pool is reduced to its size, `maxWorkers`.
- The model does not say what happens when the search raises. That exception would come from code that is not part of this model.
- The logger set-up and the `debug_log` argument are not modelled (diagnostics only).
- `describe` is not modelled: it returns a constant string.
- `initialised` is not modelled: it is always true.
- `disconnect` is not modelled: it does nothing.
- The `AlignerABC` base class and the `Aligner` alias are not modelled (plugin boilerplate).
- The estimates are stored as numpy 32-bit integers in the code. The model uses unbounded integers, which agree with that storage whenever an estimate fits in 32 bits.
- `Result` comes from a module that is not part of this model. It is reduced to a read id, a sequence and the mutable alignment data.
- The configuration keyword arguments are modelled as a map from names to integers. Values of other types are not represented, and `validate` looks only at the keys.
- The code sets no bound on how long a read may stay undecided before the seed or the first linker shows up. The model has no such bound either.
