# Quantization pipeline in Dafny

This project models the offline quantization pipeline under `quantization/` and proves its correctness
properties: the crash-resumable run that turns a checkpoint into K3/K4 candidates, the NVFP4 converter,
and the export pipeline. `dafny verify dfyconfig.toml` checks everything.

## What is modelled

**The run** (`Journal`, `RunStore`, `Recipe`, `RunPlan`, `RunInvariant`, `RunMeaning`, `RunOutcome`,
`Driver`, `CandidateQueue`, `BlockDriver`, `Wavefront`, `Retention`, `Inputs`, `Coordinator`, `Export`). The disk is two
journal tables and a map of payload files. Every method of the run is imperative over that state and may end as
`Stopped` at any point between durable steps (`RunStore.Fails`): the process died and only the disk remains.
`Raised` is a check of the code refusing. Only a `fallible` life can stop. `RunPlan` says what each artifact key
stands for: results of forward passes, capture and search are terms that name the function and its arguments, so a
proof holds for every interpretation of the numerical work. `RunInvariant.Good` relates a journal to that plan. The
main results:

- `Coordinator.QuantizeNamespaces`, entered on any `Good` journal, keeps it `Good` wherever it dies, and never
  ends as `Raised`. No load asks for a payload that was given up: that is a precondition of `Driver.Load`, met at
  every call. A life in which nothing fails completes, whatever it resumed from and whatever subset sizes and worker
  counts the lives before it had (`Coordinator.RunToCompletion`).
- `RunOutcome.OneOutcome`: two `Good` journals with the completion committed are equal as whole disks. Together
  with the first result this is confluence over crash points, restarts and search completion orders.
- `RunMeaning.EveryRecordMeans`: in a `Good` journal every record, of every kind, is what the records it depends on
  make of it. These statements (`Means`) name kinds, paths, payloads and dependencies on disk and no term of the plan:
  a second phase's Hessian was captured over all routed batches on the block with exactly the first phase's selected
  candidates installed; the upgraded experts are those whose K3 candidates on disk have the highest risks; an output
  is its input advanced through both phases' selections. `RunMeaning.SweptIsShed`, `RunMeaning.BlockKeeps` and
  `RunOutcome.CompletionByKind` say in the same way what is given up and what is kept.
- `RunOutcome.SelectedStaysIntact` and `Export.CollectSelected`: after completion every selected projection of
  every block passes a verified read, and the tier map meets the recipe.
- `Journal.EveryRunKeepsJournal` states the store's own contract for arbitrary callers: writes, records, intents and
  single unlinks may interleave in any way and stop anywhere, as long as nobody records under a path that was given
  up. `Journal.FreeIsExact` shows that a caller must check exactly that, and `Journal.RecordDuringRetirement` shows
  what happens otherwise: a second owner that records such a path between the intents and the unlinks loses its
  payload. One owner is what `exclusive_run` provides.

**The converter** (`Nvfp4`, `PleBlock`, `PleHistogram`, `PleTable`, `ConvertMeaning`, `ConvertTable`). Floats are
exact reals. Codes are E4M3 and E2M1 bit patterns (section 5.3 of the OCP Microscaling Formats Specification v1.0),
and rounding is to nearest with ties to even (section 4.3.1 of IEEE 754-2019), stated as `Nearest8` and `Nearest4`
independently of the search loops. OpenMP schedules are parameters. The bound "one divisor, three for subnormal
scales" is refined: `PleBlock.ErrorBound` bounds every weight, `PleBlock.SmallBlockExceeds` is an input that is not
within one divisor, and `PleBlock.OneDivisorCondition` says which weights are, from the global scale, the block's
largest magnitude and the weight alone. `ConvertMeaning.FinishedFilesMean` says what finished files are in the
magnitudes of the table itself: the encoded global scale is the largest magnitude over 2688, each block's scale is the
code nearest to 448 times its share of that magnitude, each weight's code is the nearest under that scale, and the
decoded weight is within a fifth of its block's largest magnitude or within what the smallest scale can resolve.
`ConvertTable` runs the chunked passes over files that hold arbitrary bytes beyond the recorded progress.

**The export** (`ExportLayout`, `PlanFacts`, `Bytes`, `Storage`, `StreamShard`, `FileNames`, `ShardWriter`,
`Artifact`, `WriteExport`, `Relabel`, `RelabelExport`, `Upload`, `MaterializeCache`). Files are byte sequences with
a size prefix, an encoded header and a payload; the encoding of headers is any pair of functions that satisfies
`StreamShard.Codec`. New files are made through temporaries (`Storage`), and a `Fate` for every path says where the
process dies over it. Safety holds for all fates: what is there under a planned name is right. Recovery does not: a
death while a temporary exists leaves it in the artifact directory, and every later run refuses that directory.
`WriteExport.Exporter.Lives` and `RelabelExport.Relabeller.Lives` prove that this is the only way to lose an export.
The repository that `Upload` commits to is shared with other writers, and local files may be edited between any two
steps; a quiet upload, in which nothing fails and nobody interferes, is a case of it and ends with a receipt.

**Anchors** (`DraftAnchors`). The stratified selection over record lengths, with the mixing function on 64-bit words.

`Options`, `Sorting` and `Bytes` are shared helpers.

## Model

| member | source | states |
|---|---|---|
| Journal.EveryRunKeepsJournal | quantization/run_store.py:58-165 | Over every interleaving of payload writes outside live content, records under paths nobody gave up, retirement intents and single unlinks, cut short anywhere: the invariant holds, committed records never change, retirements never go back, and a key that stays live keeps its exact payload on disk |
| Journal.FreeIsExact | quantization/run_store.py:58-85 | The condition on records is exact: a new record’s payload survives every unlink that may still come if and only if no key that was given up names its path |
| Journal.RetirementIsARun | quantization/run_store.py:152-165 | A retirement, up to any number of its unlinks, is such a run: intents in one step, then one step for each unlink |
| Journal.RetirementRequires | quantization/run_store.py:112-151 | What a retirement accepts, said outright: distinct keys and not the barrier; a live barrier that completes a block or a namespace; each key a Hessian, routed batch, replay or projection among the barrier’s ancestors, alone under its path, with an intact payload or its own old intent |
| Journal.RetiringIsExact | quantization/run_store.py:152-165 | Afterwards no record has changed, exactly those keys have joined the retirements with an intent that holds both records, exactly their paths are gone, and every other file is as it was |
| Journal.RecordingKeepsJournal | quantization/run_store.py:70-85 | Committing a record changes no other record, keeps every parent pin and every live payload, even when the path already belongs to another key |
| Journal.SavingKeepsJournal | quantization/block_driver.py:44-47 | A payload write keeps the journal if and only if no live record loses its content |
| Journal.LiveIsIntact | quantization/run_store.py:87-102 | A committed key without a retirement row passes a verified read: parents match their pins and the payload is exact |
| Journal.Acyclic | quantization/run_store.py:73-80 | Because records pin whole parent records, no committed key is its own ancestor |
| Journal.RetiringKeepsJournal | quantization/run_store.py:152-165 | After the intents and any number of unlinks of an accepted retirement the journal invariant holds |
| Journal.InterruptedRetirementIsAccepted | quantization/run_store.py:131-151 | A retirement that died after the intents and any number of unlinks passes all checks again with the same keys and barrier |
| Journal.InterruptedRetirementResumes | quantization/run_store.py:152-165 | Rerun from any such point, it reaches exactly the state of the uninterrupted call |
| Journal.UnlinkingKeepsJournal | quantization/run_store.py:156-159 | One unlink keeps the invariant if and only if no live record names the path |
| Journal.RecordDuringRetirement | quantization/run_store.py:143-159 | For every accepted retirement: a record committed for a retiring path between intents and unlinks is kept by a resumed call (which refuses the alias) but loses its payload to an unlink still in flight, so the journal needs a single owner |
| RunStore.RunStore.RecordFile | quantization/run_store.py:58-85 | The call succeeds exactly when the dependencies are distinct and committed, the payload exists and any earlier record is identical, and then adds exactly that record; otherwise it changes nothing |
| RunStore.RunStore.Get | quantization/run_store.py:87-102 | The record or nothing; with verification it refuses exactly when the record is retired, a pin differs, or the payload does |
| RunStore.RunStore.CollectAncestors | quantization/run_store.py:118-127 | The worklist ends, refuses nothing in a valid journal, and returns exactly the transitive ancestors of the barrier |
| RunStore.RunStore.Authorize | quantization/run_store.py:112-151 | The checks pass exactly on distinct, temporary, unaliased ancestors of a live barrier whose payloads are intact or already intended |
| RunStore.RunStore.RetireFiles | quantization/run_store.py:104-165 | Whatever the point of death, the state is the old one or a prefix of the retirement; finishing is the whole retirement; refusing changes nothing |
| Recipe.QuotasAreAQuarter | quantization/mixed_recipe.py:20-25 | For every expert count divisible by 64 the three quotas sum to a quarter of the matrices and each is within the expert count |
| Recipe.QuotasAreInRatio | quantization/mixed_recipe.py:20-25 | The three quotas stand as 3 to 5 to 8 |
| Recipe.QuotasInNumbers | quantization/mixed_recipe.py:5-25 | In numbers: 54, 90 and 144 of 384 experts in each of 40 blocks, and 18, 30 and 48 of 128 in each of three |
| Recipe.TopIsPreferred | quantization/block_driver.py:140-147 | The sorted choice is a duplicate-free set of exactly the quota of experts, each preferred (higher risk, then lower index) to every expert left out |
| Recipe.TopIsOrdered | quantization/block_driver.py:140-147 | The choice is listed from the highest risk down, lower indices first among equals |
| Recipe.ValidTiersAverage | quantization/mixed_recipe.py:28-47 | Every accepted tier map spends exactly 13/4 bits per weight over its 47,232 equal matrices |
| RunInvariant.CommittingKeepsGood | quantization/block_driver.py:44-47 | Committing a planned key with its planned payload, in order, is accepted by the store and keeps the run invariant |
| RunInvariant.RecommittingIsIdempotent | quantization/run_store.py:81-84 | Publishing a live key again, as a resumed run does, rewrites the same bytes and the same record |
| RunInvariant.KeptIsLive | quantization/retention.py:94-96 | A committed key that is no temporary, or whose barrier is not committed, has never been retired: its payload can be loaded |
| RunInvariant.TemporaryIsAncestor | quantization/run_store.py:132-135 | Behind a committed barrier, every temporary of the block or namespace is a committed, transitive ancestor of it |
| RunInvariant.RetirementIsAccepted | quantization/run_store.py:104-151 | Any distinct, nonempty selection of those temporaries is accepted for retirement |
| RunInvariant.RetiringKeepsGood | quantization/retention.py:96-98 | A retirement, finished or cut short after any unlink, keeps the run invariant |
| RunInvariant.BlocksArePrefix | quantization/wavefront.py:41-48 | Committed blocks of a namespace form a contiguous prefix behind its committed inputs |
| RunMeaning.EveryRecordMeans | quantization/block_driver.py:77-166 | Every record of a reachable journal, of any of the nineteen kinds of key, has the kind, path, dependencies and payload that the records it depends on determine; no term of the plan occurs in the statement |
| RunMeaning.HessiansMean | quantization/block_driver.py:95-129 | A committed Hessian was captured over the payloads of all routed batches in their order; for the second phase on a block whose slots hold exactly the payloads of the candidates that the first phase’s record selects, for the first on the unquantized block |
| RunMeaning.TiersAreChosen | quantization/block_driver.py:134-149 | A committed tier choice lists for each projection its quota of distinct experts, each with a higher risk on its K3 candidate’s payload than every expert left out, or the same risk and a lower index |
| RunMeaning.PhasesMean | quantization/block_driver.py:154-165 | A committed phase selects every expert and projection once, expert by expert, its K4 candidate if the tier record lists the expert and else its K3 one, and depends on the tier record and all of them |
| RunMeaning.OutputsMean | quantization/wavefront.py:54-104 | A committed output is its input’s payload advanced through the block with the selections of both phases, and nothing else, installed |
| RunMeaning.SweptIsShed | quantization/retention.py:85-98 | Sweeping behind a block is, on records alone: its inputs, routed batches, Hessians, and every candidate that neither phase’s record lists, are retired and off the disk |
| RunMeaning.BlockKeeps | quantization/retention.py:56-84 | At any time every candidate that a completed block’s phase records list is committed, not retired and intact on disk, and so are its outputs until their own barrier is committed |
| RunOutcome.OneOutcome | quantization/coordinator.py:94-142 | Confluence: any two reachable journals in which the quantization is complete are equal, in records, retirements and files, wherever the crashes fell and whichever search finished first |
| RunOutcome.SelectedStaysIntact | quantization/export_inventory.py:116-120 | From the commit of its phase on, every selected projection passes a verified read with its planned content, at any later time |
| RunOutcome.CompletionIsWhole | quantization/coordinator.py:135-141 | A complete quantization has every planned artifact committed |
| RunOutcome.CompletionIsSwept | quantization/coordinator.py:132-134 | A complete quantization has retired every temporary and kept nothing of them on disk |
| RunOutcome.CompletionByKind | quantization/coordinator.py:132-141 | In a complete quantization a record’s kind decides: every Hessian, routed batch and replay is retired and gone, a projection is kept if and only if some phase’s record lists it, and every other record is kept intact |
| Driver.Driver.Load | quantization/block_driver.py:35-42 | A key that was given up may not be asked for; what is loaded is live and is the planned state of the key; the checks of kind, digest and provenance refuse nothing |
| Driver.Driver.Publish | quantization/block_driver.py:44-47 | Payload then record: never refused for a planned key, and wherever it dies the run invariant holds |
| CandidateQueue.FindCandidate | quantization/block_driver.py:56-69 | The planned candidate of the slot, reused or searched over its committed Hessian; when it returns, the record on disk is a search over the payload of that Hessian’s record, and its payload is what was returned |
| CandidateQueue.CandidateQueue.Workers | quantization/candidate_queue.py:28-40 | Whatever the workers finish, in any order and with any failures: every successful result is of a pending job over its committed Hessian, and behind a signal there is a pending failure |
| CandidateQueue.CandidateQueue.Harvest | quantization/candidate_queue.py:42-59 | Publishes only successful results; it returns only when no search has failed or signalled a failure, makes progress when asked to wait, and its recursion terminates |
| CandidateQueue.CandidateQueue.Submit | quantization/candidate_queue.py:61-78 | Pending never exceeds twice the workers, the submitted key is committed or pending, and nothing is accepted after a failure |
| CandidateQueue.CandidateQueue.Close | quantization/candidate_queue.py:80-89 | A clean exit has committed every submitted key and means that no search failed |
| BlockDriver.CaptureSubset | quantization/block_driver.py:110-129 | On success every Hessian of the subset is committed, and the payload on disk was captured on the very projections installed in the block that was passed in and over the payloads of the routed batches in the order of their list |
| BlockDriver.ChooseTiers | quantization/block_driver.py:134-149 | On success the result lists for each projection its quota of distinct experts, each riskier by the K3 payloads on disk than every expert left out, ties to the lower index; the frozen record holds just this result |
| BlockDriver.SearchUpgrades | quantization/block_driver.py:150-153 | Never refused; on success every chosen expert has its K4 candidate committed |
| BlockDriver.SelectPhase | quantization/block_driver.py:154-165 | Each expert and projection is selected once, at the tier that the tier record gives it, installed in place, and the list is committed as the phase’s record with its dependencies |
| BlockDriver.RunBlock | quantization/block_driver.py:77-166 | Run or resumed, it never refuses; on success both phases are committed and the block’s slots hold exactly the payloads of the candidates that their two records select |
| Wavefront.Activate | quantization/wavefront.py:54-104 | Run or resumed on a bound block, with the workers of a window finishing in any order, beside the commits, and failing at will, it is never refused and closes nothing; on success every batch of the pass is committed, made of the input at its own place and, for outputs, of both phases’ selections |
| Wavefront.Process | quantization/wavefront.py:107-157 | Run or resumed on a ready block, it never refuses, closes nothing but this block, and on success returns its committed completion |
| Wavefront.OutputIsLive | quantization/wavefront.py:136-139 | The outputs of a completed block can be loaded until the next barrier is committed |
| Retention.CollectedAreTemporaries | quantization/retention.py:85-95 | The inputs and scanned keys are exactly the temporaries behind the block’s barrier |
| Retention.RetireBlockTemporaries | quantization/retention.py:56-98 | After any committed block whose successor is not committed it is never refused and changes no record; on success the block’s inputs, routed batches, Hessians, and candidates that no phase record lists are retired and their payloads gone; the listed candidates and the outputs are intact on disk, wherever it dies |
| Inputs.PrepareFrontiers | quantization/corpus_inputs.py:48-107 | Run or resumed, with payloads written in any order within a window, it is never refused, and on success the corpus inputs are committed with their planned values and order |
| Inputs.PrepareDraftFrontiers | quantization/draft_inputs.py:11-85 | From a complete main namespace, run or resumed, the handoff is never refused, and on success the draft inputs are committed with their planned values and order |
| Coordinator.ReplacementIsLive | quantization/retention.py:32-45 | Until the authorization is committed, every payload that replaces a namespace’s last frontier is committed, planned and still on disk |
| Coordinator.RetireNamespaceFrontier | quantization/retention.py:8-53 | Never refused once the handoff is committed, resumable at every point, and on success every key of the namespace’s last handoff is retired and its payload gone |
| Coordinator.Latest | quantization/wavefront.py:31-52 | The newest completed block, or nothing; the gap check never fires and its outputs load |
| Coordinator.RunNamespace | quantization/coordinator.py:39-91 | From any point an earlier attempt reached, it never refuses; on success the namespace is complete |
| Coordinator.QuantizeNamespaces | quantization/coordinator.py:94-142 | Started or resumed on any reachable journal, no check of the code ever refuses and only keys that were not given up are loaded (the precondition of `Load`); wherever it dies the journal is reachable again and every record in it means what its dependencies make it; a life in which nothing fails ends with the completion committed |
| Coordinator.RunToCompletion | quantization/coordinator.py:94-142 | From an empty journal, after any number of lives cut short anywhere, each with its own subset size and worker count, the first life in which nothing fails completes; every record then means what its dependencies make it, is kept or gone by its kind, and the disk is the one that every completed run leaves |
| Export.CollectSelected | quantization/export_inventory.py:76-103 | On a finished run it never refuses: every routed matrix is bound once, to an intact candidate of its own slot that its phase’s record lists, at the tier of that candidate |
| Export.SelectedTiersAreValid | quantization/export_inventory.py:101-103 | The collected tier map meets the recipe exactly |
| Nvfp4.Round8 | quantization/ple_nvfp4_cpu.cpp:12-22 | The binary search returns the E4M3 code nearest to the clamped value, the even one in a tie |
| Nvfp4.Nearest8IsUnique | quantization/ple_nvfp4_cpu.cpp:12-22 | At most one code is nearest with ties to even |
| Nvfp4.Round4 | quantization/ple_nvfp4_cpu.cpp:23-28 | Counting boundaries returns the E2M1 magnitude code nearest to the value, the even one in a tie |
| Nvfp4.ReferenceAgrees | quantization/fp4ple.py:130-134 | The search-and-adjust form of the reference picks the same code for every nonnegative value |
| Nvfp4.Value8Increases | quantization/ple_nvfp4_cpu.cpp:8-11 | E4M3 magnitudes strictly increase with their codes, across the subnormal boundary too |
| Nvfp4.Value8Doubles | quantization/ple_nvfp4_cpu.cpp:8-11 | The first sixteen E4M3 magnitudes are the multiples of 1/512, and eight codes on the magnitude doubles: this fixes all of them |
| PleBlock.LargestByCode | quantization/ple_nvfp4_cpu.cpp:74-76 | The maximum over magnitude codes finds the largest magnitude of a block |
| PleBlock.ErrorBound | quantization/ple_nvfp4_cpu.cpp:53-68 | A decoded weight is within one divisor (scale times global) if and only if its magnitude is at most seven divisors; always within three, within one and a half from scale code 2 on, within one from scale code 3 on |
| PleBlock.OneDivisorCondition | quantization/ple_nvfp4_cpu.cpp:53-68 | The exact condition in terms of the input, with u the global scale over 512: within one divisor if and only if the weight is at most 7u, or at most 14u in a block whose largest magnitude reaches 9u, or in a block beyond 15u |
| PleBlock.SmallBlocks | quantization/ple_nvfp4_cpu.cpp:55-59 | A nonzero block has scale code 1 if and only if its largest magnitude is below 9u, and code 2 if and only if it is from 9u to 15u |
| PleBlock.SmallBlockExceeds | quantization/ple_nvfp4_cpu.cpp:53-68 | The one-divisor bound does fail: a concrete table and block at the smallest scale exceed it |
| PleBlock.RatioIsBounded | quantization/fp4ple.py:178-179 | With the global scale at the table maximum over 2688, every weight is within nine divisors, and within seven from scale code 3 on |
| PleTable.IdealIsInRange | quantization/fp4ple.py:178-183 | With the histogram’s global scale, no block of a finite table has an ideal scale above 448, the largest code |
| PleBlock.IdealIsBounded | quantization/ple_nvfp4_cpu.cpp:55-57 | A block’s ideal scale is within 448 if and only if its largest magnitude is within 2688 global scales |
| PleHistogram.PleStats | quantization/ple_nvfp4_cpu.cpp:30-45 | For every assignment of groups to threads and every merge order: each slot becomes the maximum of its old value and the table’s |
| PleHistogram.SentinelIsExact | quantization/ple_nvfp4_cpu.cpp:39-40 | The sentinel is clear if and only if no weight and no exponent is NaN |
| PleHistogram.AmaxIsLargest | quantization/ple_nvfp4_cpu.cpp:46-52 | The histogram maximum bounds every weight of a finite table, and some weight attains it unless all are zero |
| PleHistogram.PleAmax | quantization/ple_nvfp4_cpu.cpp:46-52 | NaN exactly when the sentinel is set, else the largest value of the occupied slots |
| PleTable.PleLut | quantization/ple_nvfp4_cpu.cpp:53-68 | Every row a finite table can look up holds the direct scale and the direct code of all 256 bytes; every other entry is unchanged |
| PleTable.PleConvert | quantization/ple_nvfp4_cpu.cpp:69-82 | For every order of the parallel blocks, each scale byte and packed byte is the lookup of its own block |
| PleTable.TablesAreDirect | quantization/ple_nvfp4_cpu.cpp:53-82 | Through the tables, each weight’s nibble and each block’s scale equal direct per-block quantization |
| PleTable.CheckRowAgrees | quantization/fp4ple.py:115-139 | On any finite table, not only on the sampled row, scale and code equal the independent reference |
| PleTable.DirectError | quantization/fp4ple.py:178-183 | With the global scale from the histogram, every weight of a finite table decodes within the bound of its scale code |
| ConvertTable.Conversion.Statistics | quantization/fp4ple.py:163-177 | Resumed at any recorded row with any chunk size, it ends with the whole-table maxima; it refuses only a table that is not finite and finishes only on a finite one |
| ConvertTable.Conversion.Conversions | quantization/fp4ple.py:197-213 | Every row below the recorded progress is final in both files, whatever bytes a crash left beyond it |
| ConvertTable.Conversion.ConvertTable | quantization/fp4ple.py:146-222 | Finishing means both files are header plus one direct pass over the whole table plus its global scale, and mean what `FinishedFilesMean` says; it refuses only an empty or nonfinite table, or a state left by a crash while a header was laid out or between link and unlink; from exactly those states it never finishes |
| ConvertTable.Conversion.Attempts | quantization/fp4ple.py:146-222 | Over any sequence of attempts cut short anywhere, with any chunk sizes, and then one that is not: on every nonempty finite table it finishes if and only if no death left such a state, and the finished files mean what `FinishedFilesMean` says |
| ConvertTable.Conversion.DieRenaming | quantization/fp4ple.py:216-218 | The recovery that fails: for every nonempty finite table, a death between the link of the final weight name and the removal of the partial one makes the next attempt raise |
| ConvertTable.OneConversion | quantization/fp4ple.py:197-215 | Finished files are determined by the table: neither chunk sizes nor crash points show in them |
| ConvertMeaning.FinishedFilesMean | quantization/fp4ple.py:178-215 | Finished files, in the table’s own magnitudes: the scale file ends with the encoding of the largest magnitude over 2688 (one for a table of zeros); each block’s scale code is nearest to 448 times its largest magnitude over the table’s, 126 where it attains it; each weight’s half-byte, low for even weights and high for odd ones, is the nearest E2M1 value under that scale with the weight’s sign; and it decodes to within a fifth of the block’s largest magnitude or 3/512 of the global scale |
| ConvertTable.FilesAreClose | quantization/fp4ple.py:197-215 | Every weight decoded from the finished files is within the error bound of its source, in divisors of its block |
| ConvertTable.TableMaxJoins | quantization/fp4ple.py:166-173 | The statistics of a longer prefix are the maxima of a prefix’s and the next chunk’s |
| ExportLayout.Pack | quantization/export_layout.py:41-50 | The greedy loop keeps all tensors in order in shards within the target or of one tensor, none with room for the next shard’s first |
| ExportLayout.PackingIsOptimal | quantization/export_layout.py:41-50 | No other order-preserving split under that rule uses fewer shards |
| ExportLayout.PlanShards | quantization/export_layout.py:18-58 | It succeeds exactly on acceptable inventories, and then packs the three sorted groups, numbered as one sequence, with the exact index |
| ExportLayout.GroupIsByName | quantization/export_layout.py:9-15 | The weight and scale of the two tables, and no other names, are their groups; a name is refused if and only if it is none of these and contains the table infix |
| Sorting.FirstDifferenceDecides | quantization/export_layout.py:28 | The order of names: a prefix comes first, and otherwise the first character that differs decides, strictly |
| PlanFacts.MapInvertsFiles | quantization/export_layout.py:52-55 | The weight map is the exact inverse of the files and covers exactly the inventory |
| PlanFacts.FilesAreIsolated | quantization/export_layout.py:27-51 | No file mixes groups; each is within the target or holds one tensor |
| PlanFacts.PlanIsOptimal | quantization/export_layout.py:40-51 | No other group-isolating, order-preserving layout uses fewer files |
| PlanFacts.TotalIsConserved | quantization/export_layout.py:56-58 | The index total is the sum over the files: sorting, grouping and packing lose no bytes |
| PlanFacts.PlanIsUnique | quantization/export_layout.py:18-58 | An inventory and a target have exactly one plan |
| PlanFacts.PlanIsSorted | quantization/export_layout.py:27-55 | Read file by file in the order of their ordinals, a plan lists the model tensors, then the first table’s, then the other’s, each group in ascending order of names |
| StreamShard.CheckTiling | quantization/stream_shard.py:36-42 | The cursor loop accepts a descriptor set if and only if its spans are pairwise separate and cover every payload byte, zero-length tensors included |
| StreamShard.ReadHeader | quantization/stream_shard.py:13-43 | It accepts exactly the well-formed files whose descriptors tile the payload |
| StreamShard.OpensExactly | quantization/stream_shard.py:13-43 | A size prefix, text and payload open if and only if the text has 2 to 67108864 bytes and decodes to tensors whose spans lie in the payload, pairwise apart, and leave no byte of it out; they open to those tensors, counted from the end of the header |
| StreamShard.ReadsItsPart | quantization/stream_shard.py:13-43 | Each tensor then reads as its type, shape and the bytes of the payload between its two offsets |
| StreamShard.SortedTiles | quantization/stream_shard.py:36-42 | Sorted spans chain from zero to the end if and only if the spans, in any order, tile the payload |
| StreamShard.CopySpan | quantization/stream_shard.py:76-85 | With any chunk size and any short reads the copy is exactly the source slice |
| StreamShard.Repack | quantization/stream_shard.py:46-101 | It succeeds exactly on the inventories that can be repacked, then adds exactly the one file; refused, it changes nothing; dying, it leaves the file absent or whole and beside it at most its own temporary |
| Storage.WriteThrough | quantization/write_export.py:27-42 | Wherever the process dies between creating a temporary and removing it, the new file is there whole or not at all, nothing else changes, and exactly that temporary stays behind |
| StreamShard.RepackedOpens | quantization/stream_shard.py:53-70 | The repacked file is accepted by the reader with the header that was laid out |
| StreamShard.LaidInOrder | quantization/stream_shard.py:53-65 | The new header lists the tensors in ascending order of names, the first at zero and each where the one before ends |
| StreamShard.RepackRoundTrip | quantization/stream_shard.py:46-101 | Every tensor asked for, and no other, reads from the repacked file with its source’s type, shape and bytes |
| Bytes.LittleEndianRoundTrip | quantization/stream_shard.py:15-21 | The eight-byte size prefix reads back as written |
| Bytes.LaterBytesCountMore | quantization/stream_shard.py:15-21 | A byte alone is its own value, and bytes appended to n others count 256 to the n times as much: this fixes the reading of the prefix |
| FileNames.RenderIsInjective | quantization/export_layout.py:53 | Shards of one plan never share a file name, zero padding included |
| FileNames.RenderSpells | quantization/export_layout.py:53 | While the numbers fit, a name is 32 characters that spell both in five decimal digits, most significant first, between the fixed parts |
| ShardWriter.VerifyShard | quantization/write_export.py:49-59 | It accepts exactly files that hold the named tensors and no others, each with its expected descriptor |
| ShardWriter.WriteShard | quantization/write_export.py:62-78 | By link or by repacking, the new file holds each tensor exactly as its source; it refuses only shards whose sources do not allow it; dying over a repacked shard it may leave its temporary, over a linked one nothing |
| Artifact.VerifyFiles | quantization/validate_export.py:43-80 | It accepts exactly artifacts with the planned files and no others, right documents, isolated groups, exact index, verified shards and full coverage |
| Artifact.FinishedVerifies | quantization/validate_export.py:43-80 | A finished artifact of a matching inventory passes the check |
| Artifact.FinishedCarries | quantization/write_export.py:130-150 | A finished artifact carries every tensor of the inventory, in the shard that the index names for it, with its source’s type, shape and bytes; every document with its contents; the encoded index; and no other file |
| Artifact.ShardJoins | quantization/write_export.py:130-138 | Adding a written shard to a partial artifact keeps everything in it right and brings in no foreign file |
| WriteExport.Exporter.Run | quantization/write_export.py:81-150 | A run that finishes, resumed or not, leaves an artifact that the check accepts and that carries exactly the inventory’s tensors as their sources hold them, the documents and the index; an exportable inventory is refused if and only if the directory is not empty at first, is under a plan that is another or not to be resumed, or holds a foreign file, and such a refusal changes nothing; wherever it dies, all that is there under a planned name is right, nothing is removed, and the one foreign file it may leave is the temporary of the file it died over |
| WriteExport.Exporter.Lives | quantization/write_export.py:81-150 | From an empty directory, over any number of lives that die anywhere and then one that does not: an exportable inventory is finished if and only if no death left a temporary, and is refused otherwise |
| WriteExport.Exporter.ResumesUnlessLeftover | quantization/write_export.py:117-129 | A directory to which only these lives wrote accepts a resumed run if and only if no temporary was left in it |
| WriteExport.Exporter.DieOverAndReturn | quantization/write_export.py:126-138 | The recovery that fails: for every exportable inventory, a death while the temporary of a missing planned file is being written makes the next life refuse |
| WriteExport.IndexNeedsTemporary | quantization/write_export.py:141 | The index of every export is such a file |
| WriteExport.ShardNeedsTemporary | quantization/write_export.py:62-78 | So is every shard that is not one source under its own tensor names |
| WriteExport.Exporter.WriteShards | quantization/write_export.py:130-138 | Existing shards are reused after verification, missing ones written; it refuses only if some shard’s sources block it |
| Relabel.NumberedMapping | quantization/rename_shards.py:22-30 | It succeeds exactly when every shard name parses, and then numbers the shards one to n without a gap in the order of their old places, no two alike |
| Relabel.NamesParse | quantization/rename_shards.py:24-28 | A name of a group, five digits and a total of five digits parses, to its group’s place and the number of its digits |
| Relabel.ParsedNames | quantization/rename_shards.py:24-28 | No other name parses |
| Relabel.GroupsAreInOrder | quantization/rename_shards.py:22-30 | All model shards are numbered before all shards of the first table, and those before all of the other |
| Relabel.DigitsAreInOrder | quantization/rename_shards.py:22-30 | Within a group the first of the five digits that differs decides |
| RelabelExport.RelabellingKeepsValidity | quantization/rename_shards.py:53-76 | For every published plan, numbering and directory: linked under its new names, with the new index, the export passes the file check under the revised plan if and only if the old content passes under the old one |
| RelabelExport.Relabeller.Run | quantization/rename_shards.py:36-76 | Finishing means that the plan has 52 shards, that the relabelled directory passes the file check, and that it holds every file of the receipt but the old index, shards under their new names and the others under their own; nothing outside it changes and nothing in it is removed; an export that is right is refused only when something foreign is in the directory; dying leaves only links, the index and at most the index’s temporary, and with a temporary there no run finishes |
| RelabelExport.Relabeller.Lives | quantization/rename_shards.py:36-76 | For an export that is right, over any number of lives that die anywhere and then one that does not: it finishes if and only if no death left the index’s temporary, and is refused otherwise |
| RelabelExport.Relabeller.DieOverIndexAndReturn | quantization/rename_shards.py:75-76 | The recovery that fails: for every export that is right, a death while the index’s temporary is being written makes the next life refuse |
| RelabelExport.VerifiedIsPublished | quantization/validate_export.py:43-80 | Whatever the exporter finishes is a valid published export, so its shards can be renumbered |
| RelabelExport.MirrorSize | quantization/rename_shards.py:53-57 | Renumbering reorders the shards and keeps their payload |
| Relabel.NumberedCommitRenames | quantization/rename_shards.py:82-105 | The commit of copies, deletions and the new index gives exactly the expected tree, even where old and new names overlap |
| Upload.Uploader.Upload | quantization/upload_model.py:43-150 | Against other writers, local edits, crashes and lost responses: at most one commit is ever made by this uploader; if the planned files are not edited, its tree is exactly the planned files with their planned contents; a receipt exists only if the tree at its commit is that, the four required names among them, and a made receipt never changes. A quiet upload to a fresh repository ends with a receipt for a commit of its own |
| Upload.Uploader.CommitOnce | quantization/upload_model.py:131-141 | It adopts a head that already holds the files, or commits on the recorded parent; after one commit of its own it never makes another. If the files are not edited, that commit is the parent’s tree overlaid with each planned file’s content under its prepared mode; undisturbed, it does commit |
| Upload.Uploader.Prepare | quantization/upload_model.py:94-128 | A preparation record lists the very content that was fingerprinted, although the file may be edited meanwhile |
| Upload.Uploader.Acknowledge | quantization/upload_model.py:142-150 | A receipt is made only for a commit whose listing read back equal to what was prepared, while the local files are still the planned ones |
| MaterializeCache.Cache.Materialize | quantization/materialize_cache.py:18-110 | No existing file is replaced and no snapshot entry gets another target; the reference names the commit only when every acknowledged file is linked through its snapshot to a blob of an acknowledged local file, and stays so complete; dying leaves a part of the final state |
| MaterializeCache.LinkingResumes | quantization/materialize_cache.py:61-89 | From wherever a run was cut short, a rerun reaches the state of the uninterrupted one |
| MaterializeCache.LinkingAdds | quantization/materialize_cache.py:61-84 | From a compatible cache, linking makes every file present and stays compatible |
| DraftAnchors.SelectAnchors | quantization/draft_anchors.py:19-42 | It succeeds exactly when the count fits the corpus, and then each stratum’s anchor is where prefix-sum lookup places its ordinal; the forward cursor never leaves the records |
| DraftAnchors.OrdinalIs | quantization/draft_anchors.py:30-32 | A stratum’s ordinal is its word modulo the stratum’s size, counted from its lower bound |
| DraftAnchors.WordIs | quantization/draft_anchors.py:32 | The word mixes the seed, modulo two to the 64, with the stratum |
| DraftAnchors.KnownWords | quantization/draft_anchors.py:11-16 | The mixing function gives the published first outputs for the states 0 and 1 |
| DraftAnchors.OrdinalsNumberPositions | quantization/draft_anchors.py:22-37 | Ordinals number the positions that leave one token before and one after, record by record, and no others |
| DraftAnchors.OrdinalFalls | quantization/draft_anchors.py:33-36 | Every ordinal below the total falls in some record |
| DraftAnchors.ExactlyCount | quantization/draft_anchors.py:30-37 | Over all records there are exactly as many anchors as asked for |
| DraftAnchors.AnchorsAreValid | quantization/draft_anchors.py:33-36 | Within a record anchors strictly ascend and leave one position before and one token after |
| DraftAnchors.OrdinalsAscend | quantization/draft_anchors.py:30-32 | One ordinal per stratum, ascending, and neighbours at most twice the rounded-up mean minus one apart |
| DraftAnchors.StratumSize | quantization/draft_anchors.py:31 | No stratum is empty or larger than the rounded-up mean |

## Left out

- Digests are modelled by what they digest, and artifact keys, paths and provenance by structured values: injective hashing and formatting are taken for granted. JSON is a pair of functions that invert each other.
- SQLite transactions, `fsync` and directory syncs: a transaction is one step, and what was synced is durable. Lock files, permissions, symbolic-link and path-traversal checks, and file ownership are not modelled.
- GPU numerics, tokenizers, adapters, EXL3 search and the finiteness checks on tensors are uninterpreted terms; a search or forward pass may fail, which ends the run as `Stopped`.
- The distributed search backend, whose results carry transport metrics: the run is modelled for a search that is a function of its arguments, as `BlockDriver._search` is.
- `prepare_draft_frontiers` takes the records that hold anchors from the run's configuration; that they come from `select_anchors` is proved separately in `DraftAnchors`.
- CandidateQueue.CandidateQueue.Close: leaving after an exception discards pending searches; what the pool does with running ones is not modelled, because workers never write to the journal.
- Coordinator.QuantizeNamespaces: completion is claimed for a life in which no step, search or forward pass fails; that such a life comes is not claimed.
- `DraftAnchors.SplitMix64` is modelled but no statistical property of it is claimed; the coordinate digest is the list of coordinates.
- Float rounding in the converter's divisions, the `float32` global scale and overflow: exact reals. The encoding of the global scale is any function to four bytes.
- ConvertTable.Conversion.ConvertTable: recovery is not live after a crash while a file is laid out, or between the final link and the removal of the partial name; the contract states exactly these states (`Stuck`) as the only refusals besides an empty or nonfinite table, and that nothing recovers from them. A table without rows is always refused after its statistics; the row check of the source instead reads the bytes that follow the table as a row, and goes on if there are enough of them.
- Progress events, the published row check of `fp4ple.py`, `posix_fadvise`, `assemble` and `publish`.
- Storage.WriteThrough: the name drawn for a temporary is never that of an existing or planned file; the random part is a parameter.
- WriteExport.Exporter.Run: metadata and assets are one map of documents with known contents, and a source fingerprint stands for the source's content; payload corruption of equal size by somebody else is outside the check, as the source says.
- `validate_inventory`, `packed_entries`, `source_entries` and `build_inventory` beyond `collect_selected`: descriptor tables and name sets that add only direct comparisons.
- Upload.Uploader.Upload: repository visibility, SDK version and transport retries; listings carry the hashed content instead of the hash.
- MaterializeCache.Cache.Materialize: `relpath` targets are the blob they resolve to, and the cache lock excludes other writers.
- RelabelExport.Relabeller.Run: receipts and plan fingerprints stand for the contents they digest, a table of links stands for inode identity, and the authorization, plan and validation records are not modelled; the metadata check `validate_inventory` that runs beside the file check is left out.
- HTTP servers and clients, deployment, launchers, attestation, model cards, qualification and probe harnesses, benchmarks, and the native engine.
