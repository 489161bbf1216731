# A Dafny model of the DTI PDBbind pair preprocessor and training loop

This project models two scripts of a drug-target interaction repository.
They build protein–ligand complexes from PDBbind and train a graph network
to predict binding affinity.

**The pair preprocessor** (`data/pdbbind_v2019_refined/pp_test/preprocess.py`).
For every complex named in a key list, the preprocessor does the following:
- It loads the ligand, trying an sdf file, then an rcsb sdf, then a mol2 file.
- It optimises the ligand's conformers with the UFF force field and keeps the
  first one of least energy.
- It cuts the binding pocket out of the protein. The pocket is every residue
  with an atom whose name has no `H` strictly closer than 5 Å to a ligand
  atom.
- It pickles `(ligand, optimised ligand, pocket, [])` under the complex's key.
  A key whose record already exists is skipped. Any exception ends that key
  without a record.

Modules:
- `Geometry` (`geometry.dfy`) holds the residue filter, the structure
  selection and `count_residue`.
- `Conformers` (`conformers.dfy`) models `uff`.
- `Preprocess` (`preprocess.dfy`) holds `preprocessor` and `run`, the key
  list, and a `RecordStore` class whose `records` map is the data directory.

**The training script** (`train.py`).
- It reads a label table from the PDBbind index file.
- Each epoch, it makes a training pass and an evaluation pass over the data
  loaders. A pass logs two losses per batch:
  - the mean squared error of the crystal-pose prediction;
  - a margin ranking loss `mean(max(0, pred1 - pred2 + 10))`, which asks the
    displaced pose to score 10 above the crystal pose.
- A pass also records each key's label and predictions in insertion-ordered
  dictionaries. The script writes those dictionaries as tab-separated reports
  and prints the mean losses.
- Finally it saves a checkpoint `save_<epoch>.pt` and sets the rate
  `lr * lr_decay ** epoch` in every optimizer parameter group.

Modules:
- `Labels` (`labels.dfy`) reads the label table.
- `Losses` (`losses.dfy`) holds the loss formulas.
- `Schedule` (`schedule.dfy`) holds the learning rate and the checkpoint name.
- `Tables` (`tables.dfy`) models Python's insertion-ordered dictionaries.
- `Passes` (`passes.dfy`) holds one pass as the `PassLog` class and the
  report.
- `Epochs` (`trainer.dfy`) holds the epoch loop as the `Trainer` class.

**Support modules.**
- `Outcomes` (`outcomes.dfy`) holds `Option`, `Outcome` (a value or a raised
  exception) and `Parse` (raises, comes back `None`, or parses).
- `Text` (`text.dfy`) models `str.split()`, `str.split('/')` and `str(n)`.

Library calls are oracle values passed in as parameters. This covers RDKit's
readers, embedding and force field, Biopython's parser, `float` and the
formatting of numbers. The model decides what happens around these calls.
Numbers are exact reals.

Points where the code and its written description differ (the model follows
the code):
- **`accept_residue`** sets a residue aside without a distance test only
  when it has **no** atom whose name has no `H`. An empty position list has a one-dimensional shape; a residue with one
  kept atom still gets a two-dimensional array and is compared normally.
  - The test `'H' not in atom.get_id()` drops every atom whose *name* contains
    an `H`, such as `OH` or `NH1`, not only hydrogens.
  - When the ligand has no position, `np.min` of an empty matrix raises.
- **`uff`** writes the conformer at list position `min_idx` (the first index
  of least energy). Whether the relaxation converged plays no part.
- **`extract`** calls `GetConformer()` on the ligand before selecting residues, so
  a ligand without conformers raises there. The check
  `len(m1.GetConformers()) == 0` at `preprocess.py:129` can therefore never
  be the one that rejects.
- **The training rate.** The rate set after epoch `e` is `lr * lr_decay ** e`,
  so after epoch 0 it is the initial rate again. Epochs 0 and 1 train at the
  same rate (`Schedule.FirstTwoEpochsShareLr`).
- **Keys that name a directory.** The existence test
  `os.path.exists(f'{data_dir}/{key}')` is true for the keys `""`, `.` and
  `..`, since `../data/`, `../data/.` and `../data/..` exist. A key-list line
  whose first field ends in `/` has the empty key
  (`Preprocess.TrailingSlashKey`). Such entries are skipped like keys with a
  record (`Preprocess.DirectoryKeySkipped`). The model takes `../data` to
  exist.
- **An epoch with an empty pass.** When the training or the evaluation
  loader lets no batch through, that pass records no key. `r2_score` then
  raises `ValueError` on the empty label lists (`train.py:181-184`), after
  the two reports are written. Nothing is printed, no checkpoint is saved,
  the rate is not updated, and the run ends (`Epochs.Trainer.Epoch`,
  `Epochs.Trainer.Train`).
- **Reruns.** `Preprocess.SecondRunWritesNothing` compares two runs with the
  same library results. `EmbedMultipleConfs` is called without a seed, so a
  real rerun may see other conformers. Whatever a rerun's library calls
  give, it keeps every existing record unchanged
  (`Preprocess.ExistingRecordsKept`), because a key with a record is skipped.

## Model

| member | source | states |
|---|---|---|
| Text.Fields | train.py:51 | `split()` yields non-empty, whitespace-free fields |
| Text.LeadingSpace | train.py:51 | whitespace before a line does not change its fields |
| Text.TrailingSpaces | train.py:51 | whitespace after a line does not change its fields |
| Text.FieldsSpaced | train.py:51 | splitting non-empty whitespace-free words joined by runs of whitespace gives the words back |
| Text.FieldsOfLine | train.py:51 | the same holds with any leading and trailing whitespace around the words |
| Text.SplitOn | data/pdbbind_v2019_refined/pp_test/preprocess.py:90 | `split('/')` yields at least one piece, and no piece holds the separator |
| Text.JoinSplit | data/pdbbind_v2019_refined/pp_test/preprocess.py:90 | joining the pieces of a split with the separator restores the string |
| Text.SplitJoin | data/pdbbind_v2019_refined/pp_test/preprocess.py:90 | splitting separator-free pieces joined by the separator gives the pieces back |
| Text.NatToString | train.py:192 | `str(epoch)` is a non-empty string of decimal digits |
| Text.ParseNatToString | train.py:192 | reading the decimal text of a number back gives the number |
| Text.NatToStringInjective | train.py:192 | distinct numbers have distinct decimal texts |
| Geometry.KeptPositions | data/pdbbind_v2019_refined/pp_test/preprocess.py:51-52 | the positions of exactly the atoms whose name holds no `H` |
| Geometry.MinSqDist | data/pdbbind_v2019_refined/pp_test/preprocess.py:56 | the result is a pairwise squared distance and no pairwise distance is smaller |
| Geometry.AcceptResidueMeaning | data/pdbbind_v2019_refined/pp_test/preprocess.py:50-60 | accepted iff some kept atom is strictly within 5 Å of some ligand atom; raises iff the ligand has no position and the residue has a kept atom; rejected otherwise |
| Geometry.BoundaryRejected | data/pdbbind_v2019_refined/pp_test/preprocess.py:57 | an atom at exactly 5 Å does not make its residue part of the pocket |
| Geometry.NamedHydrogensIgnored | data/pdbbind_v2019_refined/pp_test/preprocess.py:51-55 | a residue whose only atom is named `OH` is rejected even when it touches the ligand |
| Geometry.SelectChain | data/pdbbind_v2019_refined/pp_test/preprocess.py:61-64 | saving a chain raises iff the filter raises on one of its residues; otherwise it keeps exactly the accepted residues |
| Geometry.SelectModel | data/pdbbind_v2019_refined/pp_test/preprocess.py:61-64 | a model raises iff one of its chains does; otherwise every chain is replaced by its selection |
| Geometry.SelectStructure | data/pdbbind_v2019_refined/pp_test/preprocess.py:61-64 | a structure raises iff one of its models does; otherwise every model is replaced by its selection |
| Geometry.SelectionKeepsNearResidues | data/pdbbind_v2019_refined/pp_test/preprocess.py:49-64 | the saved pocket keeps every model and chain, and a chain's residues are exactly its residues near the ligand |
| Geometry.CountResidues | data/pdbbind_v2019_refined/pp_test/preprocess.py:30-36 | the three nested loops count every residue of every chain of every model |
| Geometry.SelectionShrinks | data/pdbbind_v2019_refined/pp_test/preprocess.py:30-64 | the pocket never has more residues than the protein |
| Geometry.ExtractMeaning | data/pdbbind_v2019_refined/pp_test/preprocess.py:39-67 | a missing file gives `None`; a pocket comes only from a present, parsable file when no residue test raises, and it is the reread of the selected structure |
| Conformers.FirstMinUnique | data/pdbbind_v2019_refined/pp_test/preprocess.py:78 | "first position of least value" determines a single index |
| Conformers.FirstMinIndex | data/pdbbind_v2019_refined/pp_test/preprocess.py:78 | the index holds a least value, and every earlier value is larger |
| Conformers.SelectConformer | data/pdbbind_v2019_refined/pp_test/preprocess.py:78 | `cenergy.index(min(cenergy))`, computed by two loops, is the first position of least energy |
| Conformers.Uff | data/pdbbind_v2019_refined/pp_test/preprocess.py:70-86 | the loop over the conformers returns what `uff` returns: raises on a failed sanitize or no conformer, otherwise rereads the conformer of least energy |
| Conformers.LowestEnergyWins | data/pdbbind_v2019_refined/pp_test/preprocess.py:75-84 | the conformer with strictly least energy is the one written and read back |
| Conformers.ConvergenceIgnored | data/pdbbind_v2019_refined/pp_test/preprocess.py:76-77 | which relaxations converged does not change the result |
| Preprocess.TrailingSlashKey | data/pdbbind_v2019_refined/pp_test/preprocess.py:90 | an entry ending in `/` has the empty key |
| Preprocess.KeyRoundTrip | data/pdbbind_v2019_refined/pp_test/preprocess.py:90 | the key of `path + k` is `k` for a key without `/` |
| Preprocess.KeyPaths | data/pdbbind_v2019_refined/pp_test/preprocess.py:145-150 | reading the key list raises iff some line has no field; otherwise entry `i` is the path prefix plus line `i`'s first field |
| Preprocess.KeyListRoundTrip | data/pdbbind_v2019_refined/pp_test/preprocess.py:90-150 | `preprocessor` recovers from each key-list entry the first field of its line |
| Preprocess.LigandSourceOrder | data/pdbbind_v2019_refined/pp_test/preprocess.py:102-115 | the ligand is the first source that does not come back `None`: the sdf, then the rcsb sdf (only when its directory exists), then mol2; no ligand iff all three come back `None` |
| Preprocess.RecordContents | data/pdbbind_v2019_refined/pp_test/preprocess.py:117-134 | a written record holds the loaded ligand, its UFF result, the water-stripped pocket extracted around it (both with conformers) and an empty list |
| Preprocess.MissingProteinNoRecord | data/pdbbind_v2019_refined/pp_test/preprocess.py:123-126 | a missing protein file never yields a record, and with a ligand and a UFF result it ends as "no pocket" |
| Preprocess.NoConformerMeansEmptyPocket | data/pdbbind_v2019_refined/pp_test/preprocess.py:117-132 | ending at the conformer checks implies the ligand loaded with conformers and the pocket was extracted, so it is the water-stripped pocket that has no conformer |
| Preprocess.StepKeys | data/pdbbind_v2019_refined/pp_test/preprocess.py:138-142 | one entry adds its key exactly when its attempt writes a record |
| Preprocess.RecordsPersist | data/pdbbind_v2019_refined/pp_test/preprocess.py:95-96 | a record present after part of the run is still present, unchanged, after all of it |
| Preprocess.ExistingRecordsKept | data/pdbbind_v2019_refined/pp_test/preprocess.py:95-96 | whatever the library calls give, a run keeps every existing record unchanged |
| Preprocess.DirectoryKeySkipped | data/pdbbind_v2019_refined/pp_test/preprocess.py:94-96 | an entry whose key is `""`, `.` or `..` is skipped and changes no record |
| Preprocess.SecondRunWritesNothing | data/pdbbind_v2019_refined/pp_test/preprocess.py:95-96 | running the same key list again changes no record |
| Preprocess.StableOnPrefix | data/pdbbind_v2019_refined/pp_test/preprocess.py:95-96 | rerunning any prefix of the key list after a run changes nothing |
| Preprocess.WrittenKeys | data/pdbbind_v2019_refined/pp_test/preprocess.py:138-156 | after a run the directory holds its earlier keys plus exactly the keys whose attempt succeeds |
| Preprocess.ThreeComplexes | data/pdbbind_v2019_refined/pp_test/preprocess.py:89-156 | of a good complex, one with a missing protein and one with no readable ligand, only the first gets a record |
| Preprocess.RecordStore.constructor | data/pdbbind_v2019_refined/pp_test/preprocess.py:94 | the store starts as the existing data directory |
| Preprocess.RecordStore.Preprocessor | data/pdbbind_v2019_refined/pp_test/preprocess.py:89-135 | the early returns in source order give the status of the attempt; only a written record changes the store, under the entry's key |
| Preprocess.RecordStore.Run | data/pdbbind_v2019_refined/pp_test/preprocess.py:138-142 | an exception leaves the store as it was |
| Preprocess.RecordStore.RunAll | data/pdbbind_v2019_refined/pp_test/preprocess.py:152-156 | processing the entries one after the other gives the records of the whole run |
| Preprocess.RecordStore.ProcessKeyList | data/pdbbind_v2019_refined/pp_test/preprocess.py:145-156 | a key list with a blank line writes nothing; otherwise every entry is processed |
| Labels.LabelTable | train.py:52 | the comprehension raises iff some body line does |
| Labels.EntryOfColumns | train.py:51-52 | a line of at least four words separated by runs of whitespace, with any leading and trailing whitespace, yields its first word and the float of its fourth; it raises when `float` refuses the fourth |
| Labels.ShortLineRaises | train.py:51-52 | a line of one to three words raises, whatever its words |
| Labels.BlankLineRaises | train.py:51-52 | a line of only whitespace raises |
| Labels.HeaderIgnored | train.py:50 | the six header lines never reach the table |
| Labels.ShortFileEmpty | train.py:50 | a file of at most six lines gives an empty table |
| Labels.LabelKeys | train.py:52 | the table's keys are exactly the identifiers of the body lines |
| Labels.LastLineWins | train.py:52 | an identifier gets the value of the last line that names it |
| Losses.MeanZero | train.py:175-178 | a mean of non-negative terms is non-negative, and zero iff every term is |
| Losses.SquaredErrors | train.py:115 | every squared error is non-negative, and zero where prediction and label agree |
| Losses.MeanSquaredErrorZero | train.py:115 | the regression loss is non-negative and vanishes on a perfect fit |
| Losses.Hinge | train.py:116 | the hinge is non-negative, at least `p1 - p2 + 10`, and zero iff `p2 >= p1 + 10` |
| Losses.RankingLossZero | train.py:116 | the ranking loss is non-negative and zero iff every displaced pose scores at least 10 above its crystal pose |
| Losses.RankingLossAtLeastMargin | train.py:116 | the ranking loss is at least 10 when no displaced pose scores above its crystal pose |
| Losses.LossAsymmetry | train.py:115-150 | the training and evaluation objectives agree iff the ratio is 1 or the ranking loss is 0 |
| Losses.ObjectivesBoundRegression | train.py:115-117 | with a non-negative ratio both objectives are at least the regression loss |
| Schedule.LrClosedForm | train.py:195 | applying the decay once per epoch gives `lr * lr_decay ** epoch` |
| Schedule.FirstTwoEpochsShareLr | train.py:195-197 | epochs 0 and 1 train at the initial rate |
| Schedule.LrNonNegative | train.py:195 | a non-negative initial rate with any non-negative decay stays non-negative |
| Schedule.LrNonIncreasing | train.py:195-197 | with decay in [0, 1] the training rate never grows from one epoch to the next |
| Schedule.NoDecayConstant | train.py:195 | with the default decay of 1.0 the rate stays the initial one |
| Schedule.CheckpointEpoch | train.py:192 | the epoch number can be read back from the checkpoint name |
| Schedule.CheckpointNamesDistinct | train.py:192 | distinct epochs write distinct checkpoint files |
| Tables.AssignKeys | train.py:128-131 | after the assignments the dictionary holds exactly its old keys and the assigned ones |
| Tables.LastWriteWins | train.py:128-131 | a key holds the value of its last assignment |
| Tables.Untouched | train.py:128-131 | a key never assigned keeps its value |
| Tables.AssignAppend | train.py:128-131 | two batches of assignments are one run of assignments over the concatenation |
| Tables.ExtendFacts | train.py:165 | the iteration order holds the old and the assigned keys, each once, with the old order first and only new keys after it |
| Tables.ExtendAppend | train.py:165 | the order after two batches is the order after their concatenation |
| Tables.FirstInsertionOrder | train.py:165 | new keys are iterated in the order of their first assignment |
| Tables.DistinctCount | train.py:165-168 | a repetition-free order has as many entries as distinct keys |
| Passes.PresentMembers | train.py:104 | the batches a pass uses are exactly the samples that are not `None` |
| Passes.CollatedMembers | train.py:104-105 | a loader's samples are well-formed iff every present batch is |
| Passes.Values | train.py:128-131 | the column values line up with the keys of the pass |
| Passes.LossesAt | train.py:115-124 | entry `i` of the logs is the MSE and ranking loss of batch `i`, and the objective combines them with the ratio |
| Passes.PassStep | train.py:123-131 | one more batch appends its keys, columns, losses and objective to those of the pass so far |
| Passes.LoggedLossesNonNegative | train.py:123-124 | logged losses are non-negative, and with a non-negative ratio the objective is at least the regression loss |
| Passes.ReportLineFields | train.py:166 | a report line splits on tabs into key, label, prediction 1 and prediction 2 |
| Passes.Report | train.py:165-168 | one line per key of the iteration order |
| Passes.ReportAt | train.py:165-168 | line `i` is the line of the `i`-th key, with that key's label and predictions |
| Passes.PassReportMeaning | train.py:128-168 | the report has one line per distinct key; a key's line sits at its first-insertion position and shows its last-written label and predictions |
| Passes.StaysConsistent | train.py:128-131 | after the assignments, the order and the three dictionaries still cover the same keys, each once |
| Passes.ReplayMeaning | train.py:102-131 | running the batches one by one gives the loss logs and the order/assign tables of the whole pass |
| Passes.WrittenStep | train.py:128-131 | writing one more key of a batch appends it to the order if new and updates the three dictionaries |
| Passes.PassLog.constructor | train.py:88-99 | a pass starts with empty loss logs and dictionaries |
| Passes.PassLog.RecordBatch | train.py:128-131 | the loop over a batch's keys leaves the order extended and the dictionaries assigned with the batch's columns, and the loss logs untouched |
| Passes.PassLog.Absorb | train.py:111-131 | one batch logs its two losses, records its keys, and returns the training objective |
| Passes.PassLog.Pass | train.py:102-131 | the training pass appends the losses of every present batch, returns their objectives and records the keys in order with their last-written values |
| Passes.EvalObjectives | train.py:150 | with a ratio of 1 every objective is the sum of the batch's two losses |
| Passes.PassReportEmpty | train.py:128-168 | the report is empty iff the pass saw no batch |
| Passes.PassLog.EvalPass | train.py:135-159 | the evaluation pass does the same and returns the unweighted objectives |
| Passes.PassLog.ReportLines | train.py:165-168 | the report is one line per dictionary key, in iteration order |
| Passes.TrainingPass | train.py:93-168 | starting from fresh dictionaries, gives the objectives, both loss logs and the training report of the pass |
| Passes.EvaluationPass | train.py:97-168 | starting from fresh dictionaries, gives both loss logs and the evaluation report |
| Epochs.PrintedMeansDefined | train.py:175-190 | an epoch that reaches its printed line prints four numbers, never `nan` and never negative |
| Epochs.ReachedStep | train.py:85-184 | a reached epoch lets the run go on iff both of its passes saw a batch; otherwise the run ends there |
| Epochs.ReachedMeaning | train.py:85-184 | every epoch before the end of the run completed, and a run that ends early ends at an epoch that raises |
| Epochs.SummariesAt | train.py:85-190 | the `i`-th printed line summarises epoch `start + i` from its own loaders |
| Epochs.SummariesAppend | train.py:85-190 | the lines after one more epoch are the earlier lines plus that epoch's |
| Epochs.Checkpoints | train.py:192-193 | one checkpoint file per finished epoch |
| Epochs.CheckpointsAt | train.py:192 | the `e`-th file written is epoch `e`'s checkpoint |
| Epochs.CheckpointsDistinct | train.py:192-193 | no checkpoint overwrites another |
| Epochs.Trainer.constructor | train.py:79-80 | every parameter group starts at the initial rate, with no checkpoint |
| Epochs.Trainer.SetLr | train.py:196-197 | every parameter group holds the new rate |
| Epochs.Trainer.WriteReports | train.py:93-168 | the two passes on fresh dictionaries: the training objectives, both reports and the epoch's loss logs |
| Epochs.Trainer.Close | train.py:192-197 | the epoch's checkpoint is appended and every group gets the next epoch's rate |
| Epochs.Trainer.Epoch | train.py:85-197 | one epoch: both reports rewritten from the passes and the training objectives; it raises iff a pass saw no batch, and then leaves the rate and checkpoints as they were; otherwise the summary of its loss logs, a checkpoint named after it, and every group at the next epoch's rate |
| Epochs.Trainer.Advance | train.py:85-197 | one epoch as the next sees it: the rate, the checkpoint list and the summary, or the exception |
| Epochs.Trainer.Train | train.py:85-197 | the run prints the lines of the epochs up to the first that raises, each the summary of its own loaders; the epoch count, the checkpoints and every group's rate advance by that many; it raises iff it stopped before the last epoch |
| Epochs.LaterEpochsSlower | train.py:195-197 | with decay in [0, 1] a later epoch never trains at a larger rate |

## Left out

- The network's forward pass, `backward`, `clip_grad_norm_` and the Adam step are outside the model: each batch arrives with its two predictions, and the objective is returned rather than differentiated.
- Weight decay, `restart_file`, device selection and argument parsing are left out; they do not affect the bookkeeping modelled here.
- The values of the R² scores and the elapsed time on the printed line are left out, and so is printing itself; only the `ValueError` that `r2_score` raises on an empty pass is modelled. `Epochs.PrintedMeans` gives the four means the line carries.
- The data sets and the collate function (`MolDataset`, `my_collate_fn`), the pickled key lists and the training loader's shuffling are not part of this model. Each pass is given its samples in loader order, with `None` for a dropped sample.
- Floating point is modelled as exact reals. `float()` of a label is the oracle `toFloat`, and the text form of numbers and tensors in the reports is the oracle `Formats`.
- `str.split()` recognises ASCII whitespace only; Unicode whitespace is not modelled.
- RDKit (readers, sanitizing, hydrogens, embedding, UFF, SDWriter), Biopython's parser and `PDBIO`, and `remove_water` are oracle values in `Inputs` and `Embedding`.
- `Chem.SanitizeMol` changes the ligand in place inside `uff`; the molecule abstraction does not track sanitization, so the pocket is extracted around the ligand as loaded.
- The temporary `BS_tmp_*.pdb` and `sdf_tmp_*.pdb` files, their random names and their removal are not modelled; each round trip through a file is one oracle call.
- The worker pool runs its four workers concurrently; the model runs the entries one after the other (`Preprocess.RecordStore.RunAll`). Entries with distinct keys touch distinct records. Two entries with the same key are not serialised by the source: both workers can pass the existence test and the last to finish writes the record. The model keeps the first entry's record and skips the second as `AlreadyDone`.
- The `print` calls of both scripts are left out.
- Losses.MeanSquaredErrorZero: states only the direction "perfect fit gives zero loss". The converse needs reasoning about squares of reals that the model does not carry out. `Losses.RankingLossZero` proves both directions for the ranking loss.
- Epochs.Trainer.Train: does not state the two report files left by the last epoch run. `Epochs.Trainer.Epoch` states them for every epoch, and each epoch reopens the files with `'w'`.
- Epochs.Trainer.Advance: states the rate, the checkpoints and the summary only. It is `Epochs.Trainer.Epoch` with the reports and objectives dropped for the loop in `Epochs.Trainer.Train`.
- The traceback of the `ValueError` that ends a run is not modelled; `Epochs.Trainer.Train` returns `raised`.
