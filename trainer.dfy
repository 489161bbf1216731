/** The epoch loop of `train.py` (lines 84-197). The network, the optimizer's
    gradient step and the data loaders' collation are outside the model: each
    epoch receives the two loaders' samples, with the network outputs already
    in them. What the loop keeps across epochs is the learning rate held by
    every optimizer parameter group and the checkpoint files it has written;
    what it writes every epoch are the two prediction reports and the
    summary line of mean losses. */
module Epochs {
  import opened Outcomes
  import opened Tables
  import opened Losses
  import opened Schedule
  import opened Passes

  /** `np.mean` of a loss log; the mean of an empty log is `nan`, written `None`. */
  function MeanOrNan(s: seq<real>): (m: Option<real>)
    ensures m.None? <==> |s| == 0
    ensures m.Some? ==> m.value == Sum(s) / (|s| as real)
  {
    if |s| == 0 then None else Some(Mean(s))
  }

  /** What the line printed after an epoch is made of: the epoch number and
      the four loss logs, whose means it prints (the R² scores and the
      elapsed time are not modelled). */
  datatype Summary = Summary(epoch: nat, train1: seq<real>, train2: seq<real>,
                             test1: seq<real>, test2: seq<real>)

  /** The four means of the printed line, `nan` for an empty log. */
  function PrintedMeans(s: Summary): (means: seq<Option<real>>)
    ensures |means| == 4
    ensures means[0].None? <==> |s.train1| == 0
    ensures means[1].None? <==> |s.train2| == 0
    ensures means[2].None? <==> |s.test1| == 0
    ensures means[3].None? <==> |s.test2| == 0
    ensures means[0].Some? ==> means[0].value == Mean(s.train1)
    ensures means[1].Some? ==> means[1].value == Mean(s.train2)
    ensures means[2].Some? ==> means[2].value == Mean(s.test1)
    ensures means[3].Some? ==> means[3].value == Mean(s.test2)
  {
    [MeanOrNan(s.train1), MeanOrNan(s.train2), MeanOrNan(s.test1), MeanOrNan(s.test2)]
  }

  /** Whether an epoch with these loaders reaches its printed line:
      `r2_score` raises `ValueError` on the empty label list of a pass that
      saw no batch (every batch holds a key, `PassReportEmpty`). */
  predicate Completes(train: seq<Option<Batch>>, test: seq<Option<Batch>>) {
    |Present(train)| > 0 && |Present(test)| > 0
  }

  /** The samples the two loaders give in one epoch; the collate function
      guarantees that every batch they let through is well formed. */
  datatype Loaders = Loaders(train: seq<Option<Batch>>, test: seq<Option<Batch>>)
  type EpochLoaders = l: Loaders | Collated(l.train) && Collated(l.test) witness Loaders([], [])

  /** The summary of epoch `e` whose loaders gave `train` and `test`. */
  function EpochSummary(e: nat, train: seq<Option<Batch>>, test: seq<Option<Batch>>): Summary
    requires Collated(train) && Collated(test)
  {
    Summary(e, RegressionLosses(Present(train)), RankingLosses(Present(train)),
      RegressionLosses(Present(test)), RankingLosses(Present(test)))
  }

  /** How many epochs of a run print their line: the run ends at the
      first epoch that does not complete. */
  function Reached(epochs: seq<EpochLoaders>): (n: nat)
    ensures n <= |epochs|
  {
    if |epochs| == 0 || !Completes(epochs[0].train, epochs[0].test) then 0
    else 1 + Reached(epochs[1..])
  }

  /** Epoch `e`, when the run gets there, decides whether it goes on. */
  lemma {:induction false} ReachedStep(epochs: seq<EpochLoaders>, e: nat)
    requires e < |epochs| && e <= Reached(epochs)
    ensures Completes(epochs[e].train, epochs[e].test) ==> e + 1 <= Reached(epochs)
    ensures !Completes(epochs[e].train, epochs[e].test) ==> Reached(epochs) == e
  {
    if e > 0 {
      ReachedStep(epochs[1..], e - 1);
    }
  }

  /** Every epoch before the end of the run completed, and a run that
      ended early ended at an epoch that did not. */
  lemma {:induction false} ReachedMeaning(epochs: seq<EpochLoaders>, i: nat)
    ensures i < Reached(epochs) ==> Completes(epochs[i].train, epochs[i].test)
    ensures Reached(epochs) < |epochs| ==> !Completes(epochs[Reached(epochs)].train, epochs[Reached(epochs)].test)
  {
    if |epochs| > 0 && Completes(epochs[0].train, epochs[0].test) {
      if i > 0 {
        ReachedMeaning(epochs[1..], i - 1);
      } else {
        ReachedMeaning(epochs[1..], 0);
      }
    }
  }

  /** The lines printed by the epochs from `start` on, one per epoch. */
  function Summaries(start: nat, epochs: seq<EpochLoaders>): (ss: seq<Summary>)
    ensures |ss| == |epochs|
  {
    if |epochs| == 0 then []
    else
      var n := |epochs| - 1;
      Summaries(start, epochs[..n]) + [EpochSummary(start + n, epochs[n].train, epochs[n].test)]
  }

  /** One more epoch adds its own line. */
  lemma SummariesAppend(start: nat, epochs: seq<EpochLoaders>, e: nat, ss: seq<Summary>, s: Summary)
    requires e < |epochs| && ss == Summaries(start, epochs[..e])
    requires s == EpochSummary(start + e, epochs[e].train, epochs[e].test)
    ensures ss + [s] == Summaries(start, epochs[..e + 1])
  {
    var prefix := epochs[..e + 1];
    assert prefix[..e] == epochs[..e];
  }

  /** Line `i` is the summary of epoch `start + i`. */
  lemma {:induction false} SummariesAt(start: nat, epochs: seq<EpochLoaders>, i: nat)
    requires i < |epochs|
    ensures Summaries(start, epochs)[i] == EpochSummary(start + i, epochs[i].train, epochs[i].test)
  {
    var n := |epochs| - 1;
    if i < n {
      SummariesAt(start, epochs[..n], i);
    }
  }

  /** An epoch that reaches its printed line prints four numbers, never
      `nan`, and none of them is negative. */
  lemma PrintedMeansDefined(e: nat, train: seq<Option<Batch>>, test: seq<Option<Batch>>)
    requires Collated(train) && Collated(test) && Completes(train, test)
    ensures forall k :: 0 <= k < 4 ==>
      PrintedMeans(EpochSummary(e, train, test))[k].Some? && PrintedMeans(EpochSummary(e, train, test))[k].value >= 0.0
  {
    var s := EpochSummary(e, train, test);
    LogMeansNonNegative(Present(train));
    LogMeansNonNegative(Present(test));
    var means := PrintedMeans(s);
    assert means[0].value >= 0.0 && means[1].value >= 0.0;
    assert means[2].value >= 0.0 && means[3].value >= 0.0;
  }

  /** Both loss logs of a pass that saw a batch have a non-negative mean. */
  lemma LogMeansNonNegative(bs: seq<Batch>)
    requires AllWellFormed(bs) && |bs| > 0
    ensures Mean(RegressionLosses(bs)) >= 0.0 && Mean(RankingLosses(bs)) >= 0.0
  {
    forall i | 0 <= i < |bs|
      ensures RegressionLosses(bs)[i] >= 0.0 && RankingLosses(bs)[i] >= 0.0
    {
      LoggedLossesNonNegative(bs, 0.0, i);
    }
    MeanZero(RegressionLosses(bs));
    MeanZero(RankingLosses(bs));
  }

  /** The checkpoint files written by the first `n` epochs, in order. */
  function Checkpoints(saveDir: string, n: nat): (names: seq<string>)
    ensures |names| == n
  {
    if n == 0 then [] else Checkpoints(saveDir, n - 1) + [CheckpointName(saveDir, n - 1)]
  }

  /** Epoch `e` wrote the `e`-th file of the list. */
  lemma {:induction false} CheckpointsAt(saveDir: string, n: nat, e: nat)
    requires e < n
    ensures Checkpoints(saveDir, n)[e] == CheckpointName(saveDir, e)
  {
    if e < n - 1 {
      CheckpointsAt(saveDir, n - 1, e);
    }
  }

  /** No epoch's checkpoint overwrites another's. */
  lemma CheckpointsDistinct(saveDir: string, n: nat)
    ensures NoDup(Checkpoints(saveDir, n))
  {
    var names := Checkpoints(saveDir, n);
    forall i, j | 0 <= i < j < n
      ensures names[i] != names[j]
    {
      CheckpointsAt(saveDir, n, i);
      CheckpointsAt(saveDir, n, j);
      CheckpointNamesDistinct(saveDir, i, j);
    }
  }

  class Trainer {
    const baseLr: real
    const decay: real
    const ratio: real
    const saveDir: string
    /** The learning rate of each of the optimizer's parameter groups. */
    const groups: array<real>
    var epoch: nat
    var checkpoints: seq<string>
    var trainReport: seq<string>
    var testReport: seq<string>

    /** Before epoch `epoch` every group holds the rate of that epoch, and
        one checkpoint has been written per finished epoch. */
    ghost predicate Valid()
      reads this`epoch, this`checkpoints, groups
    {
      && (forall i :: 0 <= i < groups.Length ==> groups[i] == TrainingLr(baseLr, decay, epoch))
      && checkpoints == Checkpoints(saveDir, epoch)
    }

    /** The optimizer is created with `lr=args.lr` in every group. */
    constructor (baseLr: real, decay: real, ratio: real, saveDir: string, groupCount: nat)
      ensures Valid() && fresh(groups)
      ensures this.baseLr == baseLr && this.decay == decay && this.ratio == ratio && this.saveDir == saveDir
      ensures groups.Length == groupCount && epoch == 0
      ensures trainReport == [] && testReport == []
    {
      this.baseLr, this.decay, this.ratio, this.saveDir := baseLr, decay, ratio, saveDir;
      groups := new real[groupCount](_ => baseLr);
      epoch, checkpoints := 0, [];
      trainReport, testReport := [], [];
    }

    /** `for param_group in optimizer.param_groups: param_group['lr'] = lr` */
    method SetLr(lr: real)
      modifies groups
      ensures forall i :: 0 <= i < groups.Length ==> groups[i] == lr
    {
      for i := 0 to groups.Length
        invariant forall j :: 0 <= j < i ==> groups[j] == lr
      {
        groups[i] := lr;
      }
    }

    /** One epoch: a training pass and an evaluation pass on fresh
        dictionaries, and both reports rewritten. When either pass saw no
        batch (its loss log, its dictionaries and its report are then
        empty, `PassReportEmpty`), `r2_score` raises and the run ends
        there: no line is printed, no checkpoint written and the rate is
        left as it was.
        Otherwise the mean losses are summarised, a checkpoint is written
        and the rate for the next epoch set. Gives back the summary line, or
        the exception, and the training objectives the gradient steps were
        taken on. */
    method Epoch(train: seq<Option<Batch>>, test: seq<Option<Batch>>, fmt: Formats)
      returns (summary: Outcome<Summary>, objectives: seq<real>)
      requires Valid() && Collated(train) && Collated(test)
      modifies this, groups
      ensures Valid()
      ensures objectives == Objectives(Present(train), ratio)
      ensures trainReport == PassReport(Present(train), fmt)
      ensures testReport == PassReport(Present(test), fmt)
      ensures summary.Raised? <==> !Completes(train, test)
      ensures summary.Raised? ==> epoch == old(epoch) && checkpoints == old(checkpoints)
      ensures summary.Ok? ==> summary.value == EpochSummary(old(epoch), train, test)
      ensures summary.Ok? ==> epoch == old(epoch) + 1
      ensures summary.Ok? ==> checkpoints == old(checkpoints) + [CheckpointName(saveDir, old(epoch))]
    {
      var s;
      objectives, s := WriteReports(train, test, fmt);
      if |s.train1| == 0 || |s.test1| == 0 {
        summary := Raised;
      } else {
        summary := Ok(s);
        Close();
      }
    }

    /** The two passes of an epoch and the reports written from them. */
    method WriteReports(train: seq<Option<Batch>>, test: seq<Option<Batch>>, fmt: Formats)
      returns (objectives: seq<real>, s: Summary)
      requires Collated(train) && Collated(test)
      modifies this`trainReport, this`testReport
      ensures objectives == Objectives(Present(train), ratio)
      ensures trainReport == PassReport(Present(train), fmt)
      ensures testReport == PassReport(Present(test), fmt)
      ensures s == EpochSummary(epoch, train, test)
    {
      var train1, train2, test1, test2;
      objectives, train1, train2, trainReport := TrainingPass(train, ratio, fmt);
      test1, test2, testReport := EvaluationPass(test, fmt);
      s := Summary(epoch, train1, train2, test1, test2);
    }

    /** The end of an epoch that printed its line: the checkpoint is saved
        and every group gets the rate of the next epoch. */
    method Close()
      requires Valid()
      modifies this`epoch, this`checkpoints, groups
      ensures Valid() && epoch == old(epoch) + 1
      ensures checkpoints == old(checkpoints) + [CheckpointName(saveDir, old(epoch))]
    {
      checkpoints := checkpoints + [CheckpointName(saveDir, epoch)];
      SetLr(ScheduledLr(baseLr, decay, epoch));
      epoch := epoch + 1;
    }

    /** One epoch as the next one sees it: the rate and checkpoint list
        it leaves behind and the summary it prints, or the exception that
        ends the run. Its two reports are overwritten by the next epoch (the
        files are reopened with `'w'`), and its objectives only drive the
        gradient steps. */
    method Advance(train: seq<Option<Batch>>, test: seq<Option<Batch>>, fmt: Formats)
      returns (summary: Outcome<Summary>)
      requires Valid() && Collated(train) && Collated(test)
      modifies this, groups
      ensures Valid()
      ensures summary.Raised? <==> !Completes(train, test)
      ensures summary.Raised? ==> epoch == old(epoch)
      ensures summary.Ok? ==> summary.value == EpochSummary(old(epoch), train, test) && epoch == old(epoch) + 1
    {
      var objectives;
      summary, objectives := Epoch(train, test, fmt);
    }

    /** `for epoch in range(args.num_epochs)`; the loaders' samples of epoch
        `e` are `epochs[e]` (the training loader reshuffles). The loop ends
        early, with `raised`, at the first epoch that does not complete:
        the lines printed are those of the epochs before it. */
    method Train(epochs: seq<EpochLoaders>, fmt: Formats)
      returns (summaries: seq<Summary>, raised: bool)
      requires Valid()
      modifies this, groups
      ensures Valid()
      ensures |summaries| == Reached(epochs)
      ensures summaries == Summaries(old(epoch), epochs[..|summaries|])
      ensures epoch == old(epoch) + |summaries|
      ensures raised <==> |summaries| < |epochs|
    {
      summaries, raised := [], false;
      var e := 0;
      while e < |epochs|
        invariant e <= |epochs| && |summaries| == e && e <= Reached(epochs)
        invariant Valid() && epoch == old(epoch) + e
        invariant summaries == Summaries(old(epoch), epochs[..e])
      {
        var summary := Advance(epochs[e].train, epochs[e].test, fmt);
        ReachedStep(epochs, e);
        if summary.Raised? {
          raised := true;
          break;
        }
        SummariesAppend(old(epoch), epochs, e, summaries, summary.value);
        summaries := summaries + [summary.value];
        e := e + 1;
      }
    }
  }

  /** With a decay in `[0, 1]` a longer run never leaves a larger rate in
      the optimizer. */
  lemma {:induction false} LaterEpochsSlower(baseLr: real, decay: real, e1: nat, e2: nat)
    requires baseLr >= 0.0 && 0.0 <= decay <= 1.0 && e1 <= e2
    ensures 0.0 <= TrainingLr(baseLr, decay, e2) <= TrainingLr(baseLr, decay, e1)
    decreases e2 - e1
  {
    LrNonIncreasing(baseLr, decay, e1);
    if e1 < e2 {
      LaterEpochsSlower(baseLr, decay, e1 + 1, e2);
    }
  }
}
