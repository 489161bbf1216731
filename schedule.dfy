/** The epoch bookkeeping of `train.py`: the learning rate set at the end of
    every epoch, `args.lr * args.lr_decay ** epoch`, and the checkpoint file
    name `save_dir + '/save_' + str(epoch) + '.pt'`. */
module Schedule {
  import opened Text

  /** `decay ** e` for a whole exponent. */
  function Pow(decay: real, e: nat): real {
    if e == 0 then 1.0 else Pow(decay, e - 1) * decay
  }

  /** The rate written into every parameter group after epoch `e`, one
      decay step at a time; `LrClosedForm` ties it to the source's formula. */
  function ScheduledLr(baseLr: real, decay: real, e: nat): real {
    if e == 0 then baseLr else ScheduledLr(baseLr, decay, e - 1) * decay
  }

  /** The stepwise rate is `args.lr * args.lr_decay ** epoch`. */
  lemma {:induction false} LrClosedForm(baseLr: real, decay: real, e: nat)
    ensures ScheduledLr(baseLr, decay, e) == baseLr * Pow(decay, e)
  {
    if e > 0 {
      LrClosedForm(baseLr, decay, e - 1);
      var p := Pow(decay, e - 1);
      assert baseLr * (p * decay) == (baseLr * p) * decay;
    }
  }

  /** The rate the optimizer uses while training epoch `e`: the initial one
      for epoch 0, and the one set after epoch `e - 1` afterwards. */
  function TrainingLr(baseLr: real, decay: real, e: nat): real {
    if e == 0 then baseLr else ScheduledLr(baseLr, decay, e - 1)
  }

  /** The first update writes back the initial rate, so the first two
      epochs train at the same rate whatever the decay. */
  lemma FirstTwoEpochsShareLr(baseLr: real, decay: real)
    ensures TrainingLr(baseLr, decay, 0) == baseLr
    ensures TrainingLr(baseLr, decay, 1) == baseLr
  {
  }

  /** A non-negative initial rate and decay keep every rate non-negative,
      whatever the size of the decay. */
  lemma {:induction false} LrNonNegative(baseLr: real, decay: real, e: nat)
    requires baseLr >= 0.0 && decay >= 0.0
    ensures ScheduledLr(baseLr, decay, e) >= 0.0
  {
    if e > 0 {
      var x := ScheduledLr(baseLr, decay, e - 1);
      LrNonNegative(baseLr, decay, e - 1);
      assert x * decay >= 0.0;
    }
  }

  /** With a decay in `[0, 1]` and a non-negative initial rate the rate never
      grows and never becomes negative from one epoch to the next. */
  lemma LrNonIncreasing(baseLr: real, decay: real, e: nat)
    requires baseLr >= 0.0 && 0.0 <= decay <= 1.0
    ensures 0.0 <= TrainingLr(baseLr, decay, e + 1) <= TrainingLr(baseLr, decay, e)
  {
    LrNonNegative(baseLr, decay, e);
    if e > 0 {
      var x := ScheduledLr(baseLr, decay, e - 1);
      LrNonNegative(baseLr, decay, e - 1);
      Shrink(x, decay);
      assert TrainingLr(baseLr, decay, e + 1) == x * decay;
    }
  }

  lemma Shrink(x: real, decay: real)
    requires x >= 0.0 && 0.0 <= decay <= 1.0
    ensures 0.0 <= x * decay <= x
  {
  }

  /** With the default decay of 1.0 the rate stays the initial one. */
  lemma {:induction false} NoDecayConstant(baseLr: real, e: nat)
    ensures TrainingLr(baseLr, 1.0, e) == baseLr
  {
    if e > 1 {
      NoDecayConstant(baseLr, e - 1);
    }
  }

  /** `args.save_dir + '/save_' + str(epoch) + '.pt'` */
  function CheckpointName(saveDir: string, epoch: nat): string {
    saveDir + "/save_" + NatToString(epoch) + ".pt"
  }

  /** The epoch number can be read back from the checkpoint name. */
  lemma CheckpointEpoch(saveDir: string, epoch: nat)
    ensures |CheckpointName(saveDir, epoch)| == |saveDir| + 6 + |NatToString(epoch)| + 3
    ensures CheckpointName(saveDir, epoch)[|saveDir| + 6 .. |CheckpointName(saveDir, epoch)| - 3] == NatToString(epoch)
    ensures ParseNat(CheckpointName(saveDir, epoch)[|saveDir| + 6 .. |CheckpointName(saveDir, epoch)| - 3]) == epoch
  {
    var name := CheckpointName(saveDir, epoch);
    assert name[|saveDir| + 6 .. |name| - 3] == NatToString(epoch);
    ParseNatToString(epoch);
  }

  /** Distinct epochs write to distinct files, so no checkpoint overwrites another. */
  lemma CheckpointNamesDistinct(saveDir: string, e1: nat, e2: nat)
    requires e1 != e2
    ensures CheckpointName(saveDir, e1) != CheckpointName(saveDir, e2)
  {
    CheckpointEpoch(saveDir, e1);
    CheckpointEpoch(saveDir, e2);
  }
}
