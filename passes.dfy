/** One pass of `train.py` over a data loader (lines 101-131 for training,
    134-159 for evaluation) and the prediction report written from it
    (lines 161-168).

    A pass receives the loader's samples in order; `None` is a sample the
    collate function dropped. Each present sample is a `Batch` holding the
    complex keys, the labels `Y` and the two network outputs: `pred1` for the
    crystal pose (`DM`) and `pred2` for the displaced pose (`DM_rot`). The
    network itself, and the gradient step between batches, are not modelled:
    the outputs arrive with the batch. */
module Passes {
  import opened Outcomes
  import opened Text
  import opened Tables
  import opened Losses

  datatype Batch = Batch(keys: seq<string>, truth: seq<real>, pred1: seq<real>, pred2: seq<real>)

  /** What the collate function guarantees of a batch: one label and one
      output of each kind per key, and at least one key. */
  predicate WellFormed(b: Batch) {
    |b.keys| > 0 && |b.truth| == |b.keys| && |b.pred1| == |b.keys| && |b.pred2| == |b.keys|
  }

  predicate AllWellFormed(bs: seq<Batch>) {
    forall i :: 0 <= i < |bs| ==> WellFormed(bs[i])
  }

  /** The batches the loop does not skip (`if sample is None: continue`), in order. */
  function Present(samples: seq<Option<Batch>>): seq<Batch> {
    if |samples| == 0 then []
    else
      var n := |samples| - 1;
      match samples[n]
      case None => Present(samples[..n])
      case Some(b) => Present(samples[..n]) + [b]
  }

  /** Exactly the samples that are not `None` survive, none more than once
      more than it occurs. */
  lemma {:induction false} PresentMembers(samples: seq<Option<Batch>>)
    ensures |Present(samples)| <= |samples|
    ensures forall b :: b in Present(samples) <==> Some(b) in samples
  {
    if |samples| > 0 {
      var n := |samples| - 1;
      PresentMembers(samples[..n]);
      assert forall x :: x in samples <==> x in samples[..n] || x == samples[n];
    }
  }

  /** Every batch the collate function lets through is well formed. */
  ghost predicate Collated(samples: seq<Option<Batch>>) {
    AllWellFormed(Present(samples))
  }

  /** Being collated is a property of each present sample on its own. */
  lemma CollatedMembers(samples: seq<Option<Batch>>)
    ensures Collated(samples) <==> forall b :: Some(b) in samples ==> WellFormed(b)
  {
    PresentMembers(samples);
    var bs := Present(samples);
    if forall b :: Some(b) in samples ==> WellFormed(b) {
      assert forall i :: 0 <= i < |bs| ==> bs[i] in bs;
    }
  }

  /** The keys of the batches, one after the other. */
  function Keys(bs: seq<Batch>): seq<string> {
    if |bs| == 0 then [] else Keys(bs[..|bs| - 1]) + bs[|bs| - 1].keys
  }

  datatype Column = TruthColumn | Pred1Column | Pred2Column

  function ColumnOf(b: Batch, c: Column): seq<real> {
    match c
    case TruthColumn => b.truth
    case Pred1Column => b.pred1
    case Pred2Column => b.pred2
  }

  /** One column of the batches, aligned with `Keys`. */
  function Values(bs: seq<Batch>, c: Column): (vs: seq<real>)
    requires AllWellFormed(bs)
    ensures |vs| == |Keys(bs)|
  {
    if |bs| == 0 then []
    else
      var n := |bs| - 1;
      assert AllWellFormed(bs[..n]) by {
        assert forall i :: 0 <= i < n ==> bs[..n][i] == bs[i];
      }
      Values(bs[..n], c) + ColumnOf(bs[n], c)
  }

  /** `loss1` of a batch: the regression loss of the crystal-pose output. */
  function RegressionLoss(b: Batch): real
    requires WellFormed(b)
  {
    MeanSquaredError(b.pred1, b.truth)
  }

  /** `loss2` of a batch: the ranking loss between the two outputs. */
  function BatchRankingLoss(b: Batch): real
    requires WellFormed(b)
  {
    RankingLoss(b.pred1, b.pred2)
  }

  function RegressionLosses(bs: seq<Batch>): (ls: seq<real>)
    requires AllWellFormed(bs)
    ensures |ls| == |bs|
  {
    if |bs| == 0 then []
    else
      var n := |bs| - 1;
      assert AllWellFormed(bs[..n]) by {
        assert forall i :: 0 <= i < n ==> bs[..n][i] == bs[i];
      }
      RegressionLosses(bs[..n]) + [RegressionLoss(bs[n])]
  }

  function RankingLosses(bs: seq<Batch>): (ls: seq<real>)
    requires AllWellFormed(bs)
    ensures |ls| == |bs|
  {
    if |bs| == 0 then []
    else
      var n := |bs| - 1;
      assert AllWellFormed(bs[..n]) by {
        assert forall i :: 0 <= i < n ==> bs[..n][i] == bs[i];
      }
      RankingLosses(bs[..n]) + [BatchRankingLoss(bs[n])]
  }

  /** The objective of each batch, `loss1 + loss2 * ratio`. */
  function Objectives(bs: seq<Batch>, ratio: real): (os: seq<real>)
    requires AllWellFormed(bs)
    ensures |os| == |bs|
  {
    if |bs| == 0 then []
    else
      var n := |bs| - 1;
      assert AllWellFormed(bs[..n]) by {
        assert forall i :: 0 <= i < n ==> bs[..n][i] == bs[i];
      }
      Objectives(bs[..n], ratio) + [TrainLoss(RegressionLoss(bs[n]), BatchRankingLoss(bs[n]), ratio)]
  }

  /** With a ratio of one the training objectives are the evaluation ones. */
  lemma EvalObjectives(bs: seq<Batch>)
    requires AllWellFormed(bs)
    ensures |Objectives(bs, 1.0)| == |bs|
    ensures forall i :: 0 <= i < |bs| ==>
      Objectives(bs, 1.0)[i] == EvalLoss(RegressionLosses(bs)[i], RankingLosses(bs)[i])
  {
    forall i | 0 <= i < |bs|
      ensures Objectives(bs, 1.0)[i] == EvalLoss(RegressionLosses(bs)[i], RankingLosses(bs)[i])
    {
      LossesAt(bs, 1.0, i);
    }
  }

  /** Position `i` of the logs belongs to batch `i`. */
  lemma {:induction false} LossesAt(bs: seq<Batch>, ratio: real, i: nat)
    requires AllWellFormed(bs) && i < |bs|
    ensures RegressionLosses(bs)[i] == MeanSquaredError(bs[i].pred1, bs[i].truth)
    ensures RankingLosses(bs)[i] == RankingLoss(bs[i].pred1, bs[i].pred2)
    ensures Objectives(bs, ratio)[i] == TrainLoss(RegressionLosses(bs)[i], RankingLosses(bs)[i], ratio)
  {
    var n := |bs| - 1;
    if i < n {
      assert AllWellFormed(bs[..n]) by {
        assert forall j :: 0 <= j < n ==> bs[..n][j] == bs[j];
      }
      LossesAt(bs[..n], ratio, i);
    }
  }

  /** Adding one batch to a pass adds its keys, its values and its losses at the end. */
  lemma PassStep(done: seq<Batch>, b: Batch, ratio: real)
    requires AllWellFormed(done) && WellFormed(b)
    ensures AllWellFormed(done + [b])
    ensures Keys(done + [b]) == Keys(done) + b.keys
    ensures Values(done + [b], Pred1Column) == Values(done, Pred1Column) + b.pred1
    ensures Values(done + [b], Pred2Column) == Values(done, Pred2Column) + b.pred2
    ensures Values(done + [b], TruthColumn) == Values(done, TruthColumn) + b.truth
    ensures RegressionLosses(done + [b]) == RegressionLosses(done) + [RegressionLoss(b)]
    ensures RankingLosses(done + [b]) == RankingLosses(done) + [BatchRankingLoss(b)]
    ensures Objectives(done + [b], ratio) == Objectives(done, ratio) + [TrainLoss(RegressionLoss(b), BatchRankingLoss(b), ratio)]
  {
    assert (done + [b])[..|done|] == done;
  }

  /** Every logged loss is non-negative, and no objective is below its
      regression loss when the ratio is non-negative. */
  lemma LoggedLossesNonNegative(bs: seq<Batch>, ratio: real, i: nat)
    requires AllWellFormed(bs) && i < |bs| && ratio >= 0.0
    ensures RegressionLosses(bs)[i] >= 0.0 && RankingLosses(bs)[i] >= 0.0
    ensures Objectives(bs, ratio)[i] >= RegressionLosses(bs)[i]
  {
    LossesAt(bs, ratio, i);
    MeanSquaredErrorZero(bs[i].pred1, bs[i].truth);
    RankingLossZero(bs[i].pred1, bs[i].pred2);
    ObjectivesBoundRegression(bs[i].pred1, bs[i].pred2, bs[i].truth, ratio);
  }

  /** How the report renders a value: `str` of a numpy scalar for labels and
      first outputs, `str` of a tensor element for second outputs (the
      script never moves `pred2` to numpy). */
  datatype Formats = Formats(number: real -> string, tensor: real -> string)

  /** `f'{k}\t{true}\t{pred1}\t{pred2}\n'` */
  function ReportLine(k: string, t: string, p1: string, p2: string): string {
    JoinWith([k, t, p1, p2], '\t') + "\n"
  }

  /** A report line reads back into its four columns when none of them holds
      a tab. */
  lemma ReportLineFields(k: string, t: string, p1: string, p2: string)
    requires '\t' !in k && '\t' !in t && '\t' !in p1 && '\t' !in p2
    ensures var line := ReportLine(k, t, p1, p2);
      |line| > 0 && line[|line| - 1] == '\n' && SplitOn(line[..|line| - 1], '\t') == [k, t, p1, p2]
  {
    var ps := [k, t, p1, p2];
    var line := ReportLine(k, t, p1, p2);
    assert line[..|line| - 1] == JoinWith(ps, '\t');
    SplitJoin(ps, '\t');
  }

  /** The report of a set of dictionaries: one line per key of `order`. */
  function Report(order: seq<string>, truth: map<string, real>, pred1: map<string, real>,
                  pred2: map<string, real>, fmt: Formats): (lines: seq<string>)
    requires forall k :: k in order ==> k in truth && k in pred1 && k in pred2
    ensures |lines| == |order|
  {
    if |order| == 0 then []
    else
      var k := order[|order| - 1];
      Report(order[..|order| - 1], truth, pred1, pred2, fmt) +
        [ReportLine(k, fmt.number(truth[k]), fmt.number(pred1[k]), fmt.tensor(pred2[k]))]
  }

  /** Line `i` of the report is the line of the `i`-th key. */
  lemma {:induction false} ReportAt(order: seq<string>, truth: map<string, real>, pred1: map<string, real>,
                                    pred2: map<string, real>, fmt: Formats, i: nat)
    requires forall k :: k in order ==> k in truth && k in pred1 && k in pred2
    requires i < |order|
    ensures Report(order, truth, pred1, pred2, fmt)[i] ==
      ReportLine(order[i], fmt.number(truth[order[i]]), fmt.number(pred1[order[i]]), fmt.tensor(pred2[order[i]]))
  {
    var n := |order| - 1;
    if i < n {
      ReportAt(order[..n], truth, pred1, pred2, fmt, i);
    }
  }

  /** The report a pass over `bs` from empty dictionaries writes. */
  function PassReport(bs: seq<Batch>, fmt: Formats): (lines: seq<string>)
    requires AllWellFormed(bs)
  {
    var ks := Keys(bs);
    ExtendFacts([], ks);
    AssignKeys(map[], ks, Values(bs, TruthColumn));
    AssignKeys(map[], ks, Values(bs, Pred1Column));
    AssignKeys(map[], ks, Values(bs, Pred2Column));
    Report(Extend([], ks), Assign(map[], ks, Values(bs, TruthColumn)),
      Assign(map[], ks, Values(bs, Pred1Column)), Assign(map[], ks, Values(bs, Pred2Column)), fmt)
  }

  /** Every batch holds a key, so a pass's dictionaries, and its report, are
      empty exactly when the loader gave no batch. */
  lemma PassReportEmpty(bs: seq<Batch>, fmt: Formats)
    requires AllWellFormed(bs)
    ensures |PassReport(bs, fmt)| == 0 <==> |bs| == 0
  {
    var ks := Keys(bs);
    ExtendFacts([], ks);
    if |bs| > 0 {
      var last := bs[|bs| - 1];
      assert ks == Keys(bs[..|bs| - 1]) + last.keys;
      assert last.keys[0] in ks;
      assert bs[|bs| - 1].keys[0] in Extend([], ks);
    }
  }

  /** The report has one line per distinct key; the line of a key carries
      the values of the last batch position holding that key; and keys come
      in the order they were first seen. */
  lemma PassReportMeaning(bs: seq<Batch>, fmt: Formats, i: nat, j: nat)
    requires AllWellFormed(bs)
    requires i < |Keys(bs)|
    requires forall m :: i < m < |Keys(bs)| ==> Keys(bs)[m] != Keys(bs)[i]
    requires j < |Extend([], Keys(bs))| && Extend([], Keys(bs))[j] == Keys(bs)[i]
    ensures |PassReport(bs, fmt)| == |set k | k in Keys(bs)|
    ensures PassReport(bs, fmt)[j] == ReportLine(Keys(bs)[i], fmt.number(Values(bs, TruthColumn)[i]),
      fmt.number(Values(bs, Pred1Column)[i]), fmt.tensor(Values(bs, Pred2Column)[i]))
  {
    var ks := Keys(bs);
    var order := Extend([], ks);
    var vt, v1, v2 := Values(bs, TruthColumn), Values(bs, Pred1Column), Values(bs, Pred2Column);
    var t, p1, p2 := Assign(map[], ks, vt), Assign(map[], ks, v1), Assign(map[], ks, v2);
    assert NoDup([]);
    ExtendFacts([], ks);
    AssignKeys(map[], ks, vt);
    AssignKeys(map[], ks, v1);
    AssignKeys(map[], ks, v2);
    assert PassReport(bs, fmt) == Report(order, t, p1, p2, fmt);
    DistinctCount(order);
    assert (set k | k in order) == (set k | k in ks);
    LastWriteWins(map[], ks, vt, i);
    LastWriteWins(map[], ks, v1, i);
    LastWriteWins(map[], ks, v2, i);
    ReportAt(order, t, p1, p2, fmt, j);
  }

  /** The key order lists each key of the prediction dictionaries once, and
      the three dictionaries have the same keys. */
  ghost predicate Consistent(order: seq<string>, pred1: map<string, real>, pred2: map<string, real>, truth: map<string, real>) {
    && NoDup(order)
    && (forall k :: k in order <==> k in pred1)
    && pred2.Keys == pred1.Keys
    && truth.Keys == pred1.Keys
  }

  /** Writing the same keys into all three dictionaries keeps them consistent. */
  lemma StaysConsistent(order: seq<string>, pred1: map<string, real>, pred2: map<string, real>, truth: map<string, real>,
                        ks: seq<string>, vs1: seq<real>, vs2: seq<real>, vst: seq<real>)
    requires Consistent(order, pred1, pred2, truth)
    requires |vs1| == |ks| && |vs2| == |ks| && |vst| == |ks|
    ensures Consistent(Extend(order, ks), Assign(pred1, ks, vs1), Assign(pred2, ks, vs2), Assign(truth, ks, vst))
  {
    var p1, p2, t := Assign(pred1, ks, vs1), Assign(pred2, ks, vs2), Assign(truth, ks, vst);
    ExtendFacts(order, ks);
    AssignKeys(pred1, ks, vs1);
    AssignKeys(pred2, ks, vs2);
    AssignKeys(truth, ks, vst);
    assert forall k :: k in p2.Keys <==> k in p1.Keys;
    assert forall k :: k in t.Keys <==> k in p1.Keys;
  }

  /** The state a pass accumulates: the two loss logs, the key order and
      the three prediction dictionaries. */
  datatype Tally = Tally(losses1: seq<real>, losses2: seq<real>, order: seq<string>,
                         pred1: map<string, real>, pred2: map<string, real>, truth: map<string, real>)

  /** The tally after one present batch: both losses logged, every key of
      the batch written into the three dictionaries. */
  function Absorbed(t: Tally, b: Batch): Tally
    requires WellFormed(b)
  {
    Tally(t.losses1 + [RegressionLoss(b)], t.losses2 + [BatchRankingLoss(b)], Extend(t.order, b.keys),
      Assign(t.pred1, b.keys, b.pred1), Assign(t.pred2, b.keys, b.pred2), Assign(t.truth, b.keys, b.truth))
  }

  /** The tally after the batches `bs`, one after the other. */
  function Replay(t: Tally, bs: seq<Batch>): Tally
    requires AllWellFormed(bs)
  {
    if |bs| == 0 then t else Absorbed(Replay(t, bs[..|bs| - 1]), bs[|bs| - 1])
  }

  /** Batch by batch, the logs gain one loss per batch. */
  lemma {:induction false} ReplayLosses(t: Tally, bs: seq<Batch>)
    requires AllWellFormed(bs)
    ensures Replay(t, bs).losses1 == t.losses1 + RegressionLosses(bs)
    ensures Replay(t, bs).losses2 == t.losses2 + RankingLosses(bs)
  {
    if |bs| > 0 {
      var n := |bs| - 1;
      assert AllWellFormed(bs[..n]) by {
        assert forall i :: 0 <= i < n ==> bs[..n][i] == bs[i];
      }
      ReplayLosses(t, bs[..n]);
    }
  }

  /** Batch by batch, the dictionaries are written with the concatenated
      keys and values of all batches. */
  lemma {:induction false} ReplayTables(t: Tally, bs: seq<Batch>)
    requires AllWellFormed(bs)
    ensures Replay(t, bs).order == Extend(t.order, Keys(bs))
    ensures Replay(t, bs).pred1 == Assign(t.pred1, Keys(bs), Values(bs, Pred1Column))
    ensures Replay(t, bs).pred2 == Assign(t.pred2, Keys(bs), Values(bs, Pred2Column))
    ensures Replay(t, bs).truth == Assign(t.truth, Keys(bs), Values(bs, TruthColumn))
  {
    if |bs| > 0 {
      var n := |bs| - 1;
      var done, b := bs[..n], bs[n];
      assert done + [b] == bs;
      assert AllWellFormed(done) by {
        assert forall i :: 0 <= i < n ==> done[i] == bs[i];
      }
      ReplayTables(t, done);
      PassStep(done, b, 1.0);
      var ks := Keys(done);
      ExtendAppend(t.order, ks, b.keys);
      AssignAppend(t.pred1, ks, Values(done, Pred1Column), b.keys, b.pred1);
      AssignAppend(t.pred2, ks, Values(done, Pred2Column), b.keys, b.pred2);
      AssignAppend(t.truth, ks, Values(done, TruthColumn), b.keys, b.truth);
    }
  }

  /** Batch by batch is the same as all keys at once: the logs hold one loss
      per batch, and the dictionaries are written with the concatenated keys
      and values of all batches. */
  lemma ReplayMeaning(t: Tally, bs: seq<Batch>)
    requires AllWellFormed(bs)
    ensures Replay(t, bs) == Tally(t.losses1 + RegressionLosses(bs), t.losses2 + RankingLosses(bs),
      Extend(t.order, Keys(bs)), Assign(t.pred1, Keys(bs), Values(bs, Pred1Column)),
      Assign(t.pred2, Keys(bs), Values(bs, Pred2Column)), Assign(t.truth, Keys(bs), Values(bs, TruthColumn)))
  {
    ReplayLosses(t, bs);
    ReplayTables(t, bs);
  }

  /** The tally after the first `i` keys of `b` have been written. */
  function Written(t: Tally, b: Batch, i: nat): Tally
    requires WellFormed(b) && i <= |b.keys|
  {
    Tally(t.losses1, t.losses2, Extend(t.order, b.keys[..i]), Assign(t.pred1, b.keys[..i], b.pred1[..i]),
      Assign(t.pred2, b.keys[..i], b.pred2[..i]), Assign(t.truth, b.keys[..i], b.truth[..i]))
  }

  /** Writing key `i` of a batch: the key joins the order if it is new
      to the order, and each dictionary maps it to its value. */
  lemma WrittenStep(t: Tally, b: Batch, i: nat)
    requires WellFormed(b) && i < |b.keys|
    ensures var w, k := Written(t, b, i), b.keys[i];
      Written(t, b, i + 1) == Tally(w.losses1, w.losses2, if k in w.order then w.order else w.order + [k],
        w.pred1[k := b.pred1[i]], w.pred2[k := b.pred2[i]], w.truth[k := b.truth[i]])
  {
    var k := b.keys[i];
    assert b.keys[..i + 1] == b.keys[..i] + [k];
    assert b.pred1[..i + 1] == b.pred1[..i] + [b.pred1[i]];
    assert b.pred2[..i + 1] == b.pred2[..i] + [b.pred2[i]];
    assert b.truth[..i + 1] == b.truth[..i] + [b.truth[i]];
    ExtendLast(t.order, b.keys[..i], k);
    AssignLast(t.pred1, b.keys[..i], b.pred1[..i], k, b.pred1[i]);
    AssignLast(t.pred2, b.keys[..i], b.pred2[..i], k, b.pred2[i]);
    AssignLast(t.truth, b.keys[..i], b.truth[..i], k, b.truth[i]);
  }

  /** The dictionaries and losses of one pass. `order` is the key order of
      the prediction dictionaries; all three are written together, so they
      share it. */
  class PassLog {
    var losses1: seq<real>
    var losses2: seq<real>
    var order: seq<string>
    var pred1: map<string, real>
    var pred2: map<string, real>
    var truth: map<string, real>

    ghost function Snapshot(): Tally
      reads this
    {
      Tally(losses1, losses2, order, pred1, pred2, truth)
    }

    ghost predicate Valid()
      reads this
    {
      Consistent(order, pred1, pred2, truth)
    }

    constructor ()
      ensures Valid()
      ensures losses1 == [] && losses2 == [] && order == []
      ensures pred1 == map[] && pred2 == map[] && truth == map[]
    {
      losses1, losses2, order := [], [], [];
      pred1, pred2, truth := map[], map[], map[];
    }

    /** `for i in range(len(keys)): pred1[keys[i]] = ...` for the three dictionaries. */
    method RecordBatch(b: Batch)
      requires Valid() && WellFormed(b)
      modifies this
      ensures Valid()
      ensures order == Extend(old(order), b.keys)
      ensures pred1 == Assign(old(pred1), b.keys, b.pred1)
      ensures pred2 == Assign(old(pred2), b.keys, b.pred2)
      ensures truth == Assign(old(truth), b.keys, b.truth)
      ensures losses1 == old(losses1) && losses2 == old(losses2)
    {
      for i := 0 to |b.keys|
        invariant Valid()
        invariant Snapshot() == Written(old(Snapshot()), b, i)
      {
        var k := b.keys[i];
        WrittenStep(old(Snapshot()), b, i);
        StaysConsistent(old(order), old(pred1), old(pred2), old(truth),
          b.keys[..i + 1], b.pred1[..i + 1], b.pred2[..i + 1], b.truth[..i + 1]);
        if k !in pred1 {
          order := order + [k];
        }
        pred1, pred2, truth := pred1[k := b.pred1[i]], pred2[k := b.pred2[i]], truth[k := b.truth[i]];
      }
      assert b.keys[..|b.keys|] == b.keys;
      assert b.pred1[..|b.keys|] == b.pred1;
      assert b.pred2[..|b.keys|] == b.pred2;
      assert b.truth[..|b.keys|] == b.truth;
    }

    /** The body of the loop for one present batch: compute and log both
        losses, record the predictions, and give back the objective. */
    method Absorb(b: Batch, ratio: real) returns (objective: real)
      requires Valid() && WellFormed(b)
      modifies this
      ensures Valid()
      ensures objective == TrainLoss(RegressionLoss(b), BatchRankingLoss(b), ratio)
      ensures Snapshot() == Absorbed(old(Snapshot()), b)
    {
      var loss1 := MeanSquaredError(b.pred1, b.truth);
      var loss2 := RankingLoss(b.pred1, b.pred2);
      objective := TrainLoss(loss1, loss2, ratio);
      losses1 := losses1 + [loss1];
      losses2 := losses2 + [loss2];
      RecordBatch(b);
    }

    /** One pass over the loader: skip dropped samples, log both losses,
        record the predictions, and return each batch's objective
        `loss1 + loss2 * ratio`. */
    method Pass(samples: seq<Option<Batch>>, ratio: real) returns (objectives: seq<real>)
      requires Valid() && Collated(samples)
      modifies this
      ensures Valid()
      ensures losses1 == old(losses1) + RegressionLosses(Present(samples))
      ensures losses2 == old(losses2) + RankingLosses(Present(samples))
      ensures objectives == Objectives(Present(samples), ratio)
      ensures order == Extend(old(order), Keys(Present(samples)))
      ensures pred1 == Assign(old(pred1), Keys(Present(samples)), Values(Present(samples), Pred1Column))
      ensures pred2 == Assign(old(pred2), Keys(Present(samples)), Values(Present(samples), Pred2Column))
      ensures truth == Assign(old(truth), Keys(Present(samples)), Values(Present(samples), TruthColumn))
    {
      CollatedMembers(samples);
      objectives := [];
      ghost var done: seq<Batch> := [];
      for i := 0 to |samples|
        invariant done == Present(samples[..i])
        invariant Valid() && AllWellFormed(done)
        invariant Snapshot() == Replay(old(Snapshot()), done)
        invariant objectives == Objectives(done, ratio)
      {
        assert samples[..i + 1][..i] == samples[..i];
        match samples[i]
        case None =>
        case Some(b) =>
          assert Some(b) in samples;
          PassStep(done, b, ratio);
          var objective := Absorb(b, ratio);
          objectives := objectives + [objective];
          ghost var prev := done;
          done := done + [b];
          assert done[..|done| - 1] == prev;
      }
      assert samples[..|samples|] == samples;
      ReplayMeaning(old(Snapshot()), done);
    }

    /** The evaluation pass: the same loop, with the objective `loss1 + loss2`. */
    method EvalPass(samples: seq<Option<Batch>>) returns (objectives: seq<real>)
      requires Valid() && Collated(samples)
      modifies this
      ensures Valid()
      ensures losses1 == old(losses1) + RegressionLosses(Present(samples))
      ensures losses2 == old(losses2) + RankingLosses(Present(samples))
      ensures |objectives| == |Present(samples)|
      ensures forall i :: 0 <= i < |objectives| ==>
        objectives[i] == EvalLoss(RegressionLosses(Present(samples))[i], RankingLosses(Present(samples))[i])
      ensures order == Extend(old(order), Keys(Present(samples)))
      ensures pred1 == Assign(old(pred1), Keys(Present(samples)), Values(Present(samples), Pred1Column))
      ensures pred2 == Assign(old(pred2), Keys(Present(samples)), Values(Present(samples), Pred2Column))
      ensures truth == Assign(old(truth), Keys(Present(samples)), Values(Present(samples), TruthColumn))
    {
      EvalObjectives(Present(samples));
      objectives := Pass(samples, 1.0);
    }

    /** `for k in pred1.keys(): w.write(f'{k}\t{true[k]}\t{pred1[k]}\t{pred2[k]}\n')` */
    method ReportLines(fmt: Formats) returns (lines: seq<string>)
      requires Valid()
      ensures lines == Report(order, truth, pred1, pred2, fmt)
      ensures |lines| == |pred1.Keys|
    {
      lines := [];
      for i := 0 to |order|
        invariant lines == Report(order[..i], truth, pred1, pred2, fmt)
      {
        var k := order[i];
        assert order[..i + 1][..i] == order[..i];
        lines := lines + [ReportLine(k, fmt.number(truth[k]), fmt.number(pred1[k]), fmt.tensor(pred2[k]))];
      }
      assert order[..|order|] == order;
      DistinctCount(order);
      assert (set k | k in order) == pred1.Keys;
    }
  }

  /** A training pass on fresh dictionaries (`train_pred1 = dict()` …) and
      the report written from them: the logs hold one loss per present
      batch, the objectives are `loss1 + loss2 * ratio`, and the report is
      the one of all present batches. */
  method TrainingPass(samples: seq<Option<Batch>>, ratio: real, fmt: Formats)
    returns (objectives: seq<real>, losses1: seq<real>, losses2: seq<real>, report: seq<string>)
    requires Collated(samples)
    ensures objectives == Objectives(Present(samples), ratio)
    ensures losses1 == RegressionLosses(Present(samples))
    ensures losses2 == RankingLosses(Present(samples))
    ensures report == PassReport(Present(samples), fmt)
  {
    var log := new PassLog();
    objectives := log.Pass(samples, ratio);
    losses1, losses2 := log.losses1, log.losses2;
    report := log.ReportLines(fmt);
  }

  /** The evaluation pass on fresh dictionaries; its objectives
      `loss1 + loss2` are computed and dropped. */
  method EvaluationPass(samples: seq<Option<Batch>>, fmt: Formats)
    returns (losses1: seq<real>, losses2: seq<real>, report: seq<string>)
    requires Collated(samples)
    ensures losses1 == RegressionLosses(Present(samples))
    ensures losses2 == RankingLosses(Present(samples))
    ensures report == PassReport(Present(samples), fmt)
  {
    var log := new PassLog();
    var objectives := log.EvalPass(samples);
    losses1, losses2 := log.losses1, log.losses2;
    report := log.ReportLines(fmt);
  }
}
