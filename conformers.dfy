/** The conformer optimizer, `uff` in `preprocess.py`: sanitize the ligand,
    embed up to 20 conformers, relax each with the UFF force field, record its
    energy, keep the first conformer of least energy and read it back.

    The RDKit calls are an `Embedding` oracle: whether sanitizing succeeds,
    one `Relaxation` per embedded conformer (in the order of `cids`), and what
    `Chem.SDMolSupplier(...)[0]` yields once a given conformer has been written
    out with hydrogens removed. */
module Conformers {
  import opened Outcomes
  import opened Geometry

  /** One UFF optimisation: whether it converged, and the energy of the result. */
  datatype Relaxation = Relaxation(converged: bool, energy: real)

  datatype Embedding = Embedding(
    sanitizes: bool,
    relaxations: seq<Relaxation>,
    reload: nat -> Option<Mol>)

  /** `i` is the position `cenergy.index(min(cenergy))` returns. */
  ghost predicate IsFirstMin(s: seq<real>, i: int) {
    && 0 <= i < |s|
    && (forall j :: 0 <= j < |s| ==> s[i] <= s[j])
    && (forall j :: 0 <= j < i ==> s[j] != s[i])
  }

  /** The two conditions pin down a single position. */
  lemma FirstMinUnique(s: seq<real>, i: int, k: int)
    requires IsFirstMin(s, i) && IsFirstMin(s, k)
    ensures i == k
  {
    assert s[i] <= s[k] && s[k] <= s[i];
  }

  /** The first position of least value, as a function (for the
      specification of the preprocessing outcome). */
  function FirstMinIndex(s: seq<real>): (i: nat)
    requires |s| > 0
    ensures IsFirstMin(s, i)
  {
    if |s| == 1 then 0
    else
      var k := FirstMinIndex(s[..|s| - 1]);
      assert forall j :: 0 <= j < |s| - 1 ==> s[..|s| - 1][j] == s[j];
      if s[|s| - 1] < s[k] then |s| - 1 else k
  }

  /** `min_idx = cenergy.index(min(cenergy))`: one pass for the minimum, one
      for the first position holding it. An empty list is excluded here; `uff`
      raises before calling it. */
  method SelectConformer(cenergy: seq<real>) returns (minIdx: nat)
    requires |cenergy| > 0
    ensures IsFirstMin(cenergy, minIdx)
    ensures minIdx == FirstMinIndex(cenergy)
  {
    var least := cenergy[0];
    for i := 1 to |cenergy|
      invariant forall j :: 0 <= j < i ==> least <= cenergy[j]
      invariant exists j :: 0 <= j < i && least == cenergy[j]
    {
      if cenergy[i] < least {
        least := cenergy[i];
      }
    }
    minIdx := 0;
    while cenergy[minIdx] != least
      invariant minIdx < |cenergy|
      invariant forall j :: 0 <= j < minIdx ==> cenergy[j] != least
      invariant exists j :: minIdx <= j < |cenergy| && least == cenergy[j]
      decreases |cenergy| - minIdx
    {
      minIdx := minIdx + 1;
    }
    FirstMinUnique(cenergy, minIdx, FirstMinIndex(cenergy));
  }

  /** The energies in conformer order, whether or not each relaxation converged. */
  function Energies(rs: seq<Relaxation>): seq<real> {
    seq(|rs|, i requires 0 <= i < |rs| => rs[i].energy)
  }

  /** What `uff` returns: it raises when sanitizing fails or when no conformer
      was embedded (`min` of an empty list); otherwise it yields the read-back
      of the first conformer of least energy, which may be `None`. */
  function UffResult(e: Embedding): Parse<Mol> {
    if !e.sanitizes then Raises
    else if |e.relaxations| == 0 then Raises
    else
      match e.reload(FirstMinIndex(Energies(e.relaxations)))
      case None => Unparsable
      case Some(m) => Parsed(m)
  }

  /** `uff`, step by step: the loop over the embedded conformers appends each
      energy, then the argmin picks the conformer to write out. The written
      conformer is addressed by its position in the energy list, as the source
      passes `min_idx` as the conformer id. */
  method Uff(e: Embedding) returns (r: Parse<Mol>)
    ensures r == UffResult(e)
  {
    if !e.sanitizes {
      return Raises;
    }
    var cenergy: seq<real> := [];
    for i := 0 to |e.relaxations|
      invariant cenergy == Energies(e.relaxations[..i])
    {
      cenergy := cenergy + [e.relaxations[i].energy];
    }
    assert e.relaxations[..|e.relaxations|] == e.relaxations;
    if |cenergy| == 0 {
      return Raises;
    }
    var minIdx := SelectConformer(cenergy);
    match e.reload(minIdx)
    case None => r := Unparsable;
    case Some(m) => r := Parsed(m);
  }

  /** Convergence plays no part: a conformer whose energy is strictly below
      every other one is the one written out, converged or not. */
  lemma {:induction false} LowestEnergyWins(e: Embedding, k: nat)
    requires e.sanitizes && k < |e.relaxations|
    requires forall j :: 0 <= j < |e.relaxations| && j != k ==> e.relaxations[k].energy < e.relaxations[j].energy
    ensures UffResult(e) == match e.reload(k) case None => Unparsable case Some(m) => Parsed(m)
  {
    var es := Energies(e.relaxations);
    assert IsFirstMin(es, k);
    FirstMinUnique(es, k, FirstMinIndex(es));
  }

  /** Changing only which relaxations converged leaves the result unchanged. */
  lemma ConvergenceIgnored(e: Embedding, flags: seq<bool>)
    requires |flags| == |e.relaxations|
    ensures UffResult(e) == UffResult(e.(relaxations :=
      seq(|flags|, i requires 0 <= i < |flags| => Relaxation(flags[i], e.relaxations[i].energy))))
  {
    var e' := e.(relaxations := seq(|flags|, i requires 0 <= i < |flags| => Relaxation(flags[i], e.relaxations[i].energy)));
    assert Energies(e'.relaxations) == Energies(e.relaxations);
  }
}
