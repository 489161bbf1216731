/** The geometry extractor of `preprocess.py`: the residue filter that decides
    which protein residues form the binding pocket (`extract` and its nested
    `ResidueSelect.accept_residue`), the selection of a whole structure, and
    `count_residue`.

    Coordinates are exact reals. The source compares the Euclidean distance
    with 5.0; since both sides are non-negative, `d < 5.0` holds exactly when
    `d * d < 25.0`, so the model compares squared distances with 25. */
module Geometry {
  import opened Outcomes

  datatype Point = Point(x: real, y: real, z: real)

  /** An atom of a parsed protein: its PDB atom name (`atom.get_id()`) and position. */
  datatype Atom = Atom(id: string, pos: Point)

  datatype Residue = Residue(name: string, atoms: seq<Atom>)

  /** The Biopython hierarchy: a structure holds models, a model chains, a chain residues. */
  type Chain = seq<Residue>
  type Model = seq<Chain>
  type Structure = seq<Model>

  /** An RDKit molecule, reduced to what the pipeline inspects: its atom
      symbols and its conformers (one coordinate list each). */
  datatype Mol = Mol(atoms: seq<string>, conformers: seq<seq<Point>>)

  /** The protein file of a complex as `extract` meets it. */
  datatype ProteinFile =
    | Absent                          // `os.path.exists(pdb)` is false
    | Corrupt                         // `PDBParser.get_structure` raises
    | Present(structure: Structure)

  /** The pocket cut-off, 5.0 angstrom, squared. */
  const CutoffSq: real := 25.0

  function SqDist(p: Point, q: Point): (d: real)
    ensures d >= 0.0
  {
    (p.x - q.x) * (p.x - q.x) + (p.y - q.y) * (p.y - q.y) + (p.z - q.z) * (p.z - q.z)
  }

  /** The filter in the list comprehension of `accept_residue`: an atom is
      dropped when the letter 'H' occurs anywhere in its name (so `OH` and
      `NH1` go too), not by element. */
  predicate Kept(a: Atom) {
    'H' !in a.id
  }

  /** The positions of the kept atoms, in order. */
  function KeptPositions(atoms: seq<Atom>): (ps: seq<Point>)
    ensures forall a :: a in atoms && Kept(a) ==> a.pos in ps
    ensures forall p :: p in ps ==> exists a :: a in atoms && Kept(a) && a.pos == p
  {
    if |atoms| == 0 then []
    else
      var rest := KeptPositions(atoms[1..]);
      assert forall a :: a in atoms[1..] ==> a in atoms;
      if Kept(atoms[0]) then [atoms[0].pos] + rest else rest
  }

  /** The smallest squared distance from `p` to a point of `qs`. */
  function MinSqDistTo(p: Point, qs: seq<Point>): (d: real)
    requires |qs| > 0
    ensures forall j :: 0 <= j < |qs| ==> d <= SqDist(p, qs[j])
    ensures exists j :: 0 <= j < |qs| && d == SqDist(p, qs[j])
  {
    if |qs| == 1 then SqDist(p, qs[0])
    else
      var rest := MinSqDistTo(p, qs[1..]);
      assert forall j :: 1 <= j < |qs| ==> qs[1..][j - 1] == qs[j];
      if SqDist(p, qs[0]) <= rest then SqDist(p, qs[0]) else rest
  }

  /** `np.min(distance_matrix(ps, qs))`, squared. */
  function MinSqDist(ps: seq<Point>, qs: seq<Point>): (d: real)
    requires |ps| > 0 && |qs| > 0
    ensures forall i, j :: 0 <= i < |ps| && 0 <= j < |qs| ==> d <= SqDist(ps[i], qs[j])
    ensures exists i, j :: 0 <= i < |ps| && 0 <= j < |qs| && d == SqDist(ps[i], qs[j])
  {
    var first := MinSqDistTo(ps[0], qs);
    if |ps| == 1 then first
    else
      var rest := MinSqDist(ps[1..], qs);
      assert forall i :: 1 <= i < |ps| ==> ps[1..][i - 1] == ps[i];
      if first <= rest then first else rest
  }

  /** `ResidueSelect.accept_residue` against the ligand positions `lig`.
      A residue left with no kept atom is rejected without raising; with kept
      atoms but no ligand position, `np.min` of an empty matrix raises;
      otherwise the residue is accepted when the minimum distance is strictly
      below the cut-off. */
  function AcceptResidue(r: Residue, lig: seq<Point>): Outcome<bool> {
    var kept := KeptPositions(r.atoms);
    if |kept| == 0 then Ok(false)
    else if |lig| == 0 then Raised
    else Ok(MinSqDist(kept, lig) < CutoffSq)
  }

  /** Some kept atom of `r` lies strictly within the cut-off of some ligand position. */
  ghost predicate Near(r: Residue, lig: seq<Point>) {
    exists a, q :: a in r.atoms && Kept(a) && q in lig && SqDist(a.pos, q) < CutoffSq
  }

  /** A residue is accepted exactly when it is near the ligand; the filter
      raises exactly when the residue has a kept atom and the ligand has no
      position; and a distance of exactly 5.0 does not count as near. */
  lemma {:induction false} AcceptResidueMeaning(r: Residue, lig: seq<Point>)
    ensures AcceptResidue(r, lig) == Ok(true) <==> Near(r, lig)
    ensures AcceptResidue(r, lig) == Raised <==> |lig| == 0 && exists a :: a in r.atoms && Kept(a)
    ensures AcceptResidue(r, lig) == Ok(false) <==> !Near(r, lig) && (|lig| > 0 || forall a :: a in r.atoms ==> !Kept(a))
  {
    var kept := KeptPositions(r.atoms);
    if |kept| > 0 && |lig| > 0 {
      var m := MinSqDist(kept, lig);
      if m < CutoffSq {
        var i, j :| 0 <= i < |kept| && 0 <= j < |lig| && m == SqDist(kept[i], lig[j]);
        assert kept[i] in kept;
        var a :| a in r.atoms && Kept(a) && a.pos == kept[i];
        assert a in r.atoms && Kept(a) && lig[j] in lig && SqDist(a.pos, lig[j]) < CutoffSq;
      }
      if Near(r, lig) {
        var a, q :| a in r.atoms && Kept(a) && q in lig && SqDist(a.pos, q) < CutoffSq;
        assert a.pos in kept;
        var i :| 0 <= i < |kept| && kept[i] == a.pos;
        var j :| 0 <= j < |lig| && lig[j] == q;
        assert m <= SqDist(kept[i], lig[j]);
      }
    } else if |kept| == 0 {
      assert forall a :: a in r.atoms ==> !Kept(a);
    } else {
      assert kept[0] in kept;
    }
  }

  /** An atom at distance exactly 5.0 of the only ligand atom leaves its residue out. */
  lemma BoundaryRejected()
    ensures AcceptResidue(Residue("GLY", [Atom("CA", Point(5.0, 0.0, 0.0))]), [Point(0.0, 0.0, 0.0)]) == Ok(false)
  {
  }

  /** A residue whose atom names all contain 'H' is rejected even when it
      touches the ligand. */
  lemma NamedHydrogensIgnored()
    ensures AcceptResidue(Residue("SER", [Atom("OH", Point(0.0, 0.0, 0.0))]), [Point(0.0, 0.0, 0.0)]) == Ok(false)
  {
    var atoms := [Atom("OH", Point(0.0, 0.0, 0.0))];
    assert 'H' in atoms[0].id;
    assert KeptPositions(atoms[1..]) == [];
  }

  /** The residues of one chain that `PDBIO.save` keeps, in order; it raises as
      soon as one call of the filter raises. */
  function SelectChain(c: Chain, lig: seq<Point>): (o: Outcome<Chain>)
    ensures o.Raised? <==> exists i :: 0 <= i < |c| && AcceptResidue(c[i], lig).Raised?
    ensures o.Ok? ==> |o.value| <= |c|
    ensures o.Ok? ==> forall r :: r in o.value <==> r in c && AcceptResidue(r, lig) == Ok(true)
  {
    if |c| == 0 then Ok([])
    else
      var last := c[|c| - 1];
      assert forall i :: 0 <= i < |c| - 1 ==> c[..|c| - 1][i] == c[i];
      assert c == c[..|c| - 1] + [last];
      match SelectChain(c[..|c| - 1], lig)
      case Raised => Raised
      case Ok(kept) =>
        match AcceptResidue(last, lig)
        case Raised => Raised
        case Ok(accept) => Ok(if accept then kept + [last] else kept)
  }

  /** The selection applied to every chain of a model. */
  function SelectModel(m: Model, lig: seq<Point>): (o: Outcome<Model>)
    ensures o.Raised? <==> exists i :: 0 <= i < |m| && SelectChain(m[i], lig).Raised?
    ensures o.Ok? ==> |o.value| == |m| && forall i :: 0 <= i < |m| ==> SelectChain(m[i], lig) == Ok(o.value[i])
  {
    if |m| == 0 then Ok([])
    else
      assert forall i :: 0 <= i < |m| - 1 ==> m[..|m| - 1][i] == m[i];
      match SelectModel(m[..|m| - 1], lig)
      case Raised => Raised
      case Ok(done) =>
        match SelectChain(m[|m| - 1], lig)
        case Raised => Raised
        case Ok(c) => Ok(done + [c])
  }

  /** The selection applied to every model of a structure. */
  function SelectStructure(s: Structure, lig: seq<Point>): (o: Outcome<Structure>)
    ensures o.Raised? <==> exists i :: 0 <= i < |s| && SelectModel(s[i], lig).Raised?
    ensures o.Ok? ==> |o.value| == |s| && forall i :: 0 <= i < |s| ==> SelectModel(s[i], lig) == Ok(o.value[i])
  {
    if |s| == 0 then Ok([])
    else
      assert forall i :: 0 <= i < |s| - 1 ==> s[..|s| - 1][i] == s[i];
      match SelectStructure(s[..|s| - 1], lig)
      case Raised => Raised
      case Ok(done) =>
        match SelectModel(s[|s| - 1], lig)
        case Raised => Raised
        case Ok(m) => Ok(done + [m])
  }

  /** The selected structure keeps every model and chain, and each chain
      holds exactly the accepted residues of the original chain. */
  lemma SelectionKeepsNearResidues(s: Structure, lig: seq<Point>, i: nat, j: nat, r: Residue)
    requires SelectStructure(s, lig).Ok?
    requires i < |s| && j < |s[i]|
    ensures |SelectStructure(s, lig).value[i]| == |s[i]|
    ensures r in SelectStructure(s, lig).value[i][j] <==> r in s[i][j] && Near(r, lig)
  {
    AcceptResidueMeaning(r, lig);
  }

  /** The residues of a model, chain after chain. */
  function ModelResidues(m: Model): seq<Residue> {
    if |m| == 0 then [] else ModelResidues(m[..|m| - 1]) + m[|m| - 1]
  }

  /** The residues of a structure, model after model. */
  function Residues(s: Structure): seq<Residue> {
    if |s| == 0 then [] else Residues(s[..|s| - 1]) + ModelResidues(s[|s| - 1])
  }

  /** `count_residue`: three nested loops that count every residue of every
      chain of every model. */
  method CountResidues(s: Structure) returns (count: nat)
    ensures count == |Residues(s)|
  {
    count := 0;
    for i := 0 to |s|
      invariant count == |Residues(s[..i])|
    {
      var model := s[i];
      for j := 0 to |model|
        invariant count == |Residues(s[..i])| + |ModelResidues(model[..j])|
      {
        var chain := model[j];
        for k := 0 to |chain|
          invariant count == |Residues(s[..i])| + |ModelResidues(model[..j])| + k
        {
          count := count + 1;
        }
        assert model[..j + 1][..j] == model[..j];
      }
      assert model[..|model|] == model;
      assert s[..i + 1][..i] == s[..i];
    }
    assert s[..|s|] == s;
  }

  lemma {:induction false} ModelSelectionShrinks(m: Model, sel: Model)
    requires |sel| == |m|
    requires forall i :: 0 <= i < |m| ==> |sel[i]| <= |m[i]|
    ensures |ModelResidues(sel)| <= |ModelResidues(m)|
  {
    if |m| > 0 {
      ModelSelectionShrinks(m[..|m| - 1], sel[..|sel| - 1]);
    }
  }

  /** The selection never adds residues: the pocket counts at most as many
      residues as the protein. */
  lemma {:induction false} SelectionShrinks(s: Structure, lig: seq<Point>)
    requires SelectStructure(s, lig).Ok?
    ensures |Residues(SelectStructure(s, lig).value)| <= |Residues(s)|
  {
    var sel := SelectStructure(s, lig).value;
    ShrinksBelow(s, sel, lig);
  }

  lemma {:induction false} ShrinksBelow(s: Structure, sel: Structure, lig: seq<Point>)
    requires |sel| == |s|
    requires forall i :: 0 <= i < |s| ==> SelectModel(s[i], lig) == Ok(sel[i])
    ensures |Residues(sel)| <= |Residues(s)|
  {
    if |s| > 0 {
      var n := |s| - 1;
      ShrinksBelow(s[..n], sel[..n], lig);
      ModelSelectionShrinks(s[n], sel[n]);
    }
  }

  /** `extract`: no result when the protein file is missing; otherwise the
      structure is selected against the first conformer of the ligand
      (`GetConformer()` raises when there is none) and the selection is turned
      back into a molecule by `toMol`, which stands for the PDB write and the
      `Chem.MolFromPDBFile` read. */
  function Extract(ligand: Mol, protein: ProteinFile, toMol: Structure -> Option<Mol>): Parse<Mol> {
    match protein
    case Absent => Unparsable
    case Corrupt => Raises
    case Present(s) =>
      if |ligand.conformers| == 0 then Raises
      else
        match SelectStructure(s, ligand.conformers[0])
        case Raised => Raises
        case Ok(selected) =>
          match toMol(selected)
          case None => Unparsable
          case Some(m) => Parsed(m)
  }

  /** What `extract` returns: nothing for a missing file; a pocket only from a
      present file, a ligand with a conformer and a selection that did not
      raise, and then exactly what the read-back yields. */
  lemma ExtractMeaning(ligand: Mol, protein: ProteinFile, toMol: Structure -> Option<Mol>)
    ensures protein.Absent? ==> Extract(ligand, protein, toMol) == Unparsable
    ensures Extract(ligand, protein, toMol).Parsed? <==>
      protein.Present? && |ligand.conformers| > 0
      && SelectStructure(protein.structure, ligand.conformers[0]).Ok?
      && toMol(SelectStructure(protein.structure, ligand.conformers[0]).value).Some?
    ensures Extract(ligand, protein, toMol).Parsed? ==>
      Some(Extract(ligand, protein, toMol).value) == toMol(SelectStructure(protein.structure, ligand.conformers[0]).value)
  {
  }
}
