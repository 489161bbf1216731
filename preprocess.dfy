/** The pair preprocessor of `preprocess.py`: `preprocessor`, its exception
    guard `run`, the sequential stand-in for the worker pool, and the reading
    of the key list.

    Every file the script touches for one entry of the key list is described by
    an `Inputs` value (what each RDKit or Biopython call returns for it); the
    directory of written records is the `records` map of a `RecordStore`. */
module Preprocess {
  import opened Outcomes
  import opened Text
  import opened Geometry
  import opened Conformers

  /** What the library calls yield for one entry `l` of the key list. */
  datatype Inputs = Inputs(
    sdf: Parse<Mol>,                  // `Chem.SDMolSupplier(f'{l}/{key}_ligand.sdf')[0]`
    rcsbDirExists: bool,              // `os.path.exists(rcsb_ligand_dir)`
    rcsbSdf: Parse<Mol>,              // `Chem.SDMolSupplier(f'{rcsb_ligand_dir}/{key}.sdf')[0]`
    mol2: Parse<Mol>,                 // `Chem.MolFromMol2File(f'{l}/{key}_ligand.mol2')`
    embedding: Embedding,             // the RDKit calls inside `uff`
    protein: ProteinFile,             // `f'{l}/{key}_protein.pdb'`
    toMol: Structure -> Option<Mol>,  // PDB write of the selection, then `Chem.MolFromPDBFile`
    stripWater: Mol -> Mol)           // `remove_water`

  /** The pickled tuple `(m1, m1_uff, m2, [])`. */
  datatype Record = Record(ligand: Mol, ligandUff: Mol, pocket: Mol, extra: seq<Mol>)

  /** How one call of `preprocessor` ends. `Failed` is an exception. */
  datatype Status =
    | AlreadyDone
    | NoLigand
    | NoUffMol
    | NoPocket
    | NoConformer
    | Failed
    | Written(record: Record)

  /** `key = l.split('/')[-1]` */
  function Key(l: string): string {
    var pieces := SplitOn(l, '/');
    pieces[|pieces| - 1]
  }

  /** The directory every key-list entry is prefixed with. */
  const ListPath: string := "../../CASF-2016/coreset/"

  /** An entry of the key list gives back the key it was built from. */
  lemma KeyRoundTrip(k: string)
    requires '/' !in k
    ensures Key(ListPath + k) == k
  {
    var p := "../../CASF-2016/coreset";
    assert ListPath + k == p + ['/'] + k;
    LastPiece(p, '/', k);
  }

  /** `[path + k.split()[0] for k in lines]`, which raises on a line holding no field. */
  function KeyPaths(lines: seq<string>): (o: Outcome<seq<string>>)
    ensures o.Raised? <==> exists i :: 0 <= i < |lines| && |Fields(lines[i])| == 0
    ensures o.Ok? ==> |o.value| == |lines|
    ensures o.Ok? ==> forall i :: 0 <= i < |lines| ==> o.value[i] == ListPath + Fields(lines[i])[0]
  {
    if |lines| == 0 then Ok([])
    else
      var n := |lines| - 1;
      assert forall i :: 0 <= i < n ==> lines[..n][i] == lines[i];
      match KeyPaths(lines[..n])
      case Raised => Raised
      case Ok(ps) =>
        var fs := Fields(lines[n]);
        if |fs| == 0 then Raised else Ok(ps + [ListPath + fs[0]])
  }

  /** Each entry built from the key list extracts back to the first field of
      its line, so records are keyed by the identifiers of the list. */
  lemma KeyListRoundTrip(lines: seq<string>, i: nat)
    requires KeyPaths(lines).Ok? && i < |lines|
    requires '/' !in Fields(lines[i])[0]
    ensures Key(KeyPaths(lines).value[i]) == Fields(lines[i])[0]
  {
    KeyRoundTrip(Fields(lines[i])[0]);
  }

  /** The ligand: the primary sdf, then the rcsb sdf when its directory exists,
      then the mol2 file; the first that parses wins. */
  function LoadLigand(inp: Inputs): Parse<Mol> {
    match inp.sdf
    case Raises => Raises
    case Parsed(m) => Parsed(m)
    case Unparsable =>
      var second := if inp.rcsbDirExists then inp.rcsbSdf else Unparsable;
      if !second.Unparsable? then second else inp.mol2
  }

  /** The first candidate that does not come back empty (a raise ends the search). */
  function FirstAnswer(cands: seq<Parse<Mol>>): Parse<Mol> {
    if |cands| == 0 then Unparsable
    else if cands[0].Unparsable? then FirstAnswer(cands[1..])
    else cands[0]
  }

  /** The ligand sources in the order they are consulted. */
  function Sources(inp: Inputs): seq<Parse<Mol>> {
    [inp.sdf] + (if inp.rcsbDirExists then [inp.rcsbSdf] else []) + [inp.mol2]
  }

  /** The ligand loader is the ordered fallback over the sources; the rcsb file
      matters only when its directory exists; and when no source parses there
      is no ligand. */
  lemma LigandSourceOrder(inp: Inputs, other: Parse<Mol>)
    ensures LoadLigand(inp) == FirstAnswer(Sources(inp))
    ensures inp.sdf.Parsed? ==> LoadLigand(inp) == inp.sdf
    ensures inp.sdf.Unparsable? && inp.rcsbDirExists && inp.rcsbSdf.Parsed? ==> LoadLigand(inp) == inp.rcsbSdf
    ensures !inp.rcsbDirExists ==> LoadLigand(inp) == LoadLigand(inp.(rcsbSdf := other))
    ensures LoadLigand(inp) == Unparsable <==>
      inp.sdf.Unparsable? && (!inp.rcsbDirExists || inp.rcsbSdf.Unparsable?) && inp.mol2.Unparsable?
  {
    var s := Sources(inp);
    var last := [inp.mol2];
    assert last[1..] == [] && FirstAnswer(last) == if inp.mol2.Unparsable? then Unparsable else inp.mol2;
    if inp.rcsbDirExists {
      assert s[1..] == [inp.rcsbSdf] + last && s[1..][1..] == last;
    } else {
      assert s == [inp.sdf] + last && s[1..] == last;
    }
  }

  /** `preprocessor` for a key whose record does not exist yet. */
  function Attempt(inp: Inputs): Status {
    match LoadLigand(inp)
    case Raises => Failed
    case Unparsable => NoLigand
    case Parsed(m1) =>
      match UffResult(inp.embedding)
      case Raises => Failed
      case Unparsable => NoUffMol
      case Parsed(m1Uff) =>
        match Extract(m1, inp.protein, inp.toMol)
        case Raises => Failed
        case Unparsable => NoPocket
        case Parsed(raw) =>
          var m2 := inp.stripWater(raw);
          if |m1.conformers| == 0 || |m2.conformers| == 0 then NoConformer
          else Written(Record(m1, m1Uff, m2, []))
  }

  /** The keys for which `f'{data_dir}/{key}'` names the data directory
      itself or its parent rather than a record file. */
  predicate DirectoryKey(key: string) {
    key == "" || key == "." || key == ".."
  }

  /** `os.path.exists(f'{data_dir}/{key}')`, given the keys of the records
      present in the data directory; the directory and its parent exist. */
  predicate OnDisk(key: string, present: set<string>) {
    DirectoryKey(key) || key in present
  }

  /** `preprocessor(l)` given the keys already present in the data directory. */
  function Preprocess(l: string, inp: Inputs, present: set<string>): Status {
    if OnDisk(Key(l), present) then AlreadyDone else Attempt(inp)
  }

  /** A key-list line whose first field ends in `/` gives the empty key. */
  lemma TrailingSlashKey(k: string)
    requires '/' !in k
    ensures Key(ListPath + k + "/") == ""
  {
    LastPiece(ListPath + k, '/', "");
    assert ListPath + k + "/" == ListPath + k + ['/'] + "";
  }

  /** A record holds the loaded ligand, its optimised conformer, and the
      water-stripped pocket extracted against the loaded ligand (not the
      optimised one); both molecules have a conformer and the last component
      is empty. */
  lemma RecordContents(inp: Inputs, rec: Record)
    requires Attempt(inp) == Written(rec)
    ensures LoadLigand(inp) == Parsed(rec.ligand)
    ensures UffResult(inp.embedding) == Parsed(rec.ligandUff)
    ensures Extract(rec.ligand, inp.protein, inp.toMol).Parsed?
    ensures rec.pocket == inp.stripWater(Extract(rec.ligand, inp.protein, inp.toMol).value)
    ensures |rec.ligand.conformers| > 0 && |rec.pocket.conformers| > 0
    ensures rec.extra == []
  {
  }

  /** A missing protein file never leads to a record. */
  lemma MissingProteinNoRecord(inp: Inputs)
    requires inp.protein.Absent?
    ensures !Attempt(inp).Written?
    ensures LoadLigand(inp).Parsed? && UffResult(inp.embedding).Parsed? ==> Attempt(inp) == NoPocket
  {
    if LoadLigand(inp).Parsed? {
      ExtractMeaning(LoadLigand(inp).value, inp.protein, inp.toMol);
    }
  }

  /** The check on the ligand's conformers can never be the one that rejects:
      `extract` already raised on a ligand without conformer, so a
      `NoConformer` outcome always comes from the pocket. */
  lemma NoConformerMeansEmptyPocket(inp: Inputs)
    requires Attempt(inp) == NoConformer
    ensures LoadLigand(inp).Parsed? && |LoadLigand(inp).value.conformers| > 0
    ensures Extract(LoadLigand(inp).value, inp.protein, inp.toMol).Parsed?
    ensures |inp.stripWater(Extract(LoadLigand(inp).value, inp.protein, inp.toMol).value).conformers| == 0
  {
  }

  /** One call of `run(l)`: `preprocessor` with every exception turned into a
      skip. Only a `Written` outcome changes the records. */
  function Step(records: map<string, Record>, l: string, inp: Inputs): map<string, Record> {
    match Preprocess(l, inp, records.Keys)
    case Written(rec) => records[Key(l) := rec]
    case _ => records
  }

  /** The records after running every entry of `ls` in order. */
  function Processed(records: map<string, Record>, ls: seq<string>, world: string -> Inputs): map<string, Record> {
    if |ls| == 0 then records
    else Step(Processed(records, ls[..|ls| - 1], world), ls[|ls| - 1], world(ls[|ls| - 1]))
  }

  /** Records are only ever added: a record present after a prefix of the run
      is still there, unchanged, at the end. */
  lemma {:induction false} RecordsPersist(records: map<string, Record>, ls: seq<string>, world: string -> Inputs, j: nat)
    requires j <= |ls|
    ensures Processed(records, ls[..j], world).Keys <= Processed(records, ls, world).Keys
    ensures forall k :: k in Processed(records, ls[..j], world) ==>
      Processed(records, ls, world)[k] == Processed(records, ls[..j], world)[k]
  {
    if j == |ls| {
      assert ls[..j] == ls;
    } else {
      var n := |ls| - 1;
      RecordsPersist(records, ls[..n], world, j);
      assert ls[..n][..j] == ls[..j];
    }
  }

  /** Running the same key list a second time writes nothing and changes nothing. */
  lemma SecondRunWritesNothing(records: map<string, Record>, ls: seq<string>, world: string -> Inputs)
    ensures Processed(Processed(records, ls, world), ls, world) == Processed(records, ls, world)
  {
    StableOnPrefix(records, ls, world, |ls|);
    assert ls[..|ls|] == ls;
  }

  /** Whatever the library calls yield, a run keeps every record that was
      already there, unchanged. */
  lemma ExistingRecordsKept(records: map<string, Record>, ls: seq<string>, world: string -> Inputs)
    ensures records.Keys <= Processed(records, ls, world).Keys
    ensures forall k :: k in records ==> Processed(records, ls, world)[k] == records[k]
  {
    RecordsPersist(records, ls, world, 0);
    assert ls[..0] == [];
  }

  /** An entry whose key names the data directory is skipped and writes nothing. */
  lemma DirectoryKeySkipped(records: map<string, Record>, l: string, inp: Inputs)
    requires DirectoryKey(Key(l))
    ensures Preprocess(l, inp, records.Keys) == AlreadyDone
    ensures Step(records, l, inp) == records
  {
  }

  /** An entry whose step could add nothing to `done` beyond what it adds
      to an earlier state `prev` leaves `done` as it is. */
  lemma StepIdle(done: map<string, Record>, prev: map<string, Record>, l: string, inp: Inputs)
    requires prev.Keys <= done.Keys && Step(prev, l, inp).Keys <= done.Keys
    ensures Step(done, l, inp) == done
  {
    if !OnDisk(Key(l), done.Keys) {
      assert Preprocess(l, inp, prev.Keys) == Attempt(inp);
    }
  }

  lemma {:induction false} StableOnPrefix(records: map<string, Record>, ls: seq<string>, world: string -> Inputs, n: nat)
    requires n <= |ls|
    ensures Processed(Processed(records, ls, world), ls[..n], world) == Processed(records, ls, world)
  {
    var done := Processed(records, ls, world);
    if n > 0 {
      StableOnPrefix(records, ls, world, n - 1);
      RecordsPersist(records, ls, world, n - 1);
      RecordsPersist(records, ls, world, n);
      var prefix, l := ls[..n], ls[n - 1];
      assert prefix[..n - 1] == ls[..n - 1] && prefix[n - 1] == l;
      StepIdle(done, Processed(records, ls[..n - 1], world), l, world(l));
    }
  }

  /** The keys written by a run: those of the entries whose attempt succeeds. */
  ghost function WrittenBy(ls: seq<string>, world: string -> Inputs): set<string> {
    set l | l in ls && !DirectoryKey(Key(l)) && Attempt(world(l)).Written? :: Key(l)
  }

  /** One entry adds its key exactly when its preprocessing succeeds (a key
      already present stays present either way). */
  lemma StepKeys(records: map<string, Record>, l: string, inp: Inputs)
    ensures Step(records, l, inp).Keys ==
      records.Keys + (if !DirectoryKey(Key(l)) && Attempt(inp).Written? then {Key(l)} else {})
  {
  }

  lemma WrittenByLast(ls: seq<string>, world: string -> Inputs)
    requires |ls| > 0
    ensures var l := ls[|ls| - 1];
      WrittenBy(ls, world) ==
        WrittenBy(ls[..|ls| - 1], world) + (if !DirectoryKey(Key(l)) && Attempt(world(l)).Written? then {Key(l)} else {})
  {
    var n := |ls| - 1;
    assert forall x :: x in ls <==> x in ls[..n] || x == ls[n] by {
      assert ls == ls[..n] + [ls[n]];
    }
  }

  /** After a run the data directory holds the keys it held before plus the
      key of every entry whose preprocessing succeeds, and no other. */
  lemma {:induction false} WrittenKeys(records: map<string, Record>, ls: seq<string>, world: string -> Inputs)
    ensures Processed(records, ls, world).Keys == records.Keys + WrittenBy(ls, world)
  {
    if |ls| > 0 {
      var n := |ls| - 1;
      WrittenKeys(records, ls[..n], world);
      StepKeys(Processed(records, ls[..n], world), ls[n], world(ls[n]));
      WrittenByLast(ls, world);
    }
  }

  /** Three complexes: A whose files are all fine, B whose protein file is
      missing, C whose ligand parses from none of its sources. One pass over an
      empty data directory leaves exactly A's record. */
  lemma ThreeComplexes(a: string, b: string, c: string, world: string -> Inputs)
    requires Attempt(world(a)).Written? && !DirectoryKey(Key(a))
    requires world(b).protein.Absent?
    requires world(c).sdf.Unparsable? && world(c).rcsbSdf.Unparsable? && world(c).mol2.Unparsable?
    ensures Processed(map[], [a, b, c], world).Keys == {Key(a)}
  {
    WrittenKeys(map[], [a, b, c], world);
    MissingProteinNoRecord(world(b));
    LigandSourceOrder(world(c), Unparsable);
    assert forall x :: x in [a, b, c] <==> x == a || x == b || x == c;
    assert WrittenBy([a, b, c], world) == {Key(a)};
  }

  /** The data directory, as the set of pickled records keyed by complex. */
  class RecordStore {
    var records: map<string, Record>

    constructor (existing: map<string, Record>)
      ensures records == existing
    {
      records := existing;
    }

    /** `preprocessor(l)`: early returns in the order of the source, and one
        write at the end. */
    method Preprocessor(l: string, inp: Inputs) returns (status: Status)
      modifies this
      ensures status == Preprocess(l, inp, old(records).Keys)
      ensures records == if status.Written? then old(records)[Key(l) := status.record] else old(records)
    {
      var key := Key(l);
      if OnDisk(key, records.Keys) {
        return AlreadyDone;
      }
      var m1 := inp.sdf;
      if m1.Raises? {
        return Failed;
      }
      if m1.Unparsable? && inp.rcsbDirExists {
        m1 := inp.rcsbSdf;
        if m1.Raises? {
          return Failed;
        }
      }
      if m1.Unparsable? {
        m1 := inp.mol2;
        if m1.Raises? {
          return Failed;
        }
      }
      if m1.Unparsable? {
        return NoLigand;
      }
      var m1Uff := Uff(inp.embedding);
      if m1Uff.Raises? {
        return Failed;
      }
      if m1Uff.Unparsable? {
        return NoUffMol;
      }
      var m2 := Extract(m1.value, inp.protein, inp.toMol);
      if m2.Raises? {
        return Failed;
      }
      if m2.Unparsable? {
        return NoPocket;
      }
      var pocket := inp.stripWater(m2.value);
      if |m1.value.conformers| == 0 {
        return NoConformer;
      }
      if |pocket.conformers| == 0 {
        return NoConformer;
      }
      var rec := Record(m1.value, m1Uff.value, pocket, []);
      records := records[key := rec];
      status := Written(rec);
    }

    /** `run(l)`: whatever `preprocessor` does, including raising, ends as a
        plain return; only a successful attempt has written anything. */
    method Run(l: string, inp: Inputs)
      modifies this
      ensures records == Step(old(records), l, inp)
    {
      var _ := Preprocessor(l, inp);
    }

    /** `pool.map_async(run, keys)`, run one entry after the other. */
    method RunAll(paths: seq<string>, world: string -> Inputs)
      modifies this
      ensures records == Processed(old(records), paths, world)
    {
      for i := 0 to |paths|
        invariant records == Processed(old(records), paths[..i], world)
      {
        Run(paths[i], world(paths[i]));
        assert paths[..i + 1][..i] == paths[..i];
      }
      assert paths[..|paths|] == paths;
    }

    /** The script's top level: read the key list (a blank line raises before
        any work starts), then process every entry. */
    method ProcessKeyList(lines: seq<string>, world: string -> Inputs)
      modifies this
      ensures records == match KeyPaths(lines)
        case Raised => old(records)
        case Ok(paths) => Processed(old(records), paths, world)
    {
      var paths := KeyPaths(lines);
      if paths.Ok? {
        RunAll(paths.value, world);
      }
    }
  }
}
