/** The label table of `train.py`: the lines of the PDBbind index file after
    its six header lines, each split on whitespace, give a dictionary from the
    complex identifier (first column) to the float of the fourth column.

    The file is given as its list of lines; `float` is an oracle `toFloat`
    that yields `None` where Python's `float` raises. */
module Labels {
  import opened Outcomes
  import opened Text

  /** `readlines()[6:]` drops this many header lines. */
  const HeaderLines: nat := 6

  /** One entry `l[0]: float(l[3])` of the comprehension. A line with fewer
      than four fields raises (`IndexError`, also for a blank line, whose
      `l[0]` is already out of range), as does a fourth field `float` rejects. */
  function Entry(line: string, toFloat: string -> Option<real>): (o: Outcome<(string, real)>)
    ensures o.Ok? <==> |Fields(line)| >= 4 && toFloat(Fields(line)[3]).Some?
    ensures o.Ok? ==> o.value.0 == Fields(line)[0] && Some(o.value.1) == toFloat(Fields(line)[3])
  {
    var f := Fields(line);
    if |f| < 4 then Raised
    else
      match toFloat(f[3])
      case None => Raised
      case Some(v) => Ok((f[0], v))
  }

  /** `{l[0]: float(l[3]) for l in lines}` over the body lines, in order; a
      later line with the same identifier overwrites the earlier value. */
  function LabelTable(body: seq<string>, toFloat: string -> Option<real>): (o: Outcome<map<string, real>>)
    ensures o.Raised? <==> exists i :: 0 <= i < |body| && Entry(body[i], toFloat).Raised?
  {
    if |body| == 0 then Ok(map[])
    else
      var n := |body| - 1;
      assert forall i :: 0 <= i < n ==> body[..n][i] == body[i];
      match LabelTable(body[..n], toFloat)
      case Raised => Raised
      case Ok(m) =>
        match Entry(body[n], toFloat)
        case Raised => Raised
        case Ok(e) => Ok(m[e.0 := e.1])
  }

  /** The whole label-reading block: skip the header, build the table. */
  function ReadLabels(lines: seq<string>, toFloat: string -> Option<real>): Outcome<map<string, real>> {
    LabelTable(if |lines| <= HeaderLines then [] else lines[HeaderLines..], toFloat)
  }

  /** A line of at least four whitespace-free words, with any whitespace
      before, between and after them (column padding, the newline), yields
      its first word as the identifier and the float of its fourth word. */
  lemma EntryOfColumns(lead: string, ws: seq<string>, seps: seq<string>, trail: string,
                       toFloat: string -> Option<real>)
    requires |ws| >= 4 && |seps| == |ws| - 1
    requires forall i :: 0 <= i < |ws| ==> |ws[i]| > 0 && SpaceFree(ws[i])
    requires forall i :: 0 <= i < |seps| ==> |seps[i]| > 0 && AllSpace(seps[i])
    requires AllSpace(lead) && AllSpace(trail)
    ensures Entry(lead + Spaced(ws, seps) + trail, toFloat) ==
      match toFloat(ws[3]) case None => Raised case Some(v) => Ok((ws[0], v))
  {
    FieldsOfLine(lead, ws, seps, trail);
  }

  /** A line of one to three words raises (`IndexError` on `l[3]`) whatever
      its words are, before `float` is called. */
  lemma ShortLineRaises(lead: string, ws: seq<string>, seps: seq<string>, trail: string,
                        toFloat: string -> Option<real>)
    requires 1 <= |ws| < 4 && |seps| == |ws| - 1
    requires forall i :: 0 <= i < |ws| ==> |ws[i]| > 0 && SpaceFree(ws[i])
    requires forall i :: 0 <= i < |seps| ==> |seps[i]| > 0 && AllSpace(seps[i])
    requires AllSpace(lead) && AllSpace(trail)
    ensures Entry(lead + Spaced(ws, seps) + trail, toFloat).Raised?
  {
    FieldsOfLine(lead, ws, seps, trail);
  }

  /** A blank line, such as a lone `'\n'` at the end of the file, raises
      (`IndexError` on `l[0]`). */
  lemma BlankLineRaises(sp: string, toFloat: string -> Option<real>)
    requires AllSpace(sp)
    ensures Entry(sp, toFloat).Raised?
  {
    LeadingSpace(sp, "");
    assert sp + "" == sp;
  }

  /** The header lines never reach the table, whatever they hold. */
  lemma HeaderIgnored(header: seq<string>, body: seq<string>, toFloat: string -> Option<real>)
    requires |header| == HeaderLines
    ensures ReadLabels(header + body, toFloat) == LabelTable(body, toFloat)
  {
    if |body| > 0 {
      assert (header + body)[HeaderLines..] == body;
    }
  }

  /** A file of no more than the header gives an empty table. */
  lemma ShortFileEmpty(lines: seq<string>, toFloat: string -> Option<real>)
    requires |lines| <= HeaderLines
    ensures ReadLabels(lines, toFloat) == Ok(map[])
  {
  }

  /** The identifiers of the table are exactly those of the body lines. */
  lemma {:induction false} LabelKeys(body: seq<string>, toFloat: string -> Option<real>, k: string)
    requires LabelTable(body, toFloat).Ok?
    ensures k in LabelTable(body, toFloat).value <==>
      exists i :: 0 <= i < |body| && Entry(body[i], toFloat).Ok? && Entry(body[i], toFloat).value.0 == k
  {
    if |body| > 0 {
      var n := |body| - 1;
      assert forall i :: 0 <= i < n ==> body[..n][i] == body[i];
      LabelKeys(body[..n], toFloat, k);
      if k in LabelTable(body, toFloat).value && Entry(body[n], toFloat).value.0 != k {
        assert k in LabelTable(body[..n], toFloat).value;
      }
    }
  }

  /** An identifier is labelled with the value of the last line naming it. */
  lemma {:induction false} LastLineWins(body: seq<string>, toFloat: string -> Option<real>, i: nat)
    requires LabelTable(body, toFloat).Ok? && i < |body|
    requires forall j :: i < j < |body| ==> Entry(body[j], toFloat).Ok? && Entry(body[j], toFloat).value.0 != Entry(body[i], toFloat).value.0
    ensures Entry(body[i], toFloat).Ok?
    ensures Entry(body[i], toFloat).value.0 in LabelTable(body, toFloat).value
    ensures LabelTable(body, toFloat).value[Entry(body[i], toFloat).value.0] == Entry(body[i], toFloat).value.1
  {
    var n := |body| - 1;
    assert forall j :: 0 <= j < n ==> body[..n][j] == body[j];
    if i < n {
      LastLineWins(body[..n], toFloat, i);
    }
  }
}
