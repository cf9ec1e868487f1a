/**
  The label extractor of extract_parameters_labels.py: walks every MAV_CMD
  enum, every entry and every param in document order and records, for each
  labelled param, its label with its stripped text (or "" when the param has
  no text). A label seen again overwrites the earlier value.
 */
module Labels {
  import opened Values
  import opened Xml
  import opened PyStr

  type Labels = map<string, string>

  const CommandEnum := "MAV_CMD"

  /** `param.text.strip() if param.text else ""`. */
  function Description(p: Param): (d: string)
    ensures Trimmed(d)
    ensures p.text.Some? && p.text.value != [] ==> StripOf(p.text.value, d)
    ensures p.text.None? || p.text.value == [] ==> d == ""
  {
    if p.text.Some? && p.text.value != [] then Strip(p.text.value) else ""
  }

  /** The param carries the label `k`. */
  predicate HasLabel(p: Param, k: string) {
    Labelled(p) && p.labelAttr.value == k
  }

  /** One turn of the innermost loop. */
  function Record(m: Labels, p: Param): Labels {
    if Labelled(p) then m[p.labelAttr.value := Description(p)] else m
  }

  function AddParams(m: Labels, ps: seq<Param>): Labels
    decreases |ps|
  {
    if ps == [] then m else AddParams(Record(m, ps[0]), ps[1..])
  }

  function AddEntries(m: Labels, es: seq<Entry>): Labels
    decreases |es|
  {
    if es == [] then m else AddEntries(AddParams(m, es[0].params), es[1..])
  }

  function AddEnums(m: Labels, doc: Document): Labels
    decreases |doc|
  {
    if doc == [] then m
    else AddEnums(if doc[0].name == Some(CommandEnum) then AddEntries(m, doc[0].entries) else m, doc[1..])
  }

  /** The dictionary written to the JSON file: one pass over the MAV_CMD
      params in document order, and every stored value is empty or free of
      surrounding whitespace. */
  function Collect(doc: Document): (m: Labels)
    ensures m == AddParams(map[], CommandParams(doc))
    ensures AllTrimmed(m)
  {
    AddEnumsFlat(map[], doc);
    AddParamsValuesStripped(map[], CommandParams(doc));
    AddEnums(map[], doc)
  }

  // ---------------------------------------------------------------------------
  // The nested loops as one pass over a flat list

  /** The params of a list of entries, in order. */
  function EntryParams(es: seq<Entry>): seq<Param> {
    if es == [] then [] else es[0].params + EntryParams(es[1..])
  }

  /** The params of the MAV_CMD enums of a document, in document order. */
  function CommandParams(doc: Document): seq<Param> {
    if doc == [] then []
    else (if doc[0].name == Some(CommandEnum) then EntryParams(doc[0].entries) else []) + CommandParams(doc[1..])
  }

  lemma {:induction false} AddParamsAppend(m: Labels, a: seq<Param>, b: seq<Param>)
    ensures AddParams(m, a + b) == AddParams(AddParams(m, a), b)
    decreases |a|
  {
    if a != [] {
      AddParamsAppend(Record(m, a[0]), a[1..], b);
      assert (a + b)[1..] == a[1..] + b;
    } else {
      assert a + b == b;
    }
  }

  lemma {:induction false} AddEntriesFlat(m: Labels, es: seq<Entry>)
    ensures AddEntries(m, es) == AddParams(m, EntryParams(es))
    decreases |es|
  {
    if es != [] {
      AddEntriesFlat(AddParams(m, es[0].params), es[1..]);
      AddParamsAppend(m, es[0].params, EntryParams(es[1..]));
    }
  }

  /** Walking enums, entries and params is one pass over the MAV_CMD params in
      document order. */
  lemma {:induction false} AddEnumsFlat(m: Labels, doc: Document)
    ensures AddEnums(m, doc) == AddParams(m, CommandParams(doc))
    decreases |doc|
  {
    if doc != [] {
      var here := if doc[0].name == Some(CommandEnum) then EntryParams(doc[0].entries) else [];
      if doc[0].name == Some(CommandEnum) {
        AddEntriesFlat(m, doc[0].entries);
      }
      AddEnumsFlat(if doc[0].name == Some(CommandEnum) then AddEntries(m, doc[0].entries) else m, doc[1..]);
      AddParamsAppend(m, here, CommandParams(doc[1..]));
    }
  }

  // ---------------------------------------------------------------------------
  // What the pass records

  /** A key is present exactly when it was there before or some param carries it. */
  lemma {:induction false} AddParamsKeys(m: Labels, ps: seq<Param>, k: string)
    ensures k in AddParams(m, ps) <==> k in m || exists i :: 0 <= i < |ps| && HasLabel(ps[i], k)
    decreases |ps|
  {
    if ps != [] {
      AddParamsKeys(Record(m, ps[0]), ps[1..], k);
      assert forall i :: 1 <= i < |ps| ==> ps[i] == ps[1..][i - 1];
      if exists i :: 0 <= i < |ps[1..]| && HasLabel(ps[1..][i], k) {
        var i :| 0 <= i < |ps[1..]| && HasLabel(ps[1..][i], k);
        assert HasLabel(ps[i + 1], k);
      }
    }
  }

  /** A key no param carries keeps its earlier value. */
  lemma {:induction false} AddParamsUntouched(m: Labels, ps: seq<Param>, k: string)
    requires k in m && forall i :: 0 <= i < |ps| ==> !HasLabel(ps[i], k)
    ensures k in AddParams(m, ps) && AddParams(m, ps)[k] == m[k]
    decreases |ps|
  {
    if ps != [] {
      assert forall i :: 0 <= i < |ps[1..]| ==> ps[1..][i] == ps[i + 1];
      AddParamsUntouched(Record(m, ps[0]), ps[1..], k);
    }
  }

  /** The last param carrying a label decides its value. */
  lemma {:induction false} AddParamsLastWins(m: Labels, ps: seq<Param>, k: string, i: nat)
    requires i < |ps| && HasLabel(ps[i], k)
    requires forall j :: i < j < |ps| ==> !HasLabel(ps[j], k)
    ensures k in AddParams(m, ps) && AddParams(m, ps)[k] == Description(ps[i])
    decreases |ps|
  {
    assert forall j :: 0 <= j < |ps[1..]| ==> ps[1..][j] == ps[j + 1];
    if i == 0 {
      AddParamsUntouched(Record(m, ps[0]), ps[1..], k);
    } else {
      AddParamsLastWins(Record(m, ps[0]), ps[1..], k, i - 1);
    }
  }

  /** The dictionary has a key exactly for each label some MAV_CMD param carries. */
  lemma CollectKeys(doc: Document, k: string)
    ensures k in Collect(doc) <==> exists i :: 0 <= i < |CommandParams(doc)| && HasLabel(CommandParams(doc)[i], k)
  {
    AddEnumsFlat(map[], doc);
    AddParamsKeys(map[], CommandParams(doc), k);
  }

  /** Its value is the description of the last MAV_CMD param with that label. */
  lemma CollectLastWins(doc: Document, k: string, i: nat)
    requires i < |CommandParams(doc)| && HasLabel(CommandParams(doc)[i], k)
    requires forall j :: i < j < |CommandParams(doc)| ==> !HasLabel(CommandParams(doc)[j], k)
    ensures k in Collect(doc) && Collect(doc)[k] == Description(CommandParams(doc)[i])
  {
    AddEnumsFlat(map[], doc);
    AddParamsLastWins(map[], CommandParams(doc), k, i);
  }

  /** Enums other than MAV_CMD leave the dictionary as it is. */
  lemma OtherEnumsIgnored(doc: Document, e: Enum)
    requires e.name != Some(CommandEnum)
    ensures Collect([e] + doc) == Collect(doc) && Collect(doc + [e]) == Collect(doc)
  {
    assert ([e] + doc)[1..] == doc;
    AddEnumsFlat(map[], [e] + doc);
    AddEnumsFlat(map[], doc);
    AddEnumsFlat(map[], doc + [e]);
    CommandParamsAppend(doc, [e]);
    assert CommandParams([e]) == [];
    assert CommandParams(doc + [e]) == CommandParams(doc);
  }

  lemma {:induction false} CommandParamsAppend(a: Document, b: Document)
    ensures CommandParams(a + b) == CommandParams(a) + CommandParams(b)
    decreases |a|
  {
    if a != [] {
      CommandParamsAppend(a[1..], b);
      assert (a + b)[1..] == a[1..] + b;
    } else {
      assert a + b == b;
    }
  }

  /** Every stored value is either empty or free of surrounding whitespace. */
  predicate AllTrimmed(m: Labels) {
    forall k :: k in m ==> Trimmed(m[k])
  }

  lemma RecordTrimmed(m: Labels, p: Param)
    requires AllTrimmed(m)
    ensures AllTrimmed(Record(m, p))
  {
    if Labelled(p) {
      var d := Description(p);
      var r := Record(m, p);
      forall k | k in r ensures Trimmed(r[k]) {
        if k != p.labelAttr.value {
          assert r[k] == m[k];
        }
      }
    }
  }

  lemma {:induction false} AddParamsValuesStripped(m: Labels, ps: seq<Param>)
    requires AllTrimmed(m)
    ensures AllTrimmed(AddParams(m, ps))
    decreases |ps|
  {
    if ps != [] {
      RecordTrimmed(m, ps[0]);
      AddParamsValuesStripped(Record(m, ps[0]), ps[1..]);
    }
  }
}
