/**
  The wrapper generator of import.py: for every entry of the MAV_CMD enum it
  writes one Python method whose name is the lowercased entry name, whose
  arguments are the sanitised labels of the entry's labelled params, whose
  docstring is the entry description followed by one line per labelled param,
  and whose body assigns the command, builds the `params` list (a label where
  the param has one, `0` where it does not) and calls `send_mavlink_command`.

  The loop over an entry's params is written for any function `ident` that
  turns a label into an identifier; the generator itself uses
  `PyStr.Sanitise`, and what the loop does with the names it is given does
  not depend on how they were made.
 */
module Generator {
  import opened Values
  import opened Xml
  import opened PyStr
  import ParamVector

  /** What the loop over one entry's params has built so far: the `params`
      items, the argument list after `self`, and the docstring text. */
  datatype Acc = Acc(params: seq<string>, arguments: string, desc: string)

  const ArgsHeader := "\n\n        Args:"
  const DocIndent := "\n            "

  /** The `params` item a param contributes. */
  function ParamItem(ident: string -> string, p: Param): string {
    if Labelled(p) then ident(p.labelAttr.value) else "0"
  }

  /** One turn of the loop over an entry's params. An unlabelled param only adds
      `0`. A labelled one is turned into a name, its index read (an index of 0
      opens an "Args:" section), its text appended to the docstring (a missing
      text raises TypeError), and its name appended to the arguments, after
      ", " when the index is between 1 and 7. */
  function ParamStep(ident: string -> string, acc: Acc, p: Param): (r: Result<Acc>)
    ensures r.Success? <==> !Labelled(p) || (p.index.Index? && p.text.Some?)
    ensures r.Failure? && p.index.BadIndex? ==> r.error == ValueError
    ensures r.Failure? && !p.index.BadIndex? ==> r.error == TypeError
    ensures r.Success? ==> r.value.params == acc.params + [ParamItem(ident, p)]
  {
    if !Labelled(p) then Success(acc.(params := acc.params + ["0"]))
    else
      var name := ident(p.labelAttr.value);
      var idx :- ReadIndex(p.index);
      var desc := if idx == 0 then acc.desc + ArgsHeader else acc.desc;
      if p.text.None? then Failure(TypeError)
      else
        var arguments := if 1 <= idx <= 7 then acc.arguments + ", " else acc.arguments;
        Success(Acc(acc.params + [name], arguments + name, desc + DocIndent + name + ": " + p.text.value))
  }

  /** The loop over an entry's params, stopping at the first exception. Every
      param adds exactly one `params` item. */
  function Scan(ident: string -> string, acc: Acc, ps: seq<Param>): (r: Result<Acc>)
    ensures r.Success? ==> |r.value.params| == |acc.params| + |ps|
    decreases |ps|
  {
    if ps == [] then Success(acc)
    else
      var next :- ParamStep(ident, acc, ps[0]);
      Scan(ident, next, ps[1..])
  }

  /** A param the loop gets through. */
  predicate ParamOk(p: Param) {
    !Labelled(p) || (p.index.Index? && p.text.Some?)
  }

  /** An entry the generator gets through: it has a name and a description, and
      every labelled param has an integer index and a text. */
  predicate EntryOk(e: Entry) {
    e.name.Some? && e.description.Some? && forall i :: 0 <= i < |e.params| ==> ParamOk(e.params[i])
  }

  /** The names of the labelled params, in order, as the loop writes them into
      the argument list. They are the method's parameters after `self` only
      when every index is between 1 and 7; otherwise a name is written with
      no ", " before it and runs into the text in front of it. */
  function ArgNames(ident: string -> string, ps: seq<Param>): seq<string> {
    if ps == [] then []
    else (if Labelled(ps[0]) then [ident(ps[0].labelAttr.value)] else []) + ArgNames(ident, ps[1..])
  }

  /** The slot layout of the `params` list the generated method builds. */
  function LayoutOf(ps: seq<Param>): (l: seq<ParamVector.Slot>)
    ensures |l| == |ps|
    ensures forall i :: 0 <= i < |ps| ==> (l[i].Bound? <==> Labelled(ps[i]))
  {
    if ps == [] then []
    else [if Labelled(ps[0]) then ParamVector.Bound else ParamVector.Reserved] + LayoutOf(ps[1..])
  }

  /** Every index between 1 and 7, so that every argument is preceded by ", ". */
  predicate IndicesInRange(ps: seq<Param>) {
    forall i :: 0 <= i < |ps| && Labelled(ps[i]) ==> ps[i].index.Index? && 1 <= ps[i].index.n <= 7
  }

  /** `"".join(sep + x for x in xs)`. */
  function Prefixed(sep: string, xs: seq<string>): string {
    if xs == [] then "" else sep + xs[0] + Prefixed(sep, xs[1..])
  }

  /** The description line of the docstring: newlines become spaces and the
      trailing whitespace goes. */
  function Summary(description: string): (r: string)
    ensures |r| <= |description|
    ensures forall i :: 0 <= i < |r| ==> r[i] == (if description[i] == '\n' then ' ' else description[i])
    ensures forall i :: |r| <= i < |description| ==> IsSpace(description[i])
    ensures r != [] ==> !IsSpace(r[|r| - 1])
    ensures forall i :: 0 <= i < |r| ==> r[i] != '\n'
  {
    var spaced := ReplaceAll(description, "\n", " ");
    var r := RStrip(spaced);
    SummaryPieces(description, spaced, r);
    r
  }

  lemma SummaryPieces(description: string, spaced: string, r: string)
    requires spaced == ReplaceAll(description, "\n", " ") && r == RStrip(spaced)
    ensures |r| <= |description|
    ensures forall i :: 0 <= i < |r| ==> r[i] == (if description[i] == '\n' then ' ' else description[i])
    ensures forall i :: |r| <= i < |description| ==> IsSpace(description[i])
  {
    ReplaceCharPointwise(description, '\n', ' ');
    SpacedTail(description, spaced, |r|);
  }

  /** Past a point after which the newline-free text is all whitespace, so
      was the original. */
  lemma SpacedTail(description: string, spaced: string, n: nat)
    requires spaced == seq(|description|, i requires 0 <= i < |description| => if description[i] == '\n' then ' ' else description[i])
    requires forall i :: n <= i < |spaced| ==> IsSpace(spaced[i])
    ensures forall i :: n <= i < |description| ==> IsSpace(description[i])
  {
    forall i | n <= i < |description| ensures IsSpace(description[i]) {
      assert IsSpace(spaced[i]);
    }
  }

  const SendLine := "        self.send_mavlink_command(command, params)\n\n"

  /** The `def` line: the lowercased entry name and the argument list. */
  function DefLine(name: string, arguments: string): string {
    "    def " + Lower(name) + "(self" + arguments + "):\n"
  }

  /** The docstring: the description and the "Args:" lines. */
  function Docstring(desc: string): string {
    "        \"\"\"\n        " + desc + "\n" + "        \"\"\"" + "\n"
  }

  /** The `command = ...` line. */
  function CommandLine(name: string): string {
    "        " + ("command = mavutil.mavlink." + name + "\n")
  }

  /** The `params = [...]` line and the blank line after it. */
  function ParamsLine(items: seq<string>): string {
    "        " + "params = [" + Join(", ", items) + "]\n" + "\n"
  }

  /** The text of one generated method: it opens with the `def` line and
      closes with the call to `send_mavlink_command`. */
  function Render(name: string, acc: Acc): string {
    DefLine(name, acc.arguments) + Docstring(acc.desc) + CommandLine(name) + ParamsLine(acc.params) + SendLine
  }

  /** One iteration of the loop over the entries. A missing name or description
      raises AttributeError (`None.lower()`, `None.replace(...)`); otherwise
      the entry renders exactly when all its labelled params are well-formed. */
  function MethodText(e: Entry): (r: Result<string>)
    ensures e.name.None? || e.description.None? ==> r == Failure(AttributeError)
    ensures r.Success? <==> EntryOk(e)
  {
    if e.name.None? || e.description.None? then Failure(AttributeError)
    else
      ScanSucceeds(Sanitise, Acc([], "", Summary(e.description.value)), e.params);
      var acc :- Scan(Sanitise, Acc([], "", Summary(e.description.value)), e.params);
      Success(Render(e.name.value, acc))
  }

  /** The loop over the entries, stopping at the first exception. */
  function Methods(entries: seq<Entry>): Result<string>
    decreases |entries|
  {
    if entries == [] then Success("")
    else
      var m :- MethodText(entries[0]);
      var rest :- Methods(entries[1..]);
      Success(m + rest)
  }

  const Header := "from pymavlink import mavutil\n\n\nclass mav_cmd(object):\n\n"

  /** The text written to common.py: the import and class header, then the
      methods. Without a MAV_CMD enum, `enum.findall` is called on None. */
  function Generate(doc: Document): (r: Result<string>)
    ensures FindEnum(doc, "MAV_CMD").None? ==> r == Failure(AttributeError)
    ensures r.Success? ==> StartsWith(r.value, Header)
  {
    match FindEnum(doc, "MAV_CMD")
    case None => Failure(AttributeError)
    case Some(e) =>
      var body :- Methods(e.entries);
      assert (Header + body)[..|Header|] == Header;
      Success(Header + body)
  }

  // ---------------------------------------------------------------------------
  // The loop over one entry's params

  lemma ScanCons(ident: string -> string, acc: Acc, ps: seq<Param>)
    requires ps != [] && Scan(ident, acc, ps).Success?
    ensures ParamStep(ident, acc, ps[0]).Success?
    ensures Scan(ident, acc, ps) == Scan(ident, ParamStep(ident, acc, ps[0]).value, ps[1..])
  {
  }

  /** The loop gets through exactly when every param is well-formed. */
  lemma {:induction false} ScanSucceeds(ident: string -> string, acc: Acc, ps: seq<Param>)
    ensures Scan(ident, acc, ps).Success? <==> forall i :: 0 <= i < |ps| ==> ParamOk(ps[i])
    decreases |ps|
  {
    if ps != [] {
      if ParamOk(ps[0]) {
        ScanSucceeds(ident, ParamStep(ident, acc, ps[0]).value, ps[1..]);
        assert forall i :: 1 <= i < |ps| ==> ps[i] == ps[1..][i - 1];
      }
    }
  }

  /** The `params` list has one item per param, in order: the label's name,
      or `0` for an unlabelled param. */
  lemma {:induction false} ScanParams(ident: string -> string, acc: Acc, ps: seq<Param>)
    requires Scan(ident, acc, ps).Success?
    ensures Scan(ident, acc, ps).value.params
            == acc.params + seq(|ps|, i requires 0 <= i < |ps| => ParamItem(ident, ps[i]))
    decreases |ps|
  {
    if ps != [] {
      ScanCons(ident, acc, ps);
      var next := ParamStep(ident, acc, ps[0]).value;
      ScanParams(ident, next, ps[1..]);
      assert seq(|ps|, i requires 0 <= i < |ps| => ParamItem(ident, ps[i]))
          == [ParamItem(ident, ps[0])] + seq(|ps[1..]|, i requires 0 <= i < |ps[1..]| => ParamItem(ident, ps[1..][i]));
    }
  }

  /** What one param adds to the argument list: its name, after ", " only
      when its index is between 1 and 7; nothing when it has no label. */
  function ArgText(ident: string -> string, p: Param): string {
    if !Labelled(p) then ""
    else if p.index.Index? && 1 <= p.index.n <= 7 then ", " + ident(p.labelAttr.value)
    else ident(p.labelAttr.value)
  }

  /** What a list of params adds to the argument list, in order. */
  function ArgTexts(ident: string -> string, ps: seq<Param>): string
    decreases |ps|
  {
    if ps == [] then "" else ArgText(ident, ps[0]) + ArgTexts(ident, ps[1..])
  }

  /** One turn of the loop appends a labelled param's name to the argument
      list, after ", " exactly when its index is between 1 and 7; an
      unlabelled param adds nothing. */
  lemma StepArguments(ident: string -> string, acc: Acc, p: Param)
    requires ParamStep(ident, acc, p).Success?
    ensures !Labelled(p) ==> ParamStep(ident, acc, p).value.arguments == acc.arguments
    ensures Labelled(p) ==> p.index.Index?
    ensures Labelled(p) && p.index.Index? ==>
              ParamStep(ident, acc, p).value.arguments
              == acc.arguments + (if 1 <= p.index.n <= 7 then ", " else "") + ident(p.labelAttr.value)
    ensures ParamStep(ident, acc, p).value.arguments == acc.arguments + ArgText(ident, p)
  {
    if Labelled(p) {
      var name := ident(p.labelAttr.value);
      if 1 <= p.index.n <= 7 {
        assert acc.arguments + ", " + name == acc.arguments + (", " + name);
      } else {
        assert acc.arguments + "" == acc.arguments;
      }
    } else {
      assert acc.arguments + "" == acc.arguments;
    }
  }

  lemma ArgNamesCons(ident: string -> string, ps: seq<Param>)
    requires ps != []
    ensures Prefixed(", ", ArgNames(ident, ps))
            == (if Labelled(ps[0]) then ", " + ident(ps[0].labelAttr.value) else "") + Prefixed(", ", ArgNames(ident, ps[1..]))
  {
    if Labelled(ps[0]) {
      var name := ident(ps[0].labelAttr.value);
      assert ArgNames(ident, ps) == [name] + ArgNames(ident, ps[1..]);
      assert ([name] + ArgNames(ident, ps[1..]))[1..] == ArgNames(ident, ps[1..]);
    } else {
      assert ArgNames(ident, ps) == ArgNames(ident, ps[1..]);
    }
  }

  lemma IndicesTail(ps: seq<Param>)
    requires ps != [] && IndicesInRange(ps)
    ensures IndicesInRange(ps[1..])
    ensures Labelled(ps[0]) ==> ps[0].index.Index? && 1 <= ps[0].index.n <= 7
  {
    assert forall i :: 0 <= i < |ps[1..]| ==> ps[1..][i] == ps[i + 1];
  }

  /** Whatever the indices, the argument list is what the params add to it,
      in order. */
  lemma {:induction false} ScanArguments(ident: string -> string, acc: Acc, ps: seq<Param>)
    requires Scan(ident, acc, ps).Success?
    ensures Scan(ident, acc, ps).value.arguments == acc.arguments + ArgTexts(ident, ps)
    decreases |ps|
  {
    if ps != [] {
      ScanCons(ident, acc, ps);
      var next := ParamStep(ident, acc, ps[0]).value;
      StepArguments(ident, acc, ps[0]);
      ScanArguments(ident, next, ps[1..]);
      var h, r := ArgText(ident, ps[0]), ArgTexts(ident, ps[1..]);
      assert acc.arguments + h + r == acc.arguments + (h + r);
    }
  }

  /** With every index between 1 and 7, every name gets its ", ": the
      argument list is ", " followed by each labelled param's name. */
  lemma {:induction false} ArgTextsInRange(ident: string -> string, ps: seq<Param>)
    requires IndicesInRange(ps)
    ensures ArgTexts(ident, ps) == Prefixed(", ", ArgNames(ident, ps))
    decreases |ps|
  {
    if ps != [] {
      IndicesTail(ps);
      ArgTextsInRange(ident, ps[1..]);
      ArgNamesCons(ident, ps);
    }
  }

  /** The loop writes one name into the argument list per argument slot of the
      `params` list. */
  lemma {:induction false} ArgNamesCount(ident: string -> string, ps: seq<Param>)
    ensures |ArgNames(ident, ps)| == ParamVector.BoundCount(LayoutOf(ps))
    decreases |ps|
  {
    if ps != [] {
      ArgNamesCount(ident, ps[1..]);
      assert LayoutOf(ps)[1..] == LayoutOf(ps[1..]);
    }
  }

  // ---------------------------------------------------------------------------
  // Reading the generated lists back

  predicate NoComma(s: string) {
    forall j :: 0 <= j < |s| ==> s[j] != ','
  }

  /** No item holds a comma. */
  predicate CommaFree(xs: seq<string>) {
    forall k :: 0 <= k < |xs| ==> NoComma(xs[k])
  }

  /** A naming function that never produces a comma. */
  ghost predicate CommaFreeNames(ident: string -> string) {
    forall text :: NoComma(ident(text))
  }

  /** A sanitised name holds no comma. */
  lemma SanitisedHasNoComma(text: string)
    ensures NoComma(Sanitise(text))
  {
  }

  lemma SanitiseCommaFree()
    ensures CommaFreeNames(Sanitise)
  {
    forall text {
      SanitisedHasNoComma(text);
    }
  }

  lemma {:induction false} ArgNamesCommaFree(ident: string -> string, ps: seq<Param>)
    requires CommaFreeNames(ident)
    ensures CommaFree(ArgNames(ident, ps))
    decreases |ps|
  {
    if ps != [] {
      ArgNamesCommaFree(ident, ps[1..]);
      var head := if Labelled(ps[0]) then [ident(ps[0].labelAttr.value)] else [];
      assert CommaFree(head);
      assert ArgNames(ident, ps) == head + ArgNames(ident, ps[1..]);
    }
  }

  lemma ItemsCommaFree(ident: string -> string, ps: seq<Param>)
    requires CommaFreeNames(ident)
    ensures CommaFree(seq(|ps|, i requires 0 <= i < |ps| => ParamItem(ident, ps[i])))
  {
  }

  lemma {:induction false} JoinCons(sep: string, x: string, xs: seq<string>)
    ensures Join(sep, [x] + xs) == x + Prefixed(sep, xs)
    decreases |xs|
  {
    if xs != [] {
      JoinCons(sep, xs[0], xs[1..]);
      assert ([x] + xs)[1..] == xs;
      assert xs == [xs[0]] + xs[1..];
    }
  }

  lemma SplitJoinComma(xs: seq<string>)
    requires xs != [] && CommaFree(xs)
    ensures Split(Join(", ", xs), ", ") == xs
  {
    SplitJoin(", ", xs);
  }

  /** The argument list after `self` reads back, split at ", ", as `self`
      followed by the names in order, when every index is between 1 and 7 and
      no name holds a comma. */
  lemma ArgumentListParses(ident: string -> string, description: string, ps: seq<Param>)
    requires CommaFreeNames(ident)
    requires IndicesInRange(ps) && Scan(ident, Acc([], "", description), ps).Success?
    ensures Split("self" + Scan(ident, Acc([], "", description), ps).value.arguments, ", ")
            == ["self"] + ArgNames(ident, ps)
  {
    var names := ArgNames(ident, ps);
    ScanArguments(ident, Acc([], "", description), ps);
    ArgTextsInRange(ident, ps);
    assert Scan(ident, Acc([], "", description), ps).value.arguments == "" + Prefixed(", ", names) == Prefixed(", ", names);
    JoinCons(", ", "self", names);
    ArgNamesCommaFree(ident, ps);
    assert CommaFree(["self"] + names);
    SplitJoinComma(["self"] + names);
  }

  /** The items of the `params = [...]` line read back, split at ", ", as the
      items the loop collected, when no name holds a comma. */
  lemma ParamsLineParses(ident: string -> string, description: string, ps: seq<Param>)
    requires CommaFreeNames(ident)
    requires ps != [] && Scan(ident, Acc([], "", description), ps).Success?
    ensures Split(Join(", ", Scan(ident, Acc([], "", description), ps).value.params), ", ")
         == seq(|ps|, i requires 0 <= i < |ps| => ParamItem(ident, ps[i]))
  {
    var items := seq(|ps|, i requires 0 <= i < |ps| => ParamItem(ident, ps[i]));
    assert Scan(ident, Acc([], "", description), ps).value.params == items by {
      ScanParams(ident, Acc([], "", description), ps);
      assert [] + items == items;
    }
    assert Split(Join(", ", items), ", ") == items by {
      ItemsCommaFree(ident, ps);
      SplitJoinComma(items);
    }
  }

  /** For the generator's own sanitiser both lists of a generated method read
      back as written. */
  lemma SanitisedListsParse(description: string, ps: seq<Param>)
    requires IndicesInRange(ps) && ps != [] && Scan(Sanitise, Acc([], "", description), ps).Success?
    ensures Split("self" + Scan(Sanitise, Acc([], "", description), ps).value.arguments, ", ")
            == ["self"] + ArgNames(Sanitise, ps)
    ensures Split(Join(", ", Scan(Sanitise, Acc([], "", description), ps).value.params), ", ")
         == seq(|ps|, i requires 0 <= i < |ps| => ParamItem(Sanitise, ps[i]))
  {
    SanitiseCommaFree();
    ArgumentListParses(Sanitise, description, ps);
    ParamsLineParses(Sanitise, description, ps);
  }

  /** The generated method matches the wrapper shape of module ParamVector: its
      `params` list has one slot per param, `0` in every unlabelled slot, and
      the loop writes as many names into the argument list as the list has
      argument slots. Those names are the method's parameters when every
      index is between 1 and 7 (`ArgumentListParses`). */
  lemma GeneratedWrapperShape(ident: string -> string, description: string, ps: seq<Param>, code: nat)
    requires Scan(ident, Acc([], "", description), ps).Success?
    ensures var params := Scan(ident, Acc([], "", description), ps).value.params;
            var w := ParamVector.Wrapper(code, LayoutOf(ps));
            && |params| == |w.layout|
            && (forall i :: 0 <= i < |params| && w.layout[i].Reserved? ==> params[i] == "0")
            && ParamVector.Arity(w) == |ArgNames(ident, ps)|
  {
    var params := Scan(ident, Acc([], "", description), ps).value.params;
    var items := seq(|ps|, i requires 0 <= i < |ps| => ParamItem(ident, ps[i]));
    ScanParams(ident, Acc([], "", description), ps);
    assert params == [] + items == items;
    var layout := LayoutOf(ps);
    forall i | 0 <= i < |params| && layout[i].Reserved? ensures params[i] == "0" {
      assert !Labelled(ps[i]);
    }
    ArgNamesCount(ident, ps);
  }

  /** A labelled param with index 0 opens the "Args:" section of the
      docstring but gets no ", " in front of its name, so the name is glued
      to whatever precedes it: on its own, the `def` line reads `(self` and
      the name with nothing between them. */
  lemma IndexZeroJoinsSelf(ident: string -> string, description: string, caption: string, text: string)
    requires caption != []
    ensures var name := ident(caption);
            Scan(ident, Acc([], "", description), [Param(Some(caption), Index(0), Some(text))])
            == Success(Acc([name], name, description + ArgsHeader + DocIndent + name + ": " + text))
  {
    var p := Param(Some(caption), Index(0), Some(text));
    var name := ident(caption);
    var acc := Acc([], "", description);
    var next := Acc([name], name, description + ArgsHeader + DocIndent + name + ": " + text);
    assert "" + name == name;
    assert [] + [name] == [name];
    assert ParamStep(ident, acc, p) == Success(next);
    assert [p][1..] == [];
    assert Scan(ident, acc, [p]) == Scan(ident, next, []);
  }

  // ---------------------------------------------------------------------------
  // Methods and the whole file

  lemma PrefixOfAppend(a: string, b: string, p: string)
    requires StartsWith(a, p)
    ensures StartsWith(a + b, p)
  {
    assert (a + b)[..|p|] == a[..|p|];
  }

  lemma ContainsExtended(a: string, b: string, p: string)
    requires Contains(a, p)
    ensures Contains(a + b, p)
  {
    assert (a + b)[..|a|] == a;
    ContainsInPrefix(a + b, |a|, p);
  }

  lemma ContainsAfter(a: string, b: string, p: string)
    requires Contains(b, p)
    ensures Contains(a + b, p)
  {
    var j :| 0 <= j <= |b| && MatchAt(b, p, j);
    assert (a + b)[|a|..] == b;
    MatchShifted(a + b, p, |a|, j);
  }

  lemma ContainsItself(a: string, p: string)
    ensures Contains(a + p, p)
  {
    assert (a + p)[|a|..] == p;
    assert MatchAt(a + p, p, |a|);
  }

  /** A rendered method opens with its `def` line, names the command by the
      given name, and closes with the call to `send_mavlink_command`. */
  lemma RenderShape(name: string, acc: Acc)
    ensures var m := Render(name, acc);
            && StartsWith(m, "    def " + Lower(name) + "(self")
            && Contains(m, "command = mavutil.mavlink." + name + "\n")
            && EndsWith(m, SendLine)
  {
    var def := "    def " + Lower(name) + "(self";
    var cmd := "command = mavutil.mavlink." + name + "\n";
    var d := DefLine(name, acc.arguments);
    var doc := Docstring(acc.desc);
    var c := CommandLine(name);
    var pl := ParamsLine(acc.params);
    assert StartsWith(def + acc.arguments, def) by {
      assert (def + acc.arguments)[..|def|] == def;
    }
    PrefixOfAppend(def + acc.arguments, "):\n", def);
    PrefixOfAppend(d, doc, def);
    PrefixOfAppend(d + doc, c, def);
    PrefixOfAppend(d + doc + c, pl, def);
    PrefixOfAppend(d + doc + c + pl, SendLine, def);
    ContainsItself("        ", cmd);
    ContainsAfter(d + doc, c, cmd);
    ContainsExtended(d + doc + c, pl, cmd);
    ContainsExtended(d + doc + c + pl, SendLine, cmd);
    var m := d + doc + c + pl + SendLine;
    assert m[|m| - |SendLine|..] == SendLine;
  }

  /** After the docstring come the command line, the `params = [...]` line
      of the collected items and the call to `send_mavlink_command`, in that
      order, and nothing else. */
  lemma RenderOrder(name: string, acc: Acc)
    ensures EndsWith(Render(name, acc), CommandLine(name) + ParamsLine(acc.params) + SendLine)
  {
    var head := DefLine(name, acc.arguments) + Docstring(acc.desc);
    var tail := CommandLine(name) + ParamsLine(acc.params) + SendLine;
    EndsWithAppended(head, CommandLine(name), ParamsLine(acc.params), SendLine);
  }

  lemma EndsWithAppended(a: string, b: string, c: string, d: string)
    ensures EndsWith(a + b + c + d, b + c + d)
  {
    assert a + b + c + d == a + (b + c + d);
  }

  /** A generated method opens with its `def` line, names the command by the
      entry's own name, and closes with the call to `send_mavlink_command`. */
  lemma MethodShape(e: Entry)
    requires MethodText(e).Success?
    ensures var m := MethodText(e).value;
            && StartsWith(m, "    def " + Lower(e.name.value) + "(self")
            && Contains(m, "command = mavutil.mavlink." + e.name.value + "\n")
            && EndsWith(m, SendLine)
  {
    var acc := Scan(Sanitise, Acc([], "", Summary(e.description.value)), e.params).value;
    assert MethodText(e).value == Render(e.name.value, acc);
    RenderShape(e.name.value, acc);
  }

  /** A generated method ends with the command line, the `params = [...]`
      line of the items the loop collected, and the send call. */
  lemma MethodOrder(e: Entry)
    requires MethodText(e).Success?
    ensures var items := Scan(Sanitise, Acc([], "", Summary(e.description.value)), e.params).value.params;
            EndsWith(MethodText(e).value, CommandLine(e.name.value) + ParamsLine(items) + SendLine)
  {
    var acc := Scan(Sanitise, Acc([], "", Summary(e.description.value)), e.params).value;
    assert MethodText(e).value == Render(e.name.value, acc);
    RenderOrder(e.name.value, acc);
  }

  lemma {:induction false} MethodsSucceed(entries: seq<Entry>)
    ensures Methods(entries).Success? <==> forall i :: 0 <= i < |entries| ==> EntryOk(entries[i])
    decreases |entries|
  {
    if entries != [] {
      MethodsSucceed(entries[1..]);
      assert forall i :: 1 <= i < |entries| ==> entries[i] == entries[1..][i - 1];
    }
  }

  /** The file is written exactly when the document has a MAV_CMD enum all of
      whose entries are well-formed. */
  lemma GenerateSucceeds(doc: Document)
    ensures Generate(doc).Success? <==>
            FindEnum(doc, "MAV_CMD").Some?
            && forall i :: 0 <= i < |FindEnum(doc, "MAV_CMD").value.entries| ==> EntryOk(FindEnum(doc, "MAV_CMD").value.entries[i])
  {
    match FindEnum(doc, "MAV_CMD")
    case None =>
    case Some(e) =>
      MethodsSucceed(e.entries);
  }
}
