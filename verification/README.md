# MAVLink command path — a Dafny model

This project models the command path of a small MAVLink ground station:

- **`Protocol`** (command_protocol.py). How one MAV_CMD is put on the wire:
  - COMMAND_LONG when parameter slots 6 and 7 both hold floats, COMMAND_INT otherwise;
  - how it is cancelled (COMMAND_CANCEL);
  - how a single COMMAND_ACK becomes a status label such as `"400 : Accepted"`;
  - what `set_mode` sends for MANUAL, AUTO and GUIDED, and what it falls back to.
- **`ParamVector`** and **`Catalog`** (command_messages.py). The 159 `mav_cmd_*` wrapper methods.
  - Each wrapper assigns a fixed MAV_CMD value and a positional `params` list. Each entry of the list is either one of the wrapper's arguments or the literal `0`.
  - `ParamVector` states what holds for every list of that shape.
  - `Catalog` transcribes all 159 wrappers as a table sorted by MAV_CMD value, with one source line per row.
- **`PyStr`** and **`Generator`** (import.py). The generator turns the MAV_CMD entries of the MAVLink message-definition XML into those wrapper methods. It:
  - rewrites each param label into a name of lower-case letters, digits and `_` (lowercase, `continue` → `keep_going`, leading digit group through `int`, runs of other characters → `_`). The name may be empty, may start with a digit and may be a Python keyword;
  - builds the argument list and the `params` list;
  - renders the method text.
- **`Labels`** (extract_parameters_labels.py). The label → description dictionary built from the params of the MAV_CMD enum, where the last write wins.
- **Supporting modules:**
  - `Values`: `Option`, `Result`, Python exceptions, parameter values;
  - `Decimal`: `str(int)` and `int(str)` on digit strings;
  - `Xml`: the parsed document.

Python exceptions are values of `Result<T>`: `Failure(TypeError)`, `Failure(IndexError)` and so on. A parameter value is `IntV(int)` or `FloatV(Float)`. A float is an opaque 64-bit pattern, so "is this a float" is a tag test. Nothing is computed on floats.

The connection, the XML download and parse, and the file writes are not modelled:

- Each send returns the record of the frame it would hand to pymavlink.
- The COMMAND_ACK that `acknowledge_mavlink_command` would receive is an input.
- Whether a `set_mode` send raises is an input.
- The generators take an already-parsed document.

Where the code and its own docstrings disagree, the model follows the code. A non-matching COMMAND_ACK is consumed and the method returns `None`. It does not wait for the matching one.

## Model

| member | source | states |
|---|---|---|
| `Protocol.Send` | command_protocol.py:12-35 | sending either fails with IndexError and nothing else, or produces a COMMAND_LONG or COMMAND_INT frame |
| `Protocol.SelectForm` | command_protocol.py:16 | the long form is chosen only for seven or more slots with floats in slots 6 and 7; the int form only for six or more slots without that pair; the only failure is IndexError |
| `Protocol.LongFormExactlyWhenBothFloat` | command_protocol.py:16-24 | COMMAND_LONG is chosen if and only if slots 6 and 7 exist and both hold floats; it carries confirmation 0 |
| `Protocol.IntFormOtherwise` | command_protocol.py:25-35 | in every other successful case the frame is COMMAND_INT with the caller's frame, current 0 and autocontinue 0 |
| `Protocol.IndexErrorExactly` | command_protocol.py:16 | IndexError is raised exactly for lists of five entries or fewer, or of six entries with a float in slot 6; six entries with an int in slot 6 go out as COMMAND_INT, because `and` short-circuits |
| `Protocol.LongFormIgnoresFrame` | command_protocol.py:16-24 | the COMMAND_LONG frame does not depend on the frame argument |
| `Protocol.SendRoundTrip` | command_protocol.py:6-35 | decoding a sent frame gives target (1, 1), the command code and the parameter list unchanged |
| `Protocol.Cancel` | command_protocol.py:37-48 | cancel produces one COMMAND_CANCEL to (1, 1) carrying only the command code |
| `Protocol.Classify` | command_protocol.py:57-72 | a named result is recognised only for its own MAV_RESULT code |
| `Protocol.ClassifyResultCode` | command_protocol.py:57-70 | each of the seven MAV_RESULT values is recognised from its code |
| `Protocol.Suffix` | command_protocol.py:57-70 | every result's label suffix reads back as that result |
| `Protocol.Acknowledge` | command_protocol.py:50-74 | a status is returned if and only if the ack is for the requested command |
| `Protocol.ReceiveAck` | command_protocol.py:55-56 | the receive blocks exactly on an empty queue; otherwise it consumes exactly the first ack and answers for it |
| `Protocol.AckLabelRoundTrip` | command_protocol.py:56-74 | a matching ack's label parses back as the requested command and the reported result |
| `Protocol.LabelsSeparateResults` | command_protocol.py:57-72 | two acks get the same label if and only if they report the same result; every unnamed code gets the MAV_RESULT_FAILED label |
| `Protocol.LabelNamesCommand` | command_protocol.py:58-72 | the label starts with `str(command) + " : "` |
| `Protocol.NonMatchingAckFirst` | command_protocol.py:55-74 | a non-matching ack ahead of the matching one is consumed with no status; only a second call sees the match |
| `Protocol.SetMode` | command_protocol.py:90-135 | set_mode acts for exactly MANUAL, AUTO and GUIDED, sent or by fallback assignment, and always requests that same mode; the fallback happens exactly when the send raises |
| `Protocol.SetModeFrames` | command_protocol.py:94-134 | MANUAL sends DO_SET_MODE (176) to component 250 with param1 CUSTOM_MODE_ENABLED and zeros; GUIDED sends NAV_GUIDED_ENABLE (92) with param1 1 and zeros; AUTO sends set_mode_send to system 1 |
| `Decimal.ShowNat` | command_protocol.py:58 | `str` of a natural number is a canonical digit string that starts with 0 only for 0 |
| `Decimal.ReadShow` | command_protocol.py:58 | the `str` of any command code reads back as that code |
| `Decimal.ShowInjective` | command_protocol.py:58 | different command codes give different label prefixes |
| `Decimal.ValueOfShowNat` | command_protocol.py:58 | the digits of `str(n)` have the value n |
| `Decimal.DropLeadingZeros` | import.py:41 | dropping leading zeros leaves a canonical suffix of the digits |
| `Decimal.ValueOfDropLeadingZeros` | import.py:41 | dropping leading zeros keeps the value |
| `Decimal.ShowNatOfValue` | import.py:41 | a canonical digit string is the `str` of its own value |
| `Decimal.IntThenStr` | import.py:41 | `str(int(d))` of a digit group is the group without its leading zeros |
| `ParamVector.Fill` | command_messages.py:18 | the evaluated list has one entry per `params` entry and 0 in every reserved entry |
| `ParamVector.BoundValuesOfFill` | command_messages.py:17-18 | reading the argument entries back left to right gives the arguments |
| `ParamVector.FillOfBoundValues` | command_messages.py:17-18 | a list with 0 in every reserved entry is the evaluation of its own argument entries |
| `ParamVector.Build` | command_messages.py:6-18 | a wrapper call fails with TypeError exactly for the wrong number of arguments; otherwise the list has the layout's length and 0 in reserved entries |
| `ParamVector.BuildRoundTrip` | command_messages.py:6-18 | every argument lands in its slot unchanged, in declaration order |
| `ParamVector.BuildFromVector` | command_messages.py:6-18 | any list with 0 in the reserved slots is what the wrapper builds from its argument slots |
| `ParamVector.BuildInjective` | command_messages.py:6-18 | two argument lists build the same list if and only if they are equal |
| `ParamVector.NoArgumentsAllReserved` | command_messages.py:73 | a layout with no arguments is all reserved entries |
| `ParamVector.FillAllBound` | command_messages.py:18 | a layout of arguments only evaluates to the arguments themselves |
| `ParamVector.FullyBound` | command_messages.py:6-18 | a fully bound wrapper sends its arguments as they are |
| `ParamVector.NoArgumentsAllZero` | command_messages.py:68-73 | an argumentless wrapper builds integer zeros only |
| `ParamVector.Issue` | command_messages.py:17-20 | a wrapper call with the frame supplied sends the wrapper's own code to (1, 1) with exactly the built list; the wrong arity is TypeError |
| `ParamVector.PadToSeven` | command_protocol.py:12-35 | padding keeps the list as a prefix of seven slots and adds only zeros |
| `ParamVector.ReservedSlot7ForcesIntForm` | command_messages.py:1604 | a literal 0 in slot 7 forces COMMAND_INT with the caller's frame, whatever the arguments |
| `ParamVector.IssueAsWritten` | command_messages.py:4-20 | a wrapper call as written always fails, with TypeError when the number of arguments is wrong |
| `ParamVector.IssueMixedIn` | command_messages.py:20 | with `Protocol`'s three-parameter send inherited, the two-argument call always raises TypeError |
| `ParamVector.WrapperCallAlwaysRaises` | command_messages.py:4-20 | as written, every wrapper call raises: TypeError for the wrong number of arguments, and AttributeError otherwise, because `CommandProtocol` has no `send_mavlink_command`; on a class that also inherits `Protocol`, the two-argument call raises TypeError |
| `ParamVector.ShortVectorsRaiseIndexError` | command_protocol.py:16 | a wrapper whose list has five entries or fewer raises IndexError whatever the arguments |
| `ParamVector.PaddedNeverIndexError` | command_protocol.py:12-35 | padded to seven slots, every correctly called wrapper reaches the wire with its code and values; seven-slot wrappers are unaffected |
| `ParamVector.IssuePadded` | command_protocol.py:12-35 | the padded call fails with TypeError for the wrong arity, and a frame it sends carries the wrapper's code to (1, 1) |
| `Catalog.TableInOrder` | command_messages.py:6-1901 | the table has one row per wrapper (159), MAV_CMD values strictly increase, and no list has more than seven entries |
| `Catalog.WrapperOf` | command_messages.py:6-1901 | no wrapper writes more than the seven slots of a command frame |
| `Catalog.CodesDistinct` | command_messages.py:6-1901 | two wrappers send the same MAV_CMD value if and only if they are the same wrapper |
| `Catalog.FindCode` | command_messages.py:6-1901 | the search from a row finds only a wrapper with the code, or reports that no later wrapper has it |
| `Catalog.FromCode` | command_messages.py:6-1901 | the lookup by MAV_CMD value names a wrapper with that value, and finds none exactly when no wrapper has it |
| `Catalog.CodeRoundTrip` | command_messages.py:6-1901 | each wrapper is found again from the code it sends |
| `Catalog.TakeoffFill` | command_messages.py:102 | takeoff's layout takes five arguments and places them in slots 1, 4, 5, 6 and 7 |
| `Catalog.TakeoffBuild` | command_messages.py:92-102 | takeoff builds `[pitch, 0, 0, yaw, lat, lon, alt]` |
| `Catalog.TakeoffScenario` | command_messages.py:92-104 | takeoff with pitch 5.0, yaw NaN, lat 47.0, lon 8.0 and alt 50.0 goes out as COMMAND_LONG 22 carrying exactly those values |
| `Catalog.ReservedSlotExamples` | command_messages.py:77-1037 | takeoff slots 2 and 3, land slot 3, and actuator test slots 3, 4, 6 and 7 are reserved |
| `Catalog.FencesGoOutAsInt` | command_messages.py:1595-1645 | the four fence-vertex and fence-circle wrappers always go out as COMMAND_INT with the caller's frame |
| `Catalog.PairFill` | command_messages.py:1057 | a two-argument list is the two arguments |
| `Catalog.ArmDisarmNeverSent` | command_messages.py:1050-1059 | arm/disarm builds two slots and raises IndexError; padded, it goes out as COMMAND_INT 400 with both values |
| `Catalog.SevenReservedFill` | command_messages.py:73 | seven reserved entries take no argument and evaluate to seven integer zeros |
| `Catalog.SevenZeroWrappers` | command_messages.py:68-1662 | return to launch, NAV_LAST, logging stop and UAVCAN node info take no argument and build seven integer zeros |
| `Catalog.PrearmChecksEmpty` | command_messages.py:1061-1066 | the pre-arm check takes no argument and builds an empty list |
| `Catalog.FullyBoundWrappers` | command_messages.py:6-587 | waypoint, orbit and reposition send their seven arguments unchanged, in order |
| `Catalog.ShortLayouts` | command_messages.py:647-1565 | ROI by system id and arm/disarm build 2 slots, pre-arm checks 0, camera mode 5, the circle submode 6 |
| `Catalog.CircleFill` | command_messages.py:1565 | the circle submode takes three arguments into slots 1, 5 and 6 |
| `Catalog.CircleSubmodeNeedsIntLongitude` | command_messages.py:1557-1568 | the circle submode raises IndexError if and only if its longitude is a float, and otherwise goes out as COMMAND_INT 4001 unchanged |
| `PyStr.Lower` | import.py:30 | lowering keeps the length, leaves no upper-case letter, keeps every other character, and moves each ASCII capital to its lower-case letter |
| `PyStr.RStrip` | import.py:31 | `rstrip` keeps a prefix, ends in a non-space, and removes only whitespace |
| `PyStr.LStrip` | extract_parameters_labels.py:25 | `lstrip` keeps a suffix, starts with a non-space, and removes only whitespace |
| `PyStr.Strip` | extract_parameters_labels.py:25 | `strip` gives a slice of the text with only whitespace before and after it, and no whitespace at either end; it is empty exactly for all-whitespace text |
| `PyStr.StripOfUnique` | extract_parameters_labels.py:25 | at most one text is a stripped form of a given text, so `strip` is pinned down by its contract |
| `PyStr.StripFixedPoints` | extract_parameters_labels.py:25 | `strip` leaves a text unchanged exactly when it is empty or neither starts nor ends with whitespace |
| `PyStr.Find` | import.py:58 | the search returns the first occurrence, and none exactly when there is none |
| `PyStr.SplitJoin` | import.py:58 | `PyStr.Join` (`sep.join`) is inverted by `PyStr.Split`: joining items free of the separator's first character and splitting again gives the items back |
| `PyStr.SplitAtFirst` | import.py:58 | the first separator after an item free of its first character ends that item |
| `PyStr.ReplaceAll` | import.py:40 | a text shorter than the pattern is unchanged; a text starting with the pattern starts with the replacement; a same-length replacement keeps the length |
| `PyStr.ReplaceCharPointwise` | import.py:40 | replacing a space by `_` is a character-by-character substitution |
| `PyStr.ReplaceAbsent` | import.py:40 | a text without the pattern is unchanged by the replacement |
| `PyStr.ReplacedPrefix` | import.py:40 | the replacement creates no new prefix that avoids the replacement's first letter |
| `PyStr.ReplaceLeavesNoPattern` | import.py:40 | after replacing "continue" by "keep_going" no "continue" is left |
| `PyStr.NonAlnumRun` | import.py:42 | the run of non-alphanumerics at the start is maximal |
| `PyStr.Collapse` | import.py:42 | the collapse is only letters, digits and `_`, never has `__`, is empty only for empty input, and starts with `_` exactly when the input starts with a non-alphanumeric |
| `PyStr.CollapseRun` | import.py:42 | a non-empty run of characters outside `[A-Za-z0-9]` becomes one `_` |
| `PyStr.CollapseAppend` | import.py:42 | the collapse of two texts joined at a letter or digit is the two collapses joined; with `CollapseRun` this fixes every result: letters and digits stay in place, each maximal run of other characters becomes one `_`, so `a!` gives `a_` |
| `PyStr.CollapseKeepsAlnums` | import.py:42 | the collapse keeps every letter and digit, in order |
| `PyStr.CollapseFixedPoints` | import.py:42 | the collapse leaves a text unchanged exactly when it is letters, digits and single underscores |
| `PyStr.CollapseIdempotent` | import.py:42 | collapsing twice is collapsing once |
| `PyStr.CollapsedPrefix` | import.py:42 | an alphanumeric prefix of the collapse was a prefix of the input |
| `PyStr.CollapseAddsNothing` | import.py:42 | the collapse creates no occurrence of an alphanumeric word |
| `PyStr.DigitRun` | import.py:41 | the digit run at the start is maximal |
| `PyStr.TryDigitGroup` | import.py:41 | the backtracking search finds the longest digit group followed by a word character, or proves there is none |
| `PyStr.LeadingIntClosedForm` | import.py:41 | `PyStr.LeadingInt`, the backtracking rewrite of line 41, equals the closed form `DigitGroupRewrite`, which needs no search |
| `PyStr.LeadingIntWholeRun` | import.py:41 | a digit run followed by a word character loses its leading zeros |
| `PyStr.LeadingIntGivesBack` | import.py:41 | a run of two or more digits at the end, or before a non-word character, gives back its last digit, and the rest loses its leading zeros |
| `PyStr.LeadingIntNoGroup` | import.py:41 | without a digit followed by a word character, nothing changes |
| `PyStr.LeadingIntKeepsRest` | import.py:41 | the digit rewrite changes nothing in a text not starting with a digit, and whatever follows the digit run comes out unchanged at the end |
| `PyStr.LeadingIntAddsNothing` | import.py:41 | the digit rewrite creates no occurrence of a word that starts with a non-digit |
| `PyStr.LeadingIntFixed` | import.py:41 | any text not starting with 0 followed by another digit is unchanged by the digit rewrite |
| `PyStr.KeptGroup` | import.py:41 | a digit group that is a single digit or does not start with 0 comes back from `str(int(...))` unchanged |
| `PyStr.RespelledShape` | import.py:40 | after `PyStr.Respelled` (lowering and the two replacements) there is no upper-case letter and no "continue" |
| `PyStr.FinishShape` | import.py:40-42 | stripping, the digit rewrite and the collapse keep a text free of upper case and "continue" |
| `PyStr.SanitiseFixedPoint` | import.py:40-42 | a name already in lower snake case, without "continue" and not starting with 0 and another digit, is unchanged |
| `PyStr.RespelledFixed` | import.py:40 | lowering and the two replacements leave a lower snake-case name without "continue" unchanged |
| `PyStr.Sanitise` | import.py:40-42 | a sanitised label holds only lower-case letters, digits and `_`, never `__`, and never contains "continue" |
| `PyStr.SanitiseSpace` | import.py:40-42 | a label of one space gives `_`, because the space becomes `_` before `rstrip` |
| `PyStr.SanitiseTab` | import.py:40-42 | a label of one tab gives the empty name, because `rstrip` removes it |
| `Xml.ReadIndex` | import.py:45 | `int(index)` succeeds exactly for an integer attribute; a missing one is TypeError and a malformed one ValueError |
| `Xml.FindEnum` | import.py:20 | the lookup finds the first enum with the name, and none exactly when no enum has it |
| `Generator.ParamStep` | import.py:34-56 | one param step fails exactly for a labelled param without an integer index (TypeError/ValueError) or without text (TypeError), and appends exactly that param's item to the list, whatever function names the labels |
| `Generator.Scan` | import.py:34-56 | a loop that gets through adds one `params` item per param |
| `Generator.ScanSucceeds` | import.py:34-56 | the loop over an entry's params gets through if and only if every labelled param has an integer index and a text |
| `Generator.ScanParams` | import.py:34-56 | the `params` list has one item per param, in order: the label's name, or "0" when unlabelled |
| `Generator.StepArguments` | import.py:50-53 | one step adds a labelled param's name to the argument list, preceded by ", " exactly when its index is in 1..7; an unlabelled param adds nothing |
| `Generator.ScanArguments` | import.py:50-53 | for any params the loop gets through, the argument list is the concatenation of each labelled param's name, each preceded by ", " exactly when its index is in 1..7 |
| `Generator.ArgTextsInRange` | import.py:50-53 | when every index is in 1..7, the argument list is ", " then the name, for every labelled param in order |
| `Generator.LayoutOf` | import.py:54-56 | the generated list has one slot per param, an argument slot exactly for the labelled ones |
| `Generator.ArgNamesCount` | import.py:50-56 | the loop writes as many names into the argument list as the `params` list has argument slots; they are the method's parameters only when every index is in 1..7 |
| `Generator.ArgNamesCommaFree` | import.py:50-53 | when the naming function never yields a comma, no argument name holds one |
| `Generator.SanitiseCommaFree` | import.py:40-42 | the sanitiser never yields a comma |
| `Generator.SanitisedHasNoComma` | import.py:40-42 | a sanitised label holds no comma |
| `Generator.ItemsCommaFree` | import.py:54-56 | when the naming function never yields a comma, no `params` item holds one |
| `Generator.JoinCons` | import.py:58-60 | joining `self` and the names equals `self` followed by ", name" for each name |
| `Generator.SplitJoinComma` | import.py:58 | a comma-free list joined by ", " splits back into itself |
| `Generator.ArgumentListParses` | import.py:50-60 | with a comma-free naming function, the `(self...)` argument list splits back into `self` and the names in order |
| `Generator.ParamsLineParses` | import.py:58 | with a comma-free naming function and a non-empty param list, the `params = [...]` line splits back into the collected items |
| `Generator.SanitisedListsParse` | import.py:40-58 | with the generator's own sanitiser, a non-empty param list and every index in 1..7, both lists read back: `self` and the sanitised labels, and the `params` items |
| `Generator.GeneratedWrapperShape` | import.py:50-64 | the generated method has the wrapper shape: one slot per param, "0" in unlabelled slots, and as many names in the argument list as argument slots; those names are the parameters only when every index is in 1..7 |
| `Generator.IndexZeroJoinsSelf` | import.py:45-53 | a labelled param with index 0 opens the Args section but gets no ", ", so its name is glued to `self` |
| `Generator.Summary` | import.py:31 | the summary is the description with every newline replaced by a space and the trailing whitespace removed: a pointwise prefix, whitespace-only after it, not ending in whitespace |
| `Generator.MethodText` | import.py:26-64 | an entry without a name or a description raises AttributeError; an entry renders if and only if it has both and well-formed labelled params |
| `Generator.RenderShape` | import.py:58-64 | a method rendered by `Generator.Render` opens with its `def` line, contains the `command = mavutil.mavlink.<name>` line, and ends with the `send_mavlink_command` call |
| `Generator.RenderOrder` | import.py:58-64 | a method rendered by `Generator.Render` ends with the command line, the `params = [...]` line of its items and the send call, in that order |
| `Generator.MethodShape` | import.py:58-64 | a method opens with `def <lowered name>(self`, names the command by the entry's own name, and ends with the `send_mavlink_command` call |
| `Generator.MethodOrder` | import.py:54-64 | a generated method ends with the command line, the `params = [...]` line of the items its loop collected, and the send call |
| `Generator.MethodsSucceed` | import.py:26-64 | the loop over entries gets through if and only if every entry is well-formed |
| `Generator.Generate` | import.py:20-24 | without a MAV_CMD enum the generator raises AttributeError; the file text starts with the import and class header |
| `Generator.GenerateSucceeds` | import.py:20-64 | the file is produced exactly when a MAV_CMD enum exists and all its entries are well-formed |
| `Labels.Description` | extract_parameters_labels.py:25 | a description is the strip of a non-empty text, and "" for a missing or empty text |
| `Labels.AddParamsAppend` | extract_parameters_labels.py:22-27 | folding two lists of params is folding their concatenation |
| `Labels.AddEntriesFlat` | extract_parameters_labels.py:22-27 | the loop over entries is one pass over their params in order |
| `Labels.AddEnumsFlat` | extract_parameters_labels.py:20-27 | the three nested loops are one pass over the MAV_CMD params in document order |
| `Labels.CommandParamsAppend` | extract_parameters_labels.py:20-21 | the MAV_CMD params of two document parts are those of each part, in order |
| `Labels.AddParamsKeys` | extract_parameters_labels.py:23-27 | a key is present if and only if it was before or some param carries it as its label |
| `Labels.AddParamsUntouched` | extract_parameters_labels.py:26-27 | a key no param carries keeps its value |
| `Labels.AddParamsLastWins` | extract_parameters_labels.py:27 | the last param carrying a label decides its value |
| `Labels.CollectKeys` | extract_parameters_labels.py:19-27 | the dictionary has a key exactly for each raw label some MAV_CMD param carries |
| `Labels.CollectLastWins` | extract_parameters_labels.py:19-27 | each key maps to the description of the last MAV_CMD param with that label |
| `Labels.OtherEnumsIgnored` | extract_parameters_labels.py:21 | enums other than MAV_CMD, before or after, do not change the dictionary |
| `Labels.RecordTrimmed` | extract_parameters_labels.py:24-27 | one turn of the innermost loop keeps every value empty or stripped |
| `Labels.AddParamsValuesStripped` | extract_parameters_labels.py:25-27 | the fold keeps every value empty or stripped |
| `Labels.Collect` | extract_parameters_labels.py:19-27 | the dictionary is one pass over the MAV_CMD params in document order, and every stored value is empty or free of surrounding whitespace |

## Left out

- The MAVLink connection is not modelled: `mavlink_connection`, `command_long_send`, `command_int_send`, `command_cancel_send` and `set_mode_send` are frame records. Wire packing and the widths of the wire fields are not modelled either.
- `recv_match` is not modelled: the COMMAND_ACK is an input. The method calls `self.recv_match`, which `Protocol` does not define, so as written it raises AttributeError before any ack is read (command_protocol.py:55). The model describes the evident intent.
- The blocking receive has no timeout; an empty queue is modelled as `Blocked`.
- `manual_command` (command_protocol.py:76-88) is a pass-through into pymavlink's encoder with no checks. It sends through `self.mav`, which does not exist.
- The import of `MavCmd` at command_protocol.py:3 names a class command_messages.py does not define, so the module cannot be imported as written. The model treats the classes as loaded.
- The wrappers pass their arguments as one list. Whether pymavlink would accept a list in place of seven positional parameters is pymavlink's business and not modelled.
- Floating-point values, NaN included, are opaque 64-bit patterns; no arithmetic is done on them.
- The numeric value of MAV_MODE_AUTO_GUIDED is not modelled; the AUTO frame is a dedicated record.
- The MAV_CMD and MAV_RESULT numeric values are those of the MAVLink common message set. pymavlink's tables are not part of this model.
- The wrappers' docstrings are not modelled.
- `PyStr.Lower`: only ASCII letters are lowered; Python's `str.lower` also lowers other Unicode letters.
- `PyStr.IsWord`: `\d` and `\w` are read as ASCII classes. Python's `re` module matches Unicode digits and letters by default.
- `Xml.ReadIndex`: how `int()` reads an attribute (signs, surrounding whitespace, underscores) is abstracted into "an integer", "missing" or "malformed".
- The XML download, the ElementTree parse, the `print` calls and the writes of common.py and the JSON file are left out. The document is a list of enums holding entries holding params. Nesting deeper than `iter` or `findall` would reach is not modelled.
- `Generator.ArgumentListParses`: stated only for params whose indices are all in 1..7. `Generator.IndexZeroJoinsSelf` shows what happens otherwise.
- `Generator.SanitisedListsParse`: stated only for params whose indices are all in 1..7, for the same reason as `ArgumentListParses`, and only for a non-empty param list, as for `ParamsLineParses`.
- `Generator.ParamsLineParses`: stated only for a non-empty param list. For an entry without params the line is `params = []`, and splitting the empty text gives one empty item, not an empty list.
- `Generator.ArgNamesCount`: counts the names the loop writes into the argument list. With an index outside 1..7 a name is written without a ", " before it and runs into the previous name or into `self`, so the method then declares fewer parameters than the count; the model does not count the parameters of such a `def` line.
- `Generator.GeneratedWrapperShape`: its arity clause counts the names written into the argument list. Those are the method's parameters only when every index is in 1..7, as for `ArgNamesCount`.
- `PyStr.Sanitise`: the result is not always a valid Python identifier. A label of tabs or newlines gives "" (a label of spaces gives `_`), a label such as "1st" gives a name starting with a digit, and a label such as "class" gives a keyword. The generated method is then not valid Python; the model does not check Python's grammar.
- `PyStr.ReplaceAll`: its contract does not state the full left-to-right replacement. `PyStr.ReplaceAbsent`, `PyStr.ReplacedPrefix`, `PyStr.ReplaceCharPointwise` and `PyStr.ReplaceLeavesNoPattern` state the uses the generator makes of it.
- The loop over an entry's params takes the naming function as a parameter. The generator applies it to `PyStr.Sanitise` (import.py:40-42); lemmas that hold for any naming function are stated that way.

## Findings

| source | as written | input that shows it | evidently intended | confidence | as-written member | corrected member |
|---|---|---|---|---|---|---|
| command_messages.py:4-20 | every wrapper calls `self.send_mavlink_command(command, params)`, but `CommandProtocol` derives from `object` alone and defines no such method; the only one, `Protocol.send_mavlink_command`, takes `(command, params, frame)` (command_protocol.py:12) | `mav_cmd_nav_takeoff(5.0, nan, 47.0, 8.0, 50.0)` raises AttributeError; on a class that also inherits `Protocol` it raises TypeError for the missing `frame` | the wrapper class inherits the send and passes a coordinate frame on to it | not executed | `ParamVector.WrapperCallAlwaysRaises` (about `ParamVector.IssueAsWritten` and `ParamVector.IssueMixedIn`) | `ParamVector.Issue`, with `Catalog.TakeoffScenario` |
| command_protocol.py:16 | the transport test reads `params[5]` (and `params[6]`) without checking the length, while several wrappers build fewer than six or seven entries (command_messages.py:654, 1057, 1066, 1249, 1565) | `mav_cmd_component_arm_disarm(1, 0)` builds `[1, 0]`, so even with a frame the send raises IndexError | short lists are padded with 0 up to the seven slots of COMMAND_LONG/COMMAND_INT | not executed | `ParamVector.ShortVectorsRaiseIndexError`, with `Catalog.ArmDisarmNeverSent` | `ParamVector.PaddedNeverIndexError` (about `ParamVector.IssuePadded`) |
