/**
 * The pure parts of the command-line client (chimedb/dataflag/client.py):
 * the parameter converters, the metadata a `flag create` or `flag edit`
 * command puts on a flag, the time window of `flag list`, and the
 * indentation of dumped metadata.
 */
module Cli {
  import opened Values
  import opened Records

  const DescriptionKey := "description"
  const UserKey := "user"

  // ---------------------------------------------------------------------
  // Parameter converters
  // ---------------------------------------------------------------------

  /**
   * `ListOfType.convert`, given the result of `ast.literal_eval` on the
   * text (None when it does not parse): the list itself when every element
   * is an instance of `t`.
   */
  function ListOfTypeConvert(parsed: Option<PyValue>, t: PyType): (r: Result<seq<PyValue>>)
    ensures r.Ok? <==>
      parsed.Some? && parsed.value.PList? && forall k :: 0 <= k < |parsed.value.items| ==> IsInstance(parsed.value.items[k], t)
    ensures r.Ok? ==> parsed == Some(PList(r.value))
    ensures (parsed.None? || !parsed.value.PList?) ==> r == Err(BadParameter("list"))
    ensures r.Err? && parsed.Some? && parsed.value.PList? ==> r == Err(BadParameter("type"))
  {
    if parsed.None? || !parsed.value.PList? then Err(BadParameter("list"))
    else if AllInstances(parsed.value.items, t) then Ok(parsed.value.items)
    else Err(BadParameter("type"))
  }

  /** `all([isinstance(x, t) for x in items])`. */
  function AllInstances(items: seq<PyValue>, t: PyType): (b: bool)
    ensures b <==> forall k :: 0 <= k < |items| ==> IsInstance(items[k], t)
  {
    if items == [] then true else IsInstance(items[0], t) && AllInstances(items[1..], t)
  }

  /** Booleans pass an integer-list option, since `bool` is a subclass of `int`. */
  lemma BooleansPassIntegerLists(items: seq<PyValue>)
    requires forall k :: 0 <= k < |items| ==> items[k].PBool? || items[k].PInt?
    ensures ListOfTypeConvert(Some(PList(items)), IntType) == Ok(items)
  {
  }

  /**
   * `JsonDictType.convert`, given the result of `json.loads` on the text
   * (None when it is not JSON): the object's entries.
   */
  function JsonDictConvert(parsed: Option<PyValue>): (r: Result<Metadata>)
    ensures r.Ok? <==> parsed.Some? && parsed.value.PDict?
    ensures r.Ok? ==> parsed == Some(PDict(r.value))
    ensures parsed.None? ==> r == Err(BadParameter("json"))
    ensures parsed.Some? && !parsed.value.PDict? ==> r == Err(BadParameter("dict"))
  {
    if parsed.None? then Err(BadParameter("json"))
    else if !parsed.value.PDict? then Err(BadParameter("dict"))
    else Ok(parsed.value.entries)
  }

  // ---------------------------------------------------------------------
  // flag create / flag edit
  // ---------------------------------------------------------------------

  /** `if v: md[key] = v`. */
  function SetIf(md: Metadata, key: string, v: PyValue): Metadata {
    if Truthy(v) then md[key := v] else md
  }

  lemma MetadataKeysDistinct()
    ensures DescriptionKey != InstrumentKey && DescriptionKey != InputsKey && DescriptionKey != FreqKey
    ensures DescriptionKey != UserKey && InstrumentKey != InputsKey && InstrumentKey != FreqKey
    ensures InstrumentKey != UserKey && InputsKey != FreqKey && InputsKey != UserKey && FreqKey != UserKey
  {
    assert DescriptionKey[0] == 'd' && InstrumentKey[1] == 'n' && InputsKey[2] == 'p' && FreqKey[0] == 'f' && UserKey[0] == 'u';
  }

  /** The keys a command sets from its optional arguments: those given with a truthy value. */
  function OptionalKeys(description: PyValue, instrument: PyValue, inputs: PyValue, freq: PyValue): set<string> {
    (if Truthy(description) then {DescriptionKey} else {})
    + (if Truthy(instrument) then {InstrumentKey} else {})
    + (if Truthy(inputs) then {InputsKey} else {})
    + (if Truthy(freq) then {FreqKey} else {})
  }

  /** The keys `flag edit` overwrites: the truthy optional arguments and a truthy user. */
  function EditedKeys(description: PyValue, user: PyValue, instrument: PyValue, inputs: PyValue, freq: PyValue): set<string> {
    OptionalKeys(description, instrument, inputs, freq) + (if Truthy(user) then {UserKey} else {})
  }

  /** The field arguments written over `md` in turn, each only when truthy. */
  function SetFields(md: Metadata, description: PyValue, user: PyValue, instrument: PyValue, inputs: PyValue, freq: PyValue): Metadata {
    SetIf(SetIf(SetIf(SetIf(SetIf(md, DescriptionKey, description), UserKey, user), InstrumentKey, instrument), InputsKey, inputs), FreqKey, freq)
  }

  lemma SetFieldsKeys(md: Metadata, description: PyValue, user: PyValue, instrument: PyValue, inputs: PyValue, freq: PyValue)
    ensures SetFields(md, description, user, instrument, inputs, freq).Keys == md.Keys + EditedKeys(description, user, instrument, inputs, freq)
  {
  }

  /** Each truthy field argument is stored under its key. */
  predicate FieldsWritten(m: Metadata, description: PyValue, user: PyValue, instrument: PyValue, inputs: PyValue, freq: PyValue) {
    && (Truthy(description) ==> DescriptionKey in m && m[DescriptionKey] == description)
    && (Truthy(user) ==> UserKey in m && m[UserKey] == user)
    && (Truthy(instrument) ==> InstrumentKey in m && m[InstrumentKey] == instrument)
    && (Truthy(inputs) ==> InputsKey in m && m[InputsKey] == inputs)
    && (Truthy(freq) ==> FreqKey in m && m[FreqKey] == freq)
  }

  /** Every entry of `src` outside `written` is in `m` unchanged. */
  predicate KeepsEntries(m: Metadata, src: Metadata, written: set<string>) {
    forall k :: k in src && k !in written ==> k in m && m[k] == src[k]
  }

  lemma SetFieldsValues(md: Metadata, description: PyValue, user: PyValue, instrument: PyValue, inputs: PyValue, freq: PyValue)
    ensures FieldsWritten(SetFields(md, description, user, instrument, inputs, freq), description, user, instrument, inputs, freq)
  {
    MetadataKeysDistinct();
  }

  lemma SetFieldsKeeps(md: Metadata, description: PyValue, user: PyValue, instrument: PyValue, inputs: PyValue, freq: PyValue)
    ensures KeepsEntries(SetFields(md, description, user, instrument, inputs, freq), md, EditedKeys(description, user, instrument, inputs, freq))
  {
  }

  /**
   * `m` is what `flag create` stores over the extra metadata `base`: the
   * truthy optional arguments, the user entry, and every other entry of
   * `base` unchanged.
   */
  predicate CreatedMetadata(m: Metadata, base: Metadata, description: PyValue, instrument: PyValue, inputs: PyValue,
                            freq: PyValue, userValue: PyValue) {
    && m.Keys == base.Keys + OptionalKeys(description, instrument, inputs, freq) + {UserKey}
    && UserKey in m && m[UserKey] == userValue
    && FieldsWritten(m, description, PNone, instrument, inputs, freq)
    && KeepsEntries(m, base, OptionalKeys(description, instrument, inputs, freq) + {UserKey})
  }

  lemma CreatedMetadataHolds(base: Metadata, description: PyValue, instrument: PyValue, inputs: PyValue,
                             freq: PyValue, userValue: PyValue)
    ensures CreatedMetadata(SetFields(base, description, PNone, instrument, inputs, freq)[UserKey := userValue],
                            base, description, instrument, inputs, freq, userValue)
  {
    SetFieldsKeys(base, description, PNone, instrument, inputs, freq);
    SetFieldsValues(base, description, PNone, instrument, inputs, freq);
    SetFieldsKeeps(base, description, PNone, instrument, inputs, freq);
    MetadataKeysDistinct();
  }

  /**
   * `after` is what `flag edit` leaves of metadata `before` given the
   * extra dictionary `update`: the truthy field arguments, then the
   * entries of `update`, then the remaining entries of `before`.
   */
  predicate EditedMetadata(after: Metadata, before: Metadata, update: Metadata, description: PyValue, user: PyValue,
                           instrument: PyValue, inputs: PyValue, freq: PyValue) {
    && after.Keys == before.Keys + update.Keys + EditedKeys(description, user, instrument, inputs, freq)
    && FieldsWritten(after, description, user, instrument, inputs, freq)
    && KeepsEntries(after, update, EditedKeys(description, user, instrument, inputs, freq))
    && KeepsEntries(after, before - update.Keys, EditedKeys(description, user, instrument, inputs, freq))
  }

  lemma EditedMetadataHolds(before: Metadata, update: Metadata, description: PyValue, user: PyValue,
                            instrument: PyValue, inputs: PyValue, freq: PyValue)
    ensures EditedMetadata(SetFields(if update != map[] then before + update else before, description, user, instrument, inputs, freq),
                           before, update, description, user, instrument, inputs, freq)
  {
    var merged := if update != map[] then before + update else before;
    SetFieldsKeys(merged, description, user, instrument, inputs, freq);
    SetFieldsValues(merged, description, user, instrument, inputs, freq);
    SetFieldsKeeps(merged, description, user, instrument, inputs, freq);
  }

  /**
   * `flag create`: the unsaved flag, with the extra metadata (or an empty
   * dictionary), each truthy optional argument under its key, and the user
   * always recorded, falling back on the login name `currentUser`.
   */
  method NewFlagCommand(ftype: string, start: Time, finish: Time, instrument: PyValue, description: PyValue,
                        user: PyValue, freq: PyValue, inputs: PyValue, metadata: Option<Metadata>,
                        currentUser: string) returns (f: Flag)
    ensures f.ftype == ftype && f.start == start && f.finish == Some(finish) && f.metadata.Some?
    ensures CreatedMetadata(f.metadata.value, if metadata.Some? then metadata.value else map[],
                            description, instrument, inputs, freq, if Truthy(user) then user else PStr(currentUser))
  {
    var md: Metadata := if metadata.Some? then metadata.value else map[];
    ghost var base := md;
    md := SetIf(md, DescriptionKey, description);
    md := SetIf(md, InstrumentKey, instrument);
    md := SetIf(md, InputsKey, inputs);
    md := SetIf(md, FreqKey, freq);
    assert md == SetFields(base, description, PNone, instrument, inputs, freq);
    md := md[UserKey := if Truthy(user) then user else PStr(currentUser)];
    CreatedMetadataHolds(base, description, instrument, inputs, freq, if Truthy(user) then user else PStr(currentUser));
    f := Flag(ftype, start, Some(finish), Some(md));
  }

  /** The metadata half of `flag edit`, on the flag's metadata column `current`. */
  method EditMetadata(current: Option<Metadata>, metadata: Option<Metadata>, description: PyValue, user: PyValue,
                      instrument: PyValue, inputs: PyValue, freq: PyValue) returns (r: Result<Option<Metadata>>)
    ensures r.Err? <==>
      current.None? && ((metadata.Some? && metadata.value != map[]) || EditedKeys(description, user, instrument, inputs, freq) != {})
    ensures r.Err? && metadata.Some? && metadata.value != map[] ==> r == Err(AttributeError)
    ensures r.Err? && !(metadata.Some? && metadata.value != map[]) ==> r == Err(TypeError)
    ensures r.Ok? ==> r.value.Some? == current.Some?
    ensures r.Ok? && current.Some? ==>
      EditedMetadata(r.value.value, current.value, if metadata.Some? then metadata.value else map[],
                     description, user, instrument, inputs, freq)
  {
    var md := current;
    if metadata.Some? && metadata.value != map[] {
      if md.None? {
        return Err(AttributeError);
      }
      md := Some(md.value + metadata.value);
    }
    if EditedKeys(description, user, instrument, inputs, freq) != {} && md.None? {
      return Err(TypeError);
    }
    if md.Some? {
      EditedMetadataHolds(current.value, if metadata.Some? then metadata.value else map[],
                          description, user, instrument, inputs, freq);
      md := Some(SetFields(md.value, description, user, instrument, inputs, freq));
    }
    return Ok(md);
  }

  /**
   * `flag edit` on flag `f`: type and times change only when given; a
   * truthy metadata dictionary is merged over the existing one, then each
   * truthy field argument overwrites its key. On a flag whose metadata
   * column is null the merge raises AttributeError and a key assignment
   * raises TypeError.
   */
  method EditFlag(f: Flag, ftype: Option<string>, start: Option<Time>, finish: Option<Time>, instrument: PyValue,
                  description: PyValue, user: PyValue, freq: PyValue, inputs: PyValue,
                  metadata: Option<Metadata>) returns (r: Result<Flag>)
    ensures r.Err? <==>
      f.metadata.None? && ((metadata.Some? && metadata.value != map[]) || EditedKeys(description, user, instrument, inputs, freq) != {})
    ensures r.Err? && metadata.Some? && metadata.value != map[] ==> r == Err(AttributeError)
    ensures r.Err? && !(metadata.Some? && metadata.value != map[]) ==> r == Err(TypeError)
    ensures r.Ok? ==>
      && r.value.ftype == (if ftype.Some? then ftype.value else f.ftype)
      && r.value.start == (if start.Some? then start.value else f.start)
      && r.value.finish == (if finish.Some? then Some(finish.value) else f.finish)
      && r.value.metadata.Some? == f.metadata.Some?
    ensures r.Ok? && f.metadata.Some? ==>
      EditedMetadata(r.value.metadata.value, f.metadata.value, if metadata.Some? then metadata.value else map[],
                     description, user, instrument, inputs, freq)
  {
    var flag := f;
    if ftype.Some? {
      flag := flag.(ftype := ftype.value);
    }
    if start.Some? {
      flag := flag.(start := start.value);
    }
    if finish.Some? {
      flag := flag.(finish := Some(finish.value));
    }
    var md := EditMetadata(flag.metadata, metadata, description, user, instrument, inputs, freq);
    if md.Err? {
      return Err(md.error);
    }
    flag := flag.(metadata := md.value);
    return Ok(flag);
  }

  // ---------------------------------------------------------------------
  // flag list
  // ---------------------------------------------------------------------

  /**
   * The filters of `flag list`: the type when given, a finish at or after
   * the window start when given, and a start at or before the window
   * finish when given. A null finish fails the comparison, as in SQL.
   */
  predicate Listed(f: Flag, ftype: Option<string>, start: Option<Time>, finish: Option<Time>) {
    && (ftype.Some? ==> f.ftype == ftype.value)
    && (start.Some? ==> f.finish.Some? && f.finish.value >= start.value)
    && (finish.Some? ==> f.start <= finish.value)
  }

  /** The ids of the listed flags, in table order. */
  function FlagList(flags: seq<Flag>, ftype: Option<string>, start: Option<Time>, finish: Option<Time>): (ids: seq<nat>)
    ensures forall k :: 0 <= k < |ids| ==> ids[k] < |flags|
    ensures forall k, l :: 0 <= k < l < |ids| ==> ids[k] < ids[l]
    ensures forall i :: 0 <= i < |flags| ==> (i in ids <==> Listed(flags[i], ftype, start, finish))
    ensures start.Some? ==> forall k :: 0 <= k < |ids| ==> flags[ids[k]].finish.Some?
  {
    Where(flags, (f: Flag) => Listed(f, ftype, start, finish))
  }

  predicate Covers(lo: Time, hi: Time, t: Time) {
    lo <= t <= hi
  }

  /**
   * For a closed window and a flag with a finish time, both well ordered,
   * the two time filters together select exactly the flags that share an
   * instant with the window.
   */
  lemma WindowIsOverlap(f: Flag, windowStart: Time, windowFinish: Time)
    requires f.finish.Some? && f.start <= f.finish.value && windowStart <= windowFinish
    ensures Listed(f, None, Some(windowStart), Some(windowFinish)) <==>
      exists t :: Covers(windowStart, windowFinish, t) && Covers(f.start, f.finish.value, t)
  {
    if Listed(f, None, Some(windowStart), Some(windowFinish)) {
      var t := if windowStart >= f.start then windowStart else f.start;
      assert Covers(windowStart, windowFinish, t) && Covers(f.start, f.finish.value, t);
    }
  }

  // ---------------------------------------------------------------------
  // format_metadata
  // ---------------------------------------------------------------------

  const Indent: string := "    "

  /** The dump without one trailing newline. */
  function DropTrailingNewline(s: string): (r: string)
    ensures s != [] && s[|s| - 1] == '\n' ==> s == r + "\n"
    ensures !(s != [] && s[|s| - 1] == '\n') ==> r == s
  {
    if |s| > 0 && s[|s| - 1] == '\n' then s[..|s| - 1] else s
  }

  /** The text with the indent inserted after every newline. */
  function IndentAfterNewlines(s: string): string {
    if s == [] then []
    else if s[0] == '\n' then [s[0]] + (Indent + IndentAfterNewlines(s[1..]))
    else [s[0]] + IndentAfterNewlines(s[1..])
  }

  /**
   * `re.sub("^", "    ", s, flags=re.MULTILINE)`: the indent at the start
   * and after every newline, so every line of `s` gets the indent.
   */
  function IndentLines(s: string): (r: string)
    ensures Lines(r) == Prefixed(Lines(s))
  {
    LinesAfterNewlines(s);
    LinesOfPrefix(Indent, IndentAfterNewlines(s));
    var ls := Lines(s);
    assert Prefixed(ls) == [Indent + ls[0]] + Prefixed(ls[1..]);
    Indent + IndentAfterNewlines(s)
  }

  /**
   * `format_metadata`, given the YAML dump of the metadata: every line of
   * the dump without its trailing newline, behind the indent.
   */
  function FormatMetadata(dump: string): (r: string)
    ensures Lines(r) == Prefixed(Lines(DropTrailingNewline(dump)))
  {
    IndentLines(DropTrailingNewline(dump))
  }

  /** `s.split("\n")`: the lines of `s`, at least one. */
  function Lines(s: string): (ls: seq<string>)
    ensures |ls| >= 1
  {
    if s == [] then [[]]
    else if s[0] == '\n' then [[]] + Lines(s[1..])
    else
      var rest := Lines(s[1..]);
      [[s[0]] + rest[0]] + rest[1..]
  }

  /** `"\n".join(ls)`. */
  function Unlines(ls: seq<string>): string
    requires |ls| >= 1
  {
    if |ls| == 1 then ls[0] else ls[0] + "\n" + Unlines(ls[1..])
  }

  function Prefixed(ls: seq<string>): (ps: seq<string>)
    ensures |ps| == |ls|
    ensures forall k :: 0 <= k < |ls| ==> ps[k] == Indent + ls[k]
  {
    if ls == [] then [] else [Indent + ls[0]] + Prefixed(ls[1..])
  }

  predicate NoNewline(s: string) {
    forall k :: 0 <= k < |s| ==> s[k] != '\n'
  }

  /** Text without a newline in front of `x` lengthens its first line only. */
  lemma {:induction false} LinesOfPrefix(p: string, x: string)
    requires NoNewline(p)
    ensures Lines(p + x) == [p + Lines(x)[0]] + Lines(x)[1..]
  {
    var l := Lines(x);
    if p == [] {
      assert p + x == x && [] + l[0] == l[0] && [l[0]] + l[1..] == l;
    } else {
      assert (p + x)[0] == p[0] && (p + x)[1..] == p[1..] + x;
      LinesOfPrefix(p[1..], x);
      assert [p[0]] + (p[1..] + l[0]) == p + l[0];
    }
  }

  lemma {:induction false} LinesAfterNewlines(s: string)
    ensures Lines(IndentAfterNewlines(s)) == [Lines(s)[0]] + Prefixed(Lines(s)[1..])
  {
    if s == [] {
      assert Lines(s)[1..] == [];
    } else {
      var rest := s[1..];
      LinesAfterNewlines(rest);
      var l1 := Lines(rest);
      var a := IndentAfterNewlines(rest);
      if s[0] == '\n' {
        LinesOfPrefix(Indent, a);
        assert Lines(IndentAfterNewlines(s)) == [[]] + Lines(Indent + a);
        assert Prefixed(l1) == [Indent + l1[0]] + Prefixed(l1[1..]);
      } else {
        assert Lines(IndentAfterNewlines(s)) == [[s[0]] + Lines(a)[0]] + Lines(a)[1..];
      }
    }
  }

  lemma UnlinesCons(h: string, ls: seq<string>)
    requires |ls| >= 1
    ensures Unlines([h] + ls) == h + "\n" + Unlines(ls)
  {
    assert ([h] + ls)[0] == h && ([h] + ls)[1..] == ls;
  }

  lemma ConsJoin(c: char, a: string, b: string)
    ensures ([c] + a) + "\n" + b == [c] + (a + "\n" + b)
  {
  }

  /** A character in front of the first line is a character in front of the joined text. */
  lemma UnlinesExtendFirst(c: char, ls: seq<string>)
    requires |ls| >= 1
    ensures Unlines([[c] + ls[0]] + ls[1..]) == [c] + Unlines(ls)
  {
    var first, others := ls[0], ls[1..];
    assert ls == [first] + others;
    if others == [] {
      assert [[c] + first] + others == [[c] + first];
    } else {
      UnlinesCons([c] + first, others);
      UnlinesCons(first, others);
      ConsJoin(c, first, Unlines(others));
    }
  }

  /** Joining the lines gives the text back. */
  lemma {:induction false} UnlinesLines(s: string)
    ensures Unlines(Lines(s)) == s
  {
    if s != [] {
      var rest := s[1..];
      UnlinesLines(rest);
      var l1 := Lines(rest);
      if s[0] == '\n' {
        assert Lines(s) == [[]] + l1;
        UnlinesCons([], l1);
        assert [] + "\n" + rest == s;
      } else {
        assert Lines(s) == [[s[0]] + l1[0]] + l1[1..];
        UnlinesExtendFirst(s[0], l1);
        assert [s[0]] + rest == s;
      }
    }
  }
}
