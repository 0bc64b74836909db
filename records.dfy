/**
 * The tables of the data-flag database (chimedb/dataflag/orm.py): the rows,
 * an in-memory store holding them, the record factories `create_flag` and
 * `create_opinion`, and the views derived from a flag's metadata.
 */
module Records {
  import opened Values

  /** `max_length` of `DataRevision.name` and of `DataFlagVote.mode`. */
  const MaxLenName: nat := 32

  /** Size of the frequency mask (hard coded for CHIME). */
  const FreqCount: nat := 1024

  const FreqKey := "freq"
  const InstrumentKey := "instrument"
  const InputsKey := "inputs"

  /** Name of the extra-metadata argument of the record factories. */
  const MetadataArgName := "metadata"

  /** Default of the `instrument` argument of the record factories. */
  const DefaultInstrument := PStr("chime")

  const FlagTypeTable := "DataFlagType"
  const OpinionTypeTable := "DataFlagOpinionType"
  const RevisionTable := "DataRevision"
  const UserTable := "MediaWikiUser"

  // ---------------------------------------------------------------------
  // Rows
  // ---------------------------------------------------------------------

  /** The decision enumeration of an opinion. */
  datatype Decision = Good | Bad | Unsure

  function DecisionName(d: Decision): string {
    match d
    case Good => "good"
    case Bad => "bad"
    case Unsure => "unsure"
  }

  const DecisionChoices: seq<string> := ["good", "bad", "unsure"]

  /** A client program (name and version) that wrote a row. */
  datatype ClientRecord = ClientRecord(name: string, version: string)

  /** A revision of the offline pipeline, identified by its unique name. */
  datatype Revision = Revision(name: string, description: Option<string>)

  /** A flagged range of data; `finish` is nullable. */
  datatype Flag = Flag(ftype: string, start: Time, finish: Option<Time>, metadata: Option<Metadata>)

  /** A person's opinion on one LSD under one revision. */
  datatype Opinion = Opinion(
    otype: string,
    user: string,
    decision: Decision,
    creation: Time,
    lastEdit: Time,
    client: ClientRecord,
    revision: string,
    lsd: int,
    notes: Option<string>)

  /** The audit record of one vote; `flag` is the id of the resulting flag, if any. */
  datatype Vote = Vote(time: Time, mode: string, client: ClientRecord, revision: string, flag: Option<nat>, lsd: int)

  /** A row of the many-to-many table between votes and opinions (both by id). */
  datatype VoteOpinion = VoteOpinion(vote: nat, opinion: nat)

  // ---------------------------------------------------------------------
  // The store
  // ---------------------------------------------------------------------

  /**
   * The database as an in-memory object. A row's id is its position in its
   * table. The catalogues (flag types, opinion types, revisions, users) are
   * created administratively and are not changed by the core. `O` and `V`
   * are the opinion and vote rows, which differ between the current schema
   * and the older one.
   */
  class Store<O, V> {
    var flagTypes: set<string>
    var opinionTypes: set<string>
    var revisions: map<string, Option<string>>
    var users: set<string>
    var flags: seq<Flag>
    var opinions: seq<O>
    var votes: seq<V>
    var voteOpinions: seq<VoteOpinion>

    constructor (flagTypes: set<string>, opinionTypes: set<string>, revisions: map<string, Option<string>>, users: set<string>)
      ensures this.flagTypes == flagTypes && this.opinionTypes == opinionTypes
      ensures this.revisions == revisions && this.users == users
      ensures flags == [] && opinions == [] && votes == [] && voteOpinions == []
    {
      this.flagTypes := flagTypes;
      this.opinionTypes := opinionTypes;
      this.revisions := revisions;
      this.users := users;
      flags, opinions, votes, voteOpinions := [], [], [], [];
    }

    method InsertFlag(f: Flag) returns (id: nat)
      modifies this`flags
      ensures flags == old(flags) + [f] && id == |old(flags)|
    {
      id := |flags|;
      flags := flags + [f];
    }

    method InsertOpinion(o: O) returns (id: nat)
      modifies this`opinions
      ensures opinions == old(opinions) + [o] && id == |old(opinions)|
    {
      id := |opinions|;
      opinions := opinions + [o];
    }

    method InsertVote(v: V) returns (id: nat)
      modifies this`votes
      ensures votes == old(votes) + [v] && id == |old(votes)|
    {
      id := |votes|;
      votes := votes + [v];
    }

    method InsertVoteOpinion(link: VoteOpinion)
      modifies this`voteOpinions
      ensures voteOpinions == old(voteOpinions) + [link]
    {
      voteOpinions := voteOpinions + [link];
    }
  }

  /**
   * A `select ... where keep(row)` over a table: the ids of the rows that
   * pass, in table order.
   */
  function Where<T>(rows: seq<T>, keep: T -> bool): (ids: seq<nat>)
    ensures forall k :: 0 <= k < |ids| ==> ids[k] < |rows| && keep(rows[ids[k]])
    ensures forall k, l :: 0 <= k < l < |ids| ==> ids[k] < ids[l]
    ensures forall i :: 0 <= i < |rows| && keep(rows[i]) ==> i in ids
  {
    if rows == [] then []
    else
      var n := |rows| - 1;
      Where(rows[..n], keep) + (if keep(rows[n]) then [n] else [])
  }

  // ---------------------------------------------------------------------
  // create_flag
  // ---------------------------------------------------------------------

  /** The keys set from the explicit `freq`, `instrument` and `inputs` arguments. */
  function Given(freq: PyValue, instrument: PyValue, inputs: PyValue): Metadata {
    var withFreq: Metadata := if freq != PNone then map[FreqKey := freq] else map[];
    var withInstrument := if instrument != PNone then withFreq[InstrumentKey := instrument] else withFreq;
    if inputs != PNone then withInstrument[InputsKey := inputs] else withInstrument
  }

  function ExtraEntries(extra: PyValue): Metadata {
    if extra.PDict? then extra.entries else map[]
  }

  /**
   * The metadata dictionary a record factory stores: `freq`, `instrument`
   * and `inputs` when given, then the extra `metadata` dictionary merged
   * over them. A non-list `freq` or `inputs` or a non-dict `metadata` is a
   * ValueError, checked in that order.
   */
  function AssembleMetadata(freq: PyValue, instrument: PyValue, inputs: PyValue, extra: PyValue): (r: Result<Metadata>)
    ensures r.Err? <==>
      (freq != PNone && !freq.PList?) || (inputs != PNone && !inputs.PList?) || (extra != PNone && !extra.PDict?)
    ensures freq != PNone && !freq.PList? ==> r == Err(ValueError(FreqKey))
    ensures (freq == PNone || freq.PList?) && inputs != PNone && !inputs.PList? ==> r == Err(ValueError(InputsKey))
    ensures (freq == PNone || freq.PList?) && (inputs == PNone || inputs.PList?) && extra != PNone && !extra.PDict? ==>
      r == Err(ValueError(MetadataArgName))
    ensures r.Ok? ==> forall k :: k in r.value <==>
      k in ExtraEntries(extra)
      || (k == FreqKey && freq != PNone)
      || (k == InstrumentKey && instrument != PNone)
      || (k == InputsKey && inputs != PNone)
    ensures r.Ok? ==> forall k :: k in ExtraEntries(extra) ==> r.value[k] == ExtraEntries(extra)[k]
    ensures r.Ok? && freq != PNone && FreqKey !in ExtraEntries(extra) ==> r.value[FreqKey] == freq
    ensures r.Ok? && instrument != PNone && InstrumentKey !in ExtraEntries(extra) ==> r.value[InstrumentKey] == instrument
    ensures r.Ok? && inputs != PNone && InputsKey !in ExtraEntries(extra) ==> r.value[InputsKey] == inputs
  {
    if freq != PNone && !freq.PList? then Err(ValueError(FreqKey))
    else if inputs != PNone && !inputs.PList? then Err(ValueError(InputsKey))
    else if extra != PNone && !extra.PDict? then Err(ValueError(MetadataArgName))
    else Ok(Given(freq, instrument, inputs) + ExtraEntries(extra))
  }

  /** The dictionary built step by step, as the factories do. */
  method BuildTableMetadata(freq: PyValue, instrument: PyValue, inputs: PyValue, extra: PyValue) returns (r: Result<Metadata>)
    ensures r == AssembleMetadata(freq, instrument, inputs, extra)
  {
    var tableMetadata: Metadata := map[];
    if freq != PNone {
      if !freq.PList? {
        return Err(ValueError(FreqKey));
      }
      tableMetadata := map[FreqKey := freq];
    }
    if instrument != PNone {
      tableMetadata := tableMetadata[InstrumentKey := instrument];
    }
    if inputs != PNone {
      if !inputs.PList? {
        return Err(ValueError(InputsKey));
      }
      tableMetadata := tableMetadata[InputsKey := inputs];
    }
    ghost var given := tableMetadata;
    assert given == Given(freq, instrument, inputs);
    if extra != PNone {
      if !extra.PDict? {
        return Err(ValueError(MetadataArgName));
      }
      tableMetadata := tableMetadata + extra.entries;
    } else {
      assert given + ExtraEntries(extra) == given;
    }
    assert (freq == PNone || freq.PList?) && (inputs == PNone || inputs.PList?) && (extra == PNone || extra.PDict?);
    assert AssembleMetadata(freq, instrument, inputs, extra) == Ok(Given(freq, instrument, inputs) + ExtraEntries(extra));
    return Ok(tableMetadata);
  }

  /** The flag row `create_flag` would insert; argument errors come before the type lookup. */
  function NewFlagRecord(flagTypes: set<string>, flagtype: string, start: Time, finish: Option<Time>,
                         freq: PyValue, instrument: PyValue, inputs: PyValue, extra: PyValue): (r: Result<Flag>)
    ensures AssembleMetadata(freq, instrument, inputs, extra).Err? ==> r == Err(AssembleMetadata(freq, instrument, inputs, extra).error)
    ensures AssembleMetadata(freq, instrument, inputs, extra).Ok? && flagtype !in flagTypes ==> r == Err(DoesNotExist(FlagTypeTable))
    ensures r.Ok? <==> AssembleMetadata(freq, instrument, inputs, extra).Ok? && flagtype in flagTypes
    ensures r.Ok? ==> r.value.ftype == flagtype && r.value.start == start && r.value.finish == finish
                      && r.value.metadata == Some(AssembleMetadata(freq, instrument, inputs, extra).value)
  {
    match AssembleMetadata(freq, instrument, inputs, extra)
    case Err(e) => Err(e)
    case Ok(m) => if flagtype in flagTypes then Ok(Flag(flagtype, start, finish, Some(m))) else Err(DoesNotExist(FlagTypeTable))
  }

  /** `DataFlag.create_flag`: validate, look up the type, insert; the id of the new row. */
  method CreateFlag<O, V>(db: Store<O, V>, flagtype: string, start: Time, finish: Option<Time>,
                          freq: PyValue := PNone, instrument: PyValue := DefaultInstrument,
                          inputs: PyValue := PNone, extra: PyValue := PNone) returns (r: Result<nat>)
    modifies db`flags
    ensures var spec := NewFlagRecord(db.flagTypes, flagtype, start, finish, freq, instrument, inputs, extra);
      && (spec.Err? ==> r == Err(spec.error) && db.flags == old(db.flags))
      && (spec.Ok? ==> r == Ok(|old(db.flags)|) && db.flags == old(db.flags) + [spec.value])
  {
    var tableMetadata := BuildTableMetadata(freq, instrument, inputs, extra);
    if tableMetadata.Err? {
      return Err(tableMetadata.error);
    }
    if flagtype !in db.flagTypes {
      return Err(DoesNotExist(FlagTypeTable));
    }
    var id := db.InsertFlag(Flag(flagtype, start, finish, Some(tableMetadata.value)));
    return Ok(id);
  }

  // ---------------------------------------------------------------------
  // Derived views of a flag
  // ---------------------------------------------------------------------

  /** `metadata.get(key, None)`, or None when the metadata column is null. */
  function MetadataGet(metadata: Option<Metadata>, key: string): (v: PyValue)
    ensures metadata.None? ==> v == PNone
    ensures metadata.Some? && key !in metadata.value ==> v == PNone
    ensures metadata.Some? && key in metadata.value ==> v == metadata.value[key]
  {
    if metadata.Some? && key in metadata.value then metadata.value[key] else PNone
  }

  /** The `instrument` property. */
  function Instrument(metadata: Option<Metadata>): (v: PyValue)
    ensures v != PNone ==> metadata.Some? && InstrumentKey in metadata.value && metadata.value[InstrumentKey] == v
    ensures metadata.Some? && InstrumentKey in metadata.value ==> v == metadata.value[InstrumentKey]
  {
    MetadataGet(metadata, InstrumentKey)
  }

  /** The `freq` property. */
  function Freq(metadata: Option<Metadata>): (v: PyValue)
    ensures v != PNone ==> metadata.Some? && FreqKey in metadata.value && metadata.value[FreqKey] == v
    ensures metadata.Some? && FreqKey in metadata.value ==> v == metadata.value[FreqKey]
  {
    MetadataGet(metadata, FreqKey)
  }

  /** The `inputs` property. */
  function Inputs(metadata: Option<Metadata>): (v: PyValue)
    ensures v != PNone ==> metadata.Some? && InputsKey in metadata.value && metadata.value[InputsKey] == v
    ensures metadata.Some? && InputsKey in metadata.value ==> v == metadata.value[InputsKey]
  {
    MetadataGet(metadata, InputsKey)
  }

  /**
   * Re-reading a flag made by the factory gives back what was passed: the
   * extra metadata where it names the key, the explicit argument otherwise.
   */
  lemma AccessorsReadBack(freq: PyValue, instrument: PyValue, inputs: PyValue, extra: PyValue)
    requires AssembleMetadata(freq, instrument, inputs, extra).Ok?
    ensures var m := Some(AssembleMetadata(freq, instrument, inputs, extra).value);
      && Freq(m) == (if FreqKey in ExtraEntries(extra) then ExtraEntries(extra)[FreqKey] else freq)
      && Instrument(m) == (if InstrumentKey in ExtraEntries(extra) then ExtraEntries(extra)[InstrumentKey] else instrument)
      && Inputs(m) == (if InputsKey in ExtraEntries(extra) then ExtraEntries(extra)[InputsKey] else inputs)
  {
  }

  /**
   * With every optional argument left at its default, a factory stores
   * only the default instrument "chime".
   */
  lemma DefaultArgumentsStoreChime()
    ensures AssembleMetadata(PNone, DefaultInstrument, PNone, PNone) == Ok(map[InstrumentKey := PStr("chime")])
    ensures Instrument(Some(AssembleMetadata(PNone, DefaultInstrument, PNone, PNone).value)) == PStr("chime")
  {
    var none: Metadata := map[];
    var chime := none[InstrumentKey := PStr("chime")];
    assert Given(PNone, DefaultInstrument, PNone) == chime;
    assert chime + ExtraEntries(PNone) == chime;
  }

  /** The integer indices of a numpy index value: an int, or a list of ints. */
  function IndexValues(sel: PyValue): (r: Option<seq<int>>)
    ensures sel.PInt? ==> r == Some([sel.i])
    ensures sel.PList? ==> (r.Some? <==> forall k :: 0 <= k < |sel.items| ==> sel.items[k].PInt?)
    ensures sel.PList? && r.Some? ==> |r.value| == |sel.items| && forall k :: 0 <= k < |sel.items| ==> r.value[k] == sel.items[k].i
    ensures !sel.PInt? && !sel.PList? ==> r.None?
  {
    match sel
    case PInt(i) => Some([i])
    case PList(items) => IntItems(items)
    case _ => None
  }

  function IntItems(items: seq<PyValue>): (r: Option<seq<int>>)
    ensures r.Some? <==> forall k :: 0 <= k < |items| ==> items[k].PInt?
    ensures r.Some? ==> |r.value| == |items| && forall k :: 0 <= k < |items| ==> r.value[k] == items[k].i
  {
    if items == [] then Some([])
    else if !items[0].PInt? then None
    else match IntItems(items[1..])
      case None => None
      case Some(rest) => Some([items[0].i] + rest)
  }

  /** numpy index `j` into an axis of length `n`; negative indices count from the end. */
  predicate InAxis(j: int, n: nat) { -(n as int) <= j < n }

  function AxisPosition(j: int, n: nat): int { if j < 0 then j + n else j }

  /** A selection numpy accepts on an axis of length `n`: integer indices, all inside the axis. */
  predicate ValidSelection(sel: PyValue, n: nat) {
    IndexValues(sel).Some? && forall k :: 0 <= k < |IndexValues(sel).value| ==> InAxis(IndexValues(sel).value[k], n)
  }

  /**
   * `mask = np.ones(n, dtype=bool); mask[sel] = False; mask = ~mask` when
   * `sel` is not None: True exactly at the selected positions. A selection
   * that is not an int or a list of ints, or that leaves the axis, is an
   * IndexError.
   */
  method Mask(n: nat, sel: PyValue) returns (r: Result<seq<bool>>)
    ensures sel == PNone ==> r.Ok? && |r.value| == n && forall i :: 0 <= i < n ==> r.value[i]
    ensures sel != PNone ==> (r.Ok? <==> ValidSelection(sel, n))
    ensures r.Err? ==> r.error == IndexError
    ensures sel != PNone && r.Ok? ==> |r.value| == n && forall i :: 0 <= i < n ==>
      (r.value[i] <==> exists k :: 0 <= k < |IndexValues(sel).value| && AxisPosition(IndexValues(sel).value[k], n) == i)
  {
    var mask := new bool[n](_ => true);
    if sel == PNone {
      return Ok(mask[..]);
    }
    var idx := IndexValues(sel);
    if idx.None? {
      return Err(IndexError);
    }
    var js := idx.value;
    var k := 0;
    while k < |js|
      invariant 0 <= k <= |js|
      invariant forall l :: 0 <= l < k ==> InAxis(js[l], n)
    {
      if !InAxis(js[k], n) {
        return Err(IndexError);
      }
      k := k + 1;
    }
    k := 0;
    while k < |js|
      invariant 0 <= k <= |js|
      invariant forall i :: 0 <= i < n ==> (!mask[i] <==> exists l :: 0 <= l < k && AxisPosition(js[l], n) == i)
    {
      mask[AxisPosition(js[k], n)] := false;
      k := k + 1;
    }
    var i := 0;
    while i < n
      invariant 0 <= i <= n
      invariant forall p :: 0 <= p < i ==> (mask[p] <==> exists l :: 0 <= l < |js| && AxisPosition(js[l], n) == p)
      invariant forall p :: i <= p < n ==> (!mask[p] <==> exists l :: 0 <= l < |js| && AxisPosition(js[l], n) == p)
    {
      mask[i] := !mask[i];
      i := i + 1;
    }
    return Ok(mask[..]);
  }

  /** `DataFlag.freq_mask`: over the 1024 frequencies, all True when `freq` is unset. */
  method FreqMask(f: Flag) returns (r: Result<seq<bool>>)
    ensures r.Ok? <==> Freq(f.metadata) == PNone || ValidSelection(Freq(f.metadata), FreqCount)
    ensures r.Err? ==> r.error == IndexError
    ensures r.Ok? ==> |r.value| == FreqCount
    ensures Freq(f.metadata) == PNone ==> r.Ok? && forall i :: 0 <= i < FreqCount ==> r.value[i]
    ensures Freq(f.metadata) == PList([]) ==> r.Ok? && forall i :: 0 <= i < FreqCount ==> !r.value[i]
    ensures Freq(f.metadata) != PNone && r.Ok? ==> IndexValues(Freq(f.metadata)).Some? && forall i :: 0 <= i < FreqCount ==>
      (r.value[i] <==> exists k :: 0 <= k < |IndexValues(Freq(f.metadata)).value|
                                 && AxisPosition(IndexValues(Freq(f.metadata)).value[k], FreqCount) == i)
  {
    r := Mask(FreqCount, Freq(f.metadata));
  }

  /** Size of the input mask per instrument (`inp_dict`); unhashable keys are a TypeError. */
  function InputCount(instrument: PyValue): (r: Result<nat>)
    ensures r == Ok(2048) <==> instrument == PStr("chime")
    ensures r == Ok(256) <==> instrument == PStr("pathfinder")
    ensures r.Err? <==> instrument != PStr("chime") && instrument != PStr("pathfinder")
  {
    match instrument
    case PStr(s) => if s == "chime" then Ok(2048) else if s == "pathfinder" then Ok(256) else Err(KeyError)
    case PList(_) => Err(TypeError)
    case PDict(_) => Err(TypeError)
    case _ => Err(KeyError)
  }

  /** `DataFlag.input_mask`: None without an instrument, else a mask sized for the instrument. */
  method InputMask(f: Flag) returns (r: Result<Option<seq<bool>>>)
    ensures Instrument(f.metadata) == PNone ==> r == Ok(None)
    ensures Instrument(f.metadata) != PNone && r.Ok? ==> r.value.Some?
    ensures Instrument(f.metadata) != PNone && InputCount(Instrument(f.metadata)).Ok? ==>
      (r.Ok? <==> Inputs(f.metadata) == PNone || ValidSelection(Inputs(f.metadata), InputCount(Instrument(f.metadata)).value))
    ensures Instrument(f.metadata) != PNone && InputCount(Instrument(f.metadata)).Ok? && r.Err? ==> r.error == IndexError
    ensures Instrument(f.metadata) != PNone && InputCount(Instrument(f.metadata)).Err? ==> r == Err(InputCount(Instrument(f.metadata)).error)
    ensures r.Ok? && r.value.Some? ==> |r.value.value| == InputCount(Instrument(f.metadata)).value
    ensures r.Ok? && r.value.Some? && Inputs(f.metadata) == PNone ==> forall i :: 0 <= i < |r.value.value| ==> r.value.value[i]
    ensures r.Ok? && r.value.Some? && Inputs(f.metadata) != PNone ==>
      IndexValues(Inputs(f.metadata)).Some? && forall i :: 0 <= i < |r.value.value| ==>
        (r.value.value[i] <==> exists k :: 0 <= k < |IndexValues(Inputs(f.metadata)).value| &&
                                           AxisPosition(IndexValues(Inputs(f.metadata)).value[k], |r.value.value|) == i)
    ensures Instrument(f.metadata) != PNone && InputCount(Instrument(f.metadata)).Ok? && Inputs(f.metadata) == PNone ==> r.Ok? && r.value.Some?
  {
    var instrument := Instrument(f.metadata);
    if instrument == PNone {
      return Ok(None);
    }
    var size := InputCount(instrument);
    if size.Err? {
      return Err(size.error);
    }
    var mask := Mask(size.value, Inputs(f.metadata));
    if mask.Err? {
      return Err(mask.error);
    }
    return Ok(Some(mask.value));
  }

  // ---------------------------------------------------------------------
  // create_opinion
  // ---------------------------------------------------------------------

  /** The decision check of `create_opinion`: a string from the enumeration. */
  function ParseDecision(v: PyValue): (r: Result<Decision>)
    ensures r.Ok? <==> v.PStr? && v.s in DecisionChoices
    ensures r.Ok? ==> DecisionName(r.value) == v.s
    ensures r.Err? ==> r.error == ValidationError
  {
    if v == PStr("good") then Ok(Good)
    else if v == PStr("bad") then Ok(Bad)
    else if v == PStr("unsure") then Ok(Unsure)
    else Err(ValidationError)
  }

  lemma DecisionRoundTrip(d: Decision)
    ensures ParseDecision(PStr(DecisionName(d))) == Ok(d)
  {
  }

  /** `str.upper` on one character, for ASCII letters. */
  function UpperChar(c: char): char {
    if 'a' <= c <= 'z' then (c as int - 32) as char else c
  }

  /** `username[0].upper() + username[1:]`; an empty name raises IndexError. */
  function Capitalize(username: string): (r: Result<string>)
    ensures username == [] <==> r == Err(IndexError)
    ensures r.Ok? ==> |r.value| == |username| && r.value[1..] == username[1..]
    ensures r.Ok? ==> !('a' <= r.value[0] <= 'z') && ('A' <= r.value[0] <= 'Z' || r.value[0] == username[0])
    ensures r.Ok? && 'a' <= username[0] <= 'z' ==> r.value[0] as int == username[0] as int - 32
    ensures r.Ok? && !('a' <= username[0] <= 'z') ==> r.value[0] == username[0]
  {
    if username == [] then Err(IndexError) else Ok([UpperChar(username[0])] + username[1..])
  }

  lemma {:induction false} CapitalizeIdempotent(username: string)
    requires username != []
    ensures Capitalize(Capitalize(username).value) == Capitalize(username)
  {
    var c := Capitalize(username).value;
    assert c[0] == UpperChar(username[0]);
    assert UpperChar(c[0]) == c[0];
    assert [c[0]] + c[1..] == c;
  }

  /** The columns of the unique index on opinions. */
  datatype OpinionKey = OpinionKey(otype: string, user: string, lsd: int, revision: string)

  function KeyOf(o: Opinion): OpinionKey { OpinionKey(o.otype, o.user, o.lsd, o.revision) }

  predicate KeyTaken(opinions: seq<Opinion>, key: OpinionKey) {
    exists i :: 0 <= i < |opinions| && KeyOf(opinions[i]) == key
  }

  /** At most one opinion per (type, user, lsd, revision). */
  predicate UniqueOpinionKeys(opinions: seq<Opinion>) {
    forall i, j :: 0 <= i < j < |opinions| ==> KeyOf(opinions[i]) != KeyOf(opinions[j])
  }

  /**
   * The opinion row `create_opinion` would insert, with its error cases in
   * the order the source meets them: decision, opinion type, revision,
   * user name, user, unique index.
   */
  function NewOpinionRecord(opinionTypes: set<string>, revisions: map<string, Option<string>>, users: set<string>,
                            existing: seq<Opinion>, username: string, creationTime: Time, decision: PyValue,
                            opiniontype: string, client: ClientRecord, lsd: int, revision: string,
                            notes: Option<string>): (r: Result<Opinion>)
    ensures ParseDecision(decision).Err? ==> r == Err(ValidationError)
    ensures ParseDecision(decision).Ok? && opiniontype !in opinionTypes ==> r == Err(DoesNotExist(OpinionTypeTable))
    ensures ParseDecision(decision).Ok? && opiniontype in opinionTypes && revision !in revisions ==>
      r == Err(DoesNotExist(RevisionTable))
    ensures ParseDecision(decision).Ok? && opiniontype in opinionTypes && revision in revisions && username == [] ==>
      r == Err(IndexError)
    ensures (ParseDecision(decision).Ok? && opiniontype in opinionTypes && revision in revisions && username != []
             && Capitalize(username).value !in users) ==> r == Err(DoesNotExist(UserTable))
    ensures (ParseDecision(decision).Ok? && opiniontype in opinionTypes && revision in revisions && username != []
             && Capitalize(username).value in users
             && KeyTaken(existing, OpinionKey(opiniontype, Capitalize(username).value, lsd, revision))) ==> r == Err(IntegrityError)
    ensures r.Ok? <==>
      && ParseDecision(decision).Ok? && opiniontype in opinionTypes && revision in revisions
      && username != [] && Capitalize(username).value in users
      && !KeyTaken(existing, OpinionKey(opiniontype, Capitalize(username).value, lsd, revision))
    ensures r.Ok? ==>
      && r.value.decision == ParseDecision(decision).value
      && r.value.creation == creationTime && r.value.lastEdit == creationTime
      && Ok(r.value.user) == Capitalize(username)
      && r.value.otype == opiniontype && r.value.revision == revision && r.value.lsd == lsd
      && r.value.client == client && r.value.notes == notes
  {
    match ParseDecision(decision)
    case Err(e) => Err(e)
    case Ok(d) =>
      if opiniontype !in opinionTypes then Err(DoesNotExist(OpinionTypeTable))
      else if revision !in revisions then Err(DoesNotExist(RevisionTable))
      else match Capitalize(username)
        case Err(e) => Err(e)
        case Ok(name) =>
          if name !in users then Err(DoesNotExist(UserTable))
          else if KeyTaken(existing, OpinionKey(opiniontype, name, lsd, revision)) then Err(IntegrityError)
          else Ok(Opinion(opiniontype, name, d, creationTime, creationTime, client, revision, lsd, notes))
  }

  /** `DataFlagOpinion.create_opinion`: validate, look up, insert; keeps the unique index. */
  method CreateOpinion<V>(db: Store<Opinion, V>, username: string, creationTime: Time, decision: PyValue,
                          opiniontype: string, clientName: string, clientVersion: string, lsd: int,
                          revision: string, notes: Option<string>) returns (r: Result<nat>)
    requires UniqueOpinionKeys(db.opinions)
    modifies db`opinions
    ensures UniqueOpinionKeys(db.opinions)
    ensures var spec := NewOpinionRecord(db.opinionTypes, db.revisions, db.users, old(db.opinions), username,
                                         creationTime, decision, opiniontype, ClientRecord(clientName, clientVersion),
                                         lsd, revision, notes);
      && (spec.Err? ==> r == Err(spec.error) && db.opinions == old(db.opinions))
      && (spec.Ok? ==> r == Ok(|old(db.opinions)|) && db.opinions == old(db.opinions) + [spec.value])
  {
    var d := ParseDecision(decision);
    if d.Err? {
      return Err(d.error);
    }
    if opiniontype !in db.opinionTypes {
      return Err(DoesNotExist(OpinionTypeTable));
    }
    if revision !in db.revisions {
      return Err(DoesNotExist(RevisionTable));
    }
    var name := Capitalize(username);
    if name.Err? {
      return Err(name.error);
    }
    if name.value !in db.users {
      return Err(DoesNotExist(UserTable));
    }
    var client := ClientRecord(clientName, clientVersion);
    if KeyTaken(db.opinions, OpinionKey(opiniontype, name.value, lsd, revision)) {
      return Err(IntegrityError);
    }
    var opinion := Opinion(opiniontype, name.value, d.value, creationTime, creationTime, client, revision, lsd, notes);
    var id := db.InsertOpinion(opinion);
    return Ok(id);
  }
}
