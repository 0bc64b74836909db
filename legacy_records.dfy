/**
 * The tables of the older opinion schema (chimedb/dataflag/opinion/orm.py).
 * An opinion here is a flag row with a decision: it carries its own time
 * range and metadata, and votes point at the flag they produced.
 */
module LegacyRecords {
  import opened Values
  import opened Records

  /** A row of the legacy `DataFlagOpinion` table. */
  datatype LegacyOpinion = LegacyOpinion(
    otype: string,
    user: string,
    decision: Decision,
    start: Time,
    finish: Option<Time>,
    metadata: Option<Metadata>,
    creation: Time,
    lastEdit: Time,
    client: ClientRecord)

  /** A row of the legacy `DataFlagVote` table. */
  datatype LegacyVote = LegacyVote(time: Time, mode: string, client: ClientRecord, resultingFlag: Option<nat>)

  /** The longest string in `xs` (0 when there is none). */
  function MaxLength(xs: seq<string>): (m: nat)
    ensures forall k :: 0 <= k < |xs| ==> |xs[k]| <= m
    ensures xs != [] ==> exists k :: 0 <= k < |xs| && |xs[k]| == m
  {
    if xs == [] then 0
    else
      var rest := MaxLength(xs[1..]);
      if |xs[0]| >= rest then |xs[0]| else rest
  }

  /** Width of the `decision` column: the longest choice. */
  const DecisionWidth: nat := MaxLength(DecisionChoices)

  lemma {:induction false} DecisionsFitColumn(d: Decision)
    ensures DecisionWidth == 6
    ensures |DecisionName(d)| <= DecisionWidth
  {
    assert DecisionChoices[1..][1..][1..] == [];
    assert MaxLength(DecisionChoices[1..][1..]) == 6;
    assert DecisionName(d) == DecisionChoices[if d == Good then 0 else if d == Bad then 1 else 2];
  }

  /**
   * The opinion row the legacy `create_opinion` would insert, with its
   * error cases in the order the source meets them: decision, metadata
   * arguments, opinion type, user name, user.
   */
  function NewLegacyOpinionRecord(opinionTypes: set<string>, users: set<string>, username: string, creationTime: Time,
                                  decision: PyValue, opiniontype: string, client: ClientRecord,
                                  start: Time, finish: Option<Time>,
                                  freq: PyValue, instrument: PyValue, inputs: PyValue, metadata: PyValue): (r: Result<LegacyOpinion>)
    ensures ParseDecision(decision).Err? ==> r == Err(ValidationError)
    ensures ParseDecision(decision).Ok? && AssembleMetadata(freq, instrument, inputs, metadata).Err? ==>
      r == Err(AssembleMetadata(freq, instrument, inputs, metadata).error)
    ensures ParseDecision(decision).Ok? && AssembleMetadata(freq, instrument, inputs, metadata).Ok? && opiniontype !in opinionTypes ==>
      r == Err(DoesNotExist(OpinionTypeTable))
    ensures (ParseDecision(decision).Ok? && AssembleMetadata(freq, instrument, inputs, metadata).Ok? && opiniontype in opinionTypes
             && username == []) ==> r == Err(IndexError)
    ensures (ParseDecision(decision).Ok? && AssembleMetadata(freq, instrument, inputs, metadata).Ok? && opiniontype in opinionTypes
             && username != [] && Capitalize(username).value !in users) ==> r == Err(DoesNotExist(UserTable))
    ensures r.Ok? <==>
      && ParseDecision(decision).Ok? && AssembleMetadata(freq, instrument, inputs, metadata).Ok?
      && opiniontype in opinionTypes && username != [] && Capitalize(username).value in users
    ensures r.Ok? ==>
      && r.value.decision == ParseDecision(decision).value
      && r.value.metadata == Some(AssembleMetadata(freq, instrument, inputs, metadata).value)
      && r.value.creation == creationTime && r.value.lastEdit == creationTime
      && Ok(r.value.user) == Capitalize(username)
      && r.value.otype == opiniontype && r.value.start == start && r.value.finish == finish
      && r.value.client == client
  {
    match ParseDecision(decision)
    case Err(e) => Err(e)
    case Ok(d) =>
      match AssembleMetadata(freq, instrument, inputs, metadata)
      case Err(e) => Err(e)
      case Ok(m) =>
        if opiniontype !in opinionTypes then Err(DoesNotExist(OpinionTypeTable))
        else match Capitalize(username)
          case Err(e) => Err(e)
          case Ok(name) =>
            if name !in users then Err(DoesNotExist(UserTable))
            else Ok(LegacyOpinion(opiniontype, name, d, start, finish, Some(m), creationTime, creationTime, client))
  }

  /** The legacy `DataFlagOpinion.create_opinion`: validate, look up, insert. */
  method CreateLegacyOpinion<V>(db: Store<LegacyOpinion, V>, username: string, creationTime: Time, decision: PyValue,
                                opiniontype: string, clientName: string, clientVersion: string,
                                start: Time, finish: Option<Time>,
                                freq: PyValue := PNone, instrument: PyValue := DefaultInstrument,
                                inputs: PyValue := PNone, metadata: PyValue := PNone) returns (r: Result<nat>)
    modifies db`opinions
    ensures var spec := NewLegacyOpinionRecord(db.opinionTypes, db.users, username, creationTime, decision, opiniontype,
                                               ClientRecord(clientName, clientVersion), start, finish,
                                               freq, instrument, inputs, metadata);
      && (spec.Err? ==> r == Err(spec.error) && db.opinions == old(db.opinions))
      && (spec.Ok? ==> r == Ok(|old(db.opinions)|) && db.opinions == old(db.opinions) + [spec.value])
  {
    var d := ParseDecision(decision);
    if d.Err? {
      return Err(d.error);
    }
    var tableMetadata := BuildTableMetadata(freq, instrument, inputs, metadata);
    if tableMetadata.Err? {
      return Err(tableMetadata.error);
    }
    if opiniontype !in db.opinionTypes {
      return Err(DoesNotExist(OpinionTypeTable));
    }
    var name := Capitalize(username);
    if name.Err? {
      return Err(name.error);
    }
    if name.value !in db.users {
      return Err(DoesNotExist(UserTable));
    }
    var client := ClientRecord(clientName, clientVersion);
    var opinion := LegacyOpinion(opiniontype, name.value, d.value, start, finish, Some(tableMetadata.value),
                                 creationTime, creationTime, client);
    var id := db.InsertOpinion(opinion);
    return Ok(id);
  }
}
