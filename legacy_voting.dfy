/**
 * The older voting engine (chimedb/dataflag/opinion/vote.py). Every opinion
 * entered since the last vote that has no conflict becomes a flag over the
 * opinion's own time range, whatever its decision, and a vote that points
 * at that flag.
 *
 * As with the current engine, `Process` specifies the loop over candidates
 * and the lemmas state what a run does in terms of it.
 */
module LegacyVoting {
  import opened Values
  import opened Records
  import opened LegacyRecords
  import Voting

  /** Client name the engine records on its votes (the module's `__name__`). */
  const LegacyEngineName := "chimedb.dataflag.opinion.vote"

  datatype LegacyJudge = LegacyJudge(mode: Voting.Mode)

  /** The legacy `VotingJudge.__init__`: the same mode checks, in the same order, as the current engine. */
  function NewLegacyJudge(mode: string): (r: Result<LegacyJudge>)
    ensures |mode| > MaxLenName ==> r == Err(RuntimeError)
    ensures |mode| <= MaxLenName && mode !in Voting.ModeChoices ==> r == Err(UserWarning)
    ensures r.Ok? <==> |mode| <= MaxLenName && mode in Voting.ModeChoices
    ensures r.Ok? ==> Voting.ModeName(r.value.mode) == mode
  {
    match Voting.CheckMode(mode)
    case Err(e) => Err(e)
    case Ok(m) => Ok(LegacyJudge(m))
  }

  function LegacyVoteTimes(votes: seq<LegacyVote>): seq<Time> {
    seq(|votes|, k requires 0 <= k < |votes| => votes[k].time)
  }

  /** The opinions edited at or after the low-water mark (the older schema has no revisions). */
  function LegacyCandidates(votes: seq<LegacyVote>, opinions: seq<LegacyOpinion>): (ids: seq<nat>)
    ensures forall k :: 0 <= k < |ids| ==> ids[k] < |opinions|
    ensures forall k, l :: 0 <= k < l < |ids| ==> ids[k] < ids[l]
    ensures forall i :: 0 <= i < |opinions| ==>
      (i in ids <==> opinions[i].lastEdit >= Voting.LowWaterMark(LegacyVoteTimes(votes)))
  {
    var mark := Voting.LowWaterMark(LegacyVoteTimes(votes));
    Where(opinions, (o: LegacyOpinion) => o.lastEdit >= mark)
  }

  // ---------------------------------------------------------------------
  // Conflicts
  // ---------------------------------------------------------------------

  /**
   * The filter of the conflict query. `LegacyAsWritten` is what the
   * source's filter reduces to: only its last comparison, other finish
   * after candidate start, reaches SQL. `Overlap` is the stated intent:
   * another decision on an overlapping time range. A null finish time
   * makes a comparison with it false, as in SQL.
   */
  datatype LegacyConflictRule = LegacyAsWritten | Overlap

  predicate LegacyConflicts(rule: LegacyConflictRule, other: LegacyOpinion, cand: LegacyOpinion): (b: bool)
    ensures b ==> other.finish.Some? && other.finish.value > cand.start
    ensures b && rule == Overlap ==> other.decision != cand.decision && cand.finish.Some? && other.start < cand.finish.value
  {
    match rule
    case LegacyAsWritten => other.finish.Some? && other.finish.value > cand.start
    case Overlap =>
      && other.decision != cand.decision
      && cand.finish.Some? && other.start < cand.finish.value
      && other.finish.Some? && other.finish.value > cand.start
  }

  /**
   * As written an opinion with a positive range conflicts with itself; the
   * overlap rule is irreflexive and symmetric.
   */
  lemma LegacyConflictRelation(a: LegacyOpinion, b: LegacyOpinion)
    ensures a.finish.Some? && a.finish.value > a.start ==> LegacyConflicts(LegacyAsWritten, a, a)
    ensures !LegacyConflicts(Overlap, a, a)
    ensures LegacyConflicts(Overlap, a, b) <==> LegacyConflicts(Overlap, b, a)
  {
  }

  function LegacyConflictCount(rule: LegacyConflictRule, opinions: seq<LegacyOpinion>, cand: LegacyOpinion): (n: nat)
    ensures n <= |opinions|
    ensures n > 0 <==> exists i :: 0 <= i < |opinions| && LegacyConflicts(rule, opinions[i], cand)
  {
    if opinions == [] then 0
    else
      var last := |opinions| - 1;
      LegacyConflictCount(rule, opinions[..last], cand) + (if LegacyConflicts(rule, opinions[last], cand) then 1 else 0)
  }

  // ---------------------------------------------------------------------
  // Specification of a run
  // ---------------------------------------------------------------------

  datatype LegacyRunContext = LegacyRunContext(judge: LegacyJudge, rule: LegacyConflictRule, timestamp: Time, clientVersion: string)

  datatype LegacyTables = LegacyTables(flags: seq<Flag>, votes: seq<LegacyVote>, voteOpinions: seq<VoteOpinion>)

  datatype LegacyRun = LegacyRun(tables: LegacyTables, results: seq<nat>, error: Option<Error>)

  function LegacyEngineClient(ctx: LegacyRunContext): ClientRecord {
    ClientRecord(LegacyEngineName, ctx.clientVersion)
  }

  /** The opinion's metadata column as the argument `create_flag` receives. */
  function MetadataArg(metadata: Option<Metadata>): PyValue {
    if metadata.Some? then PDict(metadata.value) else PNone
  }

  /** The flag `create_flag` makes from an opinion: its range, its sub-selection and its metadata. */
  function LegacyFlagRecord(flagTypes: set<string>, o: LegacyOpinion): Result<Flag> {
    NewFlagRecord(flagTypes, Voting.VoteFlagType, o.start, o.finish,
                  Freq(o.metadata), Instrument(o.metadata), Inputs(o.metadata), MetadataArg(o.metadata))
  }

  function LegacyVoteRecord(ctx: LegacyRunContext, flag: nat): LegacyVote {
    LegacyVote(ctx.timestamp, Voting.ModeName(ctx.judge.mode), LegacyEngineClient(ctx), Some(flag))
  }

  /** `_translate_single_opinion`: the flag, then the vote pointing at it, then the link. */
  function LegacyTranslateOne(ctx: LegacyRunContext, flagTypes: set<string>, t: LegacyTables,
                              o: LegacyOpinion, oid: nat): (r: Result<(LegacyTables, nat)>)
    ensures r.Err? <==> Voting.VoteFlagType !in flagTypes
                        || AssembleMetadata(Freq(o.metadata), Instrument(o.metadata), Inputs(o.metadata), MetadataArg(o.metadata)).Err?
    ensures r.Err? ==> r == Err(LegacyFlagRecord(flagTypes, o).error)
    ensures r.Ok? ==> r.value.1 == |t.flags| && |r.value.0.flags| == |t.flags| + 1 && r.value.0.flags[..|t.flags|] == t.flags
    ensures r.Ok? ==> var f := r.value.0.flags[r.value.1];
                      f.ftype == Voting.VoteFlagType && f.start == o.start && f.finish == o.finish
    ensures r.Ok? ==> r.value.0.votes == t.votes + [LegacyVoteRecord(ctx, r.value.1)]
    ensures r.Ok? ==> r.value.0.voteOpinions == t.voteOpinions + [VoteOpinion(|t.votes|, oid)]
  {
    match LegacyFlagRecord(flagTypes, o)
    case Err(e) => Err(e)
    case Ok(f) =>
      Ok((LegacyTables(t.flags + [f], t.votes + [LegacyVoteRecord(ctx, |t.flags|)],
                       t.voteOpinions + [VoteOpinion(|t.votes|, oid)]), |t.flags|))
  }

  function LegacyStep(ctx: LegacyRunContext, flagTypes: set<string>, opinions: seq<LegacyOpinion>, r: LegacyRun, oid: nat): LegacyRun
    requires oid < |opinions|
  {
    var o := opinions[oid];
    if LegacyConflictCount(ctx.rule, opinions, o) > 0 then r
    else match LegacyTranslateOne(ctx, flagTypes, r.tables, o, oid)
      case Err(e) => LegacyRun(r.tables, r.results, Some(e))
      case Ok(res) => LegacyRun(res.0, r.results + [res.1], None)
  }

  function LegacyProcess(ctx: LegacyRunContext, flagTypes: set<string>, opinions: seq<LegacyOpinion>,
                         t0: LegacyTables, cands: seq<nat>): (r: LegacyRun)
    requires Voting.ValidIds(cands, |opinions|)
    ensures |r.results| <= |cands|
    ensures |r.tables.flags| == |t0.flags| + |r.results|
    ensures |r.tables.votes| == |t0.votes| + |r.results| && |r.tables.voteOpinions| == |t0.voteOpinions| + |r.results|
  {
    if cands == [] then LegacyRun(t0, [], None)
    else
      var n := |cands| - 1;
      var prev := LegacyProcess(ctx, flagTypes, opinions, t0, cands[..n]);
      if prev.error.Some? then prev else LegacyStep(ctx, flagTypes, opinions, prev, cands[n])
  }

  function LegacyTranslated(rule: LegacyConflictRule, opinions: seq<LegacyOpinion>, cands: seq<nat>): (tr: seq<nat>)
    requires Voting.ValidIds(cands, |opinions|)
    ensures |tr| <= |cands|
    ensures forall k :: 0 <= k < |tr| ==> tr[k] < |opinions| && tr[k] in cands && LegacyConflictCount(rule, opinions, opinions[tr[k]]) == 0
    ensures forall k :: 0 <= k < |cands| && LegacyConflictCount(rule, opinions, opinions[cands[k]]) == 0 ==> cands[k] in tr
  {
    if cands == [] then []
    else
      var n := |cands| - 1;
      LegacyTranslated(rule, opinions, cands[..n]) + (if LegacyConflictCount(rule, opinions, opinions[cands[n]]) == 0 then [cands[n]] else [])
  }

  /** The translated candidates keep the scan order of the candidates. */
  lemma {:induction false} LegacyTranslatedInScanOrder(rule: LegacyConflictRule, opinions: seq<LegacyOpinion>, cands: seq<nat>)
    requires Voting.ValidIds(cands, |opinions|) && Voting.Increasing(cands)
    ensures Voting.Increasing(LegacyTranslated(rule, opinions, cands))
  {
    if cands != [] {
      var n := |cands| - 1;
      var prefix := cands[..n];
      LegacyTranslatedInScanOrder(rule, opinions, prefix);
      var tr := LegacyTranslated(rule, opinions, prefix);
      var c := cands[n];
      assert forall k :: 0 <= k < |prefix| ==> prefix[k] == cands[k] < c;
      Voting.MembersBelow(tr, prefix, c);
      if LegacyConflictCount(rule, opinions, opinions[c]) == 0 {
        assert LegacyTranslated(rule, opinions, cands) == tr + [c];
        Voting.IncreasingSnoc(tr, c);
      } else {
        assert LegacyTranslated(rule, opinions, cands) == tr;
      }
    }
  }

  /**
   * `run` extends `t0` by exactly one flag, one vote and one link per
   * translated opinion, in order, and returns the new flags' ids.
   */
  ghost predicate LegacyRecordsTranslation(ctx: LegacyRunContext, flagTypes: set<string>, opinions: seq<LegacyOpinion>,
                                           t0: LegacyTables, tr: seq<nat>, run: LegacyRun)
    requires Voting.ValidIds(tr, |opinions|)
  {
    && |run.results| == |tr|
    && |run.tables.flags| == |t0.flags| + |tr| && run.tables.flags[..|t0.flags|] == t0.flags
    && |run.tables.votes| == |t0.votes| + |tr| && run.tables.votes[..|t0.votes|] == t0.votes
    && |run.tables.voteOpinions| == |t0.voteOpinions| + |tr|
    && run.tables.voteOpinions[..|t0.voteOpinions|] == t0.voteOpinions
    && forall k :: 0 <= k < |tr| ==>
         && LegacyFlagRecord(flagTypes, opinions[tr[k]]).Ok?
         && run.results[k] == |t0.flags| + k
         && run.tables.flags[|t0.flags| + k] == LegacyFlagRecord(flagTypes, opinions[tr[k]]).value
         && run.tables.votes[|t0.votes| + k] == LegacyVoteRecord(ctx, |t0.flags| + k)
         && run.tables.voteOpinions[|t0.voteOpinions| + k] == VoteOpinion(|t0.votes| + k, tr[k])
  }

  lemma {:induction false} LegacyRecordsExtend(ctx: LegacyRunContext, flagTypes: set<string>, opinions: seq<LegacyOpinion>,
                                               t0: LegacyTables, tr: seq<nat>, prev: LegacyRun, oid: nat)
    requires Voting.ValidIds(tr, |opinions|) && oid < |opinions|
    requires LegacyRecordsTranslation(ctx, flagTypes, opinions, t0, tr, prev)
    requires prev.error.None? && LegacyStep(ctx, flagTypes, opinions, prev, oid).error.None?
    requires LegacyConflictCount(ctx.rule, opinions, opinions[oid]) == 0
    ensures Voting.ValidIds(tr + [oid], |opinions|)
    ensures LegacyRecordsTranslation(ctx, flagTypes, opinions, t0, tr + [oid], LegacyStep(ctx, flagTypes, opinions, prev, oid))
  {
    var tr' := tr + [oid];
    assert tr'[..|tr|] == tr && tr'[|tr|] == oid;
    var next := LegacyStep(ctx, flagTypes, opinions, prev, oid);
    var f := LegacyFlagRecord(flagTypes, opinions[oid]);
    assert f.Ok?;
    assert next.results == prev.results + [|prev.tables.flags|];
    assert next.tables.flags == prev.tables.flags + [f.value];
    assert next.tables.votes == prev.tables.votes + [LegacyVoteRecord(ctx, |prev.tables.flags|)];
    assert next.tables.voteOpinions == prev.tables.voteOpinions + [VoteOpinion(|prev.tables.votes|, oid)];
    assert next.tables.flags[..|t0.flags|] == prev.tables.flags[..|t0.flags|];
    assert next.tables.votes[..|t0.votes|] == prev.tables.votes[..|t0.votes|];
    assert next.tables.voteOpinions[..|t0.voteOpinions|] == prev.tables.voteOpinions[..|t0.voteOpinions|];
  }

  lemma LegacyRecordsNothing(ctx: LegacyRunContext, flagTypes: set<string>, opinions: seq<LegacyOpinion>, t0: LegacyTables)
    ensures LegacyRecordsTranslation(ctx, flagTypes, opinions, t0, [], LegacyRun(t0, [], None))
  {
    assert t0.flags[..|t0.flags|] == t0.flags;
    assert t0.votes[..|t0.votes|] == t0.votes;
    assert t0.voteOpinions[..|t0.voteOpinions|] == t0.voteOpinions;
  }

  /** An exception-free run records exactly the translated opinions. */
  lemma {:induction false} LegacyProcessRecordsTranslated(ctx: LegacyRunContext, flagTypes: set<string>, opinions: seq<LegacyOpinion>,
                                                          t0: LegacyTables, cands: seq<nat>)
    requires Voting.ValidIds(cands, |opinions|)
    requires LegacyProcess(ctx, flagTypes, opinions, t0, cands).error.None?
    ensures Voting.ValidIds(LegacyTranslated(ctx.rule, opinions, cands), |opinions|)
    ensures LegacyRecordsTranslation(ctx, flagTypes, opinions, t0, LegacyTranslated(ctx.rule, opinions, cands),
                                     LegacyProcess(ctx, flagTypes, opinions, t0, cands))
  {
    if cands == [] {
      LegacyRecordsNothing(ctx, flagTypes, opinions, t0);
    } else {
      var n := |cands| - 1;
      var prev := LegacyProcess(ctx, flagTypes, opinions, t0, cands[..n]);
      assert LegacyProcess(ctx, flagTypes, opinions, t0, cands) == LegacyStep(ctx, flagTypes, opinions, prev, cands[n]);
      LegacyProcessRecordsTranslated(ctx, flagTypes, opinions, t0, cands[..n]);
      var tr := LegacyTranslated(ctx.rule, opinions, cands[..n]);
      if LegacyConflictCount(ctx.rule, opinions, opinions[cands[n]]) == 0 {
        assert LegacyTranslated(ctx.rule, opinions, cands) == tr + [cands[n]];
        LegacyRecordsExtend(ctx, flagTypes, opinions, t0, tr, prev, cands[n]);
      } else {
        assert LegacyTranslated(ctx.rule, opinions, cands) == tr;
      }
    }
  }

  /** Some translated opinion cannot be turned into a flag. */
  ghost predicate SomeFlagFails(flagTypes: set<string>, opinions: seq<LegacyOpinion>, tr: seq<nat>)
    requires Voting.ValidIds(tr, |opinions|)
  {
    exists k :: 0 <= k < |tr| && LegacyFlagRecord(flagTypes, opinions[tr[k]]).Err?
  }

  lemma SomeFlagFailsSnoc(flagTypes: set<string>, opinions: seq<LegacyOpinion>, tr: seq<nat>, c: nat)
    requires Voting.ValidIds(tr, |opinions|) && c < |opinions|
    ensures Voting.ValidIds(tr + [c], |opinions|)
    ensures SomeFlagFails(flagTypes, opinions, tr + [c]) <==>
      SomeFlagFails(flagTypes, opinions, tr) || LegacyFlagRecord(flagTypes, opinions[c]).Err?
  {
    var tr' := tr + [c];
    assert tr'[|tr|] == c;
    if SomeFlagFails(flagTypes, opinions, tr) {
      var k :| 0 <= k < |tr| && LegacyFlagRecord(flagTypes, opinions[tr[k]]).Err?;
      assert tr'[k] == tr[k];
    }
    if SomeFlagFails(flagTypes, opinions, tr') {
      var k :| 0 <= k < |tr'| && LegacyFlagRecord(flagTypes, opinions[tr'[k]]).Err?;
      if k < |tr| {
        assert tr'[k] == tr[k];
      }
    }
  }

  /** A run ends in an exception exactly when some translated opinion cannot become a flag. */
  lemma {:induction false} LegacyProcessFails(ctx: LegacyRunContext, flagTypes: set<string>, opinions: seq<LegacyOpinion>,
                                              t0: LegacyTables, cands: seq<nat>)
    requires Voting.ValidIds(cands, |opinions|)
    ensures LegacyProcess(ctx, flagTypes, opinions, t0, cands).error.Some? <==>
      SomeFlagFails(flagTypes, opinions, LegacyTranslated(ctx.rule, opinions, cands))
  {
    if cands != [] {
      var n := |cands| - 1;
      LegacyProcessFails(ctx, flagTypes, opinions, t0, cands[..n]);
      var tr := LegacyTranslated(ctx.rule, opinions, cands[..n]);
      if LegacyConflictCount(ctx.rule, opinions, opinions[cands[n]]) == 0 {
        assert LegacyTranslated(ctx.rule, opinions, cands) == tr + [cands[n]];
        SomeFlagFailsSnoc(flagTypes, opinions, tr, cands[n]);
      } else {
        assert LegacyTranslated(ctx.rule, opinions, cands) == tr;
      }
    }
  }

  lemma {:induction false} LegacyProcessStopsAtError(ctx: LegacyRunContext, flagTypes: set<string>, opinions: seq<LegacyOpinion>,
                                                     t0: LegacyTables, cands: seq<nat>, i: nat)
    requires Voting.ValidIds(cands, |opinions|) && i <= |cands|
    requires LegacyProcess(ctx, flagTypes, opinions, t0, cands[..i]).error.Some?
    ensures LegacyProcess(ctx, flagTypes, opinions, t0, cands) == LegacyProcess(ctx, flagTypes, opinions, t0, cands[..i])
    decreases |cands|
  {
    if i < |cands| {
      var n := |cands| - 1;
      assert cands[..n][..i] == cands[..i];
      LegacyProcessStopsAtError(ctx, flagTypes, opinions, t0, cands[..n], i);
    } else {
      assert cands[..i] == cands;
    }
  }

  /** One more candidate after an exception-free run over the first `i`. */
  lemma LegacyProcessNext(ctx: LegacyRunContext, flagTypes: set<string>, opinions: seq<LegacyOpinion>,
                          t0: LegacyTables, cands: seq<nat>, i: nat, t: LegacyTables, results: seq<nat>)
    requires Voting.ValidIds(cands, |opinions|) && i < |cands|
    requires LegacyProcess(ctx, flagTypes, opinions, t0, cands[..i]) == LegacyRun(t, results, None)
    ensures LegacyConflictCount(ctx.rule, opinions, opinions[cands[i]]) > 0 ==>
      LegacyProcess(ctx, flagTypes, opinions, t0, cands[..i + 1]) == LegacyRun(t, results, None)
    ensures LegacyConflictCount(ctx.rule, opinions, opinions[cands[i]]) == 0 ==>
      match LegacyTranslateOne(ctx, flagTypes, t, opinions[cands[i]], cands[i])
      case Err(e) => LegacyProcess(ctx, flagTypes, opinions, t0, cands[..i + 1]) == LegacyRun(t, results, Some(e))
      case Ok(res) => LegacyProcess(ctx, flagTypes, opinions, t0, cands[..i + 1]) == LegacyRun(res.0, results + [res.1], None)
  {
    assert cands[..i + 1][..i] == cands[..i];
  }

  // ---------------------------------------------------------------------
  // Properties of a run
  // ---------------------------------------------------------------------

  /** A JSON metadata blob whose `freq` and `inputs`, when set, are lists. */
  predicate WellFormedSelection(m: Metadata) {
    (FreqKey in m ==> m[FreqKey] == PNone || m[FreqKey].PList?)
    && (InputsKey in m ==> m[InputsKey] == PNone || m[InputsKey].PList?)
  }

  /**
   * The flag made from an opinion keeps the opinion's time range and
   * metadata (an empty dictionary for a null column): reading the
   * sub-selection back and merging the metadata over it changes nothing.
   */
  lemma LegacyFlagCopiesOpinion(flagTypes: set<string>, o: LegacyOpinion)
    requires Voting.VoteFlagType in flagTypes
    requires o.metadata.Some? ==> WellFormedSelection(o.metadata.value)
    ensures LegacyFlagRecord(flagTypes, o) ==
      Ok(Flag(Voting.VoteFlagType, o.start, o.finish, Some(if o.metadata.Some? then o.metadata.value else map[])))
  {
    var given := Given(Freq(o.metadata), Instrument(o.metadata), Inputs(o.metadata));
    var m: Metadata := if o.metadata.Some? then o.metadata.value else map[];
    assert given.Keys <= m.Keys;
    assert given + ExtraEntries(MetadataArg(o.metadata)) == m;
  }

  /** The opinion covers a time range of positive length. */
  predicate PositiveRange(o: LegacyOpinion) {
    o.finish.Some? && o.finish.value > o.start
  }

  /**
   * As written, an opinion with a positive time range conflicts with
   * itself, so a run over such opinions writes nothing and returns no flag.
   */
  lemma {:induction false} AsWrittenSkipsEveryRange(ctx: LegacyRunContext, flagTypes: set<string>, opinions: seq<LegacyOpinion>,
                                                    t0: LegacyTables, cands: seq<nat>)
    requires ctx.rule == LegacyAsWritten
    requires Voting.ValidIds(cands, |opinions|)
    requires forall k :: 0 <= k < |cands| ==> PositiveRange(opinions[cands[k]])
    ensures LegacyProcess(ctx, flagTypes, opinions, t0, cands) == LegacyRun(t0, [], None)
  {
    if cands != [] {
      var n := |cands| - 1;
      AsWrittenSkipsEveryRange(ctx, flagTypes, opinions, t0, cands[..n]);
      var c := cands[n];
      assert LegacyConflicts(LegacyAsWritten, opinions[c], opinions[c]);
      assert LegacyConflictCount(ctx.rule, opinions, opinions[c]) > 0;
    }
  }

  /**
   * With the intended overlap rule, an opinion with no overlapping
   * disagreement becomes one flag, one vote pointing at it and one link.
   */
  lemma UndisputedOpinionIsFlagged(ctx: LegacyRunContext, flagTypes: set<string>, opinions: seq<LegacyOpinion>,
                                   t0: LegacyTables, c: nat)
    requires ctx.rule == Overlap
    requires c < |opinions| && LegacyFlagRecord(flagTypes, opinions[c]).Ok?
    requires forall i :: 0 <= i < |opinions| && opinions[i].decision != opinions[c].decision ==>
      !LegacyConflicts(Overlap, opinions[i], opinions[c])
    ensures LegacyProcess(ctx, flagTypes, opinions, t0, [c]) ==
      LegacyRun(LegacyTables(t0.flags + [LegacyFlagRecord(flagTypes, opinions[c]).value],
                             t0.votes + [LegacyVoteRecord(ctx, |t0.flags|)],
                             t0.voteOpinions + [VoteOpinion(|t0.votes|, c)]),
                [|t0.flags|], None)
  {
    assert [c][..0] == [];
    assert LegacyConflictCount(ctx.rule, opinions, opinions[c]) == 0;
  }

  // ---------------------------------------------------------------------
  // The engine
  // ---------------------------------------------------------------------

  method LegacyTranslateSingleOpinion(ctx: LegacyRunContext, db: Store<LegacyOpinion, LegacyVote>, oid: nat) returns (r: Result<nat>)
    requires oid < |db.opinions|
    modifies db`flags, db`votes, db`voteOpinions
    ensures var t := old(LegacyTables(db.flags, db.votes, db.voteOpinions));
      match LegacyTranslateOne(ctx, db.flagTypes, t, db.opinions[oid], oid)
      case Err(e) => r == Err(e) && LegacyTables(db.flags, db.votes, db.voteOpinions) == t
      case Ok(res) => r == Ok(res.1) && LegacyTables(db.flags, db.votes, db.voteOpinions) == res.0
  {
    var opinion := db.opinions[oid];
    var metadata := MetadataArg(opinion.metadata);
    var flag := CreateFlag(db, Voting.VoteFlagType, opinion.start, opinion.finish,
                           Freq(opinion.metadata), Instrument(opinion.metadata), Inputs(opinion.metadata), metadata);
    if flag.Err? {
      return Err(flag.error);
    }
    var vote := db.InsertVote(LegacyVoteRecord(ctx, flag.value));
    db.InsertVoteOpinion(VoteOpinion(vote, oid));
    return Ok(flag.value);
  }

  /** The legacy `hypnotoad_vote`, proved against `LegacyProcess` over the candidates. */
  method LegacyHypnotoadVote(ctx: LegacyRunContext, db: Store<LegacyOpinion, LegacyVote>) returns (r: Result<seq<nat>>)
    modifies db`flags, db`votes, db`voteOpinions
    ensures var run := LegacyProcess(ctx, db.flagTypes, db.opinions, old(LegacyTables(db.flags, db.votes, db.voteOpinions)),
                                     LegacyCandidates(old(db.votes), db.opinions));
      && LegacyTables(db.flags, db.votes, db.voteOpinions) == run.tables
      && r == (if run.error.Some? then Err(run.error.value) else Ok(run.results))
  {
    ghost var t0 := LegacyTables(db.flags, db.votes, db.voteOpinions);
    var opinions := db.opinions;
    ghost var flagTypes := db.flagTypes;
    var newOpinions := LegacyCandidates(db.votes, opinions);
    var flags: seq<nat> := [];
    var i := 0;
    while i < |newOpinions|
      invariant 0 <= i <= |newOpinions|
      invariant db.opinions == opinions && db.flagTypes == flagTypes
      invariant LegacyProcess(ctx, flagTypes, opinions, t0, newOpinions[..i]) ==
                LegacyRun(LegacyTables(db.flags, db.votes, db.voteOpinions), flags, None)
    {
      LegacyProcessNext(ctx, flagTypes, opinions, t0, newOpinions, i, LegacyTables(db.flags, db.votes, db.voteOpinions), flags);
      var oid := newOpinions[i];
      var opinion := opinions[oid];
      var moreOpinions := LegacyConflictCount(ctx.rule, opinions, opinion);
      if moreOpinions == 0 {
        var flag := LegacyTranslateSingleOpinion(ctx, db, oid);
        if flag.Err? {
          LegacyProcessStopsAtError(ctx, flagTypes, opinions, t0, newOpinions, i + 1);
          return Err(flag.error);
        }
        flags := flags + [flag.value];
      }
      i := i + 1;
    }
    assert newOpinions[..i] == newOpinions;
    return Ok(flags);
  }
}
