/**
 * The current voting engine (chimedb/dataflag/vote.py): a judge built from a
 * mode name and a revision translates the opinions entered since the last
 * vote into flags, one Vote and one VoteOpinion row per translated opinion.
 *
 * The run is a loop over the candidate opinions that writes to the store.
 * `Process` is the specification of that loop: the tables and the result
 * list after the first candidates have been handled. The lemmas below
 * state what a run does in terms of `Process`.
 */
module Voting {
  import opened Values
  import opened Records

  /** The longest time a vote is assumed to take (`max_vote_time`). */
  const MaxVoteTime: Time := 60.0

  /** Type of the flags the engine creates. */
  const VoteFlagType := "vote"

  /** Client name the engine records on its votes (the module's `__name__`). */
  const EngineName := "chimedb.dataflag.vote"

  // ---------------------------------------------------------------------
  // Modes and the judge
  // ---------------------------------------------------------------------

  /** The registered voting modes. */
  datatype Mode = Hypnotoad

  function ModeName(m: Mode): string {
    match m
    case Hypnotoad => "hypnotoad"
  }

  /** `mode_choices`: the names of the registered modes. */
  const ModeChoices: seq<string> := ["hypnotoad"]

  lemma ModeNamesFit(m: Mode)
    ensures |ModeName(m)| <= MaxLenName && ModeName(m) in ModeChoices
  {
  }

  /** The mode checks of the constructor: the length limit first, then the registry. */
  function CheckMode(mode: string): (r: Result<Mode>)
    ensures |mode| > MaxLenName ==> r == Err(RuntimeError)
    ensures |mode| <= MaxLenName && mode !in ModeChoices ==> r == Err(UserWarning)
    ensures r.Ok? <==> |mode| <= MaxLenName && mode in ModeChoices
    ensures r.Ok? ==> ModeName(r.value) == mode
  {
    if |mode| > MaxLenName then Err(RuntimeError)
    else if mode !in ModeChoices then Err(UserWarning)
    else Ok(Hypnotoad)
  }

  /** The `revision` argument: a name to look up, a revision object, or anything else. */
  datatype RevisionArg = RevisionName(name: string) | RevisionObject(revision: Revision) | NotARevision

  datatype VotingJudge = VotingJudge(mode: Mode, revision: Revision)

  /** `VotingJudge.__init__`: mode checks before the revision is looked up. */
  function NewJudge(mode: string, revision: RevisionArg, revisions: map<string, Option<string>>): (r: Result<VotingJudge>)
    ensures CheckMode(mode).Err? ==> r == Err(CheckMode(mode).error)
    ensures r.Ok? <==>
      CheckMode(mode).Ok? && (revision.RevisionObject? || (revision.RevisionName? && revision.name in revisions))
    ensures CheckMode(mode).Ok? && revision.NotARevision? ==> r == Err(TypeError)
    ensures CheckMode(mode).Ok? && revision.RevisionName? && revision.name !in revisions ==> r == Err(DoesNotExist(RevisionTable))
    ensures r.Ok? ==> ModeName(r.value.mode) == mode
    ensures r.Ok? && revision.RevisionName? ==> r.value.revision == Revision(revision.name, revisions[revision.name])
    ensures r.Ok? && revision.RevisionObject? ==> r.value.revision == revision.revision
  {
    match CheckMode(mode)
    case Err(e) => Err(e)
    case Ok(m) =>
      match revision
      case RevisionName(name) =>
        if name in revisions then Ok(VotingJudge(m, Revision(name, revisions[name]))) else Err(DoesNotExist(RevisionTable))
      case RevisionObject(rev) => Ok(VotingJudge(m, rev))
      case NotARevision => Err(TypeError)
  }

  // ---------------------------------------------------------------------
  // Selection of candidates
  // ---------------------------------------------------------------------

  function MaxTime(times: seq<Time>): (m: Time)
    requires times != []
    ensures m in times
    ensures forall k :: 0 <= k < |times| ==> times[k] <= m
  {
    if |times| == 1 then times[0]
    else
      var rest := MaxTime(times[1..]);
      if times[0] >= rest then times[0] else rest
  }

  function VoteTimes(votes: seq<Vote>): seq<Time> {
    seq(|votes|, k requires 0 <= k < |votes| => votes[k].time)
  }

  /**
   * The low-water mark: the latest vote time minus the grace window, or 0
   * when there is no vote or the latest time is 0 (falsy in Python).
   */
  function LowWaterMark(times: seq<Time>): (mark: Time)
    ensures times == [] ==> mark == 0.0
    ensures mark != 0.0 ==>
      mark + MaxVoteTime in times && forall k :: 0 <= k < |times| ==> times[k] <= mark + MaxVoteTime
    ensures times != [] && mark == 0.0 ==> MaxTime(times) == 0.0 || MaxTime(times) == MaxVoteTime
    ensures times != [] && MaxTime(times) == 0.0 ==> mark == 0.0
  {
    if times == [] then 0.0
    else
      var last := MaxTime(times);
      if last != 0.0 then last - MaxVoteTime else 0.0
  }

  predicate IsCandidate(o: Opinion, mark: Time, revision: string) {
    o.lastEdit >= mark && o.revision == revision
  }

  /**
   * The opinions to consider, by id in table order: those of the judge's
   * revision edited at or after the low-water mark of all votes.
   */
  function Candidates(votes: seq<Vote>, opinions: seq<Opinion>, judge: VotingJudge): (ids: seq<nat>)
    ensures forall k :: 0 <= k < |ids| ==> ids[k] < |opinions|
    ensures forall k, l :: 0 <= k < l < |ids| ==> ids[k] < ids[l]
    ensures forall i :: 0 <= i < |opinions| ==>
      (i in ids <==> IsCandidate(opinions[i], LowWaterMark(VoteTimes(votes)), judge.revision.name))
  {
    var mark := LowWaterMark(VoteTimes(votes));
    Where(opinions, (o: Opinion) => IsCandidate(o, mark, judge.revision.name))
  }

  // ---------------------------------------------------------------------
  // Conflicts
  // ---------------------------------------------------------------------

  /** Whether other revisions' opinions take part in the conflict check. */
  datatype RevisionScope = AnyRevision | SameRevision

  /**
   * The filter of the conflict query. `AsWritten` is what the source's
   * filter reduces to (only the LSD comparison reaches SQL, so the
   * candidate matches itself); `Disagreement` is the stated intent: another
   * opinion on the same LSD with a different decision.
   */
  datatype ConflictRule = AsWritten | Disagreement(scope: RevisionScope)

  predicate Conflicts(rule: ConflictRule, other: Opinion, cand: Opinion): (b: bool)
    ensures b ==> other.lsd == cand.lsd
    ensures b && rule.Disagreement? ==> other.decision != cand.decision
    ensures b && rule == Disagreement(SameRevision) ==> other.revision == cand.revision
  {
    match rule
    case AsWritten => other.lsd == cand.lsd
    case Disagreement(scope) =>
      other.lsd == cand.lsd && other.decision != cand.decision
      && (scope == SameRevision ==> other.revision == cand.revision)
  }

  /**
   * As written the relation is reflexive, so a candidate always conflicts
   * with itself; as intended it is irreflexive and symmetric.
   */
  lemma ConflictRelation(scope: RevisionScope, a: Opinion, b: Opinion)
    ensures Conflicts(AsWritten, a, a)
    ensures !Conflicts(Disagreement(scope), a, a)
    ensures Conflicts(Disagreement(scope), a, b) <==> Conflicts(Disagreement(scope), b, a)
  {
  }

  /** The `count()` of the conflict query. */
  function ConflictCount(rule: ConflictRule, opinions: seq<Opinion>, cand: Opinion): (n: nat)
    ensures n <= |opinions|
    ensures n > 0 <==> exists i :: 0 <= i < |opinions| && Conflicts(rule, opinions[i], cand)
  {
    if opinions == [] then 0
    else
      var last := |opinions| - 1;
      ConflictCount(rule, opinions[..last], cand) + (if Conflicts(rule, opinions[last], cand) then 1 else 0)
  }

  // ---------------------------------------------------------------------
  // Specification of a run
  // ---------------------------------------------------------------------

  /**
   * What a run is given: the judge, the conflict rule, the single time
   * stamp of the run, the LSD-to-Unix-time conversion, and the version the
   * engine records for itself as client.
   */
  datatype RunContext = RunContext(judge: VotingJudge, rule: ConflictRule, timestamp: Time,
                                   csdToUnix: int -> Time, clientVersion: string)

  /** The tables a run writes. */
  datatype Tables = Tables(flags: seq<Flag>, votes: seq<Vote>, voteOpinions: seq<VoteOpinion>)

  /** Tables after a (partial) run, the flag ids returned so far, and the exception that ended it. */
  datatype Run = Run(tables: Tables, results: seq<Option<nat>>, error: Option<Error>)

  predicate ValidIds(ids: seq<nat>, n: nat) {
    forall k :: 0 <= k < |ids| ==> ids[k] < n
  }

  /** Ids in strictly increasing order, as a scan over a table yields them. */
  predicate Increasing(ids: seq<nat>) {
    forall k, l :: 0 <= k < l < |ids| ==> ids[k] < ids[l]
  }

  function EngineClient(ctx: RunContext): ClientRecord {
    ClientRecord(EngineName, ctx.clientVersion)
  }

  /** The flag a "bad" opinion becomes: one sidereal day, no sub-selection. */
  function VoteFlag(ctx: RunContext, o: Opinion): Flag {
    Flag(VoteFlagType, ctx.csdToUnix(o.lsd), Some(ctx.csdToUnix(o.lsd + 1)), Some(map[]))
  }

  function VoteRecord(ctx: RunContext, o: Opinion, flag: Option<nat>): Vote {
    Vote(ctx.timestamp, ModeName(ctx.judge.mode), EngineClient(ctx), ctx.judge.revision.name, flag, o.lsd)
  }

  /** `_translate_single_opinion`: a flag for a "bad" opinion, then the vote and its link. */
  function TranslateOne(ctx: RunContext, flagTypes: set<string>, t: Tables, o: Opinion, oid: nat): (r: Result<(Tables, Option<nat>)>)
    ensures r.Err? <==> o.decision == Bad && VoteFlagType !in flagTypes
    ensures r.Err? ==> r.error == DoesNotExist(FlagTypeTable)
    ensures r.Ok? ==> r.value.0.flags == t.flags + (if o.decision == Bad then [VoteFlag(ctx, o)] else [])
    ensures r.Ok? ==> (r.value.1.Some? <==> o.decision == Bad) && (r.value.1.Some? ==> r.value.1.value == |t.flags|)
    ensures r.Ok? ==> r.value.0.votes == t.votes + [VoteRecord(ctx, o, r.value.1)]
    ensures r.Ok? ==> r.value.0.voteOpinions == t.voteOpinions + [VoteOpinion(|t.votes|, oid)]
  {
    VoteFlagRecord(ctx, flagTypes, o);
    if o.decision == Bad then
      match NewFlagRecord(flagTypes, VoteFlagType, ctx.csdToUnix(o.lsd), Some(ctx.csdToUnix(o.lsd + 1)), PNone, PNone, PNone, PNone)
      case Err(e) => Err(e)
      case Ok(f) => Ok(Recorded(ctx, Tables(t.flags + [f], t.votes, t.voteOpinions), o, oid, Some(|t.flags|)))
    else
      Ok(Recorded(ctx, t, o, oid, None))
  }

  function Recorded(ctx: RunContext, t: Tables, o: Opinion, oid: nat, flag: Option<nat>): (Tables, Option<nat>) {
    (Tables(t.flags, t.votes + [VoteRecord(ctx, o, flag)], t.voteOpinions + [VoteOpinion(|t.votes|, oid)]), flag)
  }

  lemma VoteFlagRecord(ctx: RunContext, flagTypes: set<string>, o: Opinion)
    ensures NewFlagRecord(flagTypes, VoteFlagType, ctx.csdToUnix(o.lsd), Some(ctx.csdToUnix(o.lsd + 1)), PNone, PNone, PNone, PNone)
         == if VoteFlagType in flagTypes then Ok(VoteFlag(ctx, o)) else Err(DoesNotExist(FlagTypeTable))
  {
    var m: Metadata := map[];
    assert Given(PNone, PNone, PNone) + ExtraEntries(PNone) == m;
  }

  /** One iteration of the loop over candidates. */
  function Step(ctx: RunContext, flagTypes: set<string>, opinions: seq<Opinion>, r: Run, oid: nat): Run
    requires oid < |opinions|
  {
    var o := opinions[oid];
    if ConflictCount(ctx.rule, opinions, o) > 0 then r
    else match TranslateOne(ctx, flagTypes, r.tables, o, oid)
      case Err(e) => Run(r.tables, r.results, Some(e))
      case Ok(res) => Run(res.0, r.results + [res.1], None)
  }

  /** The loop over candidates `cands`, starting from tables `t0`; an exception ends it. */
  function Process(ctx: RunContext, flagTypes: set<string>, opinions: seq<Opinion>, t0: Tables, cands: seq<nat>): (r: Run)
    requires ValidIds(cands, |opinions|)
    ensures |r.results| <= |cands|
    ensures |r.tables.votes| == |t0.votes| + |r.results| && |r.tables.voteOpinions| == |t0.voteOpinions| + |r.results|
    ensures |t0.flags| <= |r.tables.flags| <= |t0.flags| + |r.results|
  {
    if cands == [] then Run(t0, [], None)
    else
      var n := |cands| - 1;
      var prev := Process(ctx, flagTypes, opinions, t0, cands[..n]);
      if prev.error.Some? then prev else Step(ctx, flagTypes, opinions, prev, cands[n])
  }

  /** The candidates without a conflict, in scan order: those the loop translates. */
  function Translated(rule: ConflictRule, opinions: seq<Opinion>, cands: seq<nat>): (tr: seq<nat>)
    requires ValidIds(cands, |opinions|)
    ensures |tr| <= |cands|
    ensures forall k :: 0 <= k < |tr| ==> tr[k] < |opinions| && tr[k] in cands && ConflictCount(rule, opinions, opinions[tr[k]]) == 0
    ensures forall k :: 0 <= k < |cands| && ConflictCount(rule, opinions, opinions[cands[k]]) == 0 ==> cands[k] in tr
  {
    if cands == [] then []
    else
      var n := |cands| - 1;
      Translated(rule, opinions, cands[..n]) + (if ConflictCount(rule, opinions, opinions[cands[n]]) == 0 then [cands[n]] else [])
  }

  /** The translated candidates keep the scan order of the candidates. */
  lemma {:induction false} TranslatedInScanOrder(rule: ConflictRule, opinions: seq<Opinion>, cands: seq<nat>)
    requires ValidIds(cands, |opinions|) && Increasing(cands)
    ensures Increasing(Translated(rule, opinions, cands))
  {
    if cands != [] {
      var n := |cands| - 1;
      var prefix := cands[..n];
      TranslatedInScanOrder(rule, opinions, prefix);
      var tr := Translated(rule, opinions, prefix);
      var c := cands[n];
      assert forall k :: 0 <= k < |prefix| ==> prefix[k] == cands[k] < c;
      MembersBelow(tr, prefix, c);
      if ConflictCount(rule, opinions, opinions[c]) == 0 {
        assert Translated(rule, opinions, cands) == tr + [c];
        IncreasingSnoc(tr, c);
      } else {
        assert Translated(rule, opinions, cands) == tr;
      }
    }
  }

  lemma MembersBelow(ids: seq<nat>, pool: seq<nat>, x: nat)
    requires forall k :: 0 <= k < |ids| ==> ids[k] in pool
    requires forall k :: 0 <= k < |pool| ==> pool[k] < x
    ensures forall k :: 0 <= k < |ids| ==> ids[k] < x
  {
  }

  lemma IncreasingSnoc(ids: seq<nat>, x: nat)
    requires Increasing(ids) && forall k :: 0 <= k < |ids| ==> ids[k] < x
    ensures Increasing(ids + [x])
  {
  }

  /** The flags made for the "bad" opinions among `tr`, in order. */
  function VoteFlags(ctx: RunContext, opinions: seq<Opinion>, tr: seq<nat>): seq<Flag>
    requires ValidIds(tr, |opinions|)
  {
    if tr == [] then []
    else
      var n := |tr| - 1;
      VoteFlags(ctx, opinions, tr[..n]) + (if opinions[tr[n]].decision == Bad then [VoteFlag(ctx, opinions[tr[n]])] else [])
  }

  /**
   * `run` extends `t0` by exactly the writes for the translated opinions
   * `tr`: one flag per "bad" opinion, one vote and one link per opinion,
   * one result per opinion, and nothing else.
   */
  ghost predicate RecordsTranslation(ctx: RunContext, opinions: seq<Opinion>, t0: Tables, tr: seq<nat>, run: Run)
    requires ValidIds(tr, |opinions|)
  {
    && |run.results| == |tr|
    && run.tables.flags == t0.flags + VoteFlags(ctx, opinions, tr)
    && |run.tables.votes| == |t0.votes| + |tr| && run.tables.votes[..|t0.votes|] == t0.votes
    && |run.tables.voteOpinions| == |t0.voteOpinions| + |tr|
    && run.tables.voteOpinions[..|t0.voteOpinions|] == t0.voteOpinions
    && forall k :: 0 <= k < |tr| ==>
         && run.tables.votes[|t0.votes| + k] == VoteRecord(ctx, opinions[tr[k]], run.results[k])
         && run.tables.voteOpinions[|t0.voteOpinions| + k] == VoteOpinion(|t0.votes| + k, tr[k])
         && (run.results[k].Some? <==> opinions[tr[k]].decision == Bad)
         && (run.results[k].Some? ==>
               |t0.flags| <= run.results[k].value < |run.tables.flags|
               && run.tables.flags[run.results[k].value] == VoteFlag(ctx, opinions[tr[k]]))
  }

  lemma {:induction false} RecordsTranslationExtend(ctx: RunContext, flagTypes: set<string>, opinions: seq<Opinion>,
                                                    t0: Tables, tr: seq<nat>, prev: Run, oid: nat)
    requires ValidIds(tr, |opinions|) && oid < |opinions|
    requires RecordsTranslation(ctx, opinions, t0, tr, prev)
    requires prev.error.None? && Step(ctx, flagTypes, opinions, prev, oid).error.None?
    requires ConflictCount(ctx.rule, opinions, opinions[oid]) == 0
    ensures ValidIds(tr + [oid], |opinions|)
    ensures RecordsTranslation(ctx, opinions, t0, tr + [oid], Step(ctx, flagTypes, opinions, prev, oid))
  {
    var o := opinions[oid];
    var tr' := tr + [oid];
    assert tr'[..|tr|] == tr;
    VoteFlagRecord(ctx, flagTypes, o);
    var next := Step(ctx, flagTypes, opinions, prev, oid);
    var f := next.results[|tr|];
    assert next.results == prev.results + [f];
    if o.decision == Bad {
      assert f == Some(|prev.tables.flags|);
      assert next.tables.flags == prev.tables.flags + [VoteFlag(ctx, o)];
    } else {
      assert f == None;
      assert next.tables.flags == prev.tables.flags;
    }
    assert next.tables.votes == prev.tables.votes + [VoteRecord(ctx, o, f)];
    assert next.tables.voteOpinions == prev.tables.voteOpinions + [VoteOpinion(|prev.tables.votes|, oid)];
    assert VoteFlags(ctx, opinions, tr') == VoteFlags(ctx, opinions, tr) + (if o.decision == Bad then [VoteFlag(ctx, o)] else []);
    assert next.tables.votes[..|t0.votes|] == prev.tables.votes[..|t0.votes|];
    assert next.tables.voteOpinions[..|t0.voteOpinions|] == prev.tables.voteOpinions[..|t0.voteOpinions|];
  }

  /** An exception-free run records exactly the translated opinions. */
  lemma {:induction false} ProcessRecordsTranslated(ctx: RunContext, flagTypes: set<string>, opinions: seq<Opinion>,
                                                    t0: Tables, cands: seq<nat>)
    requires ValidIds(cands, |opinions|)
    requires Process(ctx, flagTypes, opinions, t0, cands).error.None?
    ensures ValidIds(Translated(ctx.rule, opinions, cands), |opinions|)
    ensures RecordsTranslation(ctx, opinions, t0, Translated(ctx.rule, opinions, cands), Process(ctx, flagTypes, opinions, t0, cands))
  {
    if cands == [] {
      RecordsNothing(ctx, opinions, t0);
    } else {
      var n := |cands| - 1;
      var prev := Process(ctx, flagTypes, opinions, t0, cands[..n]);
      assert Process(ctx, flagTypes, opinions, t0, cands) == Step(ctx, flagTypes, opinions, prev, cands[n]);
      ProcessRecordsTranslated(ctx, flagTypes, opinions, t0, cands[..n]);
      var tr := Translated(ctx.rule, opinions, cands[..n]);
      if ConflictCount(ctx.rule, opinions, opinions[cands[n]]) == 0 {
        assert Translated(ctx.rule, opinions, cands) == tr + [cands[n]];
        RecordsTranslationExtend(ctx, flagTypes, opinions, t0, tr, prev, cands[n]);
      } else {
        assert Translated(ctx.rule, opinions, cands) == tr;
      }
    }
  }

  lemma RecordsNothing(ctx: RunContext, opinions: seq<Opinion>, t0: Tables)
    ensures RecordsTranslation(ctx, opinions, t0, [], Run(t0, [], None))
  {
    assert t0.votes[..|t0.votes|] == t0.votes;
    assert t0.voteOpinions[..|t0.voteOpinions|] == t0.voteOpinions;
    assert t0.flags + [] == t0.flags;
  }

  /** Some opinion among `tr` is "bad". */
  ghost predicate BadAmong(opinions: seq<Opinion>, tr: seq<nat>)
    requires ValidIds(tr, |opinions|)
  {
    exists k :: 0 <= k < |tr| && opinions[tr[k]].decision == Bad
  }

  lemma BadAmongSnoc(opinions: seq<Opinion>, tr: seq<nat>, c: nat)
    requires ValidIds(tr, |opinions|) && c < |opinions|
    ensures ValidIds(tr + [c], |opinions|)
    ensures BadAmong(opinions, tr + [c]) <==> BadAmong(opinions, tr) || opinions[c].decision == Bad
  {
    var tr' := tr + [c];
    assert tr'[|tr|] == c;
    if BadAmong(opinions, tr) {
      var k :| 0 <= k < |tr| && opinions[tr[k]].decision == Bad;
      assert tr'[k] == tr[k];
    }
    if BadAmong(opinions, tr') {
      var k :| 0 <= k < |tr'| && opinions[tr'[k]].decision == Bad;
      if k < |tr| {
        assert tr'[k] == tr[k];
      }
    }
  }

  /** A run ends in an exception exactly when a "bad" opinion is translated and the "vote" type is missing. */
  lemma {:induction false} ProcessFails(ctx: RunContext, flagTypes: set<string>, opinions: seq<Opinion>,
                                        t0: Tables, cands: seq<nat>)
    requires ValidIds(cands, |opinions|)
    ensures Process(ctx, flagTypes, opinions, t0, cands).error.Some? <==>
      VoteFlagType !in flagTypes && BadAmong(opinions, Translated(ctx.rule, opinions, cands))
    ensures Process(ctx, flagTypes, opinions, t0, cands).error.Some? ==>
      Process(ctx, flagTypes, opinions, t0, cands).error == Some(DoesNotExist(FlagTypeTable))
  {
    if cands != [] {
      var n := |cands| - 1;
      ProcessFails(ctx, flagTypes, opinions, t0, cands[..n]);
      var prev := Process(ctx, flagTypes, opinions, t0, cands[..n]);
      var tr := Translated(ctx.rule, opinions, cands[..n]);
      var o := opinions[cands[n]];
      VoteFlagRecord(ctx, flagTypes, o);
      if ConflictCount(ctx.rule, opinions, o) == 0 {
        assert Translated(ctx.rule, opinions, cands) == tr + [cands[n]];
        BadAmongSnoc(opinions, tr, cands[n]);
      } else {
        assert Translated(ctx.rule, opinions, cands) == tr;
      }
    }
  }

  /** Once a run has failed, later candidates change nothing. */
  lemma {:induction false} ProcessStopsAtError(ctx: RunContext, flagTypes: set<string>, opinions: seq<Opinion>,
                                               t0: Tables, cands: seq<nat>, i: nat)
    requires ValidIds(cands, |opinions|) && i <= |cands|
    requires Process(ctx, flagTypes, opinions, t0, cands[..i]).error.Some?
    ensures Process(ctx, flagTypes, opinions, t0, cands) == Process(ctx, flagTypes, opinions, t0, cands[..i])
    decreases |cands|
  {
    if i < |cands| {
      var n := |cands| - 1;
      assert cands[..n][..i] == cands[..i];
      ProcessStopsAtError(ctx, flagTypes, opinions, t0, cands[..n], i);
    } else {
      assert cands[..i] == cands;
    }
  }

  /** One more candidate after an exception-free run over the first `i`. */
  lemma ProcessNext(ctx: RunContext, flagTypes: set<string>, opinions: seq<Opinion>, t0: Tables, cands: seq<nat>,
                    i: nat, t: Tables, results: seq<Option<nat>>)
    requires ValidIds(cands, |opinions|) && i < |cands|
    requires Process(ctx, flagTypes, opinions, t0, cands[..i]) == Run(t, results, None)
    ensures ConflictCount(ctx.rule, opinions, opinions[cands[i]]) > 0 ==>
      Process(ctx, flagTypes, opinions, t0, cands[..i + 1]) == Run(t, results, None)
    ensures ConflictCount(ctx.rule, opinions, opinions[cands[i]]) == 0 ==>
      match TranslateOne(ctx, flagTypes, t, opinions[cands[i]], cands[i])
      case Err(e) => Process(ctx, flagTypes, opinions, t0, cands[..i + 1]) == Run(t, results, Some(e))
      case Ok(res) => Process(ctx, flagTypes, opinions, t0, cands[..i + 1]) == Run(res.0, results + [res.1], None)
  {
    assert cands[..i + 1][..i] == cands[..i];
  }

  // ---------------------------------------------------------------------
  // Properties of a run
  // ---------------------------------------------------------------------

  /** A candidate that has a conflict gets no vote: no new link points at it. */
  lemma ContestedOpinionsGetNoVote(ctx: RunContext, flagTypes: set<string>, opinions: seq<Opinion>,
                                   t0: Tables, cands: seq<nat>)
    requires ValidIds(cands, |opinions|)
    requires Process(ctx, flagTypes, opinions, t0, cands).error.None?
    ensures var links := Process(ctx, flagTypes, opinions, t0, cands).tables.voteOpinions;
      forall j :: |t0.voteOpinions| <= j < |links| ==>
        links[j].opinion < |opinions| && ConflictCount(ctx.rule, opinions, opinions[links[j].opinion]) == 0
  {
    ProcessRecordsTranslated(ctx, flagTypes, opinions, t0, cands);
    var run := Process(ctx, flagTypes, opinions, t0, cands);
    var tr := Translated(ctx.rule, opinions, cands);
    forall j | |t0.voteOpinions| <= j < |run.tables.voteOpinions|
      ensures run.tables.voteOpinions[j].opinion < |opinions|
      ensures ConflictCount(ctx.rule, opinions, opinions[run.tables.voteOpinions[j].opinion]) == 0
    {
      var k := j - |t0.voteOpinions|;
      assert run.tables.voteOpinions[|t0.voteOpinions| + k] == VoteOpinion(|t0.votes| + k, tr[k]);
    }
  }

  /**
   * As written, the conflict query always finds the candidate itself, so a
   * run translates nothing and writes nothing.
   */
  lemma {:induction false} AsWrittenTranslatesNothing(ctx: RunContext, flagTypes: set<string>, opinions: seq<Opinion>,
                                                      t0: Tables, cands: seq<nat>)
    requires ctx.rule == AsWritten
    requires ValidIds(cands, |opinions|)
    ensures Process(ctx, flagTypes, opinions, t0, cands) == Run(t0, [], None)
  {
    if cands != [] {
      var n := |cands| - 1;
      AsWrittenTranslatesNothing(ctx, flagTypes, opinions, t0, cands[..n]);
      var c := cands[n];
      assert Conflicts(AsWritten, opinions[c], opinions[c]);
      assert ConflictCount(ctx.rule, opinions, opinions[c]) > 0;
    }
  }

  /**
   * With the intended conflict rule, a "bad" opinion that nobody disputes
   * on its LSD becomes one flag over its sidereal day, one vote pointing at
   * that flag, and one link to the opinion.
   */
  lemma UnanimousBadOpinionIsFlagged(ctx: RunContext, flagTypes: set<string>, opinions: seq<Opinion>, t0: Tables, c: nat)
    requires ctx.rule.Disagreement?
    requires c < |opinions| && opinions[c].decision == Bad && VoteFlagType in flagTypes
    requires forall i :: 0 <= i < |opinions| && opinions[i].lsd == opinions[c].lsd ==> opinions[i].decision == Bad
    ensures Process(ctx, flagTypes, opinions, t0, [c]) ==
      Run(Tables(t0.flags + [VoteFlag(ctx, opinions[c])],
                 t0.votes + [VoteRecord(ctx, opinions[c], Some(|t0.flags|))],
                 t0.voteOpinions + [VoteOpinion(|t0.votes|, c)]),
          [Some(|t0.flags|)], None)
  {
    VoteFlagRecord(ctx, flagTypes, opinions[c]);
    assert [c][..0] == [];
    assert ConflictCount(ctx.rule, opinions, opinions[c]) == 0;
  }

  /** Two opinions on one LSD and revision that disagree are both contested. */
  lemma SplitDecisionContestsBoth(scope: RevisionScope, opinions: seq<Opinion>, i: nat, j: nat)
    requires i < |opinions| && j < |opinions|
    requires opinions[i].lsd == opinions[j].lsd && opinions[i].revision == opinions[j].revision
    requires opinions[i].decision != opinions[j].decision
    ensures ConflictCount(Disagreement(scope), opinions, opinions[i]) > 0
    ensures ConflictCount(Disagreement(scope), opinions, opinions[j]) > 0
  {
    assert Conflicts(Disagreement(scope), opinions[j], opinions[i]);
    assert Conflicts(Disagreement(scope), opinions[i], opinions[j]);
  }

  /** Scoped by revision, opinions of other revisions never change a candidate's conflict count. */
  lemma {:induction false} SameRevisionScopeIsolates(opinions: seq<Opinion>, others: seq<Opinion>, cand: Opinion)
    requires forall k :: 0 <= k < |others| ==> others[k].revision != cand.revision
    ensures ConflictCount(Disagreement(SameRevision), opinions + others, cand) == ConflictCount(Disagreement(SameRevision), opinions, cand)
  {
    if others != [] {
      var n := |others| - 1;
      assert (opinions + others)[..|opinions| + n] == opinions + others[..n];
      SameRevisionScopeIsolates(opinions, others[..n], cand);
    } else {
      assert opinions + others == opinions;
    }
  }

  /** Unscoped, as in the source, an opinion of another revision can contest a candidate. */
  lemma AnyRevisionScopeCrossesRevisions(cand: Opinion, other: Opinion)
    requires other.lsd == cand.lsd && other.decision != cand.decision && other.revision != cand.revision
    ensures ConflictCount(Disagreement(AnyRevision), [other], cand) == 1
    ensures ConflictCount(Disagreement(SameRevision), [other], cand) == 0
  {
    assert [other][..0] == [];
  }

  /**
   * After a run that wrote at least one vote, with a time stamp not before
   * any earlier vote, the next run's candidates are exactly the judge's
   * opinions edited in the last grace window before that time stamp.
   */
  lemma NextRunCandidates(ctx: RunContext, flagTypes: set<string>, opinions: seq<Opinion>, t0: Tables, cands: seq<nat>)
    requires ValidIds(cands, |opinions|)
    requires Process(ctx, flagTypes, opinions, t0, cands).error.None?
    requires |Translated(ctx.rule, opinions, cands)| > 0
    requires ctx.timestamp != 0.0
    requires forall k :: 0 <= k < |t0.votes| ==> t0.votes[k].time <= ctx.timestamp
    ensures var votes := Process(ctx, flagTypes, opinions, t0, cands).tables.votes;
      && LowWaterMark(VoteTimes(votes)) == ctx.timestamp - MaxVoteTime
      && forall i :: 0 <= i < |opinions| ==>
           (i in Candidates(votes, opinions, ctx.judge) <==>
              opinions[i].lastEdit >= ctx.timestamp - MaxVoteTime && opinions[i].revision == ctx.judge.revision.name)
  {
    ProcessRecordsTranslated(ctx, flagTypes, opinions, t0, cands);
    var run := Process(ctx, flagTypes, opinions, t0, cands);
    var tr := Translated(ctx.rule, opinions, cands);
    var votes := run.tables.votes;
    var times := VoteTimes(votes);
    assert votes[|t0.votes| + 0] == VoteRecord(ctx, opinions[tr[0]], run.results[0]);
    assert times[|t0.votes|] == ctx.timestamp;
    forall k | 0 <= k < |times| ensures times[k] <= ctx.timestamp {
      if k < |t0.votes| {
        assert votes[k] == votes[..|t0.votes|][k];
      } else {
        var j := k - |t0.votes|;
        assert votes[|t0.votes| + j] == VoteRecord(ctx, opinions[tr[j]], run.results[j]);
      }
    }
    assert MaxTime(times) == ctx.timestamp;
  }

  // ---------------------------------------------------------------------
  // The engine
  // ---------------------------------------------------------------------

  /** `_translate_single_opinion` against the store. */
  method TranslateSingleOpinion(ctx: RunContext, db: Store<Opinion, Vote>, oid: nat) returns (r: Result<Option<nat>>)
    requires oid < |db.opinions|
    modifies db`flags, db`votes, db`voteOpinions
    ensures var t := old(Tables(db.flags, db.votes, db.voteOpinions));
      match TranslateOne(ctx, db.flagTypes, t, db.opinions[oid], oid)
      case Err(e) => r == Err(e) && Tables(db.flags, db.votes, db.voteOpinions) == t
      case Ok(res) => r == Ok(res.1) && Tables(db.flags, db.votes, db.voteOpinions) == res.0
  {
    var opinion := db.opinions[oid];
    var flag: Option<nat> := None;
    if opinion.decision == Bad {
      var startTime := ctx.csdToUnix(opinion.lsd);
      var finishTime := ctx.csdToUnix(opinion.lsd + 1);
      var created := CreateFlag(db, VoteFlagType, startTime, Some(finishTime), PNone, PNone, PNone, PNone);
      if created.Err? {
        return Err(created.error);
      }
      flag := Some(created.value);
    }
    var vote := db.InsertVote(VoteRecord(ctx, opinion, flag));
    db.InsertVoteOpinion(VoteOpinion(vote, oid));
    return Ok(flag);
  }

  /**
   * `hypnotoad_vote`: translate every candidate without a conflict. The
   * store's tables afterwards and the returned list are those of `Process`
   * over the candidates; opinions and catalogues do not change.
   */
  method HypnotoadVote(ctx: RunContext, db: Store<Opinion, Vote>) returns (r: Result<seq<Option<nat>>>)
    modifies db`flags, db`votes, db`voteOpinions
    ensures var run := Process(ctx, db.flagTypes, db.opinions, old(Tables(db.flags, db.votes, db.voteOpinions)),
                               Candidates(old(db.votes), db.opinions, ctx.judge));
      && Tables(db.flags, db.votes, db.voteOpinions) == run.tables
      && r == (if run.error.Some? then Err(run.error.value) else Ok(run.results))
  {
    ghost var t0 := Tables(db.flags, db.votes, db.voteOpinions);
    var opinions := db.opinions;
    ghost var flagTypes := db.flagTypes;
    var newOpinions := Candidates(db.votes, opinions, ctx.judge);
    var flags: seq<Option<nat>> := [];
    var i := 0;
    while i < |newOpinions|
      invariant 0 <= i <= |newOpinions|
      invariant db.opinions == opinions && db.flagTypes == flagTypes
      invariant Process(ctx, flagTypes, opinions, t0, newOpinions[..i]) == Run(Tables(db.flags, db.votes, db.voteOpinions), flags, None)
    {
      ProcessNext(ctx, flagTypes, opinions, t0, newOpinions, i, Tables(db.flags, db.votes, db.voteOpinions), flags);
      var oid := newOpinions[i];
      var opinion := opinions[oid];
      var moreOpinions := ConflictCount(ctx.rule, opinions, opinion);
      if moreOpinions == 0 {
        var flag := TranslateSingleOpinion(ctx, db, oid);
        if flag.Err? {
          ProcessStopsAtError(ctx, flagTypes, opinions, t0, newOpinions, i + 1);
          return Err(flag.error);
        }
        flags := flags + [flag.value];
      }
      i := i + 1;
    }
    assert newOpinions[..i] == newOpinions;
    return Ok(flags);
  }
}
