# chimedb_dataflag voting engine in Dafny

This project models the core of `chimedb.dataflag`, the CHIME data-flagging package, and proves
properties of the model. People enter *opinions* on a day of data: "good", "bad" or "unsure" for
one local sidereal day (LSD) under one pipeline revision. A *voting judge* turns the opinions
entered since the last vote into *data flags*. It writes one audit *vote* per translated opinion,
plus a link row from that vote back to the opinion. The package also contains an older schema in
`chimedb/dataflag/opinion/`. There, an opinion carries its own time range and metadata, and
every translated opinion becomes a flag. Finally, it contains the pure helpers of the
command-line client.

Modules:

- `Values` (values.dfy): the Python values that reach the core (`PyValue`), JSON metadata,
  truthiness, `isinstance`, and the exceptions as an `Error` carried by `Result`.
- `Records` (records.dfy): the rows of `chimedb/dataflag/orm.py`.
  - The database is the class `Store`, whose tables are sequences. A row's id is its position.
  - It holds the record factories `create_flag` and `create_opinion`, with their error cases in
    source order, and the unique opinion index.
  - It holds the metadata accessors and the frequency and input masks, which are built in place
    on an array.
- `Voting` (voting.dfy): `chimedb/dataflag/vote.py`.
  - The judge's constructor, the low-water mark and the candidate selection.
  - The conflict query and the run loop `HypnotoadVote`, proved against the specification
    function `Process`, plus the lemmas about `Process`.
- `LegacyRecords` and `LegacyVoting` (legacy_records.dfy, legacy_voting.dfy): the same for the
  older schema.
- `Cli` (cli.dfy): the pure parts of `chimedb/dataflag/client.py`.
  - The list and JSON parameter converters.
  - The metadata built by `flag create` and changed by `flag edit`.
  - The `flag list` time filters, and the indentation done by `format_metadata`.

The conflict query of both engines is a parameter of a run, the *conflict rule*:

- `AsWritten` and `LegacyAsWritten` model the query as the source builds it. Python's `and`
  between two query expressions yields only the last one, so only the last comparison reaches
  SQL.
- `Disagreement` and `Overlap` model the documented intent: another opinion that disagrees on
  the same day, or on an overlapping time range.

The proved run properties that concern translation use the corrected rules. The as-written rules
are kept to exhibit the discrepancy (see "## Findings").

## Model

| member | source | states |
|---|---|---|
| Records.Store.constructor | chimedb/dataflag/orm.py:28-34 | an empty database over given catalogues: flag types, opinion types, revisions by unique name, users |
| Records.Store.InsertFlag | chimedb/dataflag/orm.py:164-169 | `create` appends the row and returns its id, the old table length |
| Records.Store.InsertOpinion | chimedb/dataflag/orm.py:366-376 | appends the opinion row and returns its id |
| Records.Store.InsertVote | chimedb/dataflag/vote.py:101-108 | appends the vote row and returns its id |
| Records.Store.InsertVoteOpinion | chimedb/dataflag/vote.py:109 | appends the vote-opinion link |
| Records.Where | chimedb/dataflag/vote.py:60-63 | `select().where(p)`: exactly the ids of the rows satisfying `p`, strictly increasing (table order) |
| Records.AssembleMetadata | chimedb/dataflag/orm.py:141-159 | ValueError exactly when `freq` or `inputs` is given but not a list, or `metadata` is given but not a dict, checked in that order; otherwise the keys are the given arguments plus the extra dict, and the extra dict's entries override the arguments |
| Records.BuildTableMetadata | chimedb/dataflag/orm.py:141-159 | the step-by-step dictionary building (with early raises) gives exactly `AssembleMetadata` |
| Records.NewFlagRecord | chimedb/dataflag/orm.py:107-170 | argument errors come before the flag-type lookup (DoesNotExist); succeeds iff the metadata arguments assemble and the flag type exists; a created flag has the given type, start and finish and the assembled metadata |
| Records.CreateFlag | chimedb/dataflag/orm.py:107-170 | on error nothing is inserted; otherwise exactly the `NewFlagRecord` row is appended and its id returned; `freq`, `inputs` and `metadata` default to None and `instrument` to "chime" |
| Records.DefaultArgumentsStoreChime | chimedb/dataflag/orm.py:113-116 | with every optional argument left at its default, the flag's metadata is exactly `{"instrument": "chime"}` and the `instrument` property reads "chime" back |
| Records.MetadataGet | chimedb/dataflag/orm.py:175-178 | `metadata.get(key, None)` behind a None check: None for a null column or a missing key, otherwise the stored value |
| Records.Instrument | chimedb/dataflag/orm.py:172-178 | a non-None result is the value stored under "instrument"; a stored value is always returned |
| Records.Freq | chimedb/dataflag/orm.py:180-186 | a non-None result is the value stored under "freq"; a stored value is always returned |
| Records.Inputs | chimedb/dataflag/orm.py:201-207 | a non-None result is the value stored under "inputs"; a stored value is always returned |
| Records.AccessorsReadBack | chimedb/dataflag/orm.py:172-207 | on a flag made by the factory, `freq`, `instrument` and `inputs` read back the extra dict's value where it has the key, and otherwise the argument (None when not given) |
| Records.IndexValues | chimedb/dataflag/orm.py:196 | a numpy index is an int or a list of ints; it yields those integers, in order, and nothing for any other value |
| Records.Mask | chimedb/dataflag/orm.py:193-197 | all True for no selection; IndexError exactly when the selection is not integer indices or leaves the axis (negative indices count from the end); otherwise True exactly at the selected positions |
| Records.FreqMask | chimedb/dataflag/orm.py:188-199 | succeeds iff `freq` is unset or a list of in-range integer indices, and fails only with IndexError; length 1024; all True when `freq` is unset, all False for an empty list, otherwise True exactly at the listed frequencies |
| Records.InputCount | chimedb/dataflag/orm.py:215-216 | 2048 iff the instrument is "chime", 256 iff it is "pathfinder", an error otherwise |
| Records.InputMask | chimedb/dataflag/orm.py:209-222 | None iff no instrument is set, and a mask whenever an instrument is set and no error occurs; for a known instrument it succeeds iff `inputs` is unset or a list of integer indices within the instrument's size, and fails only with IndexError; the mask has the instrument's size, all True without `inputs`, else True exactly at the listed inputs; an unknown instrument's lookup error is passed on |
| Records.ParseDecision | chimedb/dataflag/orm.py:345-349 | accepts exactly a string among "good", "bad", "unsure", naming the decision; ValidationError otherwise |
| Records.DecisionRoundTrip | chimedb/dataflag/orm.py:292 | parsing a decision's name gives the decision back |
| Records.Capitalize | chimedb/dataflag/orm.py:358 | IndexError iff the name is empty; otherwise same length and tail; a first letter 'a' to 'z' becomes its upper-case letter (code point minus 32) and any other first character is kept |
| Records.CapitalizeIdempotent | chimedb/dataflag/orm.py:358 | capitalising twice is capitalising once |
| Records.NewOpinionRecord | chimedb/dataflag/orm.py:307-378 | errors in source order, each stated with its kind: decision (ValidationError), opinion type (DoesNotExist), revision (DoesNotExist), empty user name (IndexError), user (DoesNotExist), unique index (IntegrityError); succeeds iff all checks pass; the row carries the given fields, the capitalised user, and `last_edit = creation_time` |
| Records.CreateOpinion | chimedb/dataflag/orm.py:301-378 | keeps at most one opinion per (type, user, lsd, revision); on error the table is unchanged, otherwise exactly the `NewOpinionRecord` row is appended |
| Voting.ModeNamesFit | chimedb/dataflag/vote.py:112-115 | every registered mode name fits the 32-character `mode` column and is among `mode_choices` |
| Voting.CheckMode | chimedb/dataflag/vote.py:118-127 | RuntimeError for a name longer than 32, then UserWarning for an unregistered name; succeeds iff neither applies, with the mode of that name |
| Voting.NewJudge | chimedb/dataflag/vote.py:117-143 | mode errors first; then a revision name is looked up (DoesNotExist when absent), a revision object is taken as is, anything else is a TypeError |
| Voting.MaxTime | chimedb/dataflag/vote.py:51 | `MAX(time)`: a member of the times and an upper bound of all of them |
| Voting.LowWaterMark | chimedb/dataflag/vote.py:51-57 | 0 when there is no vote or the latest vote time is 0 (falsy); a nonzero mark is the latest vote time minus 60; a zero mark over existing votes means the latest time was 0 or exactly 60 |
| Voting.Candidates | chimedb/dataflag/vote.py:59-63 | in table order, exactly the opinions of the judge's revision last edited at or after the low-water mark |
| Voting.Conflicts | chimedb/dataflag/vote.py:68-75 | a conflicting opinion is on the candidate's LSD; under the intended rule it has the other decision, and under the revision-scoped rule also the candidate's revision |
| Voting.ConflictRelation | chimedb/dataflag/vote.py:68-75 | as written every opinion conflicts with itself; under the intended rule none does, and conflict is symmetric |
| Voting.ConflictCount | chimedb/dataflag/vote.py:68-75 | positive iff some opinion in the table conflicts with the candidate under the run's rule |
| Voting.VoteFlagRecord | chimedb/dataflag/vote.py:85-97 | the flag of a "bad" opinion has type "vote", covers `csd_to_unix(lsd)` to `csd_to_unix(lsd + 1)` and has empty metadata; DoesNotExist when the "vote" type is missing |
| Voting.TranslateOne | chimedb/dataflag/vote.py:83-110 | fails iff the opinion is "bad" and the "vote" flag type is missing (DoesNotExist); otherwise appends the day flag iff the opinion is "bad", then one vote and one link, and returns the new flag's id iff one was made |
| Voting.Process | chimedb/dataflag/vote.py:65-81 | the loop handles each candidate once: at most one result per candidate, and one vote and one link per result; flags grow by at most one per result |
| Voting.Translated | chimedb/dataflag/vote.py:66-80 | the translated candidates are exactly those whose conflict count is 0 |
| Voting.TranslatedInScanOrder | chimedb/dataflag/vote.py:66-80 | when the candidates come in table order, the translated ones stay in that order |
| Voting.ProcessRecordsTranslated | chimedb/dataflag/vote.py:65-110 | an exception-free run appends, per translated opinion and in order, one vote (run time stamp, mode, engine client, revision, lsd, resulting flag) and one link; the result list has one entry per translated opinion, a flag id iff the opinion is "bad", and that flag is the opinion's day flag; earlier rows are kept |
| Voting.ProcessFails | chimedb/dataflag/vote.py:79-90 | a run raises iff some translated opinion is "bad" and the "vote" flag type is missing; the exception is then DoesNotExist |
| Voting.ContestedOpinionsGetNoVote | chimedb/dataflag/vote.py:68-80 | every link written by a run points at an opinion whose conflict count is 0 |
| Voting.AsWrittenTranslatesNothing | chimedb/dataflag/vote.py:68-77 | with the query as written, every candidate conflicts with itself, so a run leaves all tables unchanged and returns an empty list |
| Voting.UnanimousBadOpinionIsFlagged | chimedb/dataflag/vote.py:44-49 | with the intended rule, a "bad" opinion with no dissent on its LSD yields exactly one day flag, one vote pointing at it, one link, and returns the flag's id |
| Voting.SplitDecisionContestsBoth | chimedb/dataflag/vote.py:47-48 | two opinions that disagree on the same LSD and revision are both contested: one opposing opinion blocks the flag |
| Voting.SameRevisionScopeIsolates | chimedb/dataflag/vote.py:68-75 | when conflicts are scoped by revision, opinions of other revisions never change a candidate's conflict count |
| Voting.AnyRevisionScopeCrossesRevisions | chimedb/dataflag/vote.py:68-75 | the unscoped query, as in the source, lets a disagreeing opinion of another revision contest a candidate, which the scoped query does not |
| Voting.NextRunCandidates | chimedb/dataflag/vote.py:51-63 | after a run that wrote a vote, with a time stamp no earlier than every previous vote, the next mark is the time stamp minus 60 and the next candidates are exactly the judge's opinions edited since then |
| Voting.TranslateSingleOpinion | chimedb/dataflag/vote.py:83-110 | against the store: a failed flag creation changes nothing; otherwise the tables become exactly those of the specification step `TranslateOne` and the flag id (or None) is returned |
| Voting.HypnotoadVote | chimedb/dataflag/vote.py:44-81 | the loop over candidates leaves the store's flags, votes and links exactly as `Process` over `Candidates` says, and returns its result list or the exception that stopped it |
| LegacyRecords.MaxLength | chimedb/dataflag/opinion/orm.py:94 | `max(len(c) for c in ...)`: an upper bound of every length, attained by some element |
| LegacyRecords.DecisionsFitColumn | chimedb/dataflag/opinion/orm.py:93-94 | the legacy `decision` column is 6 characters wide and every decision name fits it |
| LegacyRecords.NewLegacyOpinionRecord | chimedb/dataflag/opinion/orm.py:99-194 | errors in source order, each stated with its kind: decision (ValidationError), metadata arguments (the ValueError of `AssembleMetadata`), opinion type (DoesNotExist), empty user name (IndexError), user (DoesNotExist); succeeds iff all pass; the row carries the range, the assembled metadata and the capitalised user; there is no unique index |
| LegacyRecords.CreateLegacyOpinion | chimedb/dataflag/opinion/orm.py:99-194 | on error the table is unchanged; otherwise exactly the `NewLegacyOpinionRecord` row is appended and its id returned; `instrument` defaults to "chime" and the other metadata arguments to None |
| LegacyVoting.NewLegacyJudge | chimedb/dataflag/opinion/vote.py:82-99 | RuntimeError for names over 32, then UserWarning for unregistered ones; otherwise the judge with that mode |
| LegacyVoting.LegacyCandidates | chimedb/dataflag/opinion/vote.py:24-36 | in table order, exactly the opinions last edited at or after the low-water mark (there is no revision filter) |
| LegacyVoting.LegacyConflicts | chimedb/dataflag/opinion/vote.py:41-49 | a conflicting opinion has a finish after the candidate's start (a null finish never conflicts); under the overlap rule it also has the other decision and starts before the candidate's finish |
| LegacyVoting.LegacyConflictRelation | chimedb/dataflag/opinion/vote.py:41-49 | as written an opinion with a positive range conflicts with itself; under the overlap rule none does, and conflict is symmetric |
| LegacyVoting.LegacyConflictCount | chimedb/dataflag/opinion/vote.py:41-49 | positive iff some opinion conflicts with the candidate under the run's rule; a null finish compares false |
| LegacyVoting.LegacyTranslateOne | chimedb/dataflag/opinion/vote.py:57-75 | fails iff the "vote" flag type is missing or the opinion's metadata does not assemble, with the flag factory's error; otherwise appends one flag of type "vote" with the opinion's start and finish, one vote pointing at it and one link, and returns its id |
| LegacyVoting.LegacyProcess | chimedb/dataflag/opinion/vote.py:38-55 | at most one result per candidate, and one flag, one vote and one link per result |
| LegacyVoting.LegacyTranslated | chimedb/dataflag/opinion/vote.py:39-54 | the translated candidates are exactly those with conflict count 0 |
| LegacyVoting.LegacyTranslatedInScanOrder | chimedb/dataflag/opinion/vote.py:39-54 | when the candidates come in table order, the translated ones stay in that order |
| LegacyVoting.LegacyProcessRecordsTranslated | chimedb/dataflag/opinion/vote.py:38-75 | an exception-free run appends, per translated opinion and in order, its flag, one vote pointing at that flag and one link, and returns the new flag ids; earlier rows are kept |
| LegacyVoting.LegacyProcessFails | chimedb/dataflag/opinion/vote.py:53-67 | a run raises iff some translated opinion cannot be made into a flag |
| LegacyVoting.LegacyFlagCopiesOpinion | chimedb/dataflag/opinion/vote.py:57-67 | the flag made from a well-formed opinion has type "vote", the opinion's start and finish, and exactly the opinion's metadata (empty for a null column) |
| LegacyVoting.AsWrittenSkipsEveryRange | chimedb/dataflag/opinion/vote.py:41-51 | with the query as written, every candidate with a positive time range conflicts with itself, so a run over such candidates writes nothing and returns no flag |
| LegacyVoting.UndisputedOpinionIsFlagged | chimedb/dataflag/opinion/vote.py:18-23 | with the intended overlap rule, an opinion with no overlapping disagreement yields exactly its flag, one vote pointing at it and one link |
| LegacyVoting.LegacyTranslateSingleOpinion | chimedb/dataflag/opinion/vote.py:57-75 | against the store: a failed flag creation changes nothing; otherwise the tables become those of `LegacyTranslateOne` and the new flag's id is returned |
| LegacyVoting.LegacyHypnotoadVote | chimedb/dataflag/opinion/vote.py:18-55 | the loop leaves the store's flags, votes and links exactly as `LegacyProcess` over `LegacyCandidates` says, and returns its flag ids or the exception that stopped it |
| Cli.ListOfTypeConvert | chimedb/dataflag/client.py:82-95 | succeeds iff the text parsed to a list whose every element is an instance of the type, returning that list; fails with the "list" reason for an unparsable or non-list value and the "type" reason otherwise |
| Cli.AllInstances | chimedb/dataflag/client.py:92 | true iff every element is an instance of the type |
| Cli.BooleansPassIntegerLists | chimedb/dataflag/client.py:92 | booleans are accepted by an integer-list option, since `bool` is a subclass of `int` |
| Cli.JsonDictConvert | chimedb/dataflag/client.py:103-113 | succeeds iff the text is JSON for an object, returning its entries; "json" reason for bad JSON, "dict" reason for a non-object |
| Cli.SetFieldsKeys | chimedb/dataflag/client.py:395-404 | the field assignments add exactly the keys of the truthy field arguments |
| Cli.SetFieldsValues | chimedb/dataflag/client.py:395-404 | every truthy field argument ends up stored under its key |
| Cli.SetFieldsKeeps | chimedb/dataflag/client.py:395-404 | every other entry is left unchanged |
| Cli.CreatedMetadataHolds | chimedb/dataflag/client.py:303-317 | the `flag create` assignments over the extra dict give exactly the keys of the dict, the truthy options and "user", with those values and every other entry unchanged |
| Cli.EditedMetadataHolds | chimedb/dataflag/client.py:391-404 | the `flag edit` merge and assignments give exactly the old keys, the update's keys and the truthy options; field values win over the update, which wins over the old entries |
| Cli.NewFlagCommand | chimedb/dataflag/client.py:297-319 | the unsaved flag has the given type, start and finish; its metadata is the extra dict (or an empty one) with each truthy option set and the user always set, falling back on the login name |
| Cli.EditMetadata | chimedb/dataflag/client.py:391-404 | on a null metadata column, AttributeError iff a nonempty update is merged, else TypeError iff some field is set; otherwise the new metadata is as `EditedMetadata` describes |
| Cli.EditFlag | chimedb/dataflag/client.py:375-404 | type, start and finish change only when given; the metadata and its error cases are those of `EditMetadata` |
| Cli.FlagList | chimedb/dataflag/client.py:226-235 | in table order, exactly the flags of the given type, with a finish at or after the window start and a start at or before the window finish; with a window start, an open-ended flag is never listed |
| Cli.WindowIsOverlap | chimedb/dataflag/client.py:232-235 | for a well-ordered flag and window, the two time filters hold iff the flag and the window share an instant |
| Cli.DropTrailingNewline | chimedb/dataflag/client.py:426-427 | removes exactly one trailing newline when there is one, and otherwise changes nothing |
| Cli.IndentLines | chimedb/dataflag/client.py:428 | every line of the text, and only those, comes out behind a four-space indent |
| Cli.FormatMetadata | chimedb/dataflag/client.py:424-428 | the lines of the formatted text are the lines of the dump without its trailing newline, each behind a four-space indent |
| Cli.UnlinesLines | chimedb/dataflag/client.py:428 | joining the lines of a text with newlines gives the text back, so the line view loses nothing |

## Left out

- Persistence and SQL: the tables are sequences, a row's id is its position, `get`/`create` are
  lookups and appends, a query's order is table order, and a failed `create` inside a run is
  not rolled back.
- `get_or_create` of client rows: a client is modelled as its (name, version) value.
- `csd_to_unix` (the ephemeris call) is a function parameter of a run. The vote time stamp
  (`arrow.utcnow()`) is a parameter. So is the engine's `__version__`.
- `VotingJudge.vote`, the lambda that dispatches on the mode name and reads the clock:
  `HypnotoadVote` is what it runs. The KeyError-to-ValueError clause around it cannot be
  reached, because the mode name was checked just before.
- Voting.TranslateSingleOpinion: passes None for `freq`, `instrument` and `inputs`. The current
  opinion table (chimedb/dataflag/orm.py:271-299) has no such attributes, so the source would
  raise AttributeError for every "bad" opinion. The flag therefore carries no sub-selection.
- The low-water mark is taken over the votes of every revision, not only the judge's, and a
  contested opinion gets no vote row at all; the model does the same.
- Doubles are idealised as reals, so time arithmetic does not round.
- The mask methods model numpy boolean-array indexing by integer lists only. Upper-casing covers
  ASCII letters only.
- Cli.EditFlag: the source's `edit_flag` takes no `description` or `user` parameter, although
  both options are declared. Click passes them as keywords, so the command raises TypeError
  before its body runs. The model follows the body as evidently intended.
- `get_user` (the login name) is the `currentUser` parameter of `NewFlagCommand`.
- `ast.literal_eval`, `json.loads` and `yaml.dump` are not modelled: their outputs are
  parameters of the converters and of `FormatMetadata`.
- Click wiring, `tabulate`, `format_time`, `format_flag`, `click.echo`, the confirm prompt and
  `save`, and the other click commands are user-interface code.

## Findings

| source | as written | input that shows it | evidently intended | confidence | as-written member | corrected member |
|---|---|---|---|---|---|---|
| chimedb/dataflag/vote.py:68-75 | `decision != d and lsd == l` hands only `lsd == l` to the query, so the count includes the candidate itself | one "bad" opinion alone on its LSD: the count is 1, so no flag and no vote are written | count other opinions on the same LSD whose decision differs | not executed | Voting.AsWrittenTranslatesNothing | Voting.UnanimousBadOpinionIsFlagged |
| chimedb/dataflag/opinion/vote.py:41-49 | of the three comparisons joined by `and`, only `finish_time > start` reaches the query, so any opinion with a positive range matches itself | one opinion with start 0 and finish 1: the count is 1, so no flag is created | count opinions with a different decision whose range overlaps the candidate's | not executed | LegacyVoting.AsWrittenSkipsEveryRange | LegacyVoting.UndisputedOpinionIsFlagged |
