# g-mesh: a verified model of its protocol and its algorithms

g-mesh indexes a project and serves the index through one daemon per project. This project models, in
Dafny, the parts of it whose correctness is not visible from any one function, and proves what they
are for. `dafny verify dfyconfig.toml` checks all of it.

**The bootstrap protocol** (`Bootstrap*.dfy`). Any number of shims, CLI rebuilds and daemons of one
project interleave over two advisory locks and four small files. The model is a transition system:
every program counter is a point at which another process may run, and processes may be killed,
wedge, time out, or start late at any such point. `BootstrapSafety` proves what every run keeps;
`BootstrapRebuild` says exactly when a rebuild turns shims away; `BootstrapStamp` and
`BootstrapRetire` say what the build stamp proves of a retirement; `BootstrapSteady`,
`BootstrapCalm` and `BootstrapRise` prove what holds when nothing dies on its own; `BootstrapEffects`
proves what the steps achieve: evictions, reuse, rebuilds, teardown; `BootstrapWitness` gives concrete
runs that show why the theorems are stated as they are. Where the code and its comments
disagree, the model follows the code:

- The comment on `connect_or_bootstrap` says that its check under the bootstrap lock sees every
  rebuild. It does not: a second rebuild overwrites the first one's marker and deletes it when it
  bails out, and a daemon that starts late deletes any marker it finds. The exact condition is proved
  (`TurnedAwayIffNotMeddled`), and so is what the daemon lock still guarantees
  (`NoDaemonDuringRebuild`).
- "Newer wins" is a strict order exactly when no two builds of one mtime have different plugins
  (`StrictOrderIffOnePluginPerAge`): two such builds would replace each other for ever.
- A shim can retire a daemon its build does not supersede, although the comments promise otherwise. In
  every run the retirement rests on one read of the stamp under the lock, and it is right if a stamp
  was on file at that read and the daemon had published its own by then (`WrongOnlyIfUnseen`). Without
  either half any build retires any build: with the stamp gone (`UnknownRetiresAny`), with the incumbent
  dead and a late daemon in its place (`RetiresAnyBuild`), and with the late daemon already holding the
  lock at the read (`HolderUnchangedYetWrong`). A stamp is gone exactly when it was wiped, by a stop that
  tidied up before the daemon had bound or by the daemon's own teardown (`StampIntactIffNotWiped`); when
  it is not, reading it again at the pick would decide exactly (`DecidedIffNotWiped`). While no daemon
  dies on its own or starts late and no rebuild runs, every retirement is right
  (`RetiresOnlySuperseded`).

**Paths and walks** (`LinkTable.dfy`, `Canonical.dfy`, `Refused.dfy`, `Walk.dfy`, `WalkPaths.dfy`,
`WirePath.dfy`, `Languages.dfy`). The watcher's link table sends every spelling of a real file to one;
the walk lists what an open way down the tree leads to, and the pruned walk is the filtered walk;
counting the files of absent languages does not depend on what the walk prunes.

**Text building** (`CeText.dfy`, `CeCut.dfy`, `CeSignature.dfy`, `CeLines.dfy`, `StructuredDoc.dfy`,
`Outline.dfy`, `DocRuns.dfy`). The cross-encoder's source scanner, against a reading of each position as
code, string or comment, and the cut that must not change its text; the doc-comment form that drops whole
sections, against maximal runs of prose and a stateless outline.

**Evaluation arithmetic** (`SplitMix.dfy`, `Ranking.dfy`, `Rerank.dfy`, `Fusion.dfy`, `Floors.dfy`,
`Sampler.dfy`) **and the group sweep** (`GroupSweep.dfy`). The vectorised random draws against the
sequential generator, reranking and fusion, the 3% floor, the stratified sampler, and the daemon's
sweep of its own process group against a process table that changes between any two system calls.

Loops of the source are methods proved against specification functions; objects with state (`Rng`,
`Boot`, the sweep) are classes; the protocol is a state machine. Paths are sequences of components,
scores are reals, and the token counter, the ignore rules, `extension_of`, process tables and clocks
are parameters.

What the protocol model assumes: process ids are not reused; a connect and a stamp read are separate
steps, while `rebuild_in_progress`, picking the process to stop and tidying the files are one step
each; a daemon has the build of the shim that spawned it and its stamp write succeeds; a shim can
read its own executable's age.

## Model

| member | source | states |
|---|---|---|
| BootstrapSafety.ApplyKeepsInv | core/src/shim.rs:246-327 | every step of every process, crashes and late starts included, keeps the protocol's invariant: each lock's holder is exactly the process whose program counter says so, serving records name daemons that recorded themselves, a marker names a rebuild that wrote it or one that ended, and what a shim learnt under the lock still holds |
| BootstrapSafety.AtMostOneServes | core/src/shim.rs:402-461 | in every reachable state at most one daemon listens, and it is the one with the daemon lock, whatever is killed and whoever is evicted |
| BootstrapSafety.NoDaemonDuringRebuild | core/src/cli/reindex.rs:176-195 | while a rebuild has the daemon lock, no daemon is anywhere between taking that lock and releasing it |
| BootstrapSafety.NoSpawnOverMarker | core/src/shim.rs:280-318 | a shim spawns only as the bootstrap-lock holder and with no live rebuild's marker on file, however the unlocked check, the locked check and the rebuild's steps interleave |
| BootstrapSafety.LockedCheckLasts | core/src/shim.rs:280-327 | in every reachable state, a shim that was not turned away by its locked check has no live rebuild's marker on file beside it, until it leaves its locked section |
| BootstrapSafety.EvictionIsPastServing | core/src/shim.rs:436-461 | an eviction is made by the bootstrap-lock holder and hits only a daemon that no longer listens and never will; never one that serves or starts, nor a shim or rebuild |
| BootstrapSafety.EvictionEvidence | core/src/shim.rs:436-461 | behind every eviction stand a silent probe, a read of the lock and serving record, a second silent probe and a second read that named the same process, in that order, the bootstrap lock being the shim's from the first probe on |
| BootstrapSafety.EndedHoldsNoLock | core/src/shim.rs:477-506 | whichever way a process ends, neither lock is its any more |
| BootstrapEffects.ConfirmedIsEvicted | core/src/shim.rs:436-461 | at its second inspection of q a shim that finds the lock held and the record naming the live q ends q with its next two steps, whatever the others do in between, and the lock is then not q's; a shim that does not find that changes nothing but its own place |
| BootstrapEffects.EvictsWedged | core/src/shim.rs:402-461 | wherever a daemon has wedged with the lock and on the record, a fresh undisturbed shim ends it and is about to spawn with the lock free |
| BootstrapEffects.EvictedAndReplaced | core/src/shim.rs:436-461 | a run from the cold project in which a daemon wedges, a shim evicts it, and the daemon that shim spawns serves with the lock |
| BootstrapEffects.FailedEvictionSpawns | core/src/shim.rs:456-460 | a suspect that would not die does not stop the bootstrap: the shim spawns under its lock and nothing else changes |
| BootstrapEffects.JudgesBeforeLock | core/src/shim.rs:263-268 | outside the lock too the verdict is about the daemon that listens: connect if its stamp is there and its build not superseded, else go for the lock |
| BootstrapEffects.ReusesCurrent | core/src/shim.rs:259-268 | a fresh shim of a build that does not supersede the listening daemon's connects, and everything else is as it was |
| BootstrapEffects.FirstCheckTurnsAway | core/src/shim.rs:259-261 | a rebuild whose marker is on file turns a shim away at its first check |
| BootstrapEffects.FallsBack | core/src/shim.rs:284-305 | a daemon that would not stop is used as it is: the shim connects, releases its lock and spawns nothing |
| BootstrapEffects.RebuildStopsDaemon | core/src/cli/reindex.rs:176-195 | a rebuild ends the daemon that serves, removes its files and serving record and holds the project under its marker |
| BootstrapEffects.RebuildEndsWedged | core/src/cli/stop.rs:128-165 | with no pid on file the stop goes by the serving record and ends a daemon that hangs in its teardown |
| BootstrapEffects.TidyLeavesLiveFiles | core/src/cli/stop.rs:282-316 | a stop's tidying leaves the pid file of a process that lives and the stamp of a daemon that listens, and removes those of what is gone |
| BootstrapEffects.RebuildTakesOrGivesUp | core/src/cli/reindex.rs:176-195 | after its stop a rebuild takes the daemon lock if it is free, and can give up on it if and only if another process has it |
| BootstrapEffects.RebuildFinishes | core/src/cli/reindex.rs:156-167 | a rebuild that is done leaves no marker and no lock |
| BootstrapEffects.DaemonCloses | core/src/daemon/lifecycle.rs:1045-1061 | a daemon that closes leaves no stamp, no pid file and no lock, and is gone |
| BootstrapEffects.LateDaemonStandsDown | core/src/daemon/mod.rs:313-318 | a starting daemon stands down if and only if another process has the lock, leaving everything as it was, and takes it otherwise |
| BootstrapRebuild.MarkerIntactIffNotMeddled | core/src/cli/reindex.rs:163-167 | until a rebuild removes its own marker, the marker is on file if and only if no other process's step wrote or removed it |
| BootstrapRebuild.SeenIffMarkerIntact | core/src/daemon/mod.rs:233-252 | under the bootstrap lock a shim sees the rebuild that has the daemon lock if and only if the marker is that rebuild's |
| BootstrapRebuild.TurnedAwayIffNotMeddled | core/src/shim.rs:235-283 | a shim's locked check turns it away from a running rebuild if and only if no starting daemon and no other rebuild touched the marker since it was written |
| BootstrapStamp.ApplyKeepsFiles | core/src/daemon/mod.rs:308-335 | every step keeps this: the stamp on file, if any, is that of the daemon that has published its build and has the lock, and the pid on file is a daemon's that wrote it |
| BootstrapStamp.StampIsServers | core/src/shim.rs:334-357 | in every reachable state the stamp on file, if any, is that of the daemon that listens |
| BootstrapStamp.StampIntactIffNotWiped | core/src/cli/stop.rs:282-316 | in any run the stamp of a daemon that has published it and not stopped listening is on file if and only if no stop tidied up before that daemon bound and it has not begun its teardown |
| BootstrapStamp.JudgesTheServer | core/src/shim.rs:334-357 | a locked shim reading while a daemon listens goes on to retire it if its stamp is gone or its build is superseded, and connects to it otherwise |
| BootstrapStamp.RetirementRightIff | core/src/shim.rs:368-388 | the process a shim picks to stop is the daemon with the lock, or one that has released it and is about to exit; for the former, with a stamp on file, the shim's build supersedes it if and only if that stamp, read again, would not read as current |
| BootstrapRetire.KillEvidence | core/src/shim.rs:284-305 | behind every stop stand an earlier locked read that did not find the stamp current and a later pick of that very process |
| BootstrapRetire.WrongOnlyIfUnseen | core/src/shim.rs:266-305 | in every run, a shim about to stop a daemon its build does not supersede read when no stamp was on file or when that daemon had not published its own |
| BootstrapRetire.DecidedIffNotWiped | core/src/shim.rs:368-388 | the stamp is missing at the pick of a listening daemon if and only if it was wiped, and if it was not, reading it again decides whether the retirement is right |
| BootstrapSteady.ApplyKeepsSteady | core/src/shim.rs:246-327 | while no daemon dies on its own or starts late and no rebuild runs, every step, shims giving up and being killed anywhere included, keeps this: the lock holder's stamp is on file from publication on, and the shim in its locked section relies on a daemon that serves |
| BootstrapSteady.RetiresOnlySuperseded | core/src/shim.rs:266-305 | in such runs the daemon a shim is about to stop is the one serving, and the shim's build supersedes it, however many shims judged it outdated, gave up or were killed |
| BootstrapCalm.ApplyKeepsCalm | core/src/shim.rs:246-327 | in runs where nothing dies on its own, every step keeps the calm invariant: who may be starting, what the stamp says, and that a free lock after a retirement belongs to a shim about to replace the retired build |
| BootstrapRise.ServingBuildRises | core/src/shim.rs:284-305 | in calm runs the builds that served, in order, each supersede the one before; those retired are all of them or all but the one serving now |
| BootstrapRise.RetirementsBounded | core/src/shim.rs:284-305 | in calm runs, if builds of one age share their plugins, retirements are fewer than the distinct builds in play |
| BootstrapRise.SpawnsOverNoUsableDaemon | core/src/shim.rs:284-326 | in calm runs, whenever a shim spawns, any daemon listening is one its build supersedes |
| BootstrapRise.SameBuildNeverRetires | core/src/shim.rs:284-305 | in calm runs shims of one build retire nothing, and once any daemon has bound it serves |
| BootstrapRise.SameBuildSpawnsOnce | core/src/shim.rs:280-326 | in calm runs any number of concurrent shims of one build on a cold project spawn at most one daemon, and exactly one once any of them is connected |
| BootstrapRise.StrictOrderIffOnePluginPerAge | core/src/daemon/build_stamp.rs:212-225 | superseding is a strict order on a set of builds if and only if no two of one mtime have different plugins |
| BootstrapWitness.SpawnDuringRebuild | core/src/cli/reindex.rs:163-195 | a reachable state in which a shim is about to spawn while a rebuild holds the daemon lock: two rebuilds started at once |
| BootstrapWitness.OneLookMisjudges | core/src/shim.rs:436-461 | a reachable state in which the first look already suspects a daemon that serves, so one look would not do |
| BootstrapWitness.StampLost | core/src/cli/stop.rs:282-316 | a run in which no process dies and a daemon of any build serves without the stamp it published, after one that was retired; its build being any, a late start breaks the rise |
| BootstrapWitness.UnknownRetiresAny | core/src/shim.rs:334-388 | for any two builds, a run in which no process dies and a shim of the one is about to stop a serving daemon of the other, whose stamp is gone |
| BootstrapWitness.RetiresAnyBuild | core/src/shim.rs:368-388 | for any two builds, a reachable state in which a shim of the one is about to stop a serving daemon of the other, the stamp on file being that daemon's: the incumbent it judged has died |
| BootstrapWitness.HolderUnchangedYetWrong | core/src/shim.rs:368-388 | the same with one lock holder from the read to the pick and a stamp on file at the read: the holder had not published its own yet |
| BootstrapWitness.CalmRetires | core/src/shim.rs:284-305 | calm runs do retire: for any build superseding another, one reaches a state where the other was retired |
| BootstrapWitness.KilledAfterStop | core/src/shim.rs:284-326 | for any two builds, a run in which no daemon dies on its own or starts late and the second serves after the first: a shim killed after its stop breaks the rise |
| LinkTable.NewTable | core/src/project_walk.rs:246-285 | the table holds exactly the rules the links give, deepest prefix first |
| LinkTable.InsertByDepth | core/src/project_walk.rs:282-284 | one step of the stable sort: the rule goes after all at least as deep and before all less deep |
| LinkTable.FirstMatchIsDeepest | core/src/project_walk.rs:338-342 | the first match is the longest covering prefix over all rules |
| LinkTable.EqualDepthSamePrefix | core/src/project_walk.rs:338-342 | two covering rules of equal depth have the same prefix |
| LinkTable.OrderOfLinksIsIrrelevant | core/src/project_walk.rs:300-342 | with distinct prefixes both lookups depend on which links there are, not on the order they were met in |
| Canonical.CanonIsListing | core/src/project_walk.rs:300-335 | on a well-formed table the two lookups in turn give the spelling the walk lists the denoted file under, and that spelling denotes the file |
| Canonical.OneSpellingPerFile | core/src/project_walk.rs:246-335 | two spellings get the same answer if and only if they denote the same real file, and the answer denotes it |
| Canonical.DanglingIsListed | core/src/project_walk.rs:246-285 | a dangling file link's own path and the path it names both go to the link's own spelling |
| Canonical.RefusedIsDropped | core/src/project_walk.rs:274-335 | a path below a link refused for any other reason, or such a file link itself, is dropped |
| Canonical.DirLinkIsKept | core/src/project_walk.rs:300-335 | a directory link's own path is left alone whatever became of the link |
| Canonical.RefusedBelowFollowed | core/src/project_walk.rs:300-320 | a table outside that condition: a refused link below a followed one, where the answer is itself dropped by a second lookup |
| Refused.OnePassIsEnough | core/src/project_walk.rs:300-335 | on a well-formed table the answer is its own answer |
| Refused.RefusedBoundary | core/src/project_walk.rs:246-335 | with refused links below other links and the rest of the condition kept, a proper path's answer is the listed spelling, dropped if and only if that is a refused file link's own path; otherwise a second pass keeps it if and only if it does not lie below a refused directory link |
| Refused.RefusedExample | core/src/project_walk.rs:274-280 | the failing table is one of those |
| Walk.PlainFilesUnder | core/src/project_walk.rs:97-139 | the pruned walk's files, or nothing exactly when it meets a link |
| Walk.ProjectFilesUnder | core/src/project_walk.rs:72-82 | on a link-free tree, and whenever a link is in reach, the files are exactly the full listing's that lie under a subtree, in its order |
| Walk.PrunedIsFiltered | core/src/project_walk.rs:97-139 | pruning what cannot hold a wanted file lists the full walk's files under the subtrees, with ignore rules inherited and excluded names skipped at any depth |
| WalkPaths.ListedIff | core/src/project_walk.rs:56-69 | a file is listed if and only if some way down the tree leads to it on which no entry is ignored by the ignore files of all directories above it and no directory has an excluded name |
| WalkPaths.PrunedVisits | core/src/project_walk.rs:97-139 | the pruned walk visits exactly the full walk's files in a subtree and its directories and links in or above one |
| WalkPaths.MeetsLinkIff | core/src/project_walk.rs:97-139 | the pruned walk gives up if and only if the full walk meets a link in or above a subtree |
| WalkPaths.ListedOutside | core/src/project_walk.rs:168-171 | no listed file is below a directory with an excluded name |
| WirePath.StringTestIsPrefix | core/src/project_walk.rs:85-92 | the test on slash-joined strings holds if and only if one path's components begin with the other's |
| WirePath.UnderAnyIsPrefix | core/src/project_walk.rs:85-92 | `under_any` on strings is the component-wise test against every subtree |
| Languages.PrunedNames | core/src/languages.rs:237-240 | the narrowing loop leaves exactly the names every absent language excludes, so their order does not matter |
| Languages.AbsentForPathIff | core/src/languages.rs:199-221 | a file's absent language is an entry's if and only if that entry is the first to claim the extension, no present plugin routes the extension, and none is that language's |
| Languages.CountsForIff | core/src/languages.rs:199-258 | a file counts for a language if and only if all that holds and no directory above it, by either spelling, has a name the entry excludes |
| Languages.NoneInBaseline | core/src/watcher/mod.rs:34 | no counted file lies in a `.git` or `.claude` directory |
| Languages.CountAbsentFiles | core/src/languages.rs:223-260 | over any walk, each language's count is the number of walked files that count for it; a language is a key if and only if that is positive |
| Languages.PruningChangesNoCount | core/src/languages.rs:237-244 | pruning a link-free walk by names every absent language excludes changes no language's count |
| Languages.CountPlainProject | core/src/languages.rs:174-260 | on a link-free project each count equals the number of baseline-walk files for which `absent_for_path` names the language, and the keys are absent languages with at least one file |
| CeText.ComputeSignatureEnd | eval/embedding/gm462_ce_text.py:110-149 | the scanner's loops over lines and characters end the signature on the line the specification names |
| CeSignature.SignatureEndIsFirst | eval/embedding/gm462_ce_text.py:110-149 | the signature ends on the first line of the span that has, outside strings, comments and brackets, a brace, semicolon or arrow (or, in Python, ends in a colon there), strings carried over lines where the language does; on the start line if none has |
| CeText.ComputeSkipDocstring | eval/embedding/gm462_ce_text.py:90-107 | the docstring loop skips what the specification says, one more than there are lines when it never closes |
| CeLines.SkippedIsDocstring | eval/embedding/gm462_ce_text.py:90-107 | skipped are the blank lines and the lines from a docstring's opening, at most two prefix letters and three quotes, to the first later place of the same quotes; nothing if the first line with anything on it opens none; more than there is if it never closes |
| CeLines.KeptAreTelling | eval/embedding/gm462_ce_text.py:152-160 | the kept lines are exactly those that are more than punctuation, in order, each cut |
| CeLines.CutLineIs | eval/embedding/gm462_ce_text.py:152-160 | a cut line is the first 200 characters of the line's maximal runs of non-space joined by single spaces |
| CeText.FittingIsLongest | eval/embedding/gm462_ce_text.py:163-175 | the lines the budgeted loop keeps are a run of first lines, and a run of first lines is no longer than it if and only if its tokens are within the budget |
| CeText.BodyIsLongest | eval/embedding/gm462_ce_text.py:163-175 | the body text joins the longest run of kept lines whose tokens fit the budget |
| CeText.ComputeBody | eval/embedding/gm462_ce_text.py:152-175 | the loops over signature, docstring and budget give the specified body |
| CeCut.LoopIgnoresUnread | eval/embedding/gm698_ce_text_fixture.py:77-98 | lines the token loop does not look at do not change what it keeps |
| CeCut.SkipOfPrefix | eval/embedding/gm698_ce_text_fixture.py:77-98 | a docstring that ends before a cut is skipped alike; one the cut runs through swallows what is left; a cut before it leaves blank lines only |
| CeCut.SignatureOfCut | eval/embedding/gm698_ce_text_fixture.py:101-112 | on the cut and rebased source the signature ends on the same line, or still nowhere, for any scanner state |
| CeCut.CutIsHarmless | eval/embedding/gm698_ce_text_fixture.py:77-112 | for every node, source, token counter and budget, cutting after the last line read or any later line and rebasing to line 0 leaves the text unchanged |
| CeCut.ComputeLastRead | eval/embedding/gm698_ce_text_fixture.py:77-98 | the loop returns the last line read |
| CeCut.SpanFor | eval/embedding/gm698_ce_text_fixture.py:101-112 | one cut, the largest last line read over the counters, serves them all: every counter's text is unchanged, with and without the body field |
| CeCut.LastReadInSpan | eval/embedding/gm698_ce_text_fixture.py:77-98 | the last line read lies in the node's span |
| CeLines.LastReadIs | eval/embedding/gm698_ce_text_fixture.py:77-98 | the last line read is the least one: of the lines before it, after signature and docstring, the tokens are within the budget, and with it they pass it or the span ends; all lines when a docstring never closes, the signature's end when nothing is left, the start without a body |
| CeLines.TextIs | eval/embedding/gm462_ce_text.py:184-201 | the text is the non-empty fields in order, the body last and only for functions and types with a source, a newline between them |
| StructuredDoc.Paragraphs | eval/embedding/gm423_token_lengths.py:126-148 | the loop over `current` and `fence` computes the paragraphs of the specification |
| DocRuns.ParagraphsAreRuns | eval/embedding/gm423_token_lengths.py:126-148 | the paragraphs are, in order and all of them, the headings outside fences and the runs of adjacent prose lines outside fences that go on at neither end |
| DocRuns.ShareIff | eval/embedding/gm423_token_lengths.py:126-148 | two prose lines share a paragraph if and only if every line between them is prose |
| DocRuns.SplitIs | eval/embedding/gm423_token_lengths.py:54-59 | the parts joined by newlines are the text, and none has a newline |
| DocRuns.LinesAre | eval/embedding/gm423_token_lengths.py:54-59 | the lines are the parts between newlines, each without one carriage return, an empty last part being none |
| DocRuns.HeadingLevelIff | eval/embedding/gm423_token_lengths.py:62-65 | a heading of a level is that many hashes, one to six, a space, and more than white space |
| DocRuns.KindIs | eval/embedding/gm423_token_lengths.py:126-144 | the tests on a line cannot conflict: it is a fence, a heading or blank by its own text, whatever order they are tried in |
| DocRuns.HeadDroppedIff | eval/embedding/gm423_token_lengths.py:151-163 | a heading is dropped with its section if and only if what follows its hashes, without white space around it and colons at its end, is one of the fourteen names in any case |
| DocRuns.LabelIs | eval/embedding/gm423_token_lengths.py:68-74 | a label line is such a name with at least one colon behind it |
| DocRuns.ListItemIff | eval/embedding/gm423_token_lengths.py:77-82 | a list item, past its indentation, is a bullet and a space, or digits, a full stop or parenthesis, and a space |
| DocRuns.TagLineIff | eval/embedding/gm423_token_lengths.py:97-107 | a tag line, past its indentation, is an at sign and a letter, or a colon, a letter, and any later colon |
| DocRuns.IndexIsFirst | eval/embedding/gm423_token_lengths.py:110-114 | the end of a link's label is the first place of the closing mark |
| DocRuns.DefinitionIsLink | eval/embedding/gm423_token_lengths.py:110-114 | every `[name]:` followed by a target without white space is a link only |
| DocRuns.AddressIsLink | eval/embedding/gm423_token_lengths.py:115-123 | every http or https address without white space is a link only, in angle brackets or not, after `See` or not |
| DocRuns.ParaIs | eval/embedding/gm423_token_lengths.py:164-175 | a paragraph's text is its lines before the first tag line that are more than a link, joined and stripped; it is unwanted if and only if its first line is a label or it is code |
| StructuredDoc.ParagraphsConserveLines | eval/embedding/gm423_token_lengths.py:126-148 | the paragraphs joined are the non-blank lines outside fences, in order, each once |
| StructuredDoc.ParagraphsAreBlocks | eval/embedding/gm423_token_lengths.py:126-148 | every paragraph is a heading alone or a non-empty run of prose lines |
| Outline.SkippedIffBelow | eval/embedding/gm423_token_lengths.py:153-165 | a block is skipped, some dropped heading before it having only deeper headings since, if and only if the carried level says so |
| Outline.SkippingStaysRight | eval/embedding/gm423_token_lengths.py:155-163 | one block's update of the carried level keeps it the least level among the dropped headings in force |
| Outline.KeepStanding | eval/embedding/gm423_token_lengths.py:151-178 | the state machine keeps exactly the blocks that stand in the stateless outline |
| Outline.Structured | eval/embedding/gm423_token_lengths.py:151-178 | the whole form: the standing blocks of the doc comment's paragraphs, blank lines between |
| SplitMix.SplitBelowIsExact | eval/embedding/fusion_eval.py:243-248 | for n below 2^32 the split-word product stays within 64 bits, equals floor(x*n / 2^64), and is below n |
| SplitMix.FirstWord | eval/embedding/q5_floor_sensitivity.py:45-50 | the output function gives the generator's published first word for seed 0 |
| SplitMix.VectorDrawIsDraw | eval/embedding/q5_floor_sensitivity.py:289-310 | the k-th vectorised draw is the sequential generator's k-th, the state being seed + k*gamma modulo 2^64 |
| SplitMix.Rng.NextU64 | eval/embedding/q5_floor_sensitivity.py:45-50 | the k-th word drawn is the output function of seed + k*gamma modulo 2^64 |
| SplitMix.Rng.Below | eval/embedding/q5_floor_sensitivity.py:52-53 | the k-th draw below n is the k-th of the closed form, which is less than n |
| SplitMix.SequentialStats | eval/embedding/q5_floor_sensitivity.py:62-78 | resample r's statistic is the one of draws r*total + 1 onwards, group by group |
| SplitMix.VectorStats | eval/embedding/fusion_eval.py:254-268 | computed group by group over all resamples at once, every resample's statistic is the same as the sequential loops' |
| SplitMix.BothBootstraps | eval/embedding/q5_floor_sensitivity.py:281-284 | with SplitMix64's output function the vectorised bootstrap and the sequential one give equal statistics, resample by resample |
| SplitMix.Boot.IndicesOf | eval/embedding/q5_floor_sensitivity.py:289-310 | fresh or cached, the indices are the sequential draws at every resample, group and position |
| Sampler.Select | eval/embedding/sample_targets.py:181-203 | the loop ends with exactly min(count, total) rows, each from the stratum its slot asks for or, that one exhausted, the first with rows left, and each that stratum's next row |
| Sampler.OrderKept | eval/embedding/sample_targets.py:184-203 | each stratum's output is a prefix of its frame: no row skipped, reordered or used twice |
| Sampler.MixKeptIffFits | eval/embedding/sample_targets.py:184-203 | a prefix of the list has exactly the pattern's stratum counts if and only if the frame has the rows for them |
| Sampler.QuotaOfTens | eval/embedding/sample_targets.py:41 | every ten slots ask for six functions, three types and one other |
| GroupSweep.Sweeper.GroupMembers | core/src/process.rs:314-325 | the listing is the snapshot's live processes other than the caller that are in the group when each is asked |
| GroupSweep.Sweeper.SignalMembers | core/src/process.rs:330-336 | signals go out in turn to those in the group at their turn |
| GroupSweep.Sweeper.KillOwnGroup | core/src/process.rs:338-357 | a caller that does not lead its group does nothing; otherwise the sweep terminates the first listing and kills the last, waits out the grace if any are left, and starts no more than ceil(grace / poll) sleeps |
| GroupSweep.SentExactly | core/src/process.rs:330-336 | a signal is sent if and only if it is to a listed id, at that id's turn, and the id is in the group then |
| GroupSweep.ListedExactly | core/src/process.rs:305-325 | an id is listed if and only if it is a process, not a thread, not a zombie, not the caller, and in the group when asked |
| GroupSweep.SweepStaysInGroup | core/src/process.rs:338-357 | no signal goes to the caller or to anything not in its group at that moment, and each goes to an id that was a live process when listed |
| GroupSweep.KillIsComplete | core/src/process.rs:351-355 | a member of the last listing is killed if and only if it is still in the group at its turn |
| GroupSweep.StayerIsSwept | core/src/process.rs:338-357 | a process that stays in the group throughout is told to end, and killed if it is alive at the last listing |
| GroupSweep.SparesOwnThreads | core/src/process.rs:305-325 | a caller that starts no thread during the sweep never signals one of its own |
| GroupSweep.OwnThreadSignalledIff | core/src/process.rs:330-336 | in general an own thread is signalled if and only if it has got a listed id by that id's turn |
| GroupSweep.ThreadIsSignalled | core/src/process.rs:330-357 | a whole sweep over a concrete table history whose one signal goes to an own thread |
| Ranking.RankedUnique | eval/embedding/fusion_eval.py:167-169 | hits by falling score with ties by candidate order have one arrangement |
| Rerank.RerankIsStable | eval/embedding/rerank_eval.py:479-487 | only the first K hits move; each gets exactly one place, scores fall, and equal scores keep their order |
| Rerank.RecallKept | eval/embedding/rerank_eval.py:479-492 | recall at m is unchanged for m at least K, and for m at most K is no more than recall at K before |
| Rerank.HitAtIff | eval/embedding/rerank_eval.py:278-279 | a hit at m is an expected node among the first m hits |
| Fusion.TopFromDict | eval/embedding/fusion_eval.py:167-169 | the result is the first hundred (fewer if there are fewer) of the dictionary's one ranking, whatever order the dictionary iterates in |
| Fusion.ScoresAreSums | eval/embedding/fusion_eval.py:172-176 | for any lists, a node has a score if and only if some list holds it, and the score is the sum over lists and places of what the places are worth |
| Fusion.ComputeScores | eval/embedding/fusion_eval.py:172-176 | the accumulating loops give exactly those sums |
| Fusion.TwoListScore | eval/embedding/fusion_eval.py:172-176 | a node at places i and j of two lists scores 1/(k+i) + 1/(k+j), places from 1 |
| Fusion.Rrf | eval/embedding/fusion_eval.py:172-177 | the result is the top of the summed reciprocal ranks |
| Fusion.OrderOfListsIsIrrelevant | eval/embedding/fusion_eval.py:172-177 | fusing the same lists in another order gives the same result, over the reals |
| Fusion.Weighted | eval/embedding/fusion_eval.py:186-189 | the result is the top of the weighted sums of each list's scores on its own scale |
| Fusion.WeightedValue | eval/embedding/fusion_eval.py:180-189 | a node has a score if and only if a list holds it, and the score is w times the first list's scaled one plus 1 - w times the second's, 0 where a list does not hold it |
| Fusion.NormEnds | eval/embedding/fusion_eval.py:180-183 | on its own scale a list runs from 1 at its first hit to 0 at its last, or is 1 throughout |
| Fusion.AllWeightOnOne | eval/embedding/fusion_eval.py:186-189 | weight 1 keeps the first list's order among its nodes and weight 0 the second's, ties included |
| Fusion.SelfRrfKeepsOrder | eval/embedding/fusion_eval.py:172-177 | over the reals, fusing any number of copies of a list by reciprocal ranks gives its order back, up to the hundred hits kept |
| Fusion.SelfWeightedKeepsOrder | eval/embedding/fusion_eval.py:180-189 | over the reals, a ranking fused with itself by weighted scores is that ranking again at any weight, ties included, up to the hundred hits kept |
| Floors.FloorIsGreatest | eval/embedding/gm468_name_floors.py:124-126 | a floor refuses at most 3% of the pages if and only if it is at most the chosen one, ties allowed |
| Floors.RoundedFloorHolds | eval/embedding/gm468_name_floors.py:127-130 | rounding gives whole hundredths, not above the floor and less than one below it, and keeps the 3% bound |
| Floors.RefusalDrops | eval/embedding/gm468_name_floors.py:75-93 | on a score-sorted page a false refusal is an answer dropped, at any floor, and where the first hit must be expected the two are the same |
| Floors.PageIff | eval/embedding/gm468_name_floors.py:75-85 | a page is kept if and only if an expected node is among its first three hits, or is the very first in strict mode; its top is the first score and its expected scores are those nodes' |
| Floors.RefusalsAreDropped | eval/embedding/gm468_name_floors.py:89-93 | at any floor the false refusals are no more than the answers dropped |

## Left out

- RetiresOnlySuperseded: proved of runs in which no daemon dies on its own or starts late and no rebuild runs; in other runs any build can retire any build, and `WrongOnlyIfUnseen` says what then went unseen.
- RetirementRightIff: with no stamp on file nothing the shim can read tells a right retirement from a wrong one (`UnknownRetiresAny`).
- ServingBuildRises: proved of calm runs; a late start or a shim killed after its stop breaks it (`StampLost`, `KilledAfterStop`).
- BootstrapRise: a calm run has no rebuild, no daemon that exits or wedges, no shim that gives up or is killed inside its locked section, and a daemon takes its lock while its spawner waits.
- ProjectFilesUnder: says nothing of a tree with links of which none is in reach of the subtrees; what links do to the full walk is decided in another crate.
- CanonIsListing: the well-formedness it asks for (incomparable rule prefixes, duplicates naming a followed link to the same target, aliases apart from every rule) is not derived from the walk that produces the links.
- SplitMix: the sorting of the statistics, the tail picked from them and the pooled point estimate; floating-point summation. Groups are non-empty, as the source drops empty ones first.
- VectorStats: group sizes of 2^32 and more, for which `below` does not claim to work.
- Floors: `BUDGET * n` is taken as the exact 3n/100; floating-point rounding of it is not modelled.
- StructuredDoc: case folding is ASCII only.
- CeText: `identifiers`, `split_words` and the enclosing words read no source line and enter the text as given fields.
- GroupSweep: signals that fail, and `own_group_of`, `signal_group` and `group_is_alive`, which address a whole group in one call.
- Windows code, sockets, stdio inheritance, log rotation, the orphan sweep and the daemon reaper: only their stated effects are in the protocol.
- The unreadable own-executable case of `incumbent`, in which the shim reuses whatever listens.
- Termination of the protocol under fairness; only safety is stated.
- `LinkTable::changed_links`, `holds` and `concerns`, and the symlink choices of the walk crate.
- The indexing, embedding, ranking, storage, plugin and MCP layers, the Go and Python plugins, and the measurement scripts' reporting.
