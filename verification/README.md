# Verification of Upgrade Guard

Upgrade Guard is a read-only scanner. It runs six commands, reads package sources and other facts, judges a
snapshot of them with 18 rules, adds the findings up to a verdict and prints a report. This project models the
five parts of it in which correctness takes more than a look at one function, and proves what they keep.

Check everything with `dafny verify dfyconfig.toml`.

## What is modelled

**Redaction** (`Regex`, `Rewrite`, `Redaction`, `RedactionForms`, `RedactionWords`, `RedactionSplits`,
`RedactedWords`, `RedactedSettings`, `PrintedEvidence`). `Regex` gives the part of the ECMAScript pattern
language that the six patterns use its backtracking meaning, as in section 15.10 of ECMA-262: the ends of a
match in the order in which they are tried. `Rewrite` is `std::regex_replace`: leftmost, non-overlapping, most
preferred match first. It also says of every character of a result where it came from. On that rests the proof
that each pass establishes its normal form, that every later pass keeps it, and that text in all normal forms is
left alone, so redaction is idempotent on every string. `RedactSplits` shows that redaction works word by word,
and `RedactedWords` and `RedactedSettings` say what single words become: paths, URLs with and without
credentials, settings, addresses. The documentation promises evidence in redacted form, but the printer drops
carriage returns after redaction, which can join what they separated: `CarriageReturnUndoesRedaction`.
`RedactedExactly` says when the promise is kept: exactly if each word that dropping carriage returns glues
together is redacted. `ReturnsAsideDoNoHarm` gives a condition on the evidence before redaction, which lines
that end in CR LF meet.

**Running a command** (`ProcessRunner`, `ProcessRuns`, `ProcessLaunch`, `ProcessOutput`). Between any two system
calls of the parent, an arbitrary schedule lets the child write, exit or die of a signal, moves the clock, and
decides how much a read hands over. The parent is a set of methods that are proved equal to functions on this
machine. `LaunchedExactly` says when a child is started, and `RunBegins` which program that is and by when it
has to be done. Over every run: what is captured is the prefix of what was read, no byte is lost or made up, an
independent observer of the calls accepts the use of descriptors, child and signal, and the result is a time-out
exactly if there was a kill and otherwise the status with which the child's program ends. That a clean exit
means that all output was captured is false of the code: the last look at the pipes comes before `waitpid`.
`LateOutputIsLost` is a run in which that happens. `CapturedInFullExactly` gives the exact condition, on the
child's program and the schedule: what the child writes to a stream in the turns behind the last read of it is
lost, and nothing else is. `BehindTheLastRead` says which turns those are.

**The JSON report** (`Json`, `JsonReporter`, `JsonReports`). The reporter's writing is proved to be the
rendering of an object, and a reader for sections 2 to 7 of RFC 8259 to recover the report from it. The printer
drops carriage returns and passes other control characters on, so its output is JSON exactly if no text has a
control character other than line feed and carriage return.

**APT text** (`Sources`, `SourceFacts`, `SourceLines`, `Deb822`, `AptSimulation`, `AptTranscripts`). The readers
of one-line and deb822 sources and of the output of a simulated upgrade, as loops over lines, proved against
functions of the text; then duplicates, order of files, blank lines and round trips, and in `SourceLines` what
each kind of line and of stanza is recorded as. The deb822 reader follows the code, not section 5.1 of the
Debian Policy Manual, where the two differ: continuation lines are joined with one space and field names are
case-sensitive.

**From commands to the verdict** (`Domain`, `Collectors`, `Rules`, `ScanService`, `Verdicts`, `Pipeline`,
`Readiness`, `VerdictConditions`, `SystemFacts`, `ScanFindings`). The snapshot is an object that nine collectors
write in place; rules are functions of its state. Runner outcomes and the facts of the system are arbitrary.
Proved are the meaning of the verdict, that no failed command looks ready, and which verdict every scan ends
with. `SystemFacts` says what the facts at the end of a scan are, and `ScanFindings` for each of the 18
identifiers which finding a report has, with status and evidence, in terms of what commands printed and what the
system has. A scan of a system with an opened cache and no directory of package lists throws and has no report
(AptCollector.cpp:69, caught in CliApplication.cpp:174-177); that is part of the results.

`Text`, `Sequences` and `Wrappers` hold what the others share. A C++ byte is a Dafny `char`; a file is the
sequence of its lines as `std::getline` reads them; where the source merges several members of an object into
one string literal, the reporter's methods write the same characters one member at a time.

## Model

| member | source | states |
|---|---|---|
| Text.LowerExactly | src/reporting/Redaction.cpp:9-13 | `icase` compares the 26 letters without their case and all else as it is |
| Regex.EndsAreMatches | src/reporting/Redaction.cpp:8-14 | the backtracking search finds exactly the ends at which the pattern matches |
| Regex.MatchesMoves | src/reporting/Redaction.cpp:8-14 | a match depends only on its characters and on whether its neighbours are word characters |
| Rewrite.HitMatches | src/reporting/Redaction.cpp:15-20 | what the scanner replaces is a match of both parts of the pattern, with the most preferred end |
| Rewrite.MatchIsHit | src/reporting/Redaction.cpp:15-20 | a place where the pattern matches is not passed over |
| Rewrite.ReplaceFixes | src/reporting/Redaction.cpp:15-20 | a text whose matches all carry the replacement already is left as it is |
| Rewrite.Edit.Step | src/reporting/Redaction.cpp:15-20 | every character of a result is a copied, a kept or a filled-in one, and neighbours have neighbouring origins |
| Redaction.HomeHits | src/reporting/Redaction.cpp:8 | the home pattern matches exactly `/home/` and a non-empty component, case-sensitively, and takes all of the component |
| Redaction.HostHits | src/reporting/Redaction.cpp:10 | with its optional marker and backtracking, the host pattern matches exactly where a scheme has a non-empty run, and takes the whole run |
| Redaction.CredentialsHits | src/reporting/Redaction.cpp:9 | the credentials pattern matches exactly where a scheme is followed by a non-empty run without slash and `@` that ends at an `@`, and takes it up to that `@` |
| Redaction.ProxyHit | src/reporting/Redaction.cpp:11 | a proxy match goes from `proxy` to an `=` without another in between, and takes the value up to white space |
| Redaction.TokenHits | src/reporting/Redaction.cpp:12-13 | the token pattern matches exactly a keyword in any case, a delimiter and a token character, and takes the whole run of token characters |
| Redaction.QuadExactly | src/reporting/Redaction.cpp:14 | the address pattern matches exactly four numbers of one to three digits with dots between them and no word character on either side |
| RedactionForms.FormIsMade | src/reporting/Redaction.cpp:15-17 | a rule that replaces what follows a literal leaves the literal followed by its replacement or by nothing |
| RedactionForms.FormIsKept | src/reporting/Redaction.cpp:16-20 | the later passes keep that form |
| RedactionForms.ProxyFormIsMade | src/reporting/Redaction.cpp:18 | after the proxy pass every proxy value is the replacement |
| RedactionForms.ProxyFormIsKept | src/reporting/Redaction.cpp:19-20 | the token and address passes keep that |
| RedactionForms.TokenFormIsMade | src/reporting/Redaction.cpp:19 | after the token pass no keyword and delimiter is followed by a token character |
| RedactionForms.TokenFormIsKept | src/reporting/Redaction.cpp:20 | the address pass keeps that |
| RedactionForms.Ipv4FormIsMade | src/reporting/Redaction.cpp:20 | after the address pass no dotted quad is left, none newly joined by the replacement |
| RedactionForms.RedactIsRedacted | src/reporting/Redaction.cpp:15-21 | the final text has all five normal forms at once |
| RedactionForms.RedactedIsFixed | src/reporting/Redaction.cpp:15-21 | a text with all normal forms is left alone by all six passes |
| RedactionForms.RedactIsIdempotent | src/reporting/Redaction.cpp:7-22 | redacting twice is redacting once, for every string |
| RedactionForms.FixedExactlyWhenRedacted | src/reporting/Redaction.cpp:7-22 | redaction leaves a text alone exactly if it has all normal forms |
| RedactionWords.RedactedSplits | src/reporting/Redaction.cpp:8-14 | at any white space, a text has all normal forms if and only if the parts on both sides have |
| RedactionWords.PiecesAreRuns | src/reporting/Redaction.cpp:8-14 | splitting a text finds exactly the maximal runs without separator |
| RedactionWords.RedactedWordByWord | src/reporting/Redaction.cpp:8-14 | a text has all normal forms if and only if every word of it has |
| RedactionSplits.RedactSplits | src/reporting/Redaction.cpp:8-20 | redaction works word by word: `a`, white space, `b` becomes what becomes of `a`, the same white space and what becomes of `b` |
| RedactedWords.HomeIsReplaced | src/reporting/Redaction.cpp:15 | the name behind `/home/` becomes `[redacted]`, and the pass goes on behind it |
| RedactedWords.HomeWord | src/reporting/Redaction.cpp:15-21 | redacted as a whole, such a path only has its name replaced, if nothing else is to be redacted |
| RedactedWords.HomeAlone | src/reporting/Redaction.cpp:15-21 | `/home/` and any name becomes `/home/[redacted]` |
| RedactedWords.HostIsReplaced | src/reporting/Redaction.cpp:17 | the host behind a scheme in any case becomes `[redacted-host]`, and the pass goes on behind it |
| RedactedWords.CredentialsInHost | src/reporting/Redaction.cpp:16 | the credentials pass changes nothing of an URL outside of its host, and leaves a host |
| RedactedWords.HostWord | src/reporting/Redaction.cpp:15-21 | of an URL, with credentials or without, the host is replaced and scheme and path stay |
| RedactedWords.PlainUrl | src/reporting/Redaction.cpp:15-21 | so for every path of letters, dots, slashes and the like |
| RedactedWords.CredentialsBehind | src/reporting/Redaction.cpp:16-17 | credentials in an URL behind another scheme are replaced although the host pass does not reach them |
| RedactedWords.NestedCredentials | src/reporting/Redaction.cpp:15-21 | what becomes of `http://http://user:pw@host` |
| RedactedSettings.ProxySetting | src/reporting/Redaction.cpp:18 | a value behind a name with `proxy` in it and `=` becomes `[redacted]`, whatever it is |
| RedactedSettings.TokenSetting | src/reporting/Redaction.cpp:19 | a token behind a name that ends in one of the six words, in any case, and `=` or `:` becomes `[redacted]` |
| RedactedSettings.TokenStops | src/reporting/Redaction.cpp:19 | and a character behind it that is none of a token stays |
| RedactedSettings.AddressAlone | src/reporting/Redaction.cpp:20 | an address becomes `[redacted-ip]` |
| RedactedSettings.SourceLine | src/reporting/Redaction.cpp:15-21 | of a line of package sources the host is replaced and all the rest stays |
| ProcessRunner.AppendLimited | src/infrastructure/PosixProcessRunner.cpp:41-56 | appends up to the limit and sets the flag exactly on overflow |
| ProcessRunner.DrainStream | src/infrastructure/PosixProcessRunner.cpp:161-177 | the inner loop reads until the pipe is empty and updates text and flags as specified |
| ProcessRunner.SuperviseOnce | src/infrastructure/PosixProcessRunner.cpp:155-198 | one round of poll, drain, wait and, at the deadline, kill |
| ProcessRunner.SuperviseChild | src/infrastructure/PosixProcessRunner.cpp:154-199 | the supervision loop ends and computes the specified state; the time left is its measure |
| ProcessRunner.ConcludeCommand | src/infrastructure/PosixProcessRunner.cpp:139-202 | the part of `run` behind the spawn, with its early exits |
| ProcessRunner.RunCommand | src/infrastructure/PosixProcessRunner.cpp:122-203 | the whole of `run` computes the specified outcome, machine and bytes read |
| ProcessRuns.CapturesContent | src/infrastructure/PosixProcessRunner.cpp:160-177 | after any chunks of the two streams, each text is the prefix of its stream's bytes, each flag says whether there were more, and `truncated` is their disjunction |
| ProcessRuns.CaptureIgnoresChunks | src/infrastructure/PosixProcessRunner.cpp:160-177 | how streams are cut into chunks and interleaved makes no difference to the result |
| ProcessRuns.DrainKeepsSupervising | src/infrastructure/PosixProcessRunner.cpp:161-177 | draining keeps byte conservation, capture and the protocol of calls under every schedule |
| ProcessRuns.RoundSupervises | src/infrastructure/PosixProcessRunner.cpp:154-199 | so does a round, which either goes on or has reaped the child with one of the three results |
| ProcessRuns.SuperviseConcludes | src/infrastructure/PosixProcessRunner.cpp:152-199 | supervision ends with the child reaped; if it was killed the result is timed out with 124 and SIGKILL, and otherwise it is the status with which the program ends, a signal as 128 plus its number |
| ProcessRuns.RunIsOrderly | src/infrastructure/PosixProcessRunner.cpp:122-203 | in every run each descriptor opened is closed once and not used afterwards, a forked child is reaped once, SIGKILL is sent only from the deadline on to a child not yet reaped, bytes written are bytes read plus bytes left, the result captures what was read, and it is a time-out exactly if the log has a kill and otherwise the status of the first death in the program |
| ProcessLaunch.LaunchedExactly | src/infrastructure/PosixProcessRunner.cpp:17-83 | a child is started if and only if both pipes and the fork succeed, the command is one of the eight and one of the four directories has it; otherwise the first failure is reported |
| ProcessLaunch.ResolvesExactly | src/infrastructure/PosixProcessRunner.cpp:28-39 | the program is the one in the first of the four directories that has it |
| ProcessLaunch.RunBegins | src/infrastructure/PosixProcessRunner.cpp:122-153 | such a run opens two pipes, forks that program, closes the two ends for writing and sets the deadline to the clock then plus the time-out |
| ProcessOutput.PendingIsLate | src/infrastructure/PosixProcessRunner.cpp:161-202 | what the child wrote is what program and schedule say, and what a run leaves in a pipe is exactly what the child was scheduled to write to it in the turns behind the last read of it |
| ProcessOutput.BehindTheLastRead | src/infrastructure/PosixProcessRunner.cpp:161-202 | those turns are, for the standard output, the reads of the standard error; for both, the wait, or on a time-out the wait, the kill and its wait; and the two closes |
| ProcessOutput.CapturedInFullExactly | src/infrastructure/PosixProcessRunner.cpp:154-202 | a stream is captured in full if and only if all the child writes to it fits the limit and the child is not scheduled to write to it behind the last read of it |
| ProcessRuns.LateOutputIsLost | src/infrastructure/PosixProcessRunner.cpp:161-189 | a run with a clean exit, untruncated, whose output is not captured |
| ProcessRuns.DeadChildIsReadOut | src/infrastructure/PosixProcessRunner.cpp:161-189 | a child that is over before a round starts is read out completely in that round, which is the last |
| ProcessRuns.SupervisePollsAtMost | src/infrastructure/PosixProcessRunner.cpp:152-199 | the number of rounds is bounded by the time left to the deadline |
| Json.EscReadsBack | src/reporting/JsonReporter.cpp:11-31 | a reader of an escaped string stops at exactly the closing quotation mark, with the text less its carriage returns, and refuses it exactly if another control character is left |
| Json.ReadsBack | src/reporting/JsonReporter.cpp:95-144 | for every value and whatever follows it, the reader stops where the value ends and has seen the value |
| Json.ItemsReadBack | src/reporting/JsonReporter.cpp:116-139 | comma-separated arrays of any length are read back in order |
| Json.MembersReadBack | src/reporting/JsonReporter.cpp:95-140 | so are the members of objects |
| Json.DocumentReadsBack | src/reporting/JsonReporter.cpp:95-144 | a whole document is accepted to its end, exactly if no string keeps a control character |
| Domain.CountStatus | src/reporting/JsonReporter.cpp:87-91 | counts findings of a status: above zero exactly if there is one |
| JsonReporter.EscText | src/reporting/JsonReporter.cpp:11-31 | the escaping loop computes the escaped text |
| JsonReporter.CountOf | src/reporting/JsonReporter.cpp:87-91 | the count is that of the findings with the status |
| JsonReporter.WriteHeader | src/reporting/JsonReporter.cpp:97-101 | what is written first is the rendering of the five header members |
| JsonReporter.WriteSystem | src/reporting/JsonReporter.cpp:102-108 | the system is written as an object |
| JsonReporter.WriteSummary | src/reporting/JsonReporter.cpp:111-114 | the summary is written as an object of the four counts |
| JsonReporter.WriteEvidenceList | src/reporting/JsonReporter.cpp:123-129 | evidence is written as an array, redacted before it is escaped |
| JsonReporter.WriteFinding | src/reporting/JsonReporter.cpp:117-133 | a finding is written as an object of its ten members |
| JsonReporter.WriteFindings | src/reporting/JsonReporter.cpp:115-134 | findings are written as an array, with commas between them |
| JsonReporter.WriteLimitations | src/reporting/JsonReporter.cpp:135-140 | limitations are written as an array of strings |
| JsonReporter.Format | src/reporting/JsonReporter.cpp:95-144 | all that is written is the rendering of one object |
| JsonReports.NamesReadBack | src/reporting/JsonReporter.cpp:33-85 | the names of enumerators can be told apart |
| JsonReports.FindingReads | src/reporting/JsonReporter.cpp:117-133 | from its object a finding is recovered, with evidence redacted and carriage returns dropped |
| JsonReports.SheetReads | src/reporting/JsonReporter.cpp:95-144 | from the object of a report everything it says is recovered: findings in order, counts, limitations |
| JsonReports.ReportReadsBack | src/reporting/JsonReporter.cpp:95-144 | reading the printed text gives the report back if no text keeps a control character, and otherwise the text is refused |
| JsonReports.PrintedReportReadsBack | src/reporting/JsonReporter.cpp:95-144 | with the redaction in use it is enough that the report's own texts are free of them |
| Redaction.RedactKeeps | src/reporting/Redaction.cpp:15-20 | redaction brings in no characters but those of its replacements |
| PrintedEvidence.StripSplits | src/reporting/JsonReporter.cpp:23-24 | the words of a text without its carriage returns are what dropping them leaves of the texts between other white space |
| PrintedEvidence.RedactedExactly | src/reporting/JsonReporter.cpp:127-128 | printed evidence has all normal forms if and only if every text between other white space that has a carriage return has them once its returns are dropped |
| PrintedEvidence.RedactKeepsAside | src/reporting/Redaction.cpp:15-20 | redaction leaves a carriage return at an end or beside other white space there |
| PrintedEvidence.ReturnsAsideDoNoHarm | src/reporting/JsonReporter.cpp:127-128 | evidence whose carriage returns are all at an end or beside other white space is printed in redacted form |
| PrintedEvidence.WithoutReturns | src/reporting/JsonReporter.cpp:127-128 | evidence without carriage returns is printed exactly as it was redacted |
| PrintedEvidence.CarriageReturnUndoesRedaction | src/reporting/JsonReporter.cpp:23-24 | a home directory whose name follows a carriage return is printed unredacted |
| Sources.Reader.InspectLine | modules/package_health/SourcesCollector.cpp:28-45 | records the entry of a line, or nothing |
| Sources.Reader.ReadList | modules/package_health/SourcesCollector.cpp:47-53 | records the entries of all lines in order |
| Sources.Reader.InspectStanza | modules/package_health/SourcesCollector.cpp:55-77 | records the entry of a stanza, or nothing |
| Sources.Reader.ReadDeb822 | modules/package_health/SourcesCollector.cpp:79-102 | the loop refines: split at blank lines, fold each group into a map, inspect in order, the unfinished last one included |
| Sources.Reader.Collect | modules/package_health/SourcesCollector.cpp:108-125 | all files are read with one record |
| Sources.GroupsSplit | modules/package_health/SourcesCollector.cpp:85-90 | a blank line separates: what is before and behind it is read on its own |
| SourceFacts.RecordOfEntries | modules/package_health/SourcesCollector.cpp:28-77 | the record is a function of the entries: duplicates plus distinct entries are the enabled entries |
| SourceFacts.DuplicateExactly | modules/package_health/SourcesCollector.cpp:42-44 | an entry is recorded as duplicate for every occurrence but one |
| SourceFacts.EntriesInAnyOrder | modules/package_health/SourcesCollector.cpp:28-77 | the order of entries does not matter to any of the recorded multisets |
| SourceFacts.DirectoryOrderDoesNotMatter | modules/package_health/SourcesCollector.cpp:115-123 | nor does the order in which the directory lists its files |
| SourceFacts.ExtraBlankLines | modules/package_health/SourcesCollector.cpp:85-90 | more or fewer blank lines between stanzas or at the ends change nothing |
| SourceFacts.DuplicateAcrossFormats | modules/package_health/SourcesCollector.cpp:28-77 | a line and a stanza of the same URIs, suites and components are duplicates, wherever their files come among others |
| SourceFacts.MainIsAListFile | modules/package_health/SourcesCollector.cpp:111-113 | `sources.list` counts as one more list file |
| SourceFacts.TrimTakesPadding | modules/package_health/SourcesCollector.cpp:19-26 | trimming takes off exactly the blanks around a text |
| SourceLines.CommentedLine | modules/package_health/SourcesCollector.cpp:28-38 | an entry behind `#`, with any padding, is recorded as disabled and as nothing else |
| SourceLines.ActiveLine | modules/package_health/SourcesCollector.cpp:14-17 | an entry without `#` is seen, a duplicate if it was seen before, and third-party exactly by the three host names |
| SourceLines.OtherLine | modules/package_health/SourcesCollector.cpp:28-34 | a line that starts with neither `deb ` nor `URIs:` changes nothing |
| SourceLines.OtherComment | modules/package_health/SourcesCollector.cpp:28-34 | nor does one commented out |
| SourceLines.EmptyComment | modules/package_health/SourcesCollector.cpp:28-34 | nor does a `#` alone |
| SourceLines.ListFileReads | modules/package_health/SourcesCollector.cpp:47-53 | a list file of any such lines is read as what they are meant to be, in order |
| SourceLines.StanzaIs | modules/package_health/SourcesCollector.cpp:55-77 | with any of the five fields, a stanza is an entry exactly if it has URIs, and is disabled exactly if `Enabled` says `no`; its text joins URIs, suites and components |
| Deb822.StanzaReads | modules/package_health/SourcesCollector.cpp:91-99 | the lines of fields are folded into the map that they mean, continuations joined with single spaces |
| Deb822.MeaningOfDistinct | modules/package_health/SourcesCollector.cpp:91-99 | with distinct keys that map has every field with its value and no other |
| Deb822.FileReadsBack | modules/package_health/SourcesCollector.cpp:79-102 | of any stanzas written with any blank lines around them, exactly the meanings are inspected, in order |
| Deb822.UnfinishedFileReadsBack | modules/package_health/SourcesCollector.cpp:79-102 | also if the last line has no line feed |
| AptSimulation.ParseSection | modules/package_health/AptCollector.cpp:11-32 | the flag-driven loop collects the words of the section behind the heading |
| AptSimulation.ParseInst | modules/package_health/AptCollector.cpp:34-48 | collects the first word of every Inst line |
| AptTranscripts.WordsOfRow | modules/package_health/AptCollector.cpp:22-26 | the words of a row are its names, however they are spaced |
| AptTranscripts.SectionReads | modules/package_health/AptCollector.cpp:11-32 | a section yields the names listed under its heading and none from another |
| AptTranscripts.WantedIs | modules/package_health/AptCollector.cpp:11-32 | those are the names of the first listing with the heading and of any right behind it that repeat it |
| AptTranscripts.UpgradesRead | modules/package_health/AptCollector.cpp:34-48 | the Inst lines yield their packages in order, and nothing else does |
| AptTranscripts.TranscriptReadsBack | modules/package_health/AptCollector.cpp:11-48 | for any transcript and any wrapping, all three lists are recovered exactly |
| Text.LinesMakeText | modules/package_health/DpkgCollector.cpp:8-18 | the lines of a text, with line feeds behind them, are the text, whether or not it ends in one |
| Text.ContainsExactly | modules/kernel_health/DkmsCollector.cpp:22-39 | `find` finds a part exactly if the text is that part with something before and behind it |
| Collectors.ReadLines | modules/package_health/DpkgCollector.cpp:8-18 | the lines that are not empty, in order |
| Collectors.CollectApt | modules/package_health/AptCollector.cpp:55-111 | writes cache facts and the simulation to the snapshot, or an issue; throws exactly if the cache was opened and the directory of lists is not there |
| Collectors.ParsePlan | modules/package_health/AptCollector.cpp:89-93 | removals, installs and upgrades of the simulation's output |
| Collectors.CollectSimulation | modules/package_health/AptCollector.cpp:87-105 | writes what the simulation says, with essential removals and completeness |
| Collectors.CollectDpkg | modules/package_health/DpkgCollector.cpp:24-39 | writes audit entries and holds, or issues |
| Collectors.CollectSources | modules/package_health/SourcesCollector.cpp:108-125 | writes what the source readers recorded |
| Collectors.CollectKernel | modules/kernel_health/KernelCollector.cpp:26-63 | writes installed kernels or an issue, and whether there is a fallback |
| Collectors.CollectDkms | modules/kernel_health/DkmsCollector.cpp:12-41 | writes the state of dkms, or that the command is missing |
| Collectors.ClassifyModules | modules/kernel_health/DkmsCollector.cpp:22-39 | the loop sorts the lines into four lists |
| Collectors.CollectSecureBoot | modules/security_health/SecureBootCollector.cpp:10-23 | writes the Secure Boot state, unknown if the command gave no reliable answer |
| Rules.EvaluateConsistency | modules/kernel_health/KernelRules.cpp:53-85 | the loops gather the specified evidence |
| Rules.EvaluateDkms | modules/kernel_health/KernelRules.cpp:87-132 | the three loops gather the specified evidence, and missing command, failed, unfinished and odd modules count in that order |
| Rules.EvaluateReboot | modules/reboot_health/RebootRules.cpp:9-36 | the loop gathers the specified evidence, and an unreadable state comes before a pending reboot |
| Rules.AddEvidence | modules/package_health/PackageRules.cpp:26-32 | one piece of evidence for every item, in order, behind what there was |
| Rules.Evaluate | src/cli/CompositionRoot.cpp:30-35 | all 18 rules keep: evidence is called incomplete exactly if the status is unknown, no rule reports an error, severity goes with status |
| ScanService.Collect | src/application/ScanService.cpp:60-65 | each collector does to the snapshot what its step says, or throws exactly when it should |
| ScanService.Execute | src/application/ScanService.cpp:56-102 | the three loops produce the report of the final facts, and none if a collector throws |
| Verdicts.AggregateIsHeaviest | src/application/ScanService.cpp:30-48 | the verdict is the maximum over the findings, under ready < warnings < incomplete < blocked |
| Verdicts.AggregateJoins | src/application/ScanService.cpp:30-48 | the verdict on findings taken together is the worse of the two |
| Verdicts.AggregateInAnyOrder | src/application/ScanService.cpp:30-48 | the order of findings does not matter |
| Verdicts.FindingsAreSound | src/application/ScanService.cpp:67-83 | every finding of a scan, of rules or of issues, is incomplete exactly if unknown |
| Verdicts.CountsDecide | src/application/ScanService.cpp:30-48 | on such findings the four counts decide the verdict |
| Verdicts.PrintedVerdictAgrees | src/reporting/JsonReporter.cpp:110-114 | whoever reads a printed scan finds a verdict and counts that agree, provided its two times need no escaping |
| Pipeline.Around | src/application/ScanService.cpp:60-65 | at the end of a scan a collector's part of the facts is what that collector made of the part it found empty |
| Pipeline.IssuesExactly | src/application/ScanService.cpp:60-65 | a scan ends without issues exactly if every collector had nothing to complain of |
| Pipeline.AptDecides | modules/package_health/AptCollector.cpp:85-109 | what the outcome of apt-get makes of the simulation facts at the end |
| Pipeline.DkmsDecides | modules/kernel_health/DkmsCollector.cpp:12-41 | what the outcome of dkms makes of the module facts at the end |
| Pipeline.MokutilDecides | modules/security_health/SecureBootCollector.cpp:10-23 | the Secure Boot state is unknown exactly if mokutil failed, was cut off or printed nothing |
| Pipeline.ThrowsExactly | modules/package_health/AptCollector.cpp:68-69 | a scan throws if and only if libapt-pkg opened its cache and the directory of package lists is not there |
| Pipeline.NoFailedCommandLooksReady | src/cli/CompositionRoot.cpp:17-48 | for every runner and every system: if one of the six commands gives an error, is not spawned, times out or exits non-zero, or output of apt-get, dkms or mokutil is truncated, the scan ends blocked or incomplete, or without a report |
| Pipeline.TruncationGoesUnnoticed | modules/package_health/DpkgCollector.cpp:25-37 | whether output of dpkg, apt-mark and dpkg-query was truncated leaves no trace in the report |
| Pipeline.DkmsPassesExactly | modules/kernel_health/KernelRules.cpp:87-132 | UG-DKM-001 passes exactly if dkms was spawned and every non-empty line has comma and colon and none of the five markers |
| Pipeline.RemovalsBlockExactly | modules/package_health/PackageRules.cpp:118-141 | UG-APT-006 blocks exactly if the simulation ended untruncated with status 0 and would remove an essential package |
| Pipeline.TranscriptBlocksExactly | modules/package_health/AptCollector.cpp:87-105 | of a printed transcript, exactly if an essential package is listed for removal |
| Readiness.PackagesPassExactly | modules/package_health/PackageRules.cpp:34-157 | what the rules on database, dependencies, holds, removals and cache ask, in terms of command outcomes and the cache |
| Readiness.SourcesPassExactly | modules/package_health/PackageRules.cpp:89-116 | the source rules pass exactly if no enabled entry is third-party and none is there twice |
| Readiness.ModulesPassExactly | modules/security_health/SecurityRules.cpp:21-38 | what the module and Secure Boot rules ask, in terms of the outcomes of dkms and mokutil |
| Readiness.ReadyExactly | src/cli/CompositionRoot.cpp:17-48 | a scan calls a system ready if and only if every condition holds, from the text of commands to free space |
| Readiness.ReadyDespiteTruncation | src/application/ScanService.cpp:30-48 | there are ready systems, and they are called ready also with output of dpkg, apt-mark and dpkg-query cut off |
| VerdictConditions.BlockedExactly | src/cli/CompositionRoot.cpp:17-48 | a scan ends blocked if and only if it has a report and the platform, the dpkg audit, dependencies, essential removals or modules block |
| VerdictConditions.IncompleteExactly | src/cli/CompositionRoot.cpp:17-48 | a scan ends incomplete if and only if it has a report, nothing blocks and something could not be found out |
| VerdictConditions.VerdictExactly | src/application/ScanService.cpp:56-102 | the verdict of every scan, if it has one, as a function of command outcomes and the state of the system |
| SystemFacts.AptIs | modules/package_health/AptCollector.cpp:55-111 | what libapt-pkg, the package lists and apt-get make of cache, broken packages, the lists under the two headings and the essential ones among the removals |
| SystemFacts.DpkgIs | modules/package_health/DpkgCollector.cpp:24-39 | audit entries and holds are the non-empty lines of dpkg and apt-mark, if these worked |
| SystemFacts.SourcesAre | modules/package_health/SourcesCollector.cpp:108-125 | third-party sources are the enabled entries from elsewhere, and duplicates those that came before, in order |
| SystemFacts.KernelIs | modules/kernel_health/KernelCollector.cpp:26-63 | installed kernels are the lines of dpkg-query, and more than one is a fallback |
| SystemFacts.DkmsIs | modules/kernel_health/DkmsCollector.cpp:12-41 | failed, unfinished and malformed modules are the lines with the words for it |
| SystemFacts.SecureBootIs | modules/security_health/SecureBootCollector.cpp:10-23 | Secure Boot is on if mokutil said so, and unknown unless it worked and printed something untruncated |
| SystemFacts.IssuesAre | src/application/ScanService.cpp:60-65 | the issues of a scan are exactly the complaints of the collectors, in order |
| ScanFindings.RuleReports | src/application/ScanService.cpp:67-71 | the finding of every rule is in the report, and no other has its identifier |
| ScanFindings.CurrentReleaseReport | modules/platform/PlatformRules.cpp:34-60 | when a report has UG-REL-001 in which status, and with which evidence |
| ScanFindings.UpgradePathReport | modules/platform/PlatformRules.cpp:62-87 | the same for UG-REL-002 |
| ScanFindings.DerivativeReport | modules/platform/PlatformRules.cpp:89-108 | the same for UG-REL-003 |
| ScanFindings.DatabaseReport | modules/package_health/PackageRules.cpp:34-53 | the same for UG-APT-001, in terms of what dpkg printed and how the simulation ended |
| ScanFindings.BrokenReport | modules/package_health/PackageRules.cpp:55-73 | the same for UG-APT-002, with the reasons as evidence |
| ScanFindings.HoldsReport | modules/package_health/PackageRules.cpp:75-87 | the same for UG-APT-003, with what apt-mark printed |
| ScanFindings.ThirdPartyReport | modules/package_health/PackageRules.cpp:89-102 | the same for UG-APT-004, with the enabled entries from elsewhere |
| ScanFindings.DuplicatesReport | modules/package_health/PackageRules.cpp:104-116 | the same for UG-APT-005, with the entries that came again |
| ScanFindings.RemovalsReport | modules/package_health/PackageRules.cpp:118-141 | the same for UG-APT-006: of a simulation that ended well it blocks exactly if `apt`, `dpkg`, `systemd` or `ubuntu-minimal` is under the heading for removals |
| ScanFindings.CacheReport | modules/package_health/PackageRules.cpp:143-157 | the same for UG-APT-007, in terms of cache and package lists |
| ScanFindings.RootSpaceReport | modules/storage_health/StorageRules.cpp:23-55 | the same for UG-DSK-001: the root filesystem against 5 GiB |
| ScanFindings.BootSpaceReport | modules/storage_health/StorageRules.cpp:23-58 | the same for UG-DSK-002: `/boot` against 512 MiB |
| ScanFindings.EfiSpaceReport | modules/storage_health/StorageRules.cpp:23-61 | the same for UG-DSK-003: the EFI filesystem against 100 MiB, if there is one |
| ScanFindings.DkmsReport | modules/kernel_health/KernelRules.cpp:87-132 | the same for UG-DKM-001, with the lines of dkms as evidence |
| ScanFindings.FallbackReport | modules/kernel_health/KernelRules.cpp:21-51 | the same for UG-KRN-001, by the number of kernels that dpkg-query printed |
| ScanFindings.ConsistencyReport | modules/kernel_health/KernelRules.cpp:53-85 | the same for UG-KRN-002, with missing headers and initramfs issues |
| ScanFindings.SecureBootReport | modules/security_health/SecurityRules.cpp:9-38 | the same for UG-SEC-001, in terms of what mokutil and dkms printed |
| ScanFindings.RebootReport | modules/reboot_health/RebootRules.cpp:9-36 | the same for UG-RBT-001 |
| ScanFindings.ReportIs | src/application/ScanService.cpp:56-102 | a report has the 18 findings by identifier in order, then one for each complaint with its evidence, and the scan's times, request, limitations and platform |
| ScanFindings.PrintedRemovalsReport | modules/package_health/AptCollector.cpp:87-105 | from any printed transcript: which names under the heading make UG-APT-006 block, and with it the scan |

## Left out

- ProcessRunner.RunCommand: interrupted system calls, failures of `poll`, `read` and `waitpid`, the bounded capacity of a pipe and the environment and arguments of the child are not modelled; the text of errors ends before the system's own words.
- ProcessRunner.SuperviseChild: a round takes at least one tick of the clock, and what a child writes in its life is finite, so every drain ends; the inner loop itself does not look at the deadline.
- ProcessRunner.SuperviseOnce: `poll` is a call between two moves of the schedule; how long it sleeps is part of the schedule.
- Verdicts.PrintedVerdictAgrees: asks that the two times of a scan, which are printed without escaping, have no quotation mark, backslash or control character.
- JsonReports.ReportReadsBack: asks that finding identifiers and the two times, which are printed without escaping, have no quotation mark, backslash or control character.
- Json.ReadsBack: bytes are characters, and whether they are UTF-8 is not considered; the reader takes non-negative integers only and refuses escaped code units of surrogate pairs, which the printer never writes.
- AptTranscripts.TranscriptReadsBack: a transcript indents nothing but the rows of listings; the parser itself is modelled on every text.
- Rules.Evaluate: titles, explanations and recommendations of findings are a parameter, given the rule and the branch taken.
- Collectors.CollectApt: libapt-pkg and the times of package lists are arbitrary inputs.
- Collectors.CollectKernel: the running kernel, missing headers and suspicious initramfs files are arbitrary inputs.
- ScanService.Execute: clock, scan identifier and the sentences on limitations are arbitrary inputs; no exception is modelled but the one for a missing directory of package lists.
- Platform, storage and reboot collectors: foreign reads of one fact each, so their facts are arbitrary inputs; total bytes, separate mounts and `/var`, which no rule looks at, are not modelled.
- Regular expressions: the limits of `std::regex` on recursion depth are not modelled; the patterns are the six in use.
- File system: existence, order and contents of files are inputs; errors while reading are not modelled.
- Text reporter: its claims would be weaker copies of those for JSON.
- Command line, output files, colour, packaging and completions: plumbing.
