# A verified model of the LuneOS print service

The print service answers the webOS 3.0.5 print API on top of CUPS. This project models its stateful parts in
Dafny and proves what they keep over all runs, all file contents and all answers of CUPS and the file system.

- **Jobs.** `JobModel` is the job table as a state machine: one step for each of open, editPrintParams,
  newTempFile, addFile, close, cancel and allAtOnce, one for a tick of the poll timer, one for the passing of time
  and one for a capability query. Its state holds the table, the timer flag, every status event ever posted, every
  call made to CUPS but the polls' own queries, the input of each submission, every scratch path handed out and
  everything removed with a job. The theorems about whole runs are in `JobInvariants`, `JobStreams`, `JobPages`,
  `JobFiles`, `JobEvents`, `JobHistory`, `JobEdits`, `JobOptions`, `JobTraffic`, `JobScratch`, `JobPolling`,
  `JobRefinement` and `JobResize`; `JobOutcomes` gives the exact conditions of each reply and what each call leaves
  behind, and `JobSteps` takes the larger steps apart for all of them.
- **Handlers.** `PrintService` is the daemon's own form: job objects updated field by field, a table of them, loops
  with early exits. Each handler that changes something is proved to be exactly its step of the state machine
  (`Handle`), and the main loop to be a run of it (`Serve`), so every theorem about runs is a theorem about the
  objects. The poll and the resize loops visit the table in an arbitrary order.
- **Submission.** `CupsSubmit` is the nested loop that hands files to CUPS, with a ghost trace of all its calls;
  `SubmitProtocol` and `SubmitPayload` say what every trace looks like and delivers (sections 4.2.4 and 4.3.1 of
  RFC 8011). `CupsOptions` is the option list, `EditParams` the checks of editPrintParams.
- **Printable area.** `PrintableArea`, in exact reals with `lround` as rounding half away from zero; `AreaAnswers`
  says what each field of an answer is, and gives the values of tests/test_area.c.
- **Discovery, manual printers, keywords.** `Discovery` (the Add/Rmv feed), `PrinterDb` (the group file with its
  current printer), `PrinterReplies` (when each call to it does what), `ParamMap`, `Capabilities` and `StateReasons` (keyword tables, what is offered to a client,
  printer-state reasons, section 5.4.12 of RFC 8011), `Decimal` and `SpoolPaths` (scratch file names).

Answers of the outside world are parameters: `World` carries everything CUPS and the file system answer during a
submission, `Poll` what CUPS answers about each job, and the other operations whether a file exists, a directory
could be made, space could be reserved, or a cancellation went through.

`dafny verify dfyconfig.toml` checks the project.

## Where the code does less than its comments or names suggest

- A refused edit is not undone: it keeps what was written before the refusal, and after -602 everything
  (`RefusedEditLeavesMark` is an input). It leaves the parameters alone exactly if everything it reached was already
  as supplied (`EditChangesNothing`). As insets once set stay set, a job that is borderless with insets refuses every
  edit, though acceptable ones take effect, until one turns borderless off (`StuckUntilReleased`); a close before
  that prints borderless (`MarginOptions`).
- A job may report DONE more than once, because cancel does not look at the phase (`TwoDone` is a run). A job that
  has ended reports again exactly when it is cancelled, each time one DONE with status Cancelled
  (`EndedStreamGrows`, `EndedReports`), so it reports DONE once exactly if no cancel follows its end
  (`ReportsSinceClose`, `ReportsSinceAllAtOnce`).
- allAtOnce is said to be a wrapper over the long-hand path. It is, except that it posts no page events, and that a
  job CUPS refuses leaves the table instead of staying as DONE (`AllAtOnceRefinesLongHand`).
- The error of a failed resizeTempFile depends on the order in which the hash table is visited
  (`ResizeOutcome`, `OrderDecidesInRun`).
- The margins sent to the printer are not raised to 1/8 inch, the region shown to the client is
  (`RegionAgainstMargins`). With explicit zero insets they part by a quarter inch (`SmallInsetsDisagree`). They agree
  at every resolution exactly if raising and truncating a pair of opposite insets gives away no more than 1/1270 inch
  (`RegionMatchesExactly`, and `JobAgreesExactly` for a whole job).
- A tray offered because the printer advertises an alias is accepted back (`CapabilitiesAccepted`), but prints under
  the canonical name, which that printer may not know (`OfferedTraysPrint`, `TrayAliasNotAdvertised`).
- Only `printer_db_add` undoes itself when the file cannot be written (`InSyncExactly`, `UnwrittenDelete`).
- A browse compares ids only, so a printer whose name or address changed is not reported (`SilentIffSameIds`,
  `RenameUnseen`).
- The current page of a job need not be its last: addFile without currentPage adds a file and leaves the page
  (`UncountedPage`). It is the last exactly if the last accepted addFile carried a number, or there was none and the
  job was opened by open (`PageNumberRun`, `PageNumberOfNew`).

## Model

| member | source | states |
|---|---|---|
| JobInvariants.TableRun | src/job_manager.c:311-357 | every reachable table: keys are job ids below the next one, each id has a stream, jobs keep valid parameters and 0 <= currentPage <= files, a submitted job has a positive CUPS id, files and a last state other than DONE, and the timer is armed while a job is submitted |
| JobInvariants.TableStep | src/print_service.c:1392-1532 | each step keeps that invariant |
| JobInvariants.PollTableInv | src/print_service.c:682-761 | so does a tick, whatever CUPS answers |
| JobInvariants.TimerStep | src/print_service.c:755-769 | a tick leaves the timer armed exactly if it found a submitted job, any other step exactly if it was armed or a job is submitted now |
| JobInvariants.SubmittedIdPositive | src/cups_backend.c:468-478 | a job counts as submitted only with files and a positive CUPS id |
| JobStreams.StreamShapes | src/print_service.c:617-761 | in every run every job's stream is page starts 1..n, then nothing, or DONE, or QUEUED and live states without stutter and at most one DONE, then only cancelled DONEs; jobStatus exactly on DONE; and it fits the job's phase |
| JobStreams.ScanMeansShape | src/print_service.c:617-676 | the monitor used in the proof accepts only streams of that shape |
| JobStreams.StreamRun | src/print_service.c:1265-1532 | the monitor's position stays in step with phase, files and last state over every run |
| JobStreams.AllAtOnceStreamInv | src/print_service.c:1690-1796 | allAtOnce keeps that too, also when its job is dropped after a DONE/Error |
| JobHistory.RunLater | src/print_service.c:1265-1532 | between two moments of a run: ids are never reused, jobs stay, phases never go back, files and parameters are fixed after OPEN, streams and scratch files only grow, recorded submissions never change |
| JobHistory.StepLater | src/print_service.c:1265-1532 | each step does only that |
| JobHistory.SubmissionStep | src/print_service.c:1392-1418 | each step keeps every job equal to the input its submission was built from |
| JobHistory.FrozenAfterOpen | src/print_service.c:948-952 | once out of OPEN, files and parameters still are those handed to CUPS, at every later moment of every run |
| JobHistory.AllAtOnceElsewhere | src/print_service.c:1690-1796 | allAtOnce touches no other job and no other stream, those of removed jobs included |
| JobHistory.ClosedJobsRest | src/print_service.c:948-952 | a job that left OPEN is changed only by newTempFile, cancel and, while submitted, the poll |
| JobTraffic.HandedOverOnce | src/print_service.c:1392-1532 | in every run all CUPS sees is what the operations say, in their order: one capability query where one is asked for, the exact calls of one submission at each close of an open job with files and each allAtOnce of printable files, one cancellation of the job CUPS accepted at each cancel of a submitted job, and nothing else; one creation per submission, at most one submission per job id, and every submitted job has its record |
| JobTraffic.CancelOutcome | src/print_service.c:1491-1532 | CancelJob with the job's printer and CUPS id is sent exactly if the job is submitted; -617 exactly for an unknown job, -709 exactly if it is submitted and not granted, and else the job is CANCELLED with one DONE/Cancelled |
| JobTraffic.CancelledAsOften | src/print_service.c:1517-1526 | over any run the cancellations of a job are as many as the cancels made while it was submitted |
| JobFiles.AddFileOutcome | src/print_service.c:1283-1332 | a file is taken exactly by an open job, if it is printable and its page number, if given, is the next one; else -617, -501, -604, -601, -618 or -615, each exactly when, and nothing changes |
| JobFiles.AddFileEffect | src/print_service.c:1324-1342 | the file becomes the last one, page and total are those given, and its number is announced |
| JobFiles.AllAtOnceFiles | src/print_service.c:1738-1776 | a call that succeeds had only printable files, and its job holds them in order |
| JobFiles.AllAtOnceRefusal | src/print_service.c:1738-1773 | no files at all give -614, and otherwise the first element that is no text (-610) or cannot be printed (-604, -601, -618) decides the error |
| JobFiles.FilesAreThoseTaken | src/print_service.c:1283-1348 | over any run a job's files are exactly those it had and those it took since, in order |
| JobFiles.EveryFileChecked | src/print_service.c:1300-1322 | in every run every file of every job was offered by an addFile or allAtOnce that found it printable |
| JobSteps.FirstBadItem | src/print_service.c:1738-1773 | the first element that is not taken decides the error |
| JobEvents.StepSays | src/print_service.c:617-676 | every step but allAtOnce adds to a job's stream nothing, or one event that describes the job as it is then: its last page and total; on DONE the whole seconds since its start, 0 if it never started, and since its opening; else its pages and the reasons CUPS just gave |
| JobEvents.AllAtOnceSays | src/print_service.c:1766-1784 | so it is for allAtOnce, whose refused job reports DONE/Error with no time passed |
| JobEvents.StartedOnce | src/print_service.c:731-733 | over any run a job's start is the moment of the first tick that found it processing, and never moves |
| JobOutcomes.OpenOutcome | src/job_manager.c:318-337 | the fresh job with its defaults, and the next id |
| JobOutcomes.IdentityKept | src/job_manager.c:318-337 | printer, description, application, opening time and directory are those given to open, at every later moment of every run |
| JobOutcomes.EditOutcome | src/print_service.c:931-1029 | -617, -501, -608 and on to -612, -605 to -607, -610 and -602, each exactly when; on success, and on -602, every field given reads back and every other is as before |
| JobOutcomes.NewTempFileOutcome | src/job_manager.c:359-413 | -617, -603, -705 and -233 in this order, else the next page number in the job's directory |
| JobOutcomes.RemovalFrees | src/job_manager.c:250-281 | removing a job unlinks its scratch files in order, then its directory, and nothing else |
| JobOutcomes.CloseOutcome | src/print_service.c:1441-1489 | -617, -501, or the end of an empty job; with files it goes on under the id CUPS gave exactly if CUPS takes it, and else ends with that error |
| JobOutcomes.PathExample | src/job_manager.c:328-378 | a scratch path written out |
| JobScratch.HandedPathsDistinct | src/job_manager.c:359-413 | over a whole run no scratch path is handed out twice, removed jobs included |
| JobScratch.ScratchFilesDisjoint | src/job_manager.c:377-410 | in every run no path belongs to two jobs or twice to one |
| JobScratch.RemovalsSpareScratch | src/job_manager.c:250-281 | in every run removing jobs unlinks no scratch file: each cleanup is the directory of a job that left the table without handing out a path |
| JobScratch.AllAtOnceCleanups | src/print_service.c:1743-1784 | allAtOnce removes at most the directory of the job it has just opened |
| JobScratch.TimesOrdered | src/print_service.c:633-642 | in every run each DONE event has 0 <= timeActive <= timeFromQueued |
| JobPolling.ReportsFollowCups | src/print_service.c:682-761 | over any run a submitted job reports exactly the stutter-free form of its last state followed by the mapped answers up to the first terminal or vanished one or granted cancel, and then one cancelled DONE for each later cancel |
| JobPolling.ReportsSinceClose | src/print_service.c:1464-1483 | the same from the close of any open job on: QUEUED first, or DONE alone if it had no files or was refused |
| JobPolling.ReportsSinceAllAtOnce | src/print_service.c:1423-1425 | the same from a successful allAtOnce on |
| JobPolling.EndedReports | src/print_service.c:1517-1526 | over any run an ended job reports one cancelled DONE for each cancel of it and nothing else |
| JobPolling.EndedStreamGrows | src/print_service.c:1517-1526 | a step adds to an ended job's stream exactly if it is a cancel of it, and then one cancelled DONE |
| JobPolling.TwoDone | src/print_service.c:1469-1475 | a run in which one job reports DONE twice |
| JobPages.PagesAgainstFiles | src/print_service.c:1340-1342 | at every later moment the page events of a job opened by open are as many as its files, and one of allAtOnce has none |
| JobPages.PageNumberRun | src/print_service.c:1324-1335 | the current page is the number of files exactly if the last accepted addFile carried a number, or there was none and it was so before |
| JobPages.PageNumberOfNew | src/job_manager.c:325-326 | it is so for a job just opened and not for one of allAtOnce |
| JobPages.UncountedPage | src/print_service.c:1324-1340 | a run that leaves a file uncounted |
| JobEdits.ParamsStep | src/print_service.c:948-1023 | only edits of an open job change its parameters |
| JobEdits.InsetsStaySet | src/print_service.c:1015-1016 | once insets are set they stay set in every run |
| JobEdits.StuckUntilReleased | src/print_service.c:1015-1023 | borderless with insets lasts, through any run, until an acceptable edit turns borderless off; until then every edit fails, with -602 if acceptable, and then takes full effect |
| JobRefinement.AllAtOnceRefinesLongHand | src/print_service.c:1690-1796 | over good paths allAtOnce and open, edit, addFile for each, close succeed and fail together with the same error, job record, CUPS calls, submission and timer; the job's streams differ in the page events alone, and a refused job stays only on the long-hand path |
| JobRefinement.FailedAllAtOnceLeavesTable | src/print_service.c:1738-1784 | a failed allAtOnce leaves the table as it was but for the consumed id; a bad path causes no CUPS call and gives the error of the first bad element |
| JobRefinement.LongHandFills | src/print_service.c:1265-1348 | open, edit and the addFiles build the job allAtOnce fills, but for the total pages and the page events |
| JobResize.ResizeOutcome | src/print_service.c:1244-1257 | in every reachable table a resize touches at most the only owner's file; success, -616 and -620 exactly when |
| JobResize.OneOwner | src/print_service.c:1244-1257 | -616 exactly if the owner is visited last |
| JobResize.OrderDecidesError | src/print_service.c:1247-1250 | two orders of the same two jobs report the same failure differently |
| JobResize.OrderDecidesInRun | src/print_service.c:1244-1257 | a run whose table meets it: two opens and one scratch file |
| PrintService.PrintJob.constructor | src/job_manager.c:318-337 | a new job, with the defaults of print_params_init |
| PrintService.PrintJob.EditParams | src/print_service.c:954-1023 | the field by field edit leaves the parameters and error of `Edited` |
| PrintService.PrintJob.TakeKeywords | src/print_service.c:956-989 | stops at the first refused field, keeping those before it |
| PrintService.PrintJob.NewTempFile | src/job_manager.c:359-413 | the next page path, or which error, and nothing changed on failure |
| PrintService.PrintJob.AddPage | src/print_service.c:1324-1340 | an out-of-order page changes nothing |
| PrintService.PrintJob.Fill | src/print_service.c:1735-1776 | all paths in order, or the error of the first bad element |
| PrintService.PrintJob.ResizeTempFile | src/job_manager.c:415-440 | success exactly for an owned path that could be truncated; -620 or -616 otherwise |
| PrintService.PrintService.Open | src/job_manager.c:311-342 | adds the job under the next id |
| PrintService.PrintService.Remove | src/job_manager.c:354-357 | takes one job out, frees it and leaves the others |
| PrintService.PrintService.FreeJob | src/job_manager.c:250-281 | unlinks the scratch files in order, then removes the directory |
| PrintService.PrintService.PostJobState | src/print_service.c:617-657 | the DONE and the live form of a status event |
| PrintService.PrintService.Edit | src/print_service.c:912-1029 | is the edit step |
| PrintService.PrintService.NewTempFile | src/print_service.c:1171-1220 | is the newTempFile step |
| PrintService.PrintService.AddFile | src/print_service.c:1265-1348 | is the addFile step |
| PrintService.PrintService.SubmitJob | src/print_service.c:1392-1430 | is the submission step, calls to CUPS included |
| PrintService.PrintService.Close | src/print_service.c:1432-1489 | is the close step |
| PrintService.PrintService.Cancel | src/print_service.c:1491-1532 | is the cancel step |
| PrintService.PrintService.AllAtOnce | src/print_service.c:1690-1796 | is the allAtOnce step |
| PrintService.PrintService.PollOne | src/print_service.c:696-746 | what one visit does to a job and its stream |
| PrintService.PrintService.PollJobs | src/print_service.c:682-761 | is the poll step for every order of visiting the table |
| PrintService.PolledOneMore | src/print_service.c:690-747 | visits of different jobs do not disturb one another |
| PrintService.PrintService.ResizeTempFile | src/print_service.c:1222-1263 | the reply and the jobs whose file was tried, for the given order; changes nothing |
| PrintService.PrintService.GetAreaForInsets | src/print_service.c:1109-1169 | the area of a copy with the insets laid over, at 300 dpi; the job is not changed |
| PrintService.PrintService.GetFinalArea | src/print_service.c:1031-1072 | the area at the advertised resolution, or 300 dpi; CUPS is asked for the capabilities and no job is changed |
| PrintService.PrintService.Handle | src/print_service.c:682-1796 | each of the ten operations of the state machine is carried out as its step, reply included; resizing and the area queries are in `Dispatch` |
| PrintService.PrintService.Dispatch | src/print_service.c:1031-1263 | resizing and the area queries leave the state as it is, but for the capability query of the final area |
| PrintService.PrintService.Serve | src/main.c:170-180 | any sequence of these calls is a run of the state machine |
| PrintService.BlockedList | src/print_service.c:718-726 | the recognised reasons in order |
| CupsSubmit.Cups.Submit | src/cups_backend.c:451-563 | result and trace of a submission are those of `SubmitCalls` |
| CupsSubmit.Cups.SendDocuments | src/cups_backend.c:482-558 | the document loop with its early exits |
| CupsSubmit.Cups.SendDocument | src/cups_backend.c:483-557 | one document, with each failure exit |
| CupsSubmit.Cups.SendChunks | src/cups_backend.c:518-530 | the read and write loop |
| SubmitProtocol.SubmissionFollowsProtocol | src/cups_backend.c:451-563 | for all files and answers the trace is Create (Open Start Write* Close Finish)* with the right printer, title, options, job, paths, formats and last flags, a cancellation exactly after a failure, and options freed at the end; nothing at all without files |
| SubmitProtocol.SubmissionBalance | src/cups_backend.c:466-562 | every opened file is closed, options are allocated and freed once, one cancellation after a failure past creation and none otherwise |
| SubmitProtocol.OneCreation | src/cups_backend.c:468-470 | exactly one job is created |
| SubmitPayload.SuccessDeliversEverything | src/cups_backend.c:480-562 | a successful submission delivers every file once, in order, byte for byte, under its detected format, and flags only the final one as last |
| SubmitPayload.SubmissionOutcome | src/cups_backend.c:461-562 | for a list with files: success exactly if CUPS creates the job and every document goes through; otherwise the error of the first that does not |
| SubmitPayload.WritesSucceed | src/cups_backend.c:518-530 | the loop succeeds exactly if each of the ceil(length/16384) writes is accepted |
| CupsOptions.AddOptions | src/cups_backend.c:389-449 | the running option array ends as `Options` |
| CupsOptions.FillParams | src/print_service.c:1351-1390 | the record filled field by field is `BuildParams`, whose fields `ToldExactly` ties to the tables |
| CupsOptions.OptionsExact | src/cups_backend.c:389-449 | no option name is added twice, and a name has a value exactly when its field says so |
| CupsOptions.ToldExactly | src/print_service.c:1351-1390 | each option has exactly the value the keyword table, the scaling flag, the copies, the quality enum or the insets give it, the tray that of its first entry, the resolution exactly for MaxDpi with a positive maximum; no other option is set |
| CupsOptions.AttributeOptions | src/print_service.c:1351-1380 | valid parameters always give sides, colour mode, scaling and copies, and a quality exactly unless it is Auto |
| CupsOptions.HundredthsCut | src/print_service.c:1384-1387 | hundredths of a millimetre are cut toward zero |
| JobOptions.SubmissionRecorded | src/print_service.c:1392-1418 | a submission is made exactly at a close of an open job with files or an allAtOnce of printable ones, with the job's printer, description and files, and options that tell its parameters exactly at the resolution advertised |
| JobOptions.SubmissionsComplete | src/print_service.c:1404-1413 | every submission of every run, refused ones and those of removed jobs included, tells the job's parameters exactly and carries sides, colour mode, scaling and copies |
| JobOptions.CreatedAsTold | src/cups_backend.c:468-470 | every job CUPS is ever asked to create in a run carries exactly such options, and the job's printer and title |
| CupsOptions.MarginOptions | src/print_service.c:1382-1389 | each of the four margins is zero, or its own inset, or absent, all four alike |
| CupsOptions.InitialParamsValid | src/job_manager.c:72-98 | the defaults are accepted keywords |
| CupsOptions.RegionAgainstMargins | src/print_service.c:1384-1387 | for all insets region and margins agree to 1 + dpi/1270 pixels once raised insets are accounted for |
| CupsOptions.RegionMatchesMargins | src/job_manager.c:233-240 | with insets of at least 1/8 inch region and margins agree to 1 + dpi/1270 pixels outright |
| CupsOptions.RegionMatchesExactly | src/job_manager.c:205-240 | along an axis that bound holds at every resolution exactly if raising and truncating the two insets gives away at most 1/1270 inch |
| CupsOptions.RaisedInsetsDisagree | src/job_manager.c:216-231 | at a given resolution it fails where raising exceeds twice the tolerance |
| CupsOptions.JobAgrees | src/print_service.c:1382-1389 | a bordered job with explicit insets that give away no more has width and height in agreement with its four margins wherever it has an area |
| CupsOptions.JobAgreesExactly | src/print_service.c:1382-1389 | if its insets fit the sheet it has an area at every resolution, and all agree with the margins exactly under that condition |
| CupsOptions.SmallInsetsDisagree | src/print_service.c:1384-1387 | the bound fails with explicit zero insets at 300 dpi, by a quarter inch |
| EditParams.EditKeepsValid | src/print_service.c:956-1023 | even an edit refused halfway leaves accepted keywords and 1 to 99 copies |
| EditParams.EditSucceeds | src/print_service.c:991-1023 | success exactly if no field is refused and borderless and insets do not meet; -602 leaves both set |
| EditParams.EditChangesNothing | src/print_service.c:956-1023 | an edit, refused or not, leaves the parameters alone exactly if the fields before the refused one, and the rest if none is refused, already are as supplied |
| EditParams.RefusedEditLeavesMark | src/print_service.c:1015-1023 | an edit refused with -602 that changes the job |
| EditParams.StuckEdit | src/print_service.c:1015-1023 | from borderless with insets only an acceptable edit that turns borderless off succeeds; the other acceptable ones fail with -602 and take full effect |
| EditParams.WhatIfIsEditThenArea | src/print_service.c:1138-1156 | for a bordered job the what-if is the area after editing the same insets |
| EditParams.WhatIfOnBorderless | src/print_service.c:1138-1156 | for a borderless job the what-if ignores insets the edit would refuse |
| PrintableArea.MediaLookup | src/job_manager.c:114-130 | the first sheet of that name |
| PrintableArea.ComputeArea | src/job_manager.c:157-248 | the step by step computation is `AreaOf`, whose answers `BorderlessAnswer`, `BorderedAnswer` and `NoAnswer` describe |
| PrintableArea.FillArea | src/job_manager.c:171-247 | the clamping updates and both exits are `AreaOn` |
| AreaAnswers.BorderlessAnswer | src/job_manager.c:192-203 | a borderless job gets the sheet's width across and its height down, to the nearest pixel, no margins, and is never adjusted |
| AreaAnswers.BorderedAnswer | src/job_manager.c:181-247 | a bordered one gets margins of 1/8 inch, the raw size to the nearest pixel, what the raised insets leave to one pixel, and is adjusted exactly if an inset was below 1/8 inch |
| AreaAnswers.NoAnswer | src/job_manager.c:165-245 | -608 exactly for a name without a sheet, -613 only for a bordered job |
| AreaAnswers.RoundingIs | src/job_manager.c:181-200 | halves are rounded away from zero |
| AreaAnswers.SheetsAreAsNamed | src/job_manager.c:49-70 | every sheet with an IPP name has the size spelled out in that name |
| AreaAnswers.LetterAnswers | tests/test_area.c:26-67 | the answers for Letter at half an inch, a quarter and nothing |
| AreaAnswers.LetterExtremes | tests/test_area.c:69-106 | borderless Letter, and insets that leave nothing |
| AreaAnswers.A4Answer | tests/test_area.c:82-92 | the raw size of A4 |
| AreaAnswers.UnknownSize | tests/test_area.c:108-117 | a size nobody knows |
| PrintableArea.SheetsMatchKeywords | src/job_manager.c:49-70 | exactly the accepted media sizes but None have dimensions |
| PrintableArea.AcceptanceToOnePixel | src/job_manager.c:205-247 | a bordered job is accepted with positive size when opposite raised insets fit, refused with -613 when an axis overshoots by 1/dpi inch |
| PrintableArea.ExtentPositive | src/job_manager.c:233-245 | the same for one axis |
| PrintableArea.BorderlessAlwaysFits | src/job_manager.c:192-203 | borderless always has a positive size on a known sheet, at every resolution |
| PrintableArea.ExtentNearIdeal | src/job_manager.c:181-240 | two roundings cost at most one pixel |
| PrintableArea.ExtentShape | src/job_manager.c:205-240 | sizes never grow with an inset, depend on the sum of opposite ones, and stay within raw + 1 |
| PrintableArea.ClampingIsIdempotent | src/job_manager.c:216-231 | asking with the raised insets changes nothing but clears paramsAdjusted |
| PrintableArea.ResolutionsAgree | src/print_service.c:1059-1072 | the 300 dpi what-if and the D dpi answer agree to 300 + D cross-multiplied |
| PrintableArea.AreasAgree | src/print_service.c:1059-1072 | the same for the width and height of one job, bordered or borderless |
| Discovery.FeedsAgree | src/print_service.c:193-261 | after any browses and subscriptions, what a subscriber has seen adds up to exactly the ids of the known printers |
| Discovery.DiffUpdates | src/print_service.c:200-216 | a diff turns the known ids into the current ones |
| Discovery.DiffIsMinimal | src/print_service.c:200-213 | no Add of a known id, no Rmv of an unknown or still present one |
| Discovery.SilentIffSameIds | src/print_service.c:200-213 | a browse posts nothing exactly if the ids are the same |
| Discovery.RenameUnseen | src/print_service.c:181-186 | a new name under the same id is not reported |
| Discovery.FeedTells | src/print_service.c:158-174 | every event of every feed of every run carries id, name, address and source of a printer that a browse found |
| Discovery.FollowMissing | src/print_service.c:253-256 | what a burst of Adds or Rmvs does to the ids a client believes in |
| Discovery.Browser.Browse | src/print_service.c:193-221 | the two loops post the diff to every subscriber |
| Discovery.Browser.List | src/print_service.c:227-261 | the replay reaches the new subscriber and all others |
| PrinterDb.StateRun | src/printer_db.c:112-236 | in every run, in memory and on disk, ids and non-empty addresses stay pairwise distinct |
| PrinterDb.FailedAddRestores | src/printer_db.c:149-159 | a failed add leaves memory and disk exactly as they were |
| PrinterDb.AddAppends | src/printer_db.c:149-161 | a successful add appends one printer with its defaults and changes nothing else |
| PrinterDb.DeleteRemovesOnly | src/printer_db.c:164-194 | a delete removes that group and a current printer pointing to it, and no other key |
| PrinterReplies.DeleteExactly | src/printer_db.c:164-194 | a delete changes memory exactly if the printer is stored and the ssid given is absent, empty or its own; otherwise it is refused and nothing changes |
| PrinterReplies.AddExactly | src/printer_db.c:112-162 | -204 exactly if the id is taken, -205 exactly if only the address is, -702 exactly if neither is and the file cannot be written |
| PrinterReplies.CurrentIsWhatWasSet | src/printer_db.c:260-275 | the current printer read is the one last set, and no other key and no list changes |
| PrinterReplies.ListsThePrinters | src/printer_db.c:196-236 | the list holds exactly the groups but the settings, with their stored keys |
| PrinterDb.DeleteUnlists | src/printer_db.c:164-236 | it takes exactly that printer out of the list and keeps the order |
| PrinterDb.ListedForSsid | src/printer_db.c:196-236 | the list for an ssid is the order-preserving filter of the full list |
| PrinterDb.InSyncExactly | src/printer_db.c:155-194 | memory and disk part exactly at a delete or a change of the current printer that could not be written |
| PrinterDb.SyncRun | src/printer_db.c:93-105 | while those are written, memory and disk are the same throughout |
| PrinterDb.DiskIsLastSuccess | src/printer_db.c:93-105 | after any run a restart finds memory as of the last operation that reported success |
| PrinterDb.UnwrittenDelete | src/printer_db.c:182-193 | a delete that cannot be written is back after a restart |
| PrinterDb.Store.Add | src/printer_db.c:112-162 | is the add step: -204, -205, -702 or success |
| PrinterDb.Store.Delete | src/printer_db.c:164-194 | is the delete step, which `DeleteExactly` describes |
| PrinterDb.Store.SetCurrent | src/printer_db.c:269-275 | is the step that sets the current printer |
| PrinterDb.Store.GetCurrent | src/printer_db.c:260-267 | the stored id or the empty string |
| PrinterDb.Store.List | src/printer_db.c:196-236 | the prepend and reverse loop gives the records in file order |
| ParamMap.LookupFwd | src/param_map.c:29-42 | the index loop is `Fwd` |
| ParamMap.LookupRev | src/param_map.c:44-57 | the index loop is `Rev` |
| ParamMap.InTable | src/param_map.c:59-72 | true exactly for a keyword of the table |
| ParamMap.FwdIsFirstMatch | src/param_map.c:29-42 | a forward lookup reads the first entry of the keyword |
| ParamMap.RevIsFirstMatch | src/param_map.c:44-57 | a reverse lookup reads the first entry carrying the IPP name |
| ParamMap.FwdAfterRev | src/param_map.c:29-57 | with unique keywords forward after reverse is the identity |
| ParamMap.RevAfterFwd | src/param_map.c:29-57 | with unique IPP names reverse after forward is the identity where there is an IPP name |
| ParamMap.MediaKeywordsUnique | src/param_map.c:87-109 | no media size keyword occurs twice |
| ParamMap.MediaTypeKeywordsUnique | src/param_map.c:132-151 | no media type keyword occurs twice |
| ParamMap.TrayNamesUnique | src/param_map.c:266-286 | no tray IPP name occurs twice |
| ParamMap.TrayFwdAfterRev | src/param_map.c:266-296 | for trays forward after reverse gives the canonical name |
| ParamMap.FwdSays | src/param_map.c:29-42 | a forward lookup gives a name exactly if the keyword's first entry carries it |
| ParamMap.FwdSaysUnique | src/param_map.c:29-42 | with unique keywords, exactly if the table pairs the two |
| ParamMap.StateValues | tests/test_param_map.c:168-190 | each IPP job state |
| ParamMap.QualityValues | tests/test_param_map.c:99-110 | each print quality, both ways |
| ParamMap.QualityRoundTrip | src/param_map.c:174-204 | which quality keywords survive the round trip |
| ParamMap.JobStateToWebos | src/param_map.c:317-349 | printer state and job status of each IPP job state |
| Capabilities.AppendMappedList | src/print_service.c:500-521 | the loop with its seen-set gives the first occurrences of the mapped values |
| Capabilities.FirstOccurrencesIsOrderedSet | src/print_service.c:511-517 | duplicate-free, same elements, in order of first occurrence |
| Capabilities.MappedElements | src/print_service.c:508-514 | a keyword is offered exactly if an advertised value maps to it |
| Capabilities.OfferedIsAccepted | src/print_service.c:500-521 | whatever the table, every offered value is accepted back by editPrintParams |
| Capabilities.CapabilitiesAccepted | src/print_service.c:551-558 | so it is for offered sizes, types and trays |
| Capabilities.OfferedValuesPrint | src/print_service.c:551-555 | with unique keywords every offer also maps to an advertised value |
| Capabilities.OfferedMediaPrint | src/print_service.c:551-555 | so it is for media sizes and types |
| Capabilities.OfferedTraysPrint | src/print_service.c:557-558 | every offered tray is accepted; every one maps to an advertised value exactly if a printer advertising an alias advertises the canonical name too |
| Capabilities.TrayAliasNotAdvertised | src/print_service.c:557-558 | a printer for which it fails |
| StateReasons.StemsExclusive | src/param_map.c:365-392 | no reason passes the tests of two stems |
| StateReasons.OrderIrrelevant | src/param_map.c:369-392 | the order of the tests is irrelevant |
| StateReasons.ReasonExactly | src/param_map.c:351-397 | a reason is reported under a keyword exactly if it is a stem that stands for it, alone or before a hyphen |
| StateReasons.ReasonsConcat | src/print_service.c:718-726 | the reasons of a list are those of its parts, in order |
| StateReasons.OneReason | src/print_service.c:718-726 | one reason gives its keyword or nothing |
| StateReasons.SuffixKeepsTranslation | src/param_map.c:358-367 | a suffix never changes the translation of a recognised reason |
| Decimal.FormatsInjective | src/job_manager.c:377-378 | different numbers print differently under %d and %03u |
| SpoolPaths.PathsInjective | src/job_manager.c:328-378 | a scratch path determines job, page and extension |

## Left out

- bus registration, JSON parsing and reply building: handlers are modelled on parsed arguments.
- libcups itself, capability probing, queue administration, the Settings API: foreign calls or simple lookups.
- IEEE rounding, NaN, infinities and 32-bit overflow of casts and counters: reals are exact and integers unbounded.
- shutdown, which frees every job and so removes their scratch files.
- getCurrentPrintParams, getRenderStatus, setRenderStatus and the list of all jobs: simple reads and one stored field.
- queries of a job's state are answered by `Poll` and are not part of the recorded CUPS traffic.
- the constant fields of a job (ids, description, application) are not repeated in each modelled event.
- time stands still within one handler; it passes in `Advance`.
- a read error in the middle of a file ends it like its end does, as in the code; the two are one case here.
- which bytes a path holds is an answer of the world at submission; nothing ties it to the check made by addFile.
- two different strings naming the same file through links: paths are compared as text, and extensions may be any text.
- GKeyFile escaping and group names it refuses; the group called "settings" is included.
- `printer_db_find`, which reads one record, and the freeing of C strings outside a submission.
- the job-table-full error: `job_manager_open` never returns NULL.
