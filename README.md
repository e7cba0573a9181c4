# Cyber Solium — a verified model of the assessment, certificate, training and payment logic

Cyber Solium is a French cybersecurity compliance site: a React front end and an
Express server over SQLite. This project models the parts of it that decide
something, and proves what they promise:

- **The two self-assessment wizards** (`Nis2Calculator`, `Iso27001Calculator`,
  with the pieces they share in `Assessment`). Each wizard is a class. It holds
  the step, the draft (sector, size, score, missing measures), the mounted
  checklist (`Assessment.ReadinessCheck`), the session and the auto-save
  guard. The save is asynchronous, as in the source: the effect sends the
  draft, and `auditSaved` is only set when the answer arrives. A ghost log
  of sent and stored bodies shows what this allows: a save acknowledged
  before the user moves on is the run's only one, but going back and
  re-submitting while the answer is awaited stores two audits in one run,
  and an answer arriving after "Recommencer" marks the new run as saved so
  that it is never sent.
- **The exact integer model of `Math.round(s / t * 100)`** (`Scoring.Percent`)
  and the 80 / 60 grade bands shared by the ISO verdict, both certificates and
  the quiz result.
- **The server's audit table** (`Audits`): saving a row, the owner-scoped
  certificate lookup, and the newest-first history capped at ten entries.
- **The two certificate routes** (`Certificates`): grade, colour, labels and
  recommendation bullets, as decided before the PDF is drawn.
- **The training enrolment and payment life cycle** (`Trainings`) and the
  precondition of the training certificate.
- **The keyword dispatcher of the chat assistant** (`Chatbot.GetAIResponse`),
  proved equal to a first-match rule table. It is shown that the `app` keyword
  shadows every later rule whose message contains it.
- **The training player** (`TrainingContent.TrainingPlayer`): moving through
  lessons, completing them, the quiz and its score, and the progress bar.
- **The payment form** (`PaymentModal.PaymentForm`): input formatting of card
  number, expiry and CVV; validation with its four messages; the submit
  decision.

Strings are `seq<char>`. Integers are unbounded; every percentage is computed
with the exact rounding formula. The clock ("current year / month"), the
server's `response.ok` and the `CURRENT_TIMESTAMP` of an insert are
parameters.

## Model

| member | source | states |
|---|---|---|
| Scoring.Percent | components/Nis2Calculator.tsx:175 | the result is the round-half-up value of 100·s/t: 2t·r ≤ 200s + t < 2t·(r+1) |
| Scoring.PercentUnique | components/Iso27001Calculator.tsx:141 | any integer inside the rounding bracket is the percentage, so the bracket determines it |
| Scoring.PercentBounds | components/Nis2Calculator.tsx:175 | a score between 0 and its denominator gives a percentage between 0 and 100 |
| Scoring.PercentMonotone | components/Iso27001Calculator.tsx:141 | more points never give a lower percentage |
| Scoring.PercentEndpoints | components/TrainingContent.tsx:102-114 | all points give exactly 100 and no points exactly 0 |
| Scoring.PercentExamples | server/index.ts:19 | the half-way values of the 16- and 14-point scales round as `Math.round` does (12/16 → 75, 13/16 → 81, 11/14 → 79, …) |
| Scoring.BandOf | server/index.ts:20-28 | the grade is High exactly at 80 or more, Mid exactly from 60 to 79, Low exactly below 60 |
| Scoring.BandMonotone | server/index.ts:20-28 | a higher percentage never gets a lower grade |
| Assessment.BackOneStep | components/Nis2Calculator.tsx:177-187 | `Back`, the step map of "Retour", moves exactly one step back through start, sector, size, readiness, result, and stays at the start |
| Assessment.SectorTiers | components/Nis2Calculator.tsx:11-31 | a button of the critical list sends "critical", one of the other list sends "important", and only "Autre" sends "none" |
| Assessment.RingColour | components/Nis2Calculator.tsx:323 | the score ring is red exactly below 50 and emerald exactly from 80 |
| Assessment.FaultPreview | components/Nis2Calculator.tsx:344-351 | the "Failles" box is shown exactly while the score is below the number of measures; it lists the first three missing measures, and the "+N autres" count is positive exactly when more than three are missing, covering the rest |
| Assessment.IdsMember | components/Nis2Calculator.tsx:403-411 | every catalogue entry's id can be toggled |
| Assessment.NotInIds | components/Nis2Calculator.tsx:403-411 | an id no entry carries is not a catalogue id |
| Assessment.InCategory | components/Nis2Calculator.tsx:420-421 | a column holds exactly the catalogue's measures of its category, no more than the catalogue |
| Assessment.InCategoryAppend | components/Nis2Calculator.tsx:420-421 | filtering a concatenation is the concatenation of the filtered parts |
| Assessment.InCategoryUniform | components/Nis2Calculator.tsx:420-421 | a block of one category is kept whole by its own filter and dropped by any other |
| Assessment.Columns | components/Nis2Calculator.tsx:420-421 | a catalogue made of a block of one category followed by a block of another splits into exactly those two columns, in order |
| Assessment.Toggled | components/Nis2Calculator.tsx:406-411 | toggling flips the id's membership and leaves every other id as it was |
| Assessment.ToggleInvolutive | components/Nis2Calculator.tsx:406-411 | toggling the same id twice restores the checked set |
| Assessment.ToggleScore | components/Nis2Calculator.tsx:406-413 | a toggle changes the live score by exactly one, down when the id was checked and up otherwise |
| Assessment.MissingLabels | components/Nis2Calculator.tsx:415-416 | the missing list is never longer than the catalogue |
| Assessment.MissingCount | components/Nis2Calculator.tsx:413-416 | with distinct ids, missing labels plus checked catalogue ids make up the whole catalogue |
| Assessment.MissingComplement | components/Nis2Calculator.tsx:413-416 | when only catalogue ids are checked, score plus missing count equals the number of measures |
| Assessment.MissingMembers | components/Nis2Calculator.tsx:415-416 | with distinct labels, a measure's label is listed as missing exactly when its id is unchecked |
| Assessment.LabelNotListed | components/Nis2Calculator.tsx:415-416 | a label that is not in the catalogue is never listed as missing |
| Assessment.MissingExtremes | components/Nis2Calculator.tsx:415-416 | everything checked lists nothing; nothing checked lists every measure |
| Assessment.MissingSuperset | components/Nis2Calculator.tsx:415-416 | once nothing is missing, checking more keeps it so |
| Assessment.ReadinessCheck.constructor | components/Nis2Calculator.tsx:403-404 | a mounted checklist starts with nothing checked |
| Assessment.ReadinessCheck.Toggle | components/Nis2Calculator.tsx:406-411 | the checked set becomes its toggle by the id, and the checklist stays valid |
| Assessment.ReadinessCheck.HandleFinish | components/Nis2Calculator.tsx:413-417 | reports the number checked and the labels of the unchecked measures in catalogue order, which together count the whole catalogue |
| Nis2Calculator.CatalogueShape | components/Nis2Calculator.tsx:34-56 | the catalogue has 16 measures with distinct ids and distinct labels |
| Nis2Calculator.DistinctMeasureIds | components/Nis2Calculator.tsx:34-56 | the 16 measure ids are pairwise distinct |
| Nis2Calculator.DistinctMeasureLabels | components/Nis2Calculator.tsx:34-56 | the 16 measure labels are pairwise distinct |
| Nis2Calculator.ChecklistColumns | components/Nis2Calculator.tsx:420-421 | the "basic" column is the first seven measures and the "nis2" column the other nine |
| Nis2Calculator.BasicBlock | components/Nis2Calculator.tsx:36-42 | the first seven measures are of the basic category |
| Nis2Calculator.Nis2Block | components/Nis2Calculator.tsx:45-53 | the last nine measures are of the NIS 2 category |
| Nis2Calculator.GetResult | components/Nis2Calculator.tsx:135-172 | out of scope exactly for "none"; vigilance exactly for a listed sector of a small company; essential exactly for a large critical company |
| Nis2Calculator.StatusDistinct | components/Nis2Calculator.tsx:135-172 | `Status`, the badge of each verdict, is different for each verdict |
| Nis2Calculator.VerdictGrid | components/Nis2Calculator.tsx:135-172 | on all nine tier × size combinations the buttons can produce, the verdict is the decision grid's cell |
| Nis2Calculator.OutOfScopeIgnoresSize | components/Nis2Calculator.tsx:74-81 | "Autre" yields out of scope whatever size an earlier run left in the draft |
| Nis2Calculator.ListedSectors | components/Nis2Calculator.tsx:11-31 | every listed sector is in scope, the regulated list is never essential, and a large critical company is |
| Nis2Calculator.ScorePercent | components/Nis2Calculator.tsx:175 | the rounded share of 16, between 0 and 100 for a checklist score |
| Nis2Calculator.Nis2Wizard.constructor | components/Nis2Calculator.tsx:62-70 | the wizard starts at the start step with the empty draft, unsaved, with nothing sent or stored and the first effect due |
| Nis2Calculator.Nis2Wizard.Navigate | components/Nis2Calculator.tsx:298-300 | entering the readiness step mounts a fresh, empty checklist; a real step change makes the save effect due; the draft and the save log are untouched |
| Nis2Calculator.Nis2Wizard.HandleStart | components/Nis2Calculator.tsx:72 | moves to the sector step, keeping the draft; a change of step makes the save effect due, and nothing is sent |
| Nis2Calculator.Nis2Wizard.HandleSector | components/Nis2Calculator.tsx:74-81 | records the sector's name and tier; "none" goes to the result, any other tier to the size step; a change of step makes the save effect due, and nothing is sent or stored |
| Nis2Calculator.Nis2Wizard.HandleSize | components/Nis2Calculator.tsx:83-86 | records the size and moves to the readiness step with a fresh checklist |
| Nis2Calculator.Nis2Wizard.ToggleMeasure | components/Nis2Calculator.tsx:406-411 | the mounted checklist's set becomes its toggle |
| Nis2Calculator.Nis2Wizard.FinishChecklist | components/Nis2Calculator.tsx:88-91 | the draft takes the checklist's score and missing labels, which together count all 16 measures, and the result is shown |
| Nis2Calculator.Nis2Wizard.HandleBack | components/Nis2Calculator.tsx:177-187 | moves one step back with the draft kept; back from the result the checklist is empty again |
| Nis2Calculator.Nis2Wizard.Reset | components/Nis2Calculator.tsx:129-133 | back to the start with the empty draft and `auditSaved` unset; requests still awaited stay awaited |
| Nis2Calculator.Nis2Wizard.SetAuth | components/Nis2Calculator.tsx:123-127 | the session changes; a change of `isAuthenticated` makes the effect due; the step, draft, checklist and save state are kept |
| Nis2Calculator.Nis2Wizard.RunSaveEffect | components/Nis2Calculator.tsx:93-127 | the draft is sent exactly when the effect is due and `SaveAllowed` holds: the step is the result, the user is signed in with a token, and `auditSaved` is unset; nothing is stored and `auditSaved` is unchanged until the answer |
| Nis2Calculator.Nis2Wizard.Send | components/Nis2Calculator.tsx:93-127 | the POST: the draft joins the requests awaited, and the log of sent bodies |
| Nis2Calculator.Nis2Wizard.SaveResponse | components/Nis2Calculator.tsx:93-127 | the answer to one awaited request: on `response.ok` its body is stored and `auditSaved` set, in whatever run the wizard is in; otherwise the request is only dropped |
| Nis2Calculator.Nis2Wizard.Settle | components/Nis2Calculator.tsx:93-127 | an answered request leaves the awaited list, its body still accounted for as sent |
| Nis2Calculator.Nis2Wizard.Store | components/Nis2Calculator.tsx:93-127 | a stored body is appended to the log and sets `auditSaved` |
| Nis2Calculator.Nis2Wizard.ResultView | components/Nis2Calculator.tsx:135-175 | the page shows the draft's verdict and its score's percentage, between 0 and 100 |
| Nis2Calculator.AnsweredSaveOnce | components/Nis2Calculator.tsx:93-127 | a save acknowledged before the user moves on is the run's only one: back to the checklist and on to the result sends nothing more |
| Nis2Calculator.DoubleSave | components/Nis2Calculator.tsx:93-127 | going back and re-submitting while the answer is awaited stores two audits in one run, the second with the fresh checklist's score of 0 |
| Nis2Calculator.Resubmit | components/Nis2Calculator.tsx:93-127 | back from an unsaved result and on again sends the draft a second time |
| Nis2Calculator.StaleFlag | components/Nis2Calculator.tsx:93-133 | an answer arriving after "Recommencer" sets `auditSaved` in the new run; the one audit stored since the restart is the previous run's |
| Nis2Calculator.LateAnswer | components/Nis2Calculator.tsx:93-133 | the save goes out, "Recommencer" is pressed, then the answer arrives: the new run starts flagged as saved, and the one audit stored since the restart is the old draft |
| Nis2Calculator.FlaggedRunUnsaved | components/Nis2Calculator.tsx:93-127 | a run that starts with `auditSaved` set reaches its result without sending anything |
| Nis2Calculator.OutOfScopeFaults | components/Nis2Calculator.tsx:344-351 | an out-of-scope run keeps the empty draft's score of 0, so the result shows the "Failles critiques" box over an empty list |
| Nis2Calculator.OutOfScopeSaved | components/Nis2Calculator.tsx:74-81 | signed in and unsaved, "Autre" on the sector step sends the draft: the jump to the result runs the effect of lines 123-127, and the body carries the score 0 and no missing measures |
| Iso27001Calculator.CatalogueShape | components/Iso27001Calculator.tsx:50-68 | the catalogue has 14 controls with distinct ids and distinct labels |
| Iso27001Calculator.DistinctMeasureIds | components/Iso27001Calculator.tsx:50-66 | the 14 control ids are pairwise distinct |
| Iso27001Calculator.DistinctMeasureLabels | components/Iso27001Calculator.tsx:50-66 | the 14 control labels are pairwise distinct |
| Iso27001Calculator.ChecklistColumns | components/Iso27001Calculator.tsx:398-399 | the governance column is the first six controls and the ops column the other eight |
| Iso27001Calculator.GovernanceBlock | components/Iso27001Calculator.tsx:51-56 | the first six controls are of governance |
| Iso27001Calculator.OpsBlock | components/Iso27001Calculator.tsx:58-65 | the last eight controls are operational |
| Iso27001Calculator.ScorePercent | components/Iso27001Calculator.tsx:141 | the rounded share of 14, between 0 and 100 for a checklist score |
| Iso27001Calculator.GetResult | components/Iso27001Calculator.tsx:143-162 | ready, to reinforce and priority are exactly the High, Mid and Low grades |
| Iso27001Calculator.StatusDistinct | components/Iso27001Calculator.tsx:143-162 | `Status`, the badge of each verdict, is different for each verdict |
| Iso27001Calculator.ScoreBands | components/Iso27001Calculator.tsx:141-162 | in checked controls: 12 or more is ready, 9 to 11 to reinforce, 8 or fewer a priority |
| Iso27001Calculator.Iso27001Wizard.constructor | components/Iso27001Calculator.tsx:74-82 | the wizard starts at the start step with the empty draft, unsaved, with nothing sent or stored and the first effect due |
| Iso27001Calculator.Iso27001Wizard.Navigate | components/Iso27001Calculator.tsx:278-280 | entering the readiness step mounts a fresh, empty checklist; a real step change makes the save effect due |
| Iso27001Calculator.Iso27001Wizard.HandleStart | components/Iso27001Calculator.tsx:84 | moves to the sector step, keeping the draft; a change of step makes the save effect due, and nothing is sent |
| Iso27001Calculator.Iso27001Wizard.HandleSector | components/Iso27001Calculator.tsx:86-89 | records the sector and moves to the size step, "Autre" included; a change of step makes the save effect due, and nothing is sent |
| Iso27001Calculator.Iso27001Wizard.HandleSize | components/Iso27001Calculator.tsx:91-94 | records the size and moves to the readiness step with a fresh checklist |
| Iso27001Calculator.Iso27001Wizard.ToggleMeasure | components/Iso27001Calculator.tsx:384-389 | the mounted checklist's set becomes its toggle |
| Iso27001Calculator.Iso27001Wizard.FinishChecklist | components/Iso27001Calculator.tsx:96-99 | the draft takes the score and missing labels, which together count all 14 controls, and the result is shown |
| Iso27001Calculator.Iso27001Wizard.HandleBack | components/Iso27001Calculator.tsx:166-171 | moves one step back with the draft kept |
| Iso27001Calculator.Iso27001Wizard.Reset | components/Iso27001Calculator.tsx:135-139 | back to the start with the empty draft and `auditSaved` unset; requests still awaited stay awaited |
| Iso27001Calculator.Iso27001Wizard.SetAuth | components/Iso27001Calculator.tsx:129-133 | the session changes; a change of `isAuthenticated` makes the effect due; the step, draft, checklist and save state are kept |
| Iso27001Calculator.Iso27001Wizard.RunSaveEffect | components/Iso27001Calculator.tsx:101-133 | the draft is sent exactly when the effect is due and `SaveAllowed` holds: the step is the result, the user is signed in with a token, and `auditSaved` is unset; nothing is stored and `auditSaved` is unchanged until the answer |
| Iso27001Calculator.Iso27001Wizard.Send | components/Iso27001Calculator.tsx:101-133 | the POST: the draft joins the requests awaited, and the log of sent bodies |
| Iso27001Calculator.Iso27001Wizard.SaveResponse | components/Iso27001Calculator.tsx:101-133 | the answer to one awaited request: on `response.ok` its body is stored and `auditSaved` set, in whatever run the wizard is in; otherwise the request is only dropped |
| Iso27001Calculator.Iso27001Wizard.Settle | components/Iso27001Calculator.tsx:101-133 | an answered request leaves the awaited list, its body still accounted for as sent |
| Iso27001Calculator.Iso27001Wizard.Store | components/Iso27001Calculator.tsx:101-133 | a stored body is appended to the log and sets `auditSaved` |
| Iso27001Calculator.Iso27001Wizard.ResultView | components/Iso27001Calculator.tsx:141-162 | the page shows the verdict of the score's percentage, a percentage between 0 and 100 |
| Iso27001Calculator.AnsweredSaveOnce | components/Iso27001Calculator.tsx:101-133 | a save acknowledged before the user moves on is the run's only one: back to the checklist and on to the result sends nothing more |
| Iso27001Calculator.DoubleSave | components/Iso27001Calculator.tsx:101-133 | going back and re-submitting while the answer is awaited stores two audits in one run, the second with the fresh checklist's score of 0 |
| Iso27001Calculator.Resubmit | components/Iso27001Calculator.tsx:101-133 | back from an unsaved result and on again sends the draft a second time |
| Iso27001Calculator.StaleFlag | components/Iso27001Calculator.tsx:101-139 | an answer arriving after "Recommencer" sets `auditSaved` in the new run; the one audit stored since the restart is the previous run's |
| Iso27001Calculator.LateAnswer | components/Iso27001Calculator.tsx:101-139 | the save goes out, "Recommencer" is pressed, then the answer arrives: the new run starts flagged as saved, and the one audit stored since the restart is the old draft |
| Iso27001Calculator.FlaggedRunUnsaved | components/Iso27001Calculator.tsx:101-133 | a run that starts with `auditSaved` set reaches its result without sending anything |
| Audits.FindOwned | server/index.ts:652-658 | a found audit is a row with that id owned by the caller; nothing is found exactly when no such row exists |
| Audits.OwnerOnly | server/index.ts:652-658 | with distinct ids, a row is found by its owner and by nobody else |
| Audits.Own | server/index.ts:487 | the caller's rows: exactly the rows with that owner, in table order |
| Audits.Insert | server/index.ts:487 | inserting into a newest-first list keeps it newest first and one longer, with the newer of the row and the old head in front |
| Audits.NewestFirstOrder | server/index.ts:487 | `ORDER BY created_at DESC`: the result is newest first and as long as the input |
| Audits.NewestFirstPermutes | server/index.ts:487 | the ordering is a permutation: every row keeps its multiplicity |
| Audits.InsertPermutes | server/index.ts:487 | an insertion adds exactly one occurrence of that row |
| Audits.NewestFirstMembers | server/index.ts:487 | a row is in the ordered result exactly when it is in the input |
| Audits.Newest | server/index.ts:487 | `LIMIT 10`: the first ten of the caller's ordered rows, or all of them when there are fewer |
| Audits.NewestOwned | server/index.ts:483-498 | every row among the ten is a row of the table owned by the caller |
| Audits.SortedPosition | server/index.ts:487 | each of the caller's rows has a position in the ordered result |
| Audits.Decode | server/index.ts:490-494 | a stored missing list is decoded as is, SQL NULL as the empty list |
| Audits.DecodeAll | server/index.ts:490-494 | every listed row is decoded, one entry each, in order |
| Audits.History | server/index.ts:483-498 | at most ten entries, all the caller's own rows, decoded, newest first; fewer than ten only when the caller has fewer |
| Audits.HistoryKeepsNewest | server/index.ts:483-498 | an own row left out of the history is no newer than any listed one |
| Audits.HistoryComplete | server/index.ts:483-498 | with ten own rows or fewer, every one of them is listed |
| Audits.AuditTable.constructor | server/database.ts:60-72 | the table starts empty with the counter at 1 |
| Audits.AuditTable.Save | server/index.ts:466-480 | appends one row of the caller's with the body's five fields, a fresh id and the insert time; ids stay increasing |
| Audits.SavedThenFound | server/index.ts:466-480 | a freshly saved audit is found by its owner's certificate lookup and by nobody else's |
| Certificates.Nis2Grade | server/index.ts:662-673 | percentage of 16, with level and colour those of its grade (`Nis2Level`: Excellent / Correct / Critique; `Colour`: green / amber / red) |
| Certificates.IsoGrade | server/index.ts:19-28 | percentage of 14, with level and colour those of its grade (`IsoLevel`: Certification prête / À renforcer / Prioritaire; `Colour`) |
| Certificates.Nis2GradeByScore | server/index.ts:663-673 | in measures: 13 or more of 16 is Excellent, 10 to 12 Correct, 9 or fewer Critique |
| Certificates.IsoGradeMatchesWizard | server/index.ts:19-29 | the ISO certificate's top and bottom grades are exactly the wizard's ready and priority verdicts |
| Certificates.EntityLabelVsVerdict | server/index.ts:779 | `EntityTypeLabel` matches the wizard's badge for a large company, differs for a medium critical one, and an unlisted sector is out of scope under any size |
| Certificates.SizeLabels | server/index.ts:780 | `SizeLabel` prints "PME" exactly for sizes other than "large" and "medium" |
| Certificates.Nis2Recommendations | server/index.ts:795-808 | four bullets at the bottom grade, three otherwise |
| Certificates.IsoRecommendations | server/index.ts:149-162 | four bullets at the bottom grade, three otherwise |
| Certificates.RecommendationsCompared | server/index.ts:149-162 | the two certificates share the top-grade bullets, differ only in the first middle-grade bullet and share the remediation bullet |
| Certificates.Nis2Certificate | server/index.ts:646-673 | 404 exactly when the caller owns no audit with that id; otherwise the certificate of that audit with grade, labels and bullets from its score |
| Certificates.IsoCertificate | server/index.ts:2-29 | the intended route: 404 exactly when the caller owns no audit with that id; otherwise its certificate, with unset fields printed "Non renseigné" by `OrUnset` (lines 132-133) |
| Certificates.IsoRouteAsWritten | server/index.ts:8-10 | the route as written: never a certificate; a 500 exactly because the statement names a column the table lacks |
| Certificates.AuditTypeMissing | server/database.ts:60-72 | `audit_type` is named by the ISO query and is not a column of `audit_results`, so the statement does not prepare |
| Certificates.IsoRouteAlwaysFails | server/index.ts:8-10 | every request to the route as written answers 500 |
| Certificates.IsoRouteRefusesOwner | server/index.ts:8-10 | the owner of an existing audit, whom the owner-scoped lookup finds, still gets the 500 |
| Trainings.TrainingTable.constructor | server/database.ts:46-58 | the progress table starts empty |
| Trainings.TrainingTable.Start | server/index.ts:355-377 | an existing row is returned unchanged; otherwise one pending row is inserted, or the insert fails for an unknown training; for every user and training, `CertificateAllowed` is as before |
| Trainings.TrainingTable.Enroll | server/index.ts:381-417 | refused with no insert when a row exists, 404 for an unknown training, otherwise one pending row; for every user and training, `CertificateAllowed` is as before |
| Trainings.TrainingTable.ConfirmPayment | server/index.ts:420-437 | an existing row becomes paid and nothing else changes; with no row, 404 and nothing changes; afterwards `CertificateAllowed` (the paid-row join of lines 836-841) holds for that pair exactly when it had a row, and is as before for every other pair |
| Trainings.Lifecycle | server/index.ts:831-846 | an example path on a fresh row: enrolling twice and starting leave the certificate refused, and confirming the payment allows it |
| Chatbot.ContainsAt | server/index.ts:551-552 | `Contains`, the model of `includes`, holds exactly when the word occurs at some position |
| Chatbot.ContainsWitness | server/index.ts:551-552 | an included word occurs at some position |
| Chatbot.OccursContains | server/index.ts:551-552 | a word occurring at some position is included |
| Chatbot.ContainsPrefix | server/index.ts:547 | a message containing a word contains each of its prefixes |
| Chatbot.AnyOfMember | server/index.ts:551-552 | `AnyOf`, the model of `some(includes)`: a message containing any listed word has the keyword group |
| Chatbot.LowerChar | server/index.ts:535 | capitals A–Z and À–Þ (except ×) are lowered, every other character is kept |
| Chatbot.Lower | server/index.ts:535 | the message is lowered character by character, same length |
| Chatbot.GetAIResponse | server/index.ts:534-643 | the application guide answers exactly when an application keyword occurs; the fallback answers exactly when no keyword of any rule occurs |
| Chatbot.FirstMatchAppend | server/index.ts:555-643 | a rule table split in two answers with its first half unless that half falls through |
| Chatbot.AnyOfAppend | server/index.ts:551-552 | a message matches a joined word list exactly when it matches one of the parts |
| Chatbot.GroupsOfOne | server/index.ts:551-552 | a rule with one keyword group fires exactly when that group matches |
| Chatbot.GroupsOfTwo | server/index.ts:564-571 | a rule with two keyword groups fires exactly when both match |
| Chatbot.FirstMatchCons | server/index.ts:555-643 | `FirstMatch`: the first rule whose groups all match gives the reply |
| Chatbot.Nis2Rows | server/index.ts:563-592 | the NIS 2 rules answer exactly when a NIS 2 keyword occurs, with `Nis2Reply`, the NIS 2 sub-answer |
| Chatbot.RgpdRows | server/index.ts:594-609 | the GDPR rules answer exactly when a GDPR keyword occurs, with `RgpdReply`, the GDPR sub-answer |
| Chatbot.TailRows | server/index.ts:611-643 | the remaining rules fire in source order and otherwise fall back |
| Chatbot.SingleRow | server/index.ts:611-643 | a one-list rule answers exactly when its list matches, otherwise the rest of the table does |
| Chatbot.NamedReplies | server/index.ts:563-609 | no NIS 2 or GDPR rule answers with the fallback |
| Chatbot.RegulationRows | server/index.ts:563-609 | the NIS 2 rules come before the GDPR rules, and both fall through when neither keyword occurs |
| Chatbot.MiddleRows | server/index.ts:563-643 | the remaining rules are reached only when no NIS 2 or GDPR keyword occurs |
| Chatbot.HeadRows | server/index.ts:554-561 | the application guide, then the blog news, come first |
| Chatbot.DispatchIsFirstMatch | server/index.ts:534-643 | the dispatcher equals `FirstMatch` over `Table`, all its rules in source order, on the lowered message |
| Chatbot.AppShadowsAll | server/index.ts:547-557 | any message containing "app" gets the application guide |
| Chatbot.DeadKeywords | server/index.ts:543-632 | "appel" and "apprentissage" always get the application guide, never the contact or training answer |
| TrainingContent.TotalPositive | components/TrainingContent.tsx:169-171 | a loaded course has at least one lesson |
| TrainingContent.Row | components/TrainingContent.tsx:74-77 | a module's lesson keys, as many as its lessons |
| TrainingContent.Keys | components/TrainingContent.tsx:169-171 | all lesson keys of the course: exactly the valid (module, lesson) pairs, as many as `Total`, the course's lesson count |
| TrainingContent.Following | components/TrainingContent.tsx:79-94 | there is no next lesson exactly at the course's last lesson; otherwise the next position is a valid lesson |
| TrainingContent.Preceding | components/TrainingContent.tsx:317-325 | there is no previous lesson exactly at the first lesson; otherwise the previous position is a valid lesson |
| TrainingContent.StepsInvert | components/TrainingContent.tsx:79-94 | "next" then "previous", and "previous" then "next", return to the same lesson |
| TrainingContent.CountCorrect | components/TrainingContent.tsx:102-114 | the number right is at most the number counted, all of them when every answer matches, none when none does |
| TrainingContent.Grade | components/TrainingContent.tsx:102-114 | a quiz with questions gets a score between 0 and 100; a quiz without questions gets NaN |
| TrainingContent.GradeExtremes | components/TrainingContent.tsx:102-114 | all answers right scores 100, all wrong scores 0 |
| TrainingContent.CertificateWithPassingBand | components/TrainingContent.tsx:409-428 | `CertificateOffered` holds exactly when `QuizBand` is not the lowest band, that is exactly when the `Headline` is not "À revoir" |
| TrainingContent.TrainingPlayer.constructor | components/TrainingContent.tsx:37-64 | the player opens on the first lesson with nothing completed and every answer unset |
| TrainingContent.TrainingPlayer.NextLesson | components/TrainingContent.tsx:74-94 | completes the current lesson, then moves to the following one or, after the last, opens the quiz |
| TrainingContent.TrainingPlayer.PreviousLesson | components/TrainingContent.tsx:317-325 | moves to the preceding lesson and stays at the first |
| TrainingContent.TrainingPlayer.SelectModule | components/TrainingContent.tsx:219-223 | opens the module's first lesson and closes the quiz |
| TrainingContent.TrainingPlayer.OpenQuiz | components/TrainingContent.tsx:247-249 | shows the quiz, keeping the position and the answers |
| TrainingContent.TrainingPlayer.QuizAnswer | components/TrainingContent.tsx:96-100 | sets exactly one answer and leaves the others unchanged |
| TrainingContent.TrainingPlayer.SubmitQuiz | components/TrainingContent.tsx:102-114 | the score is the grade of the answers with the key, and the quiz is marked submitted |
| TrainingContent.TrainingPlayer.Retake | components/TrainingContent.tsx:432-436 | every answer is unset and the score cleared, so submitting (`CanSubmit`, the button's guard at line 392) is disabled unless there are no questions |
| TrainingContent.TrainingPlayer.Progress | components/TrainingContent.tsx:169-171 | the bar is between 0 and 100 and full when every lesson is completed |
| TrainingContent.SubsetCard | components/TrainingContent.tsx:169-171 | a subset is no larger than its superset and equal when it is as large |
| TrainingContent.AllModulesComplete | components/TrainingContent.tsx:238-240 | every module shows its tick (`ModuleComplete`) exactly when every lesson is completed, and then the bar is full |
| TrainingContent.TicksCoverKeys | components/TrainingContent.tsx:238-240 | when every module is ticked, every lesson is completed |
| TrainingContent.KeysTickAll | components/TrainingContent.tsx:238-240 | when every lesson is completed, every module is ticked |
| TrainingContent.SkipToQuiz | components/TrainingContent.tsx:79-94 | the last module's button opens the quiz with the first module unread |
| PaymentModal.Digits | components/PaymentModal.tsx:29-41 | removing non-digits leaves only digits and keeps a digit string as is |
| PaymentModal.DigitsAppend | components/PaymentModal.tsx:29-41 | removing non-digits distributes over concatenation |
| PaymentModal.StripSpaces | components/PaymentModal.tsx:63 | removing whitespace (`IsSpace`, the `\s` class) leaves no whitespace character |
| PaymentModal.Take | components/PaymentModal.tsx:47-51 | `slice(0, n)` is the prefix of length at most n |
| PaymentModal.Group4 | components/PaymentModal.tsx:31-32 | four characters or fewer are left as they are |
| PaymentModal.Group4Shape | components/PaymentModal.tsx:29-33 | grouped digits have a space exactly at every fifth position, digits elsewhere, and no trailing space |
| PaymentModal.StripGroup4 | components/PaymentModal.tsx:29-33 | removing the spaces from grouped digits gives back the digits |
| PaymentModal.DigitsGroup4 | components/PaymentModal.tsx:29-33 | removing the non-digits from grouped digits gives back the digits |
| PaymentModal.StripDigits | components/PaymentModal.tsx:30 | a digit string has no whitespace to remove |
| PaymentModal.StripAppend | components/PaymentModal.tsx:30 | removing whitespace distributes over concatenation |
| PaymentModal.StripSpaceFree | components/PaymentModal.tsx:30 | a string without whitespace is unchanged by removing it |
| PaymentModal.Group4Idempotent | components/PaymentModal.tsx:29-33 | grouping a whitespace-free string and removing the spaces gives it back |
| PaymentModal.FormatCardNumberIdempotent | components/PaymentModal.tsx:29-33 | `FormatCardNumber` applied to a formatted card number changes nothing |
| PaymentModal.FormatExpiryDate | components/PaymentModal.tsx:35-41 | with two or more digits, the first two, a slash, and at most two more; with fewer, the digits as typed |
| PaymentModal.FormatExpiryShape | components/PaymentModal.tsx:35-41 | the formatted expiry is at most `MM/AA`: digits, with a slash exactly at the third position when there are two digits or more |
| PaymentModal.FormatExpiryIdempotent | components/PaymentModal.tsx:35-41 | formatting a formatted expiry changes nothing |
| PaymentModal.SlashComesBack | components/PaymentModal.tsx:35-41 | deleting the slash after "12" puts it back |
| PaymentModal.Split | components/PaymentModal.tsx:71 | `split('/')` gives at least one part and no part holds the separator |
| PaymentModal.IndexOf | components/PaymentModal.tsx:71 | the position found is the first occurrence of the separator |
| PaymentModal.JoinSplit | components/PaymentModal.tsx:71 | joining the parts back with the separator gives the original string |
| PaymentModal.ParseInt | components/PaymentModal.tsx:75-76 | `parseInt` is a number exactly when the text starts with a digit |
| PaymentModal.LeadingDigits | components/PaymentModal.tsx:75-76 | the digits `parseInt` reads are a prefix, empty exactly when the text does not start with a digit, and all of a digit string |
| PaymentModal.TwoDigitValues | components/PaymentModal.tsx:75-76 | two digits parse as their value, and "20" followed by two digits as that year |
| PaymentModal.Errors | components/PaymentModal.tsx:60-93 | each field has an error exactly when its rule fails: not 16 digits, a `Blank` holder, an `ExpiryError`, not 3 CVV characters; every message is non-empty |
| PaymentModal.ExpiryMessage | components/PaymentModal.tsx:71-85 | every expiry error is a non-empty message |
| PaymentModal.ExpiryFields | components/PaymentModal.tsx:71-76 | a `MM/AA` text splits at the slash into month and year with those digit values |
| PaymentModal.ExpiryFormat | components/PaymentModal.tsx:71-73 | on digits and slashes, the two-part, two-digit check holds exactly for `MM/AA` |
| PaymentModal.ValidateIff | components/PaymentModal.tsx:60-93 | validation passes exactly when the number has 16 digits, the holder is not blank, the expiry is a valid month not before the current one, and the CVV has three characters |
| PaymentModal.InvalidMonthFirst | components/PaymentModal.tsx:80-84 | a month outside 01–12 is reported as such even when the date is also past |
| PaymentModal.CardField | components/PaymentModal.tsx:43-58 | the card field keeps the first 16 digits typed, grouped, and reformatting it changes nothing |
| PaymentModal.ExpiryField | components/PaymentModal.tsx:43-58 | the expiry field is always shaped `MM/AA` or a prefix of it, and reformatting changes nothing |
| PaymentModal.CvvField | components/PaymentModal.tsx:43-58 | the CVV field holds at most three digits, and reformatting changes nothing |
| PaymentModal.PaymentForm.constructor | components/PaymentModal.tsx:19-26 | the form starts with four empty fields and no errors |
| PaymentModal.PaymentForm.HandleInputChange | components/PaymentModal.tsx:43-58 | only the edited field changes, to its `Formatted` value; its error is cleared when it had one and the other errors stay |
| PaymentModal.PaymentForm.Validate | components/PaymentModal.tsx:60-93 | the errors become exactly those of the current data and the clock, and the result is true exactly when there are none |
| PaymentModal.PaymentForm.CheckExpiry | components/PaymentModal.tsx:71-85 | the expiry step of `validate`: the date's `ExpiryError`, if it has one, is added to the errors collected so far |
| PaymentModal.PaymentForm.Submit | components/PaymentModal.tsx:95-109 | the payment goes ahead exactly when the four rules hold for the data held |
| PaymentModal.StoredExpiryChars | components/PaymentModal.tsx:35-41 | a stored expiry holds only digits and slashes, so `parseInt`'s sign and whitespace cases cannot arise |

## Left out

- The PDF drawing of both certificates (fonts, boxes, positions) is presentation only. The model keeps every value printed from the audit row.
- Express routing, JWT checking and bcrypt are not modelled. Each route receives the authenticated user's id as a parameter.
- `fetch`, time-outs and the server's processing are not modelled. A wizard's save is a request that waits until `SaveResponse(i, ok)` delivers its answer: `ok` is `response.ok`, and a network error is an answer with `ok` false. The server is taken to store exactly the bodies it acknowledges. The `auditCompleted` window event and updates after the component unmounts are not modelled.
- React rendering is reduced to the state it depends on. The checklist is re-created whenever the readiness step is entered again, as React remounts it.
- Floating point: `Math.round(s / t * 100)` is written as an exact integer formula that rounds the real value half up. On the 14- and 16-measure scales the two agree for every score. The quiz and the progress bar divide by any number of questions or lessons. There, a value that is exactly half-way in real arithmetic can come out just below it in doubles, and the model is then one higher: 23 of 40 gives 57 in the source and 58 here. Such a difference moves a quiz across the 60 or 80 threshold only when the real value is 59.5 or 79.5.
- Chatbot.Lower: lowers only ASCII and Latin-1 capitals, not the full Unicode case mapping of `toLowerCase`.
- Chatbot.GetAIResponse: the reply texts are abstracted to one constructor per answer. The chat route's storage of conversations in `chat_conversations` is not modelled.
- Audits.NewestFirstOrder: rows with equal `created_at` keep table order. SQLite leaves their order unspecified, so the model fixes one.
- Audits.AuditTable.Save: the history's `?type=` filter is not read by the server, and saved audits carry no wizard tag, so neither is modelled.
- PaymentModal.Take: a string's length is counted in Unicode code points, while `slice(0, n)` counts UTF-16 code units. The two differ only for characters outside the Basic Multilingual Plane, such as emoji, which take two code units each. The expiry field cuts the raw text before dropping non-digits (PaymentModal.tsx:49). So on "😀1234" the source keeps "😀123" and shows "12/3", while the model keeps "😀1234" and shows "12/34".
- PaymentModal.Group4: groups four code points at a time, while `/.{1,4}/g` groups UTF-16 code units. They differ only outside the Basic Multilingual Plane: "😀😀😀" stays one group here, where the source splits it after the second emoji. The card number and the CVV drop every non-digit before they are cut and grouped (PaymentModal.tsx:47, 51), so of the form's fields only the expiry differs.
- PaymentModal.ParseInt: models `parseInt` on text that starts with a digit or not. Sign, leading whitespace and `0x` are left out; the stored expiry can hold only digits and a slash (`StoredExpiryChars`).
- TrainingContent.Grade: a quiz with no questions scores NaN in the source; the model returns `NotANumber`.
- TrainingContent.TrainingPlayer.constructor: requires `Loaded`, which rules out a course with a module of no lessons. The page renders such a course, and the empty module even shows its completion tick, since `every` over no lessons is true (TrainingContent.tsx:238-240). But the page crashes as soon as that module becomes current, whether by "Suivant", its sidebar button or "Précédent": `currentLesson` (TrainingContent.tsx:168) is then undefined, and line 282 reads its `title`.
- Trainings.TrainingTable: the row's timestamps, ids, `progress` and `completed` columns, the progress-update route and the user-progress listing are not modelled. The foreign key on the user is assumed to hold, as the user comes from a valid token.
- Trainings.TrainingTable.Start: models SQLite's enforcement of the foreign key on `training_id`, under which an insert for an unknown training fails.
- PaymentModal.PaymentForm.Submit: the "processing" flag, the simulated delay and the success callback are not modelled; the result is the decision to pay.
- PaymentModal.PaymentForm.HandleInputChange: the holder's upper-casing is done in the input's `onChange` before the handler; the model stores the value as received.
- TrainingContent.TrainingPlayer.QuizAnswer: requires an index inside the quiz, the only indices the radio buttons pass.
- TrainingContent.TrainingPlayer.NextLesson: the source's comment says the quiz opens once all lessons are completed; the code opens it after the last lesson whatever was skipped (`SkipToQuiz`).
- Persistence in `localStorage`, polling and window events, and the other pages of the site are outside this model.

## Findings

| source | as written | input that shows it | evidently intended | confidence | as-written member | corrected member |
|---|---|---|---|---|---|---|
| server/index.ts:8-10 | the ISO certificate query filters on `audit_type`, which `audit_results` (server/database.ts:60-72) does not have, so preparing it throws and the route answers 500 | user 7 asking for audit 1, which user 7 owns | the owner-scoped lookup of the NIS 2 route, then the ISO grading | not executed | Certificates.IsoRouteAsWritten | Certificates.IsoCertificate |
