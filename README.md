# AI Resume Builder: ATS scoring, export and build-track gating in Dafny

This project models the deterministic core of a browser resume builder.

- **ATS readiness score.** Seven rubric checks of a resume, each worth fixed points when it passes and recording one message when it fails. The score is capped at 100, the maximum score is the constant 80, and only the first three messages are returned.
- **Bullet guidance.** The action-verb and measurable-number hints for one bullet.
- **Plain-text export.** The export of a resume, and its one-line "incomplete" warning.
- **Resume state.** The initial resume, the sample resume, and the five updates of the resume context.
- **Score card.** Its three score bands.
- **Tag input.** The Enter and Backspace rule of the chip input.
- **Build track.** The eight-step table, the artifact store, the footer's previous/next gate, the proof page, and the build panel's status machine. The proof page covers the ten-item checklist, link validation and the "Shipped" gate.

The rubric is the one `src/utils/atsScoring.js` contains: 7 checks, `maxScore: 80`, plain-string suggestions cut to three. The system's design description instead gives an eleven-check, 100-point rubric with point-weighted, untruncated suggestions. The code implements none of that; where the two disagree this model follows the code.

Module layout:

- **One module per core file:** `AtsScoring`, `BulletGuidance`, `ResumeExport`, `ResumeContext`, `AtsScoreBadge`, `TagInput`, `Steps`, `StepContext`, `ProofFooter`, `BuildTrackProof`, `BuildPanel`.
- **Three shared modules:**
  - `Resume`: the resume record.
  - `Text`: the JavaScript string built-ins the core uses, namely `trim`, `split(/\s+/)`, `split(',')`, `join`, ASCII case mapping, `repeat`, `startsWith` and decimal formatting.
  - `Wrappers`: `Option`.

Code that pushes onto arrays or updates state step by step is written as methods proved against specification functions:

- `computeATSScore` is `AtsScoring.ComputeAtsScore` against `AtsScore`.
- `resumeToPlainText` is `ResumeExport.ResumeToPlainText` against `PlainText`.
- `getBulletSuggestions` and `getExportWarnings` are methods too.
- The artifact-loading loop is `StepContext.LoadArtifacts`.
- Stateful components are classes: `ResumeContext.ResumeStore`, `TagInput.TagField`, `StepContext.StepStore`, `BuildTrackProof.LinkForm` and `BuildPanel.Panel`.

How absent values are modelled:

- An optional string field that a resume may lack is the empty string, and an optional list is the empty list. Every use of such a field in the core is a truthiness test or an `|| ''` default, under which the two agree.
- Skills are `SkillsText`, `SkillsByCategory`, or `NoSkills`; `NoSkills` stands for `null` and other non-string, non-object values.

## Model

| member | source | states |
|---|---|---|
| Text.SplitTrimmedCountsRuns | src/utils/atsScoring.js:9 | splitting trimmed non-blank text on `/\s+/` gives exactly one piece per maximal run of non-white-space characters |
| Text.SplitOnJoin | src/utils/atsScoring.js:19 | joining the pieces of `split(c)` with `c` gives back the original text, so the split loses nothing |
| Text.TrimIdempotent | src/components/resume/TagInput.jsx:13 | trimming an already trimmed text changes nothing |
| Text.NatToStringRoundTrip | src/utils/atsScoring.js:50 | the decimal rendering of a count embedded in a message reads back as that count |
| Text.NatToStringInjective | src/contexts/StepContext.jsx:12 | different numbers render as different digit strings |
| AtsScoring.CountWords | src/utils/atsScoring.js:7-10 | the word count is the number of maximal non-white-space runs of the text, and it is 0 exactly for absent or all-white-space text |
| AtsScoring.HasNumbersIff | src/utils/atsScoring.js:12-14 | the impact pattern occurs exactly when some digit is directly followed by `%`, `x`, `k` or another digit, or some `$` is directly followed by a digit (case-sensitive) |
| AtsScoring.SkillItems | src/utils/atsScoring.js:19 | every kept skill name is non-empty, already trimmed and free of commas |
| Text.TrimmedNonEmptyAppend | src/utils/atsScoring.js:19 | `.map(trim).filter(s => s)` works piece by piece: the kept pieces of a + b are those of a followed by those of b |
| Text.TrimmedNonEmptyOne | src/utils/atsScoring.js:19 | a single piece is kept, trimmed, exactly when it is not all white space, so each such piece adds one skill to the count |
| AtsScoring.SkillsTextCountsJoinedItems | src/utils/atsScoring.js:17-20 | skill names written as one `', '`-separated string are read back as exactly those names, so their count is the number of names |
| AtsScoring.SkillsNotDeduplicated | src/utils/atsScoring.js:17-20 | the same skill written twice counts as two skills |
| AtsScoring.Bullets | src/utils/atsScoring.js:76-79 | the impact check reads every experience description, in order, then every project description |
| AtsScoring.Take | src/utils/atsScoring.js:102 | `slice(0, n)` keeps the first min(n, length) elements, in order |
| AtsScoring.Tally | src/utils/atsScoring.js:36-95 | one check adds its points to the running score when it passes, or pushes its message when it fails, never both and never neither |
| AtsScoring.ComputeAtsScore | src/utils/atsScoring.js:29-104 | the seven checks, run in source order, give the sum of the passed checks' points as the score, 80 as `maxScore`, and the first three recorded messages as the suggestions |
| AtsScoring.EarnedAtMostPossible | src/utils/atsScoring.js:34-95 | the earned points never exceed the points on offer, and with positive points they are equal exactly when no message is recorded |
| AtsScoring.EarnedMultipleOfFive | src/utils/atsScoring.js:37-92 | when every check is worth a multiple of 5, so is the score |
| AtsScoring.FailedPlusPassed | src/utils/atsScoring.js:34-95 | recorded messages plus passed checks equal the number of checks: each check does exactly one of the two |
| AtsScoring.RecordedIffFailed | src/utils/atsScoring.js:34-95 | a message that only one check can record is recorded exactly when that check fails |
| AtsScoring.SumsOfSeven | src/utils/atsScoring.js:34-95 | over seven checks, the score is the sum of the gains and the messages are the failed checks' messages in check order |
| AtsScoring.TallyOfSeven | src/utils/atsScoring.js:30-95 | seven tallies that start from 0 and `[]` end in the rubric's earned points and recorded messages |
| AtsScoring.EarnedOfChecks | src/utils/atsScoring.js:34-95 | the score is 15, 10, 10, 10, 10, 15 and 10 points summed over the checks that pass |
| AtsScoring.FailedOfChecks | src/utils/atsScoring.js:34-95 | the recorded messages are the failing checks' messages in the order summary, projects, experience, skills, links, impact, education |
| AtsScoring.ChecksPoints | src/utils/atsScoring.js:37-92 | the seven checks are worth 80 points together, each a positive multiple of 5 |
| AtsScoring.RubricPoints | src/utils/atsScoring.js:37-101 | a resume's rubric offers exactly `maxScore` points, each check a positive multiple of 5 |
| AtsScoring.ScoreWithinMax | src/utils/atsScoring.js:97-101 | the running score is at most 80, so `Math.min(score, 100)` never changes it |
| AtsScoring.ScoreRange | src/utils/atsScoring.js:97-101 | the score is a multiple of 5 with 0 ≤ score ≤ maxScore = 80 |
| AtsScoring.SuggestionCount | src/utils/atsScoring.js:102 | failed plus passed checks make 7, and the suggestions are exactly the first min(3, failed) recorded messages |
| AtsScoring.FullScoreIffNoSuggestions | src/utils/atsScoring.js:97-103 | the score is 80 exactly when there are no suggestions, and exactly when no message was recorded at all |
| AtsScoring.FixedSignatures | src/utils/atsScoring.js:40-94 | the fixed messages differ in their characters at positions 0, 4, 5 and 13 |
| AtsScoring.CountSignatures | src/utils/atsScoring.js:50-65 | the project and skill messages keep their distinguishing characters whatever count they embed |
| AtsScoring.ChecksMessagesDistinct | src/utils/atsScoring.js:40-94 | the seven checks carry seven different messages, and only the summary check can record either summary message |
| AtsScoring.MessagesDistinct | src/utils/atsScoring.js:40-94 | the messages of a resume's seven checks are pairwise different |
| AtsScoring.RecordedIff | src/utils/atsScoring.js:34-95 | each check's message is recorded exactly when that check fails |
| AtsScoring.SummaryCheck | src/utils/atsScoring.js:34-44 | fewer than 40 words records the "stronger summary" message, more than 120 records the "shorten" message, and 40 to 120 records neither |
| AtsScoring.ProjectsCheck | src/utils/atsScoring.js:46-51 | fewer than two projects records the message that embeds the project count |
| AtsScoring.ExperienceCheck | src/utils/atsScoring.js:53-58 | the experience message is recorded exactly when there is no entry; what the entries contain does not matter |
| AtsScoring.SkillsCheck | src/utils/atsScoring.js:60-66 | fewer than eight skills records the message that embeds the skill count |
| AtsScoring.LinksCheck | src/utils/atsScoring.js:68-73 | the links message is recorded exactly when both GitHub and LinkedIn are empty; the test is not trimmed |
| AtsScoring.ImpactCheck | src/utils/atsScoring.js:75-85 | the impact message is recorded exactly when no experience or project description contains the number pattern |
| AtsScoring.EducationCheck | src/utils/atsScoring.js:87-95 | the education message is recorded exactly when no single entry has institution, degree and year all non-empty |
| BulletGuidance.ActionVerbsShape | src/utils/bulletGuidance.js:5-11 | there are 25 action verbs, each a non-empty lower-case word |
| BulletGuidance.ActionVerbsDistinct | src/utils/bulletGuidance.js:5-11 | no action verb is listed twice |
| BulletGuidance.FirstWord | src/utils/bulletGuidance.js:17 | the first word is the lower-cased opening of the trimmed text: non-empty, free of white space, and ending at white space or the end |
| BulletGuidance.StartsWithVerbIff | src/utils/bulletGuidance.js:15-19 | a bullet starts with a verb exactly when it is blank or its trimmed text opens, in any letter case, with an action verb as a whole word |
| BulletGuidance.OpeningWordIsFirstWord | src/utils/bulletGuidance.js:17 | a white-space-free word that opens the trimmed text as a whole word is its first word |
| BulletGuidance.AnyCaseVerbAccepted | src/utils/bulletGuidance.js:16-18 | an action verb in any letter case, after any leading white space, is accepted |
| BulletGuidance.OtherWordOnBRejected | src/utils/bulletGuidance.js:17-18 | a first word that starts with `b` or `B` but is not five letters long is never accepted, since "built" is the only verb on `b` |
| BulletGuidance.GetBulletSuggestions | src/utils/bulletGuidance.js:25-39 | blank text gets no hints; the verb hint is present exactly when the bullet does not start with a verb; the numbers hint exactly when a non-blank bullet has no number; at most two hints, verb first |
| ResumeExport.Present | src/utils/resumeExport.js:17-19 | the present values are exactly the non-empty inputs, no more of them than inputs |
| ResumeExport.HeadOf | src/utils/resumeExport.js:9-23 | the pushed name and contact lines are exactly the specified head lines |
| ResumeExport.EducationLines | src/utils/resumeExport.js:37-43 | the `forEach` loop pushes one joined line per education entry, in order |
| ResumeExport.ExperienceEntryLines | src/utils/resumeExport.js:52-60 | one experience entry's header, indented description and blank line |
| ResumeExport.ExperienceLines | src/utils/resumeExport.js:51-61 | the `forEach` loop pushes every experience entry's lines, in order |
| ResumeExport.ProjectEntryLines | src/utils/resumeExport.js:69-82 | one project's header with its URLs, indented description, Tech line and blank line |
| ResumeExport.ProjectLines | src/utils/resumeExport.js:68-83 | the `forEach` loop pushes every project's lines, in order |
| ResumeExport.SkillLinesOf | src/utils/resumeExport.js:87-95 | the skill lines for the string form and for the categorised form |
| ResumeExport.LinkPartsOf | src/utils/resumeExport.js:104-107 | the GitHub, LinkedIn and Portfolio parts, each only when present |
| ResumeExport.SummarySection | src/utils/resumeExport.js:25-31 | appends the SUMMARY section exactly when the summary is non-blank |
| ResumeExport.EducationSection | src/utils/resumeExport.js:33-45 | appends the EDUCATION section exactly when there is an entry |
| ResumeExport.ExperienceSection | src/utils/resumeExport.js:47-62 | appends the EXPERIENCE section exactly when there is an entry |
| ResumeExport.ProjectsSection | src/utils/resumeExport.js:64-84 | appends the PROJECTS section exactly when there is a project |
| ResumeExport.SkillsSection | src/utils/resumeExport.js:86-101 | appends the SKILLS section exactly when some skill line results |
| ResumeExport.LinksSection | src/utils/resumeExport.js:103-113 | appends the LINKS section exactly when a link part results |
| ResumeExport.ResumeToPlainText | src/utils/resumeExport.js:5-116 | the pushed lines, joined with newlines and trimmed, are the specified plain text |
| ResumeExport.SectionsInOrder | src/utils/resumeExport.js:25-113 | the exported sections are among the six titles and come in the order SUMMARY, EDUCATION, EXPERIENCE, PROJECTS, SKILLS, LINKS, each at most once |
| ResumeExport.SectionPresence | src/utils/resumeExport.js:26-108 | each section appears exactly when it has content: non-blank summary, an entry, a skill line, or a link |
| ResumeExport.RenderedTitlesAndRules | src/utils/resumeExport.js:27-110 | every rendered section title is followed by a rule of exactly 40 `-` characters |
| ResumeExport.NameLine | src/utils/resumeExport.js:10-13 | a non-empty full name gives its upper-cased form and a blank line first; an empty one gives no name line |
| ResumeExport.ContactLine | src/utils/resumeExport.js:15-23 | the contact line joins location, phone and email in that order with `' \| '`, and is omitted exactly when all three are empty |
| ResumeExport.ExperienceHeaderShape | src/utils/resumeExport.js:52-55 | a header is empty exactly when role, company and duration are all empty; with all three it reads "role at company (duration)" |
| ResumeExport.ExperienceHeaderParts | src/utils/resumeExport.js:52-55 | the header is the role, then " at company" exactly when the company is present, then " (duration)" exactly when the duration is present; so role and duration alone give "role (duration)", and a company alone " at company" |
| ResumeExport.ExperienceEntryShape | src/utils/resumeExport.js:56-60 | an entry is the header, the description indented by two spaces exactly when it is present, and a blank line |
| ResumeExport.ExperienceBodyAppend | src/utils/resumeExport.js:51-61 | the experience block of a list is the blocks of its parts in order, one entry after another |
| ResumeExport.EducationBodyLines | src/utils/resumeExport.js:37-43 | the education block has one line per entry, and line k is entry k's line |
| ResumeExport.EducationLineShape | src/utils/resumeExport.js:38-42 | an education line is empty exactly when institution, degree and year are all empty; with all three it reads "institution — degree — year" |
| ResumeExport.ProjectEntryShape | src/utils/resumeExport.js:75-82 | a project entry is its header, the indented description exactly when present, the "  Tech: " line with the stack joined by ", " exactly when the stack is non-empty, and a blank line |
| ResumeExport.ProjectHeaderShape | src/utils/resumeExport.js:69-74 | the header is the name alone without URLs, and the name followed by more text with them |
| ResumeExport.ProjectBodyAppend | src/utils/resumeExport.js:68-82 | the projects block of a list is the blocks of its parts in order, one entry after another |
| ResumeExport.ProjectUrlsShape | src/utils/resumeExport.js:70-74 | at most two URLs; with a live URL they are the live URL and then the GitHub URL when present, and the older link is dropped; the older link alone only without both; none exactly when all three are empty |
| ResumeExport.SkillLineStable | src/utils/resumeExport.js:88-90 | exporting skills written as their exported line gives the same line again |
| ResumeExport.CategoryLines | src/utils/resumeExport.js:91-95 | the categorised form gives one line per non-empty category, Technical first and Tools last |
| ResumeExport.EmptyResumeExportsNothing | src/utils/resumeExport.js:5-116 | a resume with nothing filled in exports as the empty text |
| ResumeExport.GetExportWarnings | src/utils/resumeExport.js:121-138 | no warning exactly when the name is non-blank and there is an experience entry or a project; otherwise exactly "Your resume may look incomplete." |
| Resume.Personal.With | src/contexts/ResumeContext.jsx:74 | the copied personal record has the new value in the named field and every other field unchanged |
| ResumeContext.ResumeStore.constructor | src/contexts/ResumeContext.jsx:69 | the store starts from the initial resume |
| ResumeContext.InitialStateEmpty | src/contexts/ResumeContext.jsx:5-20 | the initial resume has all seven personal fields empty, an empty summary, no entries and skills `''` |
| ResumeContext.ResumeStore.UpdatePersonal | src/contexts/ResumeContext.jsx:71-76 | the stored resume becomes the previous one with one personal field set |
| ResumeContext.WithPersonalChangesOneField | src/contexts/ResumeContext.jsx:71-76 | setting a personal field changes that field only: every other field and every other part stays |
| ResumeContext.Part | src/contexts/ResumeContext.jsx:81 | reading a part gives a value tagged with that part |
| ResumeContext.ResumeStore.UpdateSection | src/contexts/ResumeContext.jsx:78-83 | the stored resume becomes the previous one with one part replaced |
| ResumeContext.WithSectionChangesOnePart | src/contexts/ResumeContext.jsx:78-83 | replacing a part gives it the new value and leaves every other part as it was |
| ResumeContext.WithSectionOwnValue | src/contexts/ResumeContext.jsx:78-83 | replacing a part by its current value leaves the resume unchanged |
| ResumeContext.ResumeStore.AddItem | src/contexts/ResumeContext.jsx:85-90 | the stored resume becomes the previous one with the entry appended under the fresh id |
| ResumeContext.WithItemAppends | src/contexts/ResumeContext.jsx:85-90 | adding grows the list by one, keeps the earlier entries in order, puts the entry with the fresh id last, and leaves the other parts alone |
| ResumeContext.Without | src/contexts/ResumeContext.jsx:95 | the filter never grows the list |
| ResumeContext.WithoutKeeps | src/contexts/ResumeContext.jsx:95 | the filter keeps exactly the entries whose id differs: every kept entry is from the list with another id, and every such entry is kept |
| ResumeContext.ResumeStore.RemoveItem | src/contexts/ResumeContext.jsx:92-97 | the stored resume becomes the previous one with the entries of that id filtered out of one list |
| ResumeContext.WithoutAppend | src/contexts/ResumeContext.jsx:95 | filtering distributes over concatenation, so the kept entries stay in their order |
| ResumeContext.WithoutAbsent | src/contexts/ResumeContext.jsx:95 | filtering out an id that no entry has returns the list unchanged |
| ResumeContext.WithoutIdempotent | src/contexts/ResumeContext.jsx:95 | removing an id twice is the same as removing it once |
| ResumeContext.WithoutItemAbsent | src/contexts/ResumeContext.jsx:92-97 | removing an id that no entry of the list has is a no-op |
| ResumeContext.WithoutItemKeepsOthers | src/contexts/ResumeContext.jsx:92-97 | after removal no entry of the list has the id, and the other list sections and parts are unchanged |
| ResumeContext.RemoveUndoesAdd | src/contexts/ResumeContext.jsx:85-97 | adding an entry under an unused id and then removing that id restores the resume |
| ResumeContext.ResumeStore.LoadSampleData | src/contexts/ResumeContext.jsx:99-101 | the stored resume becomes the sample resume |
| ResumeContext.InitialStateScore | src/contexts/ResumeContext.jsx:5-20 | the initial resume scores 0 of 80 with the stronger-summary, "you have 0" projects and experience messages |
| ResumeContext.SampleSummaryWordCount | src/contexts/ResumeContext.jsx:32 | the sample summary has 29 words |
| ResumeContext.SampleSkillCount | src/contexts/ResumeContext.jsx:65 | the sample skills string names 8 skills |
| ResumeContext.SampleHasImpact | src/contexts/ResumeContext.jsx:47 | the "40%" in the first sample description matches the number pattern |
| ResumeContext.ImpactFromFirstEntry | src/utils/atsScoring.js:76-80 | a number in the first experience description passes the impact check |
| ResumeContext.SampleCounts | src/contexts/ResumeContext.jsx:22-66 | the sample resume has 29 summary words, 1 project, 2 experience entries and 8 skills |
| ResumeContext.SampleFlags | src/contexts/ResumeContext.jsx:22-66 | the sample resume has a profile link, a measurable number and a complete education entry |
| ResumeContext.SampleDataScore | src/contexts/ResumeContext.jsx:22-66 | the sample resume scores 55 of 80 with the stronger-summary and "you have 1" projects messages |
| AtsScoreBadge.ScoreColor | src/components/resume/ATSScore.jsx:15-19 | green exactly from 65, orange exactly from 40 to 64, deep red exactly below 40 |
| AtsScoreBadge.ScoreLabel | src/components/resume/ATSScore.jsx:21-25 | "Strong" exactly from 65, "Developing" exactly from 40 to 64, "Needs Work" exactly below 40 |
| AtsScoreBadge.ColorMatchesLabel | src/components/resume/ATSScore.jsx:15-28 | the colour and the label always select the same band |
| AtsScoreBadge.BandMonotone | src/components/resume/ATSScore.jsx:15-25 | a higher score never gets a lower band |
| AtsScoreBadge.ScenarioBands | src/components/resume/ATSScore.jsx:15-28 | the empty resume needs work, the sample resume is developing and orange, and the maximum score is strong |
| TagInput.KeyDownRequest | src/components/resume/TagInput.jsx:10-22 | Enter asks to add exactly when the trimmed input is non-empty and not already a tag, and adds the trimmed input; Backspace asks to remove the last tag exactly when the input is empty and there are tags |
| TagInput.TagField.constructor | src/components/resume/TagInput.jsx:8 | the input starts empty |
| TagInput.TagField.Change | src/components/resume/TagInput.jsx:76 | the input shows what was typed |
| TagInput.TagField.HandleKeyDown | src/components/resume/TagInput.jsx:10-22 | the request made is the specified one, Enter always clears the input, and no other key touches it |
| TagInput.Without | src/components/resume/TagInput.jsx:20 | removing a tag by value keeps exactly the other tags |
| TagInput.RemoveLastDropsLast | src/components/resume/TagInput.jsx:19-21 | in a list without duplicates, removing the last tag by value drops exactly the last tag |
| TagInput.AddedTagIsClean | src/components/resume/TagInput.jsx:13-16 | an added tag is never blank and has no white space at either end |
| TagInput.BackspaceRemovesLast | src/components/resume/TagInput.jsx:19-21 | Backspace on an empty input removes only the last tag |
| TagInput.OtherKeysKeepTags | src/components/resume/TagInput.jsx:19 | Backspace over typed text or with no tags, and every key other than Enter and Backspace, leave the tags unchanged |
| TagInput.KeyDownKeepsWellFormed | src/components/resume/TagInput.jsx:14 | every key press keeps a duplicate-free list of clean tags duplicate-free and clean |
| Steps.StepListShape | src/constants/steps.js:1-10 | there are exactly 8 steps; the step at index i has number i+1, route `'/rb/'` + id, and an id that opens with its two-digit number |
| Steps.StepsDistinct | src/constants/steps.js:2-9 | ids are pairwise distinct, and so are routes |
| Steps.ProofRouteIsNoStep | src/constants/steps.js:12 | `'/rb/proof'` is no step's route |
| StepContext.ArtifactKey | src/contexts/StepContext.jsx:12 | the key is `rb_step_`, then the step number's digits, then `_artifact` |
| StepContext.ArtifactKeyInjective | src/contexts/StepContext.jsx:20 | different steps never share an artifact key |
| StepContext.FirstArtifactKey | src/contexts/StepContext.jsx:12 | step 1's key is `rb_step_1_artifact` |
| StepContext.LoadArtifacts | src/contexts/StepContext.jsx:9-17 | the loaded map holds exactly the keys of steps 1 to 8 with a non-empty stored value, each mapped to that value |
| StepContext.StepStore.constructor | src/contexts/StepContext.jsx:5-17 | no current step, empty build content, status pending, and the artifacts loaded from storage |
| StepContext.StepStore.UpdateArtifact | src/contexts/StepContext.jsx:19-26 | storage and the artifact map both send the step's key to the artifact, and nothing else changes |
| StepContext.StepStore.SetCurrentStep | src/contexts/StepContext.jsx:6 | sets the current step only |
| StepContext.StepStore.SetBuildContent | src/contexts/StepContext.jsx:7 | sets the build content only |
| StepContext.StepStore.SetBuildStatus | src/contexts/StepContext.jsx:8 | sets the build status only |
| StepContext.UpdateAffectsOneStep | src/contexts/StepContext.jsx:22-25 | after an update the step has an artifact exactly when the new value is non-empty, and every other step keeps what it had |
| ProofFooter.FindStep | src/components/common/ProofFooter.jsx:12 | the found index is a step whose route is the path, and no step has the path when none is found |
| ProofFooter.FindOwnRoute | src/components/common/ProofFooter.jsx:12 | a step's own route finds that step |
| ProofFooter.ProofPageLeadsBack | src/components/common/ProofFooter.jsx:19-28 | on the proof route the footer leads back to the last step, `/rb/08-ship` |
| ProofFooter.UnknownPathHidden | src/components/common/ProofFooter.jsx:30 | a path that is no step's route and not the proof route shows no footer |
| ProofFooter.OnStep | src/components/common/ProofFooter.jsx:32-66 | on step i, Previous leads to step i-1 and is disabled exactly on the first step; Next leads to step i+1, or to the proof route from the last step with the label "Finish & Proof", and is disabled exactly when the step has no artifact |
| BuildTrackProof.UrlCandidate | src/pages/BuildTrackProofPage.jsx:14 | text starting with "http" is handed to the parser as is, and anything else gets `https://` in front |
| BuildTrackProof.ValidationError | src/pages/BuildTrackProofPage.jsx:100-111 | no error exactly for a valid URL; "This field is required." for an empty value; "Please enter a valid URL." for a non-empty invalid one |
| BuildTrackProof.ValidLinksAreProvided | src/pages/BuildTrackProofPage.jsx:12 | a valid URL is never blank, so valid links are always provided links |
| BuildTrackProof.Fields.With | src/pages/BuildTrackProofPage.jsx:93 | the copied fields have the new value under the name and every other field unchanged |
| BuildTrackProof.LinkForm.constructor | src/pages/BuildTrackProofPage.jsx:75-83 | the links start from what was saved, with no errors |
| BuildTrackProof.LinkForm.HandleChange | src/pages/BuildTrackProofPage.jsx:91-98 | sets only that link and clears only that field's error |
| BuildTrackProof.LinkForm.ValidateField | src/pages/BuildTrackProofPage.jsx:100-111 | returns whether the link is a valid URL, records that field's error, and changes no link |
| BuildTrackProof.LinkForm.ValidateAll | src/pages/BuildTrackProofPage.jsx:136-141 | validates all three fields without short-circuiting, records all three errors, and proceeds exactly when all three are valid |
| BuildTrackProof.ChecklistOf | src/pages/BuildTrackProofPage.jsx:26-67 | ten items, with what items 1 to 6 test and items 7 to 10 always passing |
| BuildTrackProof.ChecklistResults | src/pages/BuildTrackProofPage.jsx:22-67 | ten items; item 1 needs a name, a summary and an education entry; item 2 a name; item 3 a name and an education entry; item 4 a saved accent colour; items 5 and 6 a score above 0; items 7 to 10 always pass |
| BuildTrackProof.PassedCount | src/pages/BuildTrackProofPage.jsx:125 | the count of passed items is at most the length, and equal to it exactly when every item passes |
| BuildTrackProof.PassedOfTen | src/pages/BuildTrackProofPage.jsx:125 | the number of passed items of ten is the sum of their ticks |
| BuildTrackProof.ChecklistPassed | src/pages/BuildTrackProofPage.jsx:124-125 | the passed count is 4, plus one for each of items 1 to 4 that passes, plus 2 when the score is above 0 |
| BuildTrackProof.AllChecksPassIff | src/pages/BuildTrackProofPage.jsx:124-126 | all ten checks pass exactly when there is a name, a summary, an education entry, a saved accent colour, and a score above 0 |
| BuildTrackProof.InitialChecklist | src/pages/BuildTrackProofPage.jsx:22-67 | the empty resume passes only the four fixed items, and the colour item when a colour is saved |
| BuildTrackProof.SampleChecklist | src/pages/BuildTrackProofPage.jsx:22-67 | the sample resume passes all ten items once an accent colour is saved |
| BuildTrackProof.CompletedAmong | src/pages/BuildTrackProofPage.jsx:115-118 | at most n of the first n steps are complete, and exactly n when every one has an artifact |
| BuildTrackProof.StepsCompleted | src/pages/BuildTrackProofPage.jsx:114-119 | the number of completed steps lies in 0..8 and is 8 exactly when every step has an artifact |
| BuildTrackProof.AllStepsCompleteIff | src/pages/BuildTrackProofPage.jsx:121 | all steps are complete exactly when steps 1 to 8 all have an artifact |
| BuildTrackProof.ShippedIff | src/pages/BuildTrackProofPage.jsx:129-133 | shipped exactly when steps 1 to 8 have artifacts, all ten checks pass, and all three links are valid; the "provided" condition adds nothing |
| BuildPanel.ViewOf | src/components/common/BuildPanel.jsx:43 | only the placeholder renders, exactly when no step is selected |
| BuildPanel.ViewExclusions | src/components/common/BuildPanel.jsx:85-129 | the outcome buttons never show beside the success panel or the error notice; the upload shows exactly after success without an artifact; "saved" shows exactly with an artifact |
| BuildPanel.ArtifactHidesControls | src/components/common/BuildPanel.jsx:85-120 | a saved artifact hides the outcome buttons and the upload and shows the saved panel, whatever the status |
| BuildPanel.Panel.constructor | src/components/common/BuildPanel.jsx:6-7 | no screenshot, status pending |
| BuildPanel.Panel.StepChanged | src/components/common/BuildPanel.jsx:9-13 | a change of step resets the status to pending and clears the screenshot |
| BuildPanel.Panel.ItWorked | src/components/common/BuildPanel.jsx:20-22 | It Worked sets the status to success and changes nothing else |
| BuildPanel.Panel.Failed | src/components/common/BuildPanel.jsx:24-26 | Error sets the status to error and changes nothing else |
| BuildPanel.Panel.Retry | src/components/common/BuildPanel.jsx:127 | Retry sets the status back to pending and changes nothing else |
| BuildPanel.Panel.ScreenshotChange | src/components/common/BuildPanel.jsx:28-41 | a chosen file becomes the screenshot and, with a selected step, that step's artifact in storage and in the map; the status, current step, build content and build status are never touched; no file changes nothing |
| BuildPanel.UploadShowsSaved | src/components/common/BuildPanel.jsx:28-46 | after an upload for step n its panel shows the saved state, and every other step's panel looks as it did |

## Left out

- Rendering, layout and styling are not modelled: the JSX markup, inline styles, the circular-progress geometry (floating point, `Math.PI`) and the theming dictionary. React's re-render timing and the provider wiring are left out too. The model describes what each component computes and shows, not how it draws it.
- Letter case mapping (`toUpperCase`, `toLowerCase`) covers ASCII letters only; other characters are left unchanged. White space for `\s` and `trim` is the fixed ECMA-262 set, and `\d` is ASCII digits.
- `new URL(...)` in `isValidUrl` is the parameter `isHttpUrl`, which says whether the candidate text parses with an http or https protocol. The blank check and the `https://` prefixing are modelled.
- The `Date.now()` id of `addItem` is a parameter `id` of `AddItem`, so the model does not know that two ids taken at different times differ.
- `URL.createObjectURL(file)` is the `Option<string>` parameter of `ScreenshotChange`: the object URL, or None when no file was chosen.
- The local storage read of the accent colour in `getChecklistResults` is the boolean `accentStored`.
- Local storage is a `map<string, string>` field of `StepStore`. A missing key and the empty string both count as no artifact.
- Several parts of the proof page are not modelled:
  - reading the saved links back with `JSON.parse`; the constructor takes the saved links as a value;
  - the effect that writes the links to storage under `rb_final_submission`;
  - the submission text;
  - the clipboard copy and its `copied` flag with `setTimeout`.
- The build panel's clipboard copy (`handleCopy`) is browser I/O and is not modelled.
- `skillCount` in `getChecklistResults` is computed but never used, so it is not modelled.
- TagInput.KeyDownRequest: the tag list belongs to the parent, and the source does not show what `onAdd` and `onRemove` do. `TagInput.Apply` assumes a parent that appends on add and removes by value on remove. The chip's X-button removal is not modelled.
- ResumeContext.ResumeStore.UpdateSection: `updateSection(section, value)` takes any value under any key. The model takes a value tagged with one of the six resume parts, so a value of the wrong shape, or an unknown key, cannot be written.
- ResumeContext.ResumeStore.AddItem: the entry is typed by its list, so an entry of another section's shape cannot be added.
- The sample summary and sample skills are written as their words joined by `" "` and `", "`. This is the same text as the literal strings in the source.
- `StepPage.jsx` sets the current step and the build text; only the setters are modelled, not the page.
- The context fields `template`, `setTemplate` and `accentColor` are read by the proof page but not provided by the resume context. They are not modelled.
