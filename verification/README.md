# Project applications in CollabHub, modelled in Dafny

CollabHub lets people list projects, apply to other people's projects, and
lets the owners accept or reject those applications. This project models the
lifecycle of one application in Dafny:

- the backend tables as an immutable in-memory `Store`. It holds the
  applications by id, the projects, the profile rows, the account e-mails,
  the chat messages, and an outbox of e-mails sent.
- every entry point that changes an application's status, as a pure
  transition on that store:
  - the page opened from an e-mailed link;
  - the `respond-to-application` function;
  - the `project-chat-init` function;
  - the owner's pending-applications panel;
  - the notifications list.
- the functions that send e-mail (`send-project-application-email`,
  `notify-applicant`). Each sent e-mail is one record appended to the outbox.
- the read path that lists an owner's pending applications.
- the pure helpers around it all:
  - the application message;
  - action links, and the query-string reader that reads them back;
  - subjects, display names and initials;
  - the skills list;
  - "+N more" counters;
  - stage filters and colours;
  - profile completion;
  - form rules.

Every backend call that can fail has a flag in a per-handler `Faults` record.
Time (`now`), the site URL taken from the environment, and the database's row
order are parameters.

Modules follow the program's files:

- `Common`, `Text`, `Url`: options, filtering, and the JavaScript string and query-string operations the code relies on.
- `Backend`, `Http`: the store and the functions' responses.
- One module per source file: `RespondFunction`, `ChatInit`, `NotifyApplicant`, `ApplicationEmail`, `RespondPage`, `PendingPanel`, `Notifications`, `NotificationItem`, `ProjectCard`, `ApplicationModal`, `Discover`, `UserCard`, `ProfilePage`, `CreateProject`, `ProjectsPage`, `ProjectView`, `ApplyButton`, `DirectMessage`, `ProjectDetails`.
- Helpers shared by several of those files: `Stages` (stage colours and labels, used by the project card, the project details and the create form), `Overflow` (the "+N more" counters of the project and user cards) and `Forms` (the validation rules of the profile and create-project forms).
- `Workflow`: lemmas that compare the entry points with each other.

Facts about the code that the model makes explicit:

- Only the page opened from an e-mailed link asks `notify-applicant` to e-mail the applicant. Accepting from the owner's panel or from the notifications list sends no e-mail (`Workflow.OnlyPageEmails`, `Workflow.AcceptByPanel`).
- The "Contact Project Owner" button is hidden from the project's creator. The project card's apply flow does not check ownership, so a creator can apply to their own project (`ProjectCard.CreatorCanApply`).
- The respond page refuses a second decision on an application that is no longer pending. `respond-to-application` has no such check and overwrites the earlier decision (`Workflow.SecondClick`).
- The notifications list never drops a pending application. A missing project, a failed title lookup or an empty title shows "Unknown Project"; a missing profile or a failed profile lookup gives null names (`Notifications.Decorate`).

## Model

| member | source | states |
|---|---|---|
| Backend.SetStatus | src/hooks/useProjectNotifications.ts:172-175 | an update by id changes only that row's status and, when a stamp is given, its `updated_at`; an update matching no row changes nothing and is not an error |
| Backend.SetStatusIdempotent | src/pages/ApplicationsRespond.tsx:72-75 | writing the same status twice is the same as writing it once |
| Backend.SetStatusLastWins | src/components/project/PendingApplications.tsx:33-37 | of two writes to one row the later decides the status, and no row appears or disappears |
| RespondFunction.TargetStatus | supabase/functions/respond-to-application/index.ts:51 | "accept" maps to accepted and "reject" to rejected, and only those |
| RespondFunction.Handle | supabase/functions/respond-to-application/index.ts:17-179 | OPTIONS is a preflight; other non-GET methods get 405; a missing parameter gets 400 "Missing parameters"; an unknown action gets 400 "Invalid action" with no store access; a failed lookup or missing row gets 500 with no write; a failed update gets 500; 200 exactly when every step succeeds; the only store change is one stamped status write, whatever the row's current status |
| RespondFunction.SuccessHeadlineMatchesStatus | supabase/functions/respond-to-application/index.ts:96-100 | a 200 page's headline names the status that was written, and the row carries that status and the new `updated_at` |
| RespondFunction.OverwritesEarlierDecision | supabase/functions/respond-to-application/index.ts:79-83 | with no pending check, a reject request turns an accepted application into a rejected one |
| ChatInit.Welcome | supabase/functions/project-chat-init/index.ts:81-89 | the welcome message goes to the application's project, from that project's creator, with the fixed welcome text |
| ChatInit.Handle | supabase/functions/project-chat-init/index.ts:16-135 | missing ids get 400 with no store access; a missing application or project gets 404 and no message; once both are found a failed insert gets 500 "Failed to initialize chat" and leaves the store, status included, and a successful one gets 200; success posts exactly one welcome message, then accepts the row unless it was already accepted, and the answer is 200 even when that write fails; projects, profiles and accounts never change |
| ChatInit.AcceptsRejected | supabase/functions/project-chat-init/index.ts:104-110 | a rejected application is turned into an accepted one |
| ChatInit.RepeatPostsTwice | supabase/functions/project-chat-init/index.ts:81-115 | a second call leaves the same status but posts the welcome message a second time |
| NotifyApplicant.OwnerName | supabase/functions/notify-applicant/index.ts:97-99 | without an owner profile the name is "The project owner"; with one it is the trimmed "first last", which never starts or ends with white space, is empty exactly when both names are missing or blank, and is the two names joined by one space when both are non-empty and unpadded |
| NotifyApplicant.Decision | supabase/functions/notify-applicant/index.ts:102 | only the exact text "accepted" counts as acceptance; every other status text reads as rejected |
| NotifyApplicant.Notice | supabase/functions/notify-applicant/index.ts:103-128 | the e-mail goes to the applicant's address, with the decision subject for the project's title and the single decision link |
| NotifyApplicant.Handle | supabase/functions/notify-applicant/index.ts:23-146 | OPTIONS is a preflight; non-POST methods get 405; a missing id or status gets 400; a missing application gets 500, and so does an applicant without an address, with no e-mail; otherwise exactly one e-mail to the applicant is appended and nothing else in the store changes |
| NotifyApplicant.DecisionWording | supabase/functions/notify-applicant/index.ts:102-128 | "accepted" gives the subject `Your application for "<title>" has been accepted` and the link to the project page; any other status gives the "rejected" subject and the link to the project list |
| NotifyApplicant.OwnerNameFallback | supabase/functions/notify-applicant/index.ts:97-99 | an owner profile with no names gives the empty name, not the fallback; a missing profile gives "The project owner" |
| Text.TrimJoined | supabase/functions/notify-applicant/index.ts:97-99 | trimming "first last" gives the empty text exactly when both names are blank, and gives the two names joined by one space when both are non-empty and unpadded |
| ApplicationEmail.ActionLink | supabase/functions/send-project-application-email/index.ts:50-51 | a link starts with the respond page, and reading its query back gives the application id and the action whenever neither contains '&' and the base URL has no '?' |
| ApplicationEmail.GreetingName | supabase/functions/send-project-application-email/index.ts:56 | the greeting uses the owner's name, or "there" when it is empty |
| ApplicationEmail.Announcement | supabase/functions/send-project-application-email/index.ts:50-74 | one e-mail to the owner's address with subject `New application for your project "<title>"`, the accept link then the reject link, and the greeting name |
| ApplicationEmail.Handle | supabase/functions/send-project-application-email/index.ts:24-95 | OPTIONS is a preflight; non-POST methods get 405; a body that is not JSON gets 500; every parsed body, unvalidated, sends exactly one announcement and gets 200 |
| ApplicationEmail.LinkRoundTrip | supabase/functions/send-project-application-email/index.ts:50-51 | both links of an announcement read back the announced application id, the first with action "accept" and the second with "reject", when the base URL has no '?' and the id is free of '&', '#', '%' and '+' |
| ApplicationEmail.LinksDiffer | supabase/functions/send-project-application-email/index.ts:50-51 | the two links have the same length, agree on everything before their last six characters, end in "accept" and "reject" respectively, and carry the same application id |
| Url.TwoParamsRoundTrip | src/pages/ApplicationsRespond.tsx:27-28 | for a query of two distinct `name=value` pairs, reading either name gives back its value |
| RespondPage.Load | src/pages/ApplicationsRespond.tsx:27-63 | invalid parameters give the "Invalid parameters" error before any lookup; a failed lookup, a missing row and a decided row each give their own error; the controls are offered exactly for valid parameters naming a pending application |
| RespondPage.ActionStatus | src/pages/ApplicationsRespond.tsx:71 | "accept" writes accepted; every other action writes rejected, never pending |
| RespondPage.HandleAction | src/pages/ApplicationsRespond.tsx:65-105 | without an id or action nothing happens; a failed update sets the failure message, leaves success unset and writes nothing; a successful update stamps the row, then `notify-applicant` gets the same id and status, and an e-mail can only follow a successful write |
| RespondPage.Visit | src/pages/ApplicationsRespond.tsx:27-105 | a visit presses the button only when the load offered it; otherwise the store is untouched |
| RespondPage.ActsOnce | src/pages/ApplicationsRespond.tsx:155 | after the button is pressed, success or failure, the controls are no longer offered |
| RespondPage.StaleLinkHarmless | src/pages/ApplicationsRespond.tsx:49-53 | a link to a missing or already decided application shows an error and changes nothing |
| RespondPage.VisitDecides | src/pages/ApplicationsRespond.tsx:65-87 | a visit to a pending application writes the link's decision with `updated_at = now`, shows success, and e-mails the applicant the matching subject when the applicant has an address |
| PendingPanel.InFlight | src/components/project/PendingApplications.tsx:21 | the id is added to the processing set and no other id changes membership |
| PendingPanel.Done | src/components/project/PendingApplications.tsx:54-59 | the id is removed from the processing set and no other id changes membership |
| PendingPanel.Accept | src/components/project/PendingApplications.tsx:19-61 | the chat function runs first, and its error skips the update and leaves the store; when the chat succeeds but the panel's update fails, the store is exactly what the chat function left; `onApplicationUpdate` runs exactly when both steps succeed, and then the row ends accepted with `updated_at` untouched; no e-mail; projects, profiles and accounts never change; the id leaves the processing set |
| PendingPanel.Reject | src/components/project/PendingApplications.tsx:63-94 | only the status is written: no chat message, no e-mail, `updated_at` untouched, projects, profiles and accounts unchanged; `onApplicationUpdate` runs exactly when the write succeeds |
| PendingPanel.AcceptWritesTwice | src/components/project/PendingApplications.tsx:24-39 | with the chat function working, the row ends accepted with its old `updated_at` and exactly one new chat message |
| PendingPanel.ProcessingHidesControls | src/components/project/PendingApplications.tsx:121-126 | while an id is processing its controls are hidden, other ids keep theirs, and the controls return when it is done |
| Notifications.Owned | src/hooks/useProjectNotifications.ts:43-46 | the owned projects are exactly those whose creator is the user |
| Notifications.PendingRows | src/hooks/useProjectNotifications.ts:60-72 | the rows kept are, in the database's order, exactly the pending rows of owned projects |
| Notifications.Decorate | src/hooks/useProjectNotifications.ts:85-110 | the raw row is kept and the applicant id is the row's; the title is the project's non-empty title when its lookup succeeds and finds one, and "Unknown Project" otherwise, a failed title lookup included; a name is the profile's non-empty name when the profile lookup succeeds and finds one, and null otherwise, a failed profile lookup included |
| Notifications.DecorateAll | src/hooks/useProjectNotifications.ts:85-111 | one entry per row, in the same order |
| Notifications.PendingList | src/hooks/useProjectNotifications.ts:55-114 | every entry is pending and belongs to an owned project, one entry per pending row |
| Notifications.Fetch | src/hooks/useProjectNotifications.ts:31-133 | no user id means no query and an unchanged list; a failed list query keeps the list; no owned projects gives the empty list; otherwise the list is built with the per-row lookup failures given; loading always ends false |
| Notifications.PendingExactly | src/hooks/useProjectNotifications.ts:42-111 | the list names exactly the pending applications to the user's projects, each entry decorated from its own row |
| Notifications.UpdateStatus | src/hooks/useProjectNotifications.ts:165-202 | a successful update stamps the row and removes exactly the entries with that id, keeping the others in order; a failed one changes neither list nor store |
| Notifications.RemovalMatchesRefetch | src/hooks/useProjectNotifications.ts:172-185 | dropping the decided entry from the list gives the same list a fresh fetch would give |
| Notifications.RemovalMatchesRefetchRows | src/hooks/useProjectNotifications.ts:59-111 | deciding a row removes exactly that row's entry from what the fetch builds, and the other entries stay in order |
| NotificationItem.ApplicantName | src/components/project/ProjectApplicationNotificationItem.tsx:29-31 | the name is "first last" when both are non-empty, otherwise "A user"; it is never empty, and when neither name has a space, splitting it on the space gives back exactly the two names |
| NotificationItem.Headline | src/components/project/ProjectApplicationNotificationItem.tsx:37 | the title starts with the applicant's name and holds the project title at the fixed offset after ` applied to "` |
| NotificationItem.Footer | src/components/project/ProjectApplicationNotificationItem.tsx:26-57 | the accept/reject choices are offered unless processing is true; an omitted flag counts as false |
| NotificationItem.FetchedName | src/hooks/useProjectNotifications.ts:105-109 | on a fetched entry the name is "A user" exactly when the profile lookup fails, finds no profile, or finds one lacking a non-empty first or last name |
| ProjectCard.HandleApply | src/components/project/ProjectCard.tsx:73-97 | an insert stores exactly one pending row with the card's project, the user and the "Why: …\nExperience: …" message, and closes the form; a failure stores nothing and leaves the form open; submitting always ends false |
| ProjectCard.Submit | src/components/project/ProjectApplicationModal.tsx:38-73 | an empty or missing answer is stopped by the browser's `required` check with nothing changed; a filled form with a whitespace-only answer shows the error and reaches no insert; valid answers reach the insert, and the answers are cleared once it is handled; the store changes only for valid answers |
| ProjectCard.FailedApplyLosesAnswers | src/components/project/ProjectApplicationModal.tsx:45-46 | after a failed insert the form stays open, but the typed answers are gone |
| ProjectCard.CreatorCanApply | src/components/project/ProjectCard.tsx:76-81 | the project's creator can insert an application to their own project |
| ProjectCard.MessageDecodes | src/components/project/ProjectCard.tsx:79 | when the first answer is one line, the message determines both answers |
| ProjectCard.MessageAmbiguous | src/components/project/ProjectCard.tsx:79 | without that condition, two different pairs of answers give the same message |
| ApplicationModal.HandleChange | src/components/project/ProjectApplicationModal.tsx:33-36 | only the given answer changes, and the error is hidden |
| ApplicationModal.Validate | src/components/project/ProjectApplicationModal.tsx:38-45 | once `handleSubmit` runs, the answers pass exactly when every question has a non-blank answer, and then `onSubmit` gets both answers untrimmed; otherwise the error shows |
| ApplicationModal.Press | src/components/project/ProjectApplicationModal.tsx:38-73 | an empty or missing answer fails the `required` check, so `handleSubmit` never runs and nothing changes; a filled form is validated; the in-form error can only appear for a filled form with a whitespace-only answer |
| ApplicationModal.EmptyFormBlocked | src/components/project/ProjectApplicationModal.tsx:64-71 | pressing submit on the untouched form submits nothing and leaves the in-form error hidden |
| ApplicationModal.Resolved | src/components/project/ProjectApplicationModal.tsx:46 | the answers are reset to empty once `onSubmit` resolves |
| ApplicationModal.FilledFormValid | src/components/project/ProjectApplicationModal.tsx:15-45 | typing both answers with non-blank text makes the form valid with exactly those answers |
| ApplicationModal.BlankRefused | src/components/project/ProjectApplicationModal.tsx:41-71 | a whitespace-only answer passes the `required` check, is refused by the validation, and shows the error |
| Stages.StageColor | src/components/project/ProjectCard.tsx:43-57 | each of idea, prototype, mvp and launched, in any letter case, gets its own colour; everything else gets gray |
| Stages.StageLabel | src/components/project/ProjectDetails.tsx:60 | the label upper-cases only the first character and keeps the length |
| Stages.ColorIgnoresCase | src/components/project/ProjectDetails.tsx:33-47 | a stage, its lower-cased form and its label all get the same colour |
| Stages.ChoicesColored | src/pages/CreateProject.tsx:160-163 | the four offered stages get four distinct non-gray colours |
| Overflow.Shown | src/components/project/ProjectCard.tsx:118-122 | at most the limit is shown, and they are the first items in order |
| Overflow.More | src/components/project/ProjectCard.tsx:123-127 | the counter shows exactly when there are more items than the limit |
| Overflow.Accounts | src/components/project/ProjectCard.tsx:145-157 | shown items plus the counter account for every item; a zero counter shows the whole list |
| Discover.Count | src/pages/Discover.tsx:32 | a field counts 1 exactly when it is a non-empty text |
| Discover.Filled | src/pages/Discover.tsx:29-40 | at most nine fields are counted, zero exactly when all are empty; skills count only when the list is non-empty |
| Discover.Score | src/pages/Discover.tsx:41 | the score is filled·100/9 rounded to the nearest integer, 0 for none and 100 for all nine |
| Discover.Completion | src/pages/Discover.tsx:29-42 | the completion score lies between 0 and 100 |
| Discover.ScoreMonotone | src/pages/Discover.tsx:41 | more filled fields never score lower |
| Discover.ThresholdIsSeven | src/pages/Discover.tsx:58 | a score of at least 70 is the same as at least seven filled fields |
| Discover.Eligible | src/pages/Discover.tsx:56-59 | the listed profiles are, in query order, exactly those with at least seven filled fields |
| Discover.FetchUsers | src/pages/Discover.tsx:50-64 | a failed query keeps the previous list |
| Discover.Search | src/pages/Discover.tsx:67-76 | an in-order subsequence holding exactly the users whose name, skills or location contains the query, ignoring case |
| Discover.EmptyQueryKeepsAll | src/pages/Discover.tsx:67-76 | an empty query keeps every user |
| Discover.SearchIgnoresCase | src/pages/Discover.tsx:72-74 | upper- or lower-casing the query changes nothing |
| Discover.DisplayName | src/pages/Discover.tsx:174 | the card shows the full name when it is non-empty and "Anonymous" when it is empty, which is exactly when both names are missing or blank |
| Discover.DisplayNameFallback | src/pages/Discover.tsx:174 | a profile without names shows "Anonymous"; a first name alone shows just that name |
| UserCard.Initials | src/components/user/UserCard.tsx:29-33 | one upper-cased letter per word of the name (a non-empty space-separated part), in order: the i-th initial is the upper-cased first letter of the i-th word |
| UserCard.InitialsOfWords | src/components/user/UserCard.tsx:29-33 | words joined by single spaces give exactly one initial per word, in order |
| UserCard.InitialsOfFullName | src/components/user/UserCard.tsx:29-33 | "first last" gives the two upper-cased first letters |
| UserCard.Firsts | src/components/user/UserCard.tsx:31 | one character per non-empty part, in order, each the first character of that part: one per part when no part is empty, none when every part is empty |
| UserCard.LeadingSpaceIgnored | src/components/user/UserCard.tsx:29-33 | an extra leading space adds an empty part and no initial |
| UserCard.Render | src/components/user/UserCard.tsx:29-66 | at most four skills, shown in order, with a counter exactly when there are more; the location line only for a non-empty location; the badge only for a present non-zero score |
| Forms.Errors | src/pages/Profile.tsx:37-48 | the messages of exactly the failing rules: none exactly when every rule holds, and each one is a failing rule's message |
| Forms.FailingRuleReported | src/pages/CreateProject.tsx:17-22 | every failing rule's message is reported |
| Forms.Submit | src/pages/CreateProject.tsx:42-50 | failing rules stop the submit with their messages; valid values without a user stop there; saving needs both |
| ProfilePage.AddSkill | src/pages/Profile.tsx:115-120 | the trimmed input is appended and the box cleared when it is non-empty and new; otherwise nothing changes; a valid list stays valid |
| ProfilePage.AppendKeepsValid | src/pages/Profile.tsx:116-117 | appending a clean, new entry keeps the list free of duplicates and blanks |
| ProfilePage.RemoveSkill | src/pages/Profile.tsx:122-124 | every entry equal to the argument is removed, the rest stay in order, and validity is kept |
| ProfilePage.KeyDown | src/pages/Profile.tsx:126-131 | Enter with non-blank input adds the skill and prevents the default; any other key changes nothing |
| ProfilePage.AddThenRemove | src/pages/Profile.tsx:115-124 | removing the skill just added restores the previous list |
| ProfilePage.RulesMeaning | src/pages/Profile.tsx:37-48 | the form passes exactly when first and last name have at least 2 characters, the title at least 3 and the bio at least 20 |
| CreateProject.RulesMeaning | src/pages/CreateProject.tsx:17-22 | the form passes exactly when the title has at least 5 characters, the description at least 20, and the category and stage are non-empty |
| CreateProject.DefaultsRefused | src/pages/CreateProject.tsx:32-40 | the untouched form is refused with all four messages, in order |
| CreateProject.SignedOutStopped | src/pages/CreateProject.tsx:42-50 | valid values from a signed-out visitor are stopped before anything is saved |
| CreateProject.ChoicesSatisfyStageRule | src/pages/CreateProject.tsx:160-163 | every offered stage satisfies the stage rule and has its own colour |
| ProjectsPage.Listed | src/pages/Projects.tsx:108-111 | "all" lists every project; any other stage lists, in order, exactly the projects with that exact stage |
| ProjectsPage.QueryIgnored | src/pages/Projects.tsx:104-111 | the search text does not change the list |
| ProjectsPage.SamplesByStage | src/pages/Projects.tsx:13-111 | on the page's six sample projects, "prototype" lists proj1 and proj4 |
| ProjectsPage.ListedOfSix | src/pages/Projects.tsx:108-111 | of six listings where only the first and the fourth have the chosen stage, exactly those two are listed, in order |
| ProjectsPage.SamplesCaseSensitive | src/pages/Projects.tsx:110 | the stage must match exactly: "Prototype" lists nothing |
| ProjectsPage.SamplesCounters | src/components/project/ProjectCard.tsx:118-157 | on the sample data every card shows four tags and "+1 more", and only proj4 shows a member counter |
| ProjectView.MemberName | src/hooks/useProjectView.ts:63-64 | the member's name is the trimmed "first last", or "Anonymous User" when it is blank |
| ProjectView.Members | src/hooks/useProjectView.ts:59-70 | one "Project Owner" entry for the creator, with no avatar, when the creator's profile is found; otherwise none |
| ProjectView.Fetch | src/hooks/useProjectView.ts:36-88 | without a route id the project is unchanged; a failed or empty query gives null; loading always ends false |
| ProjectView.IsOwner | src/hooks/useProjectView.ts:90 | true exactly when a user and a project are both present and the user created the project |
| ProjectView.MembersAreOwners | src/hooks/useProjectView.ts:57-71 | every listed member of a loaded project is its owner |
| ProjectView.AnonymousOwner | src/hooks/useProjectView.ts:63-64 | a creator profile with no names is listed as "Anonymous User" |
| ApplyButton.VisibleUnlessOwner | src/components/project/ProjectApplyButton.tsx:26-34 | the button shows exactly to signed-in visitors who do not own the loaded project |
| ApplyButton.SendAsWritten | src/components/project/ProjectApplyButton.tsx:52-83 | success appends one chat message and closes the dialog but keeps the draft; failure stores nothing and keeps the dialog; sending always ends false |
| ApplyButton.Send | src/components/project/ProjectApplyButton.tsx:52-83 | the same send, except that success closes the dialog through its clearing handler, so the dialog ends closed with an empty draft; success appends the message with the project's id, the visitor as sender and the text as content |
| ApplyButton.Reopen | src/components/project/ProjectApplyButton.tsx:89 | opening the dialog again keeps whatever draft it holds |
| ApplyButton.Contact | src/components/project/DirectMessageModal.tsx:32-38 | the corrected flow: a blank draft sends nothing; otherwise the draft is stored as typed, untrimmed, through the send that clears the draft on success |
| ApplyButton.ContactAsWritten | src/components/project/DirectMessageModal.tsx:32-38 | the program's flow: a blank draft sends nothing; otherwise the draft is stored as typed, untrimmed, and the dialog keeps the draft whatever the outcome |
| ApplyButton.StaleDraftAsWritten | src/components/project/ProjectApplyButton.tsx:73 | after a successful send of any non-blank draft, the message is stored and opening the dialog again shows that same draft; sending "Hello" leaves "Hello" in the box |
| ApplyButton.DraftClearedAfterSend | src/components/project/DirectMessageModal.tsx:36 | with the corrected send, the dialog opens empty after any successful send |
| ApplyButton.FailedSendKeepsDraft | src/components/project/ProjectApplyButton.tsx:74-80 | a failed send keeps the dialog open with its draft and stores nothing, in the program's flow and the corrected one alike |
| DirectMessage.Submit | src/components/project/DirectMessageModal.tsx:32-38 | `onSubmit` is called exactly for a non-blank draft, with the draft untrimmed, and the draft is not cleared |
| DirectMessage.OpenChange | src/components/project/DirectMessageModal.tsx:41-46 | closing clears the draft; opening keeps it |
| DirectMessage.ButtonMatchesHandler | src/components/project/DirectMessageModal.tsx:69-86 | when not sending, the send button is enabled exactly when the submit handler would send; a draft of spaces shows no hint but cannot be sent |
| ProjectDetails.RolesShown | src/components/project/ProjectDetails.tsx:107-121 | a missing or empty roles list shows the "No specific roles listed" placeholder, the two cases alike; otherwise every role is shown |
| ProjectDetails.TagsShown | src/components/project/ProjectDetails.tsx:91-96 | tags are shown only when the list is present |
| ProjectDetails.Render | src/components/project/ProjectDetails.tsx:59-63 | the overview uses the card's stage colour and label, and shows the category only when it is non-empty |
| Workflow.AcceptByLink | src/pages/ApplicationsRespond.tsx:65-87 | the link's page accepts a pending application, stamps it and posts no chat message |
| Workflow.AcceptByFunction | supabase/functions/respond-to-application/index.ts:79-83 | the function accepts and stamps; it posts no message and sends no e-mail |
| Workflow.AcceptByChatInit | supabase/functions/project-chat-init/index.ts:81-110 | the chat function posts the welcome message and accepts without stamping |
| Workflow.AcceptByPanel | src/components/project/PendingApplications.tsx:19-46 | the panel posts the welcome message and accepts without stamping or e-mailing |
| Workflow.AcceptByNotifications | src/hooks/useProjectNotifications.ts:172-175 | the notifications list accepts and stamps; it posts no message and sends no e-mail |
| Workflow.RejectPaths | src/components/project/PendingApplications.tsx:63-72 | every reject path ends rejected with no chat message; the page, the function and the list stamp `updated_at`, the panel does not |
| Workflow.OnlyPageEmails | src/pages/ApplicationsRespond.tsx:77-85 | the page sends the applicant one e-mail with the "accepted" subject when the applicant has an address |
| Workflow.EmailedLinkAccepts | supabase/functions/send-project-application-email/index.ts:50 | following the e-mailed accept link to the page accepts the pending application |
| Workflow.SecondClick | src/pages/ApplicationsRespond.tsx:49-53 | a second click on the page changes nothing, but the function overwrites the earlier decision |

## Left out

- Realtime refresh: the change-feed subscription that refetches the notifications list is event-driven, so it is not modelled.
- HTML bodies of the e-mails and of the function's confirmation page are left out. Only subjects, recipients, links and the greeting name are kept.
- Delivery by the e-mail API: a send is an appended outbox record. The API's own failures and answers are not modelled.
- Toasts, navigation, `setTimeout` redirects and console logging are UI side effects and are left out.
- Dates and locale formatting are left out; `updated_at` is an opaque `now`.
- Concurrency is left out: races between the dashboard and an e-mailed link, and state updates after unmount. Each handler is one atomic transition.
- `Text.Lower`, `Text.Upper`: case mapping covers ASCII letters only. JavaScript maps all of Unicode.
- String lengths count Dafny characters, not JavaScript's UTF-16 code units.
- `Url.Param` does not percent-decode or plus-decode and does not stop at a fragment. `ApplicationEmail.LinkRoundTrip` therefore requires ids free of '&', '#', '%' and '+', and a base URL without '?', because a query already in the base would come before the link's own.
- ProjectCard.HandleApply: treats the `applicant_id` column as required, so an insert without a signed-in user fails. The table's schema is not part of this model.
- The URL regular expressions of the profile form are left out, along with the form library's internals; only the length rules are modelled.
- `ProjectCard.ShowsMatch` and `UserCard.Render`: a NaN match score is not modelled.
- React's rendering of a `0` score as the text "0" is not modelled either; the badge is simply not shown.
- Fields missing from the JSON body of `send-project-application-email` are strings in the model. JavaScript would write them as "undefined".
- Saving the profile and creating a project stop at the `Saved` outcome. Past the guards, the source only simulates the save.
- `src/pages/ProjectView.tsx` reads fields the hook never returns, so it is not part of this model. Only `useProjectView` is modelled.
- Member avatars on the project card, which show a name's first letter, are not modelled.
- The text of the "+N more" and "+N" counters is left out; only the number N is modelled.

## Findings

| source | as written | input that shows it | evidently intended | confidence | as-written member | corrected member |
|---|---|---|---|---|---|---|
| src/components/project/ProjectApplyButton.tsx:73 | a successful send closes the dialog by setting `showModal` directly, bypassing the dialog's clearing handler, so the draft survives | send "Hello", then press "Contact Project Owner" again: the box still holds "Hello" | the draft is cleared once the send succeeds, as the dialog's comment at src/components/project/DirectMessageModal.tsx:36 says | medium, not executed | ApplyButton.SendAsWritten, ApplyButton.ContactAsWritten, ApplyButton.StaleDraftAsWritten | ApplyButton.Send, ApplyButton.Contact, ApplyButton.DraftClearedAfterSend |
