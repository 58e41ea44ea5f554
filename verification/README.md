# fullstack-portfolio, modelled in Dafny

A model of the logic of a Next.js portfolio site that stores its content in MongoDB:

- **Tenant template store.** Each logged-in user has one record keyed by `userId`, holding a template choice. GET creates the record on first access; POST upserts it.
- **Site profile store.** The single site profile is read as "newest document" and written as "update the first one found, else create".
- **Admin editors.** The dialogs for experience, education, projects, skills and social links each have their own rules:
  - client-side validation;
  - the JSON body a submit sends (the comma-separated technologies field is split and trimmed, and a current position drops its end date);
  - the values an edit prefills (dates cut at `T`, missing optional fields become `''`);
  - PUT or POST.
- **Public pages and portfolio templates.** These cover:
  - featured and other projects;
  - status badges;
  - "first k chips, then +N";
  - skills grouped by category in first-appearance order;
  - the Present/end-date label;
  - how many projects a template shows;
  - the placeholder text shown when the profile is missing or a field is empty.

The mongoose schemas are modelled as save functions. A save succeeds exactly when the required paths are present and non-empty, and it fills in the schema defaults.

The stores are immutable values:

- The tenant store is a `map` from `userId` to record. Both unique indexes, on `userId` and on `username`, are enforced by refusing a write that would duplicate either.
- The profile collection is a `seq` in natural order.

Every request is a total function returning a response and the new store. A boolean `available` stands for any other driver failure: the handler answers 500 and nothing is written. Sessions are `Option`s.

Library behaviour is passed in as a function parameter:

- zod's URL check (`isUrl`);
- date formatting (`format`);
- `getFullYear` (`yearOf`), and the local year of the epoch (`epochYear`).

Modules follow the source files. `Text` holds the JavaScript string primitives (`split`, `join`, `trim`, `toLowerCase`). `Forms` holds what the admin dialogs share, and `Display` holds what the public pages share.

## Model

| member | source | states |
|---|---|---|
| Text.ParseList | app/admin/experience/page.tsx:87 | one entry per comma plus one, entry i being the i-th comma-separated piece trimmed, so each is comma-free and trimmed |
| Text.ParseJoinList | app/admin/projects/page.tsx:122-158 | parsing the `join(', ')` of a non-empty list of comma-free trimmed items returns the list |
| Text.ToLower | app/admin/social-links/page.tsx:140 | lower-casing keeps the length and folds exactly the ASCII capitals |
| Models.CastDate | models/Experience.ts:7 | a date key left out stays absent, "" is cast to null, any other text is stored as the date |
| Models.SaveSkill | models/Skill.ts:3-8 | a skill saves iff name, category and icon are non-empty and 1 <= proficiency <= 100, and is stored unchanged |
| Models.SaveProject | models/Project.ts:3-13 | a project saves iff title, description, detailedContent and image are non-empty and the status, if given, is in the enum; a given status and the text fields are kept; featured defaults to false and status to completed |
| Models.SaveExperience | models/Experience.ts:3-11 | saves iff company, role, startDate and description are non-empty; current defaults to false; endDate is cast (absent stays absent, "" becomes null); endDate and current are not related |
| Models.UpdateExperience | app/admin/experience/page.tsx:91-99 | the PUT of an edit, applied by `findByIdAndUpdate`, replaces every field the body carries, keeps every field it leaves out (endDate, current, location), casts a sent endDate, and checks nothing |
| Models.SaveEducation | models/Education.ts:3-11 | saves iff school, degree, field and startDate are non-empty, and stores them as sent; current defaults to false; endDate is cast; gpa and description pass through as free text |
| Models.UpdateEducation | app/admin/education/page.tsx:90-98 | the PUT of an edit, applied by `findByIdAndUpdate`, replaces what the body carries, keeps endDate, current, description and gpa when left out, and checks nothing |
| Models.SaveSocialLink | models/SocialLink.ts:3-7 | saves iff platform, url and icon are non-empty; order defaults to 0 |
| Models.UpdateSocialLink | app/admin/social-links/page.tsx:83-92 | the PUT of an edit, applied by `findByIdAndUpdate`, replaces platform, url and icon, keeps the order when left out, and checks nothing |
| Models.InsertDefaults | models/UserProfile.ts:3-23 | a record inserted by upsert has template developer, all three layout flags false, no colours and no keywords |
| Models.SchemaAcceptsCurrentWithEndDate | models/Experience.ts:7-8 | every current experience sent with a non-empty end date and the required fields saves with both |
| Models.EducationSchemaAcceptsCurrentWithEndDate | models/Education.ts:8-9 | every current education entry sent with a non-empty end date and the required fields saves with both |
| UserProfileStore.DefaultUsername | app/api/user-profile/route.ts:22 | the username is the non-empty email text before the first '@', else "user"; it never contains '@' |
| UserProfileStore.DefaultRecord | app/api/user-profile/route.ts:19-40 | the first-access record: developer template, the three default colours, layout flags false, the default SEO title and description, no keywords |
| UserProfileStore.Get | app/api/user-profile/route.ts:7-50 | no session gives Unauthorized with the store unchanged; with the store available it succeeds iff the caller has a record or the default username is free; an existing record is returned with no write; otherwise exactly one default record is added under the caller's id; uniqueness is preserved |
| UserProfileStore.GetIsIdempotent | app/api/user-profile/route.ts:15-46 | a second GET after a successful one returns the same record and writes nothing |
| UserProfileStore.SharedLocalPartBlocksSecondDefault | models/UserProfile.ts:6 | two users whose emails share the local part cannot both get a default record: the second GET fails on the username index |
| UserProfileStore.Overlay | app/api/user-profile/route.ts:64-67 | each submitted top-level field replaces the old one; a body userId replaces the caller's |
| UserProfileStore.Post | app/api/user-profile/route.ts:52-79 | no session gives Unauthorized; with the store available it succeeds iff the target key is the caller's or unused and the resulting username is held by no other record; on success the record is filed under the body's userId or the caller's, the caller's old key goes, no other record changes, the template falls back to the stored or default one, and uniqueness is preserved; on failure nothing changes |
| UserProfileStore.BodyUserIdWins | app/api/user-profile/route.ts:64-67 | a body userId different from the caller's moves the record away from the caller's key |
| UserProfileStore.PostStoresAnyTemplateId | models/UserProfile.ts:5 | any template id, registered or not, is stored as submitted |
| UserProfileStore.Resolve | models/UserProfile.ts:6 | with usernames unique, a public lookup by username finds a record iff some record has that username, and returns that record |
| UserProfileStore.ResolveFindsHolder | models/UserProfile.ts:6 | in a store with unique usernames, a username resolves to exactly the record holding it |
| UserProfileStore.GetThenResolve | app/api/user-profile/route.ts:15-46 | after a successful GET, the caller's username (the default one for a new record) resolves to the record GET returned |
| UserProfileStore.PostThenResolve | app/api/user-profile/route.ts:62-72 | after a successful POST that sets a username, that username resolves to the saved record |
| ProfileStore.Newest | app/api/profile/route.ts:10 | the chosen document is in the collection and no document is newer |
| ProfileStore.Get | app/api/profile/route.ts:7-15 | null exactly for an empty collection, otherwise a newest document; a failure is reported as such |
| ProfileStore.Create | models/Profile.ts:3-13 | a new profile saves iff the six required fields are present and non-empty; it is exactly those six fields with the optional resumeUrl, stamped with the current time |
| ProfileStore.Update | app/api/profile/route.ts:31-35 | submitted fields replace the stored ones unvalidated; the creation time is kept |
| ProfileStore.Post | app/api/profile/route.ts:17-45 | no session gives Unauthorized and no change; with a document present the first one is updated in place and the count is kept; on an empty collection it saves iff the profile can be created, and the saved document is the created one; on failure nothing changes |
| ProfileStore.PostWithoutSessionIsNoOp | app/api/profile/route.ts:18-21 | a POST without a session changes nothing and answers Unauthorized |
| ProfileStore.PostCount | app/api/profile/route.ts:28-41 | one POST keeps a non-zero count and takes zero to at most one |
| ProfileStore.ReplayKeepsAtMostOne | app/api/profile/route.ts:28-41 | from at most one profile, any sequence of POSTs leaves at most one |
| ProfileStore.ReplayKeepsCount | app/api/profile/route.ts:28-41 | once a profile exists, no sequence of POSTs changes the count |
| ProfileStore.SingletonReadsWhatPostWrites | app/api/profile/route.ts:10-28 | with one document, GET returns the document POST just wrote |
| ProfileStore.OlderFirstDocumentHidesPost | app/api/profile/route.ts:10-35 | when the first document is older than the second, POST updates it while GET answers exactly as before, a document other than the one saved |
| Forms.Target | app/admin/experience/page.tsx:91-92 | a save is a PUT exactly when a record is being edited, to a path under the collection endpoint |
| Forms.TargetIdentifiesRecord | app/admin/experience/page.tsx:91-92 | the request's verb and path identify the edited record, and a new record is never sent as an edit |
| Forms.OtherCollectionSeesNoEdit | app/admin/experience/page.tsx:91-92 | for collection names without '/', a request about one collection never reads as an edit of another |
| Forms.EditorsStayInTheirCollection | app/admin/social-links/page.tsx:84-85 | each of the five editors (experience, education, projects, skills, social-links) addresses only its own collection, and its edits name the edited record |
| Forms.DatePart | app/admin/experience/page.tsx:122-123 | the prefilled date is the longest prefix of the stored timestamp without a 'T' |
| Forms.DatePartOfDateTime | app/admin/experience/page.tsx:122-123 | a timestamp `date + "T" + time` with a 'T'-free date prefills exactly the date |
| Forms.TechList | app/admin/experience/page.tsx:87 | absent or empty technologies give []; otherwise one entry per comma plus one, entry i being the i-th piece trimmed |
| Forms.TechListRoundTrip | app/admin/experience/page.tsx:87-127 | for non-empty, comma-free, trimmed items, parsing the edit prefill returns the list, including [] |
| AdminExperience.Valid | app/admin/experience/page.tsx:17-26 | the zod schema: company and role of at least two characters, a start date, a description of at least ten |
| AdminExperience.Payload | app/admin/experience/page.tsx:85-89 | a current job sends no end date, otherwise the form's; the other fields pass through; technologies are the trimmed comma-separated pieces, or [] when blank |
| AdminExperience.Submit | app/admin/experience/page.tsx:82-99 | a new experience is created iff its required fields are non-empty; an edit always stores; ticking current drops the end date of a new record but keeps the stored one on an edit |
| AdminExperience.ValidFormSaves | app/admin/experience/page.tsx:18-27 | every new form passing the client rules is created, and a current job is created without an end date even if one was typed |
| AdminExperience.ApiKeepsCurrentWithEndDate | app/api/experience/route.ts:25-27 | a body that bypasses the form may store a current job with an end date |
| AdminExperience.EditToCurrentKeepsEndDate | app/admin/experience/page.tsx:88 | editing a past role into the current one stores a current record that still has its old end date |
| AdminExperience.Prefill | app/admin/experience/page.tsx:118-129 | dates are cut at 'T', a null or missing end date or location becomes '', and technologies re-parse to the stored list |
| AdminExperience.EditRoundTrip | app/admin/experience/page.tsx:118-127 | opening a stored experience and saving the edit unchanged keeps the record, up to the time part of dates, '' for a missing location, and a null end date for a past role without a usable one |
| AdminEducation.Valid | app/admin/education/page.tsx:17-26 | the zod schema: school, degree and field of at least two characters and a start date; description and gpa free |
| AdminEducation.Payload | app/admin/education/page.tsx:85-88 | an ongoing course sends no end date; gpa, description and the other fields pass through |
| AdminEducation.Submit | app/admin/education/page.tsx:82-98 | a new entry is created iff its required fields are non-empty; an edit always stores; ticking current drops the end date of a new entry but keeps the stored one on an edit |
| AdminEducation.ValidFormSaves | app/admin/education/page.tsx:18-27 | every new form passing the client rules is created, an ongoing course without an end date, with the gpa text unchanged |
| AdminEducation.EditToCurrentKeepsEndDate | app/admin/education/page.tsx:87 | editing a finished course into an ongoing one keeps its old end date |
| AdminEducation.Prefill | app/admin/education/page.tsx:117-128 | dates are cut at 'T'; a null or missing end date, description or gpa becomes '' |
| AdminEducation.EditRoundTrip | app/admin/education/page.tsx:117-127 | opening a stored entry and saving the edit unchanged keeps the entry, up to dates, '' for missing text, and a null end date for a finished course without a usable one |
| AdminProjects.Valid | app/admin/projects/page.tsx:20-30 | the zod schema: minimum lengths 2, 10 and 20, an image URL, some technologies text, optional or empty links, a status from the enum |
| AdminProjects.FormDefaultsMatchSchema | app/admin/projects/page.tsx:64-67 | sending the form's defaults (not featured, completed) saves the same project as leaving them out |
| AdminProjects.Payload | app/admin/projects/page.tsx:120-123 | technologies are always split, so the body has at least one entry, entry i being the i-th comma-separated piece trimmed; the other fields pass through |
| AdminProjects.ValidFormSaves | app/admin/projects/page.tsx:20-30 | every form passing the client rules saves, with its chosen status and featured flag |
| AdminProjects.Prefill | app/admin/projects/page.tsx:152-164 | a missing link becomes ''; other fields are copied; technologies re-parse to the stored list |
| AdminProjects.EditRoundTrip | app/admin/projects/page.tsx:152-164 | opening a stored project and saving it unchanged sends the project back, with a missing link as '' |
| AdminSkills.Valid | app/admin/skills/page.tsx:18-23 | the zod schema: a name of at least two characters, a category, a proficiency in 1..100, an icon |
| AdminSkills.Payload | app/admin/skills/page.tsx:85-96 | the body a submit sends is the form, field for field, and the schema accepts it iff name, category and icon are non-empty and the proficiency is in 1..100 |
| AdminSkills.SliderRangeIsSchemaRange | app/admin/skills/page.tsx:240-245 | a proficiency is within the slider's range iff the schema accepts it |
| AdminSkills.ValidFormSaves | app/admin/skills/page.tsx:18-23 | every form passing the client rules saves unchanged |
| AdminSkills.SchemaAcceptsOneLetterName | app/admin/skills/page.tsx:19 | every skill with a one-letter name and otherwise acceptable fields is saved by the schema but refused by the form |
| AdminSkills.NewSkill | app/admin/skills/page.tsx:143-152 | a new skill starts blank with proficiency inside the slider's range, and cannot be submitted as is |
| AdminSkills.CategoriesAreDistinctAndValid | app/admin/skills/page.tsx:35-44 | eight distinct categories, each acceptable to the form |
| AdminSkills.Prefill | app/admin/skills/page.tsx:115-122 | the edit dialog sends the stored skill back unchanged |
| AdminSkills.EditRoundTrip | app/admin/skills/page.tsx:115-122 | the edit dialog sends the stored skill back unchanged; it can be submitted iff the name has at least two characters, and the schema would accept it again |
| AdminSocialLinks.Valid | app/admin/social-links/page.tsx:17-22 | the zod schema: a platform of at least two characters, a URL, an icon, an order of at least 0 |
| AdminSocialLinks.Payload | app/admin/social-links/page.tsx:81-92 | the body carries the form's platform, url and icon and always an order, so the schema accepts it iff the three texts are non-empty |
| AdminSocialLinks.FormOrderMatchesSchema | app/admin/social-links/page.tsx:58-62 | the form's default order is the schema's default |
| AdminSocialLinks.ValidFormSaves | app/admin/social-links/page.tsx:17-22 | every form passing the client rules saves unchanged |
| AdminSocialLinks.Submit | app/admin/social-links/page.tsx:81-92 | a new link is created iff platform, url and icon are non-empty; an edit always stores; either way the stored link is the form's |
| AdminSocialLinks.Find | app/admin/social-links/page.tsx:202 | a platform is found iff the table has that name, and the row found is the first with it |
| AdminSocialLinks.ChoosePlatform | app/admin/social-links/page.tsx:200-205 | choosing a platform sets it, sets the icon from the table when the name is known, and otherwise keeps the icon |
| AdminSocialLinks.PickedPlatformIsValid | app/admin/social-links/page.tsx:34-42 | a platform picked from the table satisfies the platform and icon rules |
| AdminSocialLinks.GetIcon | app/admin/social-links/page.tsx:139-151 | github, linkedin, and mail or email get their glyph after lower-casing; anything else gets the external-link glyph |
| AdminSocialLinks.GetIconIgnoresCase | app/admin/social-links/page.tsx:140 | the icon does not depend on letter case |
| AdminSocialLinks.TableIconsRender | app/admin/social-links/page.tsx:34-42 | of the table's icons, github, linkedin and mail have their own glyph and the other four fall back |
| AdminSocialLinks.Prefill | app/admin/social-links/page.tsx:111-118 | saving the edit dialog unchanged stores the link back as it was; posting it as new succeeds exactly when its required fields are non-empty |
| TemplateSelection.Ids | app/template-selection/page.tsx:29-90 | the ids of the registry, in order |
| TemplateSelection.RegistryShape | app/template-selection/page.tsx:29-90 | four templates, ids developer, designer, finance and professional, pairwise distinct, the default among them |
| TemplateSelection.DeveloperSchemeIsServerDefault | app/template-selection/page.tsx:36-40 | the developer card's colours are those a new record is given |
| TemplateSelection.Load | app/template-selection/page.tsx:106-118 | a successful fetch sets current and selected to the stored template, or developer when it is missing or empty; a failed one changes nothing |
| TemplateSelection.Pick | app/template-selection/page.tsx:212 | clicking a card selects its template and leaves the current one as it was |
| TemplateSelection.AnswerOf | app/template-selection/page.tsx:109-113 | the page reads a template exactly when the GET succeeds |
| TemplateSelection.ButtonLabel | app/template-selection/page.tsx:333 | "Continue with Current" exactly when the selection equals the current template, else "Select Template" |
| TemplateSelection.LoadedPageContinues | app/template-selection/page.tsx:112-113 | right after loading, the button offers to continue |
| TemplateSelection.Submit | app/template-selection/page.tsx:125-138 | nothing is sent without a selection; otherwise the body carries the selection and the derived username and nothing else |
| TemplateSelection.InitialSubmitSendsNothing | app/template-selection/page.tsx:95-126 | before loading, submitting sends nothing |
| TemplateSelection.SavedSelectionReloads | app/template-selection/page.tsx:125-138 | after a successful save, the next GET returns the record and the page shows the chosen template as current |
| Display.Filter | app/projects/page.tsx:77-78 | the kept elements are exactly the input elements passing the test |
| Display.FilterAppend | app/projects/page.tsx:77-78 | filtering distributes over concatenation, so input order is kept |
| Display.FilterSplitsInput | app/projects/page.tsx:77-78 | a filter and its complement together are a permutation of the input |
| Display.Take | components/templates/DeveloperTemplate.tsx:311 | a prefix of length min(len, n) |
| Display.ChipRow | app/projects/page.tsx:184-196 | the first min(len, k) chips, and a "+N" count exactly when len > k, with shown plus hidden equal to len |
| Display.ChipRowAccountsForAll | app/projects/page.tsx:184-196 | the shown chips followed by the hidden ones are the whole list |
| Display.AddSkill | app/skills/page.tsx:66-73 | one reduce step adds the skill to its category's group, or opens a new group at the end, and the total grows by one |
| Display.GroupByCategory | app/skills/page.tsx:66-73 | each group holds exactly its category's skills in input order, keys are distinct, no group is empty, no category is missing, sizes sum to the input length |
| Display.GroupLookup | app/skills/page.tsx:66-73 | looking up a category gives exactly the skills of that category, so every skill is in its own group |
| Display.OrElse | components/templates/DeveloperTemplate.tsx:95 | a present non-empty value is shown, else the literal |
| Display.ProfileText | components/templates/DeveloperTemplate.tsx:108 | a profile field is shown when the profile exists and the field is non-empty, else the placeholder |
| ProjectsPage.StatusBadge | app/projects/page.tsx:24-44 | completed is green, in-progress is yellow, anything else is blue |
| ProjectsPage.BadgeColorMatchesIcon | app/projects/page.tsx:24-44 | the colour and icon switches agree; planned looks like any unknown status |
| ProjectsPage.Cards | app/projects/page.tsx:184-196 | one card per project with its badge and chip row |
| ProjectsPage.Render | app/projects/page.tsx:77-330 | each section shows iff it has cards, the empty message iff there are no projects; featured cards hold featured projects and show the first four chips then "+N", other cards the first three then "+N", each with its status badge |
| ProjectsPage.Projects | app/projects/page.tsx:77-78 | the projects behind a list of cards, in order |
| ProjectsPage.SectionsPartitionProjects | app/projects/page.tsx:77-78 | the two sections are the two filters and together a permutation of the fetched projects |
| ProjectsPage.EmptyMessageIffNoSection | app/projects/page.tsx:105-330 | the empty message shows exactly when neither section does |
| ProjectsPage.AppendedProjectGoesLast | app/projects/page.tsx:77-78 | a project appended to the list appears last in its own section and nowhere else |
| SkillsPage.IconFor | app/skills/page.tsx:17-32 | frontend, backend, mobile, devops and design get their icons after lower-casing; anything else gets Code |
| SkillsPage.IconIgnoresCase | app/skills/page.tsx:18 | the icon does not depend on letter case |
| SkillsPage.Sections | app/skills/page.tsx:102 | one section per group, with its icon |
| SkillsPage.Render | app/skills/page.tsx:66-175 | the empty message shows iff there are no sections iff there are no skills; sections are non-empty with distinct categories |
| SkillsPage.SectionHoldsItsCategory | app/skills/page.tsx:66-73 | a section holds exactly the skills of its category, in fetched order |
| SkillsPage.SectionSizesSum | app/skills/page.tsx:66-73 | section sizes add up to the number of skills, so there are no more sections than skills |
| ExperiencePage.EndOf | app/experience/page.tsx:121-122 | Present while current; otherwise the formatted end date when one is stored, and Present for a null or missing one |
| ExperiencePage.CurrentIgnoresEndDate | app/experience/page.tsx:122 | a current entry reads Present whatever end date is stored |
| ExperiencePage.MissingEndReadsPresent | app/experience/page.tsx:122 | a saved past entry whose end date was sent blank or left out reads Present |
| ExperiencePage.RenderExperience | app/experience/page.tsx:117-150 | the location line shows iff the location is non-empty; the chips show iff there are technologies |
| ExperiencePage.RenderEducation | app/experience/page.tsx:167-188 | the GPA line and the description show iff the field is non-empty |
| ExperiencePage.ExperienceTab | app/experience/page.tsx:234-251 | the empty message shows iff there are no experiences, else one card each in order |
| ExperiencePage.EducationTab | app/experience/page.tsx:255-272 | the empty message shows iff there is no education, else one card each in order |
| DeveloperTemplate.RenderHero | components/templates/DeveloperTemplate.tsx:95-168 | a missing profile shows the four text placeholders, the stock portrait and no resume button; each non-empty field is shown and each empty one falls back to its placeholder, the alt text repeating the name or reading "Profile"; the resume button shows iff resumeUrl is non-empty |
| DeveloperTemplate.BlankedNameShowsPlaceholder | components/templates/DeveloperTemplate.tsx:108 | a profile whose name was blanked shows "Developer" |
| DeveloperTemplate.IconFor | components/templates/DeveloperTemplate.tsx:46-57 | only frontend, backend and mobile get their icons, case-insensitively |
| DeveloperTemplate.IconsDifferOnlyOnDevopsAndDesign | components/templates/DeveloperTemplate.tsx:46-57 | the template's icon and the skills page's differ exactly for devops and design |
| DeveloperTemplate.RenderCard | components/templates/DeveloperTemplate.tsx:331-372 | four chips then "+N more"; the code and live buttons show iff the URL is non-empty |
| DeveloperTemplate.Render | components/templates/DeveloperTemplate.tsx:59-311 | skills grouped as on the skills page; min(len, 4) project cards, in order |
| DeveloperTemplate.FirstFourProjects | components/templates/DeveloperTemplate.tsx:311 | the cards are the first four projects in fetched order |
| DeveloperTemplate.SameGroupsAsSkillsPage | components/templates/DeveloperTemplate.tsx:59-66 | the template's groups are the skills page's sections |
| Display.RenderPortraitHero | components/templates/DesignerTemplate.tsx:60-134 | each hero field shows the profile's value when the profile exists and the field is non-empty, else the template's placeholder; a missing profile shows exactly the placeholders; the portrait's alt text repeats the name when there is one |
| DesignerTemplate.RenderCard | components/templates/DesignerTemplate.tsx:219-252 | at most three chips with no overflow badge; the live button iff liveUrl is non-empty |
| DesignerTemplate.ExtraChipsVanish | components/templates/DesignerTemplate.tsx:245-252 | beyond three technologies the card shows what the projects page's other-card row shows, without its "+N" |
| DesignerTemplate.Render | components/templates/DesignerTemplate.tsx:60-281 | the hero uses the designer placeholders (Creative Designer, alt Designer, the stock portrait); min(len, 6) project cards in order; skills listed ungrouped in fetched order |
| FinanceTemplate.YearEndAsWritten | components/templates/FinanceTemplate.tsx:339 | Present iff current; otherwise the stored date's year, the epoch's year for a null end date, and NaN iff the end date is absent |
| FinanceTemplate.BadgeDisagreesWithTimeline | components/templates/FinanceTemplate.tsx:339 | the badge and the experience page agree on whether a position has ended iff it is current or has a stored end date |
| FinanceTemplate.PastPositionWithBlankEndShowsEpochYear | components/templates/FinanceTemplate.tsx:338-339 | a valid admin form for a past job with a blank end date stores a null end date; the badge shows the epoch's year while the timeline reads Present |
| FinanceTemplate.AbsentEndShowsNaN | components/templates/FinanceTemplate.tsx:338-339 | a past job whose body left the end date out reads NaN |
| FinanceTemplate.YearEnd | components/templates/FinanceTemplate.tsx:338-339 | the corrected end never reads NaN; it is a year exactly for a finished entry with an end date |
| FinanceTemplate.YearEndAgreesWithTimeline | components/templates/FinanceTemplate.tsx:338-339 | the corrected end reads Present exactly when the experience page's label does, and otherwise matches the original |
| FinanceTemplate.RenderCard | components/templates/FinanceTemplate.tsx:331-359 | the badge shows the start year and the as-written end; the location shows iff non-empty; the chips show iff there are technologies |
| FinanceTemplate.Render | components/templates/FinanceTemplate.tsx:42-180 | the hero uses the finance placeholders (Financial Expert, alt Financial Professional, the stock portrait); four services, four certifications, six industries; one card per experience in order, reading Present exactly for current ones |
| FinanceTemplate.IgnoresUserProfile | components/templates/FinanceTemplate.tsx:15 | the page is the same whatever tenant record it is given |

## Left out

- Rendering is not modelled: JSX, animation, styling and images. Icons and colours are enum tags.
- Side effects are not modelled: `fetch`, React state and effects, toasts, confirmation dialogs, navigation, and the image upload handlers. A page is a function of the data it fetched.
- The list and delete routes for experience, education, projects, skills and social links, and their sort orders, are not modelled. A create is modelled by the `Models.Save*` functions and an edit of an experience, education entry or social link by the `Models.Update*` functions.
- The 404 an edit answers when the record was deleted in the meantime is not modelled: `Submit` takes the record being edited.
- app/api/projects/[id]/route.ts and app/api/skills/[id]/route.ts are not part of this model. The project and skill editors' round trips are stated for the body they send (and, for a skill, that the schema would accept it again); what the edit route then stores is not modelled.
- Models.UpdateExperience, Models.UpdateEducation: a sent start date of "" would be cast to null by the update; the model stores the text, so the edit round trips require a non-empty prefilled start date.
- mongoose is modelled only by its effect. Connection handling, casting and `findOneAndUpdate` internals are not modelled, and every driver failure is the single `available` flag.
- Authentication is a `Session` option. next-auth and bcrypt are not part of this model.
- Library functions are parameters, not implementations: zod's `url()` (`isUrl`), `new Date` with date-fns `format` (`format`), `getFullYear` (`yearOf`), and the local year of `new Date(null)` (`epochYear`). An unparsable date is not modelled.
- Concurrency is not modelled. Requests are strictly sequential, so the check-then-write race in the profile POST is outside the model.
- The profile GET sorts on `createdAt`. `ProfileStore.Newest` breaks a tie by taking the earliest document in natural order, which the database does not promise.
- `ProfileStore.Post` takes `findOne()` without a sort to return the first document in natural order.
- The tenant POST replaces `customizations` and `seoSettings` as whole values. A body with only part of a nested object, and mongoose's casting of it, are not modelled.
- Strings are sequences of characters, and the length rules count characters. zod counts UTF-16 code units.
- `trim` removes only the Latin-1 whitespace and U+FEFF, and `toLowerCase` folds only ASCII capitals.
- Proficiency and link order are integers. The number inputs can produce fractions or NaN, which are not modelled.
- The grouping keeps categories in first-appearance order. JavaScript lists integer-like object keys first, and a category named like an `Object.prototype` property misbehaves. Neither is modelled.
- Dates are stored as the text the browser sends, not converted to a `Date`, except that "" becomes null and a left-out key stays absent. The edit round trips are stated up to the time part.
- The site profile editor page is not modelled. The profile store stands for its effect.
- The static pages, the dashboard, the footer's duplicate `getIcon`, the contact and setup routes, and the password change are not part of this model.
- models/Template.ts is never read; the template registry is the hard-coded list.
- The General Professional template component, and the page that picks a template component for a username, are not part of this model.
- The finance template fetches education entries but never renders them, so they are not modelled.

## Findings

| source | as written | input that shows it | evidently intended | confidence | as-written member | corrected member |
|---|---|---|---|---|---|---|
| components/templates/FinanceTemplate.tsx:339 | a position that is not current shows the year of `new Date(endDate)` whatever is stored | an experience saved through the admin form with `current` off and the end date left blank: valid there, stored with a null end date, so the badge shows the epoch's year (1970, or 1969 west of UTC) while the timeline reads Present; a body that leaves the key out shows NaN | show "Present" when there is no end date, as the experience timeline does (app/experience/page.tsx:122) | medium, not executed | `FinanceTemplate.YearEndAsWritten`, `FinanceTemplate.PastPositionWithBlankEndShowsEpochYear` | `FinanceTemplate.YearEnd` |
