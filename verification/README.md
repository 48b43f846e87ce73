# Brief generator: wizard and document handler, modelled in Dafny

This project models the two pieces of logic in the campaign brief generator:

- **The intake wizard** (`components/MultiStepForm.tsx`). It is a four-step form: identity, website and brand details, campaign goals, and the generated brief. Every piece of component state is a field of one immutable `Wizard.Session`. Two more fields record the network's side: the webhook bodies posted so far, and how many posts still await a reply. Every user action and every network reply is a `Wizard.Event`. `Wizard.Step` applies one event. Network replies are inputs (`Fetched<T>`: a well-formed reply, a non-2xx status, or a body of the wrong shape), never calls.
- **The document-creation handler** (`pages/api/create-document.ts`). It is a short-circuiting pipeline: method check, credentials present, credentials parse, template lookup, template copy, document id, document read, batch update, sharing. Each Google call is an input (`DocumentHandler.Services`). The handler returns its HTTP response together with the calls it made, so "no later stage runs" can be stated. `DocRequests` builds the batch-update request list from the placeholder entries.

Modules: `Wrappers` (Option), `Brand` (brand records, logo URL, suggestion domains), `Goals` (goal checkboxes and goal assembly), `Wizard` (session, events, handlers), `WizardProperties` (reachable-state invariant, step guards), `DocRequests`, `DocumentHandler`, `HandlerProperties` (a table-driven second description of the pipeline, proved equal to the handler).

Frame conditions ("nothing else changes") are stated with `Wizard.ChangedOnly(before, after, fields)`, which says that no field outside the given set differs.

Behaviour of the component worth knowing, all of it modelled:
- The wizard has four steps.
- "Create Brief" requires neither the "other" goal's text nor the target audience.
- "Create Brief" sets no pending flag. While its post waits, the form stays editable and the button clickable. The reply moves to step 4 whatever the form then holds.
- Brand details overwrite the company name unconditionally.
- Nothing clears the error banner.
- Stale suggestion replies are not discarded.

## Model

| member | source | states |
|---|---|---|
| Brand.LogoUrl | components/MultiStepForm.tsx:114 | the brief's logo URL is present exactly when details, logos, a first logo, its formats and a first format all exist, and is then that format's src |
| Brand.Domains | components/MultiStepForm.tsx:55-56 | the suggestion list has one entry per search item, each the item's domain, in reply order |
| Brand.RenderedLogoAsWritten | components/MultiStepForm.tsx:212-213 | the step-2 logo render throws exactly when a first logo exists but its formats are absent or empty |
| Brand.RenderedLogo | components/MultiStepForm.tsx:212-214 | the corrected logo slot never throws and shows an image exactly when the brief's logo URL exists, showing that URL |
| Brand.EmptyFormatsCrashesRender | components/MultiStepForm.tsx:212-213 | a brand whose only logo has an empty formats list crashes the written render and shows no image in the corrected one |
| Brand.RenderAgreesWhenNoCrash | components/MultiStepForm.tsx:212-213 | wherever the written render does not throw, it shows the same thing as the corrected one |
| Goals.RemoveAll | components/MultiStepForm.tsx:260 | filtering out a goal leaves no occurrence of it, keeps every other member in its original order (a subsequence), shrinks by its count, is the identity when it is absent, and keeps a list duplicate-free |
| Goals.RemoveAllConcat | components/MultiStepForm.tsx:260 | filtering distributes over concatenation, which with the one-element case fixes the result, order included |
| Goals.RemoveAllSingle | components/MultiStepForm.tsx:260 | a single value is kept exactly when it differs from the removed goal |
| Goals.Toggle | components/MultiStepForm.tsx:255-261 | a checkbox change flips the goal's membership and no other goal's; ticking appends at the end; unticking keeps the other goals in order; a well-formed selection stays well-formed |
| Goals.Assemble | components/MultiStepForm.tsx:102 | without "other" the ticked ids are sent unchanged; with it, the other ids in their ticked order followed by the free-text goal; a non-empty selection gives a non-empty list |
| Goals.AssembleKeepsTickOrder | components/MultiStepForm.tsx:102 | an example: ticking views, other, sales with text "awareness" sends views, sales, awareness |
| Goals.ToggleTwiceRestores | components/MultiStepForm.tsx:256-261 | ticking an unticked goal and then unticking it gives back the original list |
| Goals.AssembleKeepsLength | components/MultiStepForm.tsx:102 | for a duplicate-free selection the sent goal list has one entry per ticked box |
| Wizard.EditInput | components/MultiStepForm.tsx:150-302 | typing into a rendered input sets the text it displays and changes only its own field; editing the description keeps the brand's name and logos; an input not on screen cannot change anything |
| Wizard.SettleSuggestions | components/MultiStepForm.tsx:47-67 | a website of at most two characters empties the list; a well-formed reply sets it to the domains in order; a failed or malformed reply empties it and sets the suggestions error; the website is never touched |
| Wizard.SelectSuggestion | components/MultiStepForm.tsx:77-80 | clicking a listed suggestion sets the website to it and empties the list, and nothing else changes |
| Wizard.StartFillDetails | components/MultiStepForm.tsx:316-327 | "Fill Details" does nothing while the website is empty or a request is in flight; otherwise it only marks a request in flight |
| Wizard.SettleFillDetails | components/MultiStepForm.tsx:82-98 | a details reply always clears the in-flight flag; success stores the details and their name as company name; failure sets the details error and keeps details and company name |
| Wizard.Start | components/MultiStepForm.tsx:311-315 | "Get Started" reaches step 2 exactly when on step 1 with name and email non-empty, and otherwise changes nothing |
| Wizard.OpenCampaign | components/MultiStepForm.tsx:328-331 | "Campaign Details" reaches step 3 exactly when on step 2 with brand details present, and otherwise changes nothing |
| Wizard.TickGoal | components/MultiStepForm.tsx:247-271 | on the goals step a checkbox change appends an unticked goal at the end, or filters a ticked one out keeping the other goals in order (`Goals.Toggle`), and changes no other field |
| Wizard.ClickCreateBrief | components/MultiStepForm.tsx:100-121 | an enabled "Create Brief" posts the body built from the session at the click and adds one pending post, changing no form field; a disabled one changes nothing |
| Wizard.SettleBrief | components/MultiStepForm.tsx:122-133 | a reply settles one pending post; success shows the brief on step 4; failure sets the brief error and keeps the step and every form field; with nothing pending nothing changes |
| Wizard.StepWrites | components/MultiStepForm.tsx:46-338 | every event is dispatched to its handler and writes only the fields that handler sets |
| Wizard.Payload | components/MultiStepForm.tsx:108-120 | the webhook body carries name, email, website, company name, target audience, key callouts, deliverables and creator profiles as they stand; the description exactly when brand details exist; the logo URL of the optional chain (`Brand.LogoUrl`); and the goals as `Goals.Assemble` orders them (the ticked goals in tick order, then the free text when "other" is ticked) |
| WizardProperties.StepPreservesInv | components/MultiStepForm.tsx:29-44 | every transition keeps the invariant: step in 1..4, name and email filled past step 1, brand details present past step 2, step 4 only after a post, pending posts only from step 3 on, every posted body complete, and the goal selection duplicate-free and drawn from the four ids |
| WizardProperties.RunPreservesInv | components/MultiStepForm.tsx:29-44 | any sequence of events from a valid session ends in a valid session |
| WizardProperties.Reachable | components/MultiStepForm.tsx:29-44 | every session reachable from a freshly mounted wizard satisfies the invariant |
| WizardProperties.StepAdvancesByAtMostOne | components/MultiStepForm.tsx:311-338 | no event moves the wizard back, and none skips a step |
| WizardProperties.RunNeverGoesBack | components/MultiStepForm.tsx:311-338 | along any sequence of events the step never decreases |
| WizardProperties.LeaveIdentityStep | components/MultiStepForm.tsx:311-315 | step 1 is left, to step 2, by "Get Started" with name and email non-empty and by no other event |
| WizardProperties.EnterGoalsStep | components/MultiStepForm.tsx:328-331 | step 3 is entered only by "Campaign Details" from step 2 with brand details present |
| WizardProperties.EnterBriefStep | components/MultiStepForm.tsx:123-133 | step 4 is entered, from step 3, only by a successful reply to a pending post; a failed reply keeps the step and the form and sets the error |
| WizardProperties.PostOnlyWhenEnabled | components/MultiStepForm.tsx:100-121 | a body is posted only by an enabled "Create Brief", and it is the body built from the session at the click |
| WizardProperties.PostedBriefsComplete | components/MultiStepForm.tsx:336 | from a fresh wizard, every posted body has a goal, deliverables and creator profiles, and step 4 is shown only after a post |
| WizardProperties.BriefStepWithClearedDeliverables | components/MultiStepForm.tsx:122-129 | clearing the deliverables while the post is pending still reaches step 4, with empty deliverables on screen and "2 videos" in the posted body |
| WizardProperties.GetStartedGuard | components/MultiStepForm.tsx:312 | "Get Started" changes the session exactly when on step 1 with name and email non-empty |
| WizardProperties.FillDetailsGuard | components/MultiStepForm.tsx:318 | "Fill Details" changes the session exactly when on step 2 with a website and no request in flight |
| WizardProperties.CampaignDetailsGuard | components/MultiStepForm.tsx:328-329 | "Campaign Details" changes the session exactly when on step 2 with brand details present |
| WizardProperties.CreateBriefGuard | components/MultiStepForm.tsx:336 | "Create Brief" changes the session exactly when on step 3 with a goal ticked and deliverables and creator profiles non-empty |
| WizardProperties.FillDetailsRoundTrip | components/MultiStepForm.tsx:82-98 | click then reply leaves no request in flight and stores the details and name on success, or only the error on failure |
| WizardProperties.ToggleGoalTwice | components/MultiStepForm.tsx:255-261 | ticking and then unticking a goal restores the whole session |
| WizardProperties.PayloadGoals | components/MultiStepForm.tsx:102-120 | an enabled brief from a valid session sends one goal per ticked box (at least one), "other" only as free text, the chained logo URL and a description |
| WizardProperties.OtherGoalLabelNotRequired | components/MultiStepForm.tsx:336 | for every session, whether "Create Brief" is enabled does not depend on the "other" text or the target audience; with "other" ticked, whatever text it holds, the empty text included, is sent as the last goal |
| DocRequests.LogoUri | pages/api/create-document.ts:118 | the logo address is the logo-service prefix followed by the website |
| DocRequests.LogoRequest | pages/api/create-document.ts:113-129 | the logo request is an image insertion at index 1, 100 PT high and wide, from the logo address |
| DocRequests.BuildRequests | pages/api/create-document.ts:105-130 | one case-sensitive replacement per entry, in entry order, then the logo request; length is entries plus one |
| DocRequests.ReplacementsToRequests | pages/api/create-document.ts:105-110 | each entry maps to the replacement of its key by its value, position by position |
| DocRequests.BuildRequestsRoundTrip | pages/api/create-document.ts:105-130 | reading the replacements back out of the list gives the entries exactly, and the list holds exactly one image |
| DocumentHandler.ThrownMessage | pages/api/create-document.ts:147 | the message of a thrown `Error` is its own message; anything else reads "Unknown error" |
| DocumentHandler.UpdateFailure | pages/api/create-document.ts:147 | a batch-update failure message is the fixed prefix followed by the client's message, or "Unknown error" |
| DocumentHandler.DocumentUrl | pages/api/create-document.ts:168 | the link is the Docs prefix, the id, then "/edit" |
| DocumentHandler.Handle | pages/api/create-document.ts:14-178 | only 200, 405 or 500; 405 exactly for non-POST, with no call made; every 500 is "Failed to create document"; 200 only with a document id and replacements, linking to the document after five calls |
| HandlerProperties.FirstFailing | pages/api/create-document.ts:19-177 | the index found is the first failing stage: every earlier stage passes |
| HandlerProperties.HandleFollowsStageTable | pages/api/create-document.ts:19-177 | the handler answers with the first failing stage's message, after the calls of the stages up to it, or with the link after all calls |
| HandlerProperties.CallsOfComeFromStages | pages/api/create-document.ts:48-165 | every call recorded for the first n stages is the call of one of them |
| HandlerProperties.FirstFailureDecides | pages/api/create-document.ts:48-177 | a POST gets 500 exactly when a stage fails, with that stage's message, and no call of a later stage is made |
| HandlerProperties.CredentialFailures | pages/api/create-document.ts:24-35 | a missing or empty credentials variable, or one that is not JSON, gives its own 500 message before any call |
| HandlerProperties.MissingIdStopsBeforeRead | pages/api/create-document.ts:79-83 | a copy with no id fails with the no-document-id message and neither reads nor updates the document |
| HandlerProperties.BatchUpdateFailureMessage | pages/api/create-document.ts:103-148 | the update stage reports the prefix plus the thrown message: the "Cannot convert undefined or null to object" TypeError with no update sent when the body lacks replacements, or the client's message after sending exactly the built request list |
| HandlerProperties.DocumentUrlRoundTrip | pages/api/create-document.ts:168 | the id can be read back from the document link |
| HandlerProperties.DocumentIdOfUrlExact | pages/api/create-document.ts:168 | a link from which an id is read is exactly the link built from that id |
| HandlerProperties.SuccessfulCreation | pages/api/create-document.ts:150-171 | a POST succeeds exactly when every stage passes and the body has replacements; then the five calls were made in order and the body links to the copied document |

## Left out

- Debounce timing (the 300 ms timer and its cancellation): `SuggestionsSettled` models only the lookup that fires, for the website the session holds.
- Stale suggestion replies: the component has no guard against them, so no latest-issued-wins property is claimed.
- The order in which replies to several pending webhook posts arrive: replies carry no identity, and each one settles one pending post.
- JSX rendering beyond which inputs are on screen; the clipboard button; the webhook URL; `JSON.stringify` of the payload and of the webhook reply (the reply arrives as the brief text).
- Wizard.SettleSuggestions: a website's length is counted in Dafny characters, not UTF-16 code units as in JavaScript. This differs only for characters outside the Basic Multilingual Plane.
- Wizard.SettleSuggestions: a search array whose items are not objects (which would throw inside `map`) is not modelled; an array reply is taken as well-formed.
- Wizard.SettleFillDetails: a JSON body that parses but lacks `name` is not modelled; a 2xx reply is taken to be a brand details record.
- The company name input is read-only, so no edit event writes it.
- Google Auth, Drive and Docs clients: represented only by success or failure inputs; the auth client's construction is assumed not to throw.
- DocumentHandler.Handle: a request body that cannot be destructured (a missing body) is not modelled. A missing `replacements` is modelled. Its entries are taken in enumeration order; the integer-like keys that JavaScript enumerates first are not modelled. Missing string fields are not modelled; a missing website, for one, would put the text "undefined" into the logo address. The wording of the missing-replacements TypeError is the V8 engine's.
- JSON parsing of the credentials is an input flag (`credentialsParse`), not a parser.
- Logging (`console.log`/`console.error`) is left out.
- pages/api/brandfetch-search.ts and pages/api/brandfetch-details.ts are thin proxies and are not part of this model.
- pages/api/create-google-doc.ts and pages/api/create-brief.ts are not part of this model. The latter depends on the current date.
- components/Dialog.tsx, components/ErrorBoundary.tsx, pages/brief-confirmation.tsx, pages/_app.tsx and pages/index.tsx are presentation and routing only.

## Findings

| source | as written | input that shows it | evidently intended | confidence | as-written member | corrected member |
|---|---|---|---|---|---|---|
| components/MultiStepForm.tsx:212-213 | the step-2 logo checks `logos` and `logos[0]` but reads `formats[0].src` unguarded | brand details whose first logo has `formats: []` (or no `formats`) make the render throw | show the first format's src when the chain exists, as the brief payload's optional chain at line 114 does, else no image | not executed; medium | Brand.RenderedLogoAsWritten (exhibited by Brand.EmptyFormatsCrashesRender) | Brand.RenderedLogo |
