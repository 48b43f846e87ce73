/** The campaign brief wizard: one immutable session record holding every
    piece of component state, the events the user and the network deliver,
    and one transition function per handler. Network replies are inputs. */
module Wizard {
  import opened Wrappers
  import opened Brand
  import opened Goals

  /** Outcome of one network request as the handler sees it: a 2xx reply whose
      body parsed into the expected shape, a non-2xx status, or a body that
      could not be read as that shape (bad JSON, or a non-array search reply). */
  datatype Fetched<T> = Ok(data: T) | NotOk(status: int) | Malformed

  /** The wizard's state, one field per piece of component state. `error` is
      the banner text, empty when no banner is shown. The last two fields are
      not component state but the network's view of it: `posted` lists the
      webhook bodies sent so far, in order, and `pendingBriefs` counts the
      webhook posts whose reply has not yet arrived. "Create Brief" sets no
      flag while its post is pending, so the form stays editable and the
      button stays clickable meanwhile. */
  datatype Session = Session(
    step: int,
    name: string,
    email: string,
    website: string,
    companyName: string,
    suggestions: seq<string>,
    brandDetails: Option<BrandDetails>,
    isLoading: bool,
    error: string,
    targetAudience: string,
    keyCallouts: string,
    selectedGoals: seq<string>,
    otherGoal: string,
    deliverables: string,
    creatorProfiles: string,
    generatedBrief: string,
    pendingBriefs: nat,
    posted: seq<BriefPayload>)

  /** Names of the session's fields, used to state what a transition leaves alone. */
  datatype Field =
    | StepField | NameField | EmailField | WebsiteField | CompanyNameField
    | SuggestionsField | BrandDetailsField | IsLoadingField | ErrorField
    | TargetAudienceField | KeyCalloutsField | SelectedGoalsField
    | OtherGoalField | DeliverablesField | CreatorProfilesField | GeneratedBriefField
    | PendingBriefsField | PostedField

  /** `a` and `b` hold the same value in field `f`. */
  predicate Agree(a: Session, b: Session, f: Field) {
    match f
    case StepField => a.step == b.step
    case NameField => a.name == b.name
    case EmailField => a.email == b.email
    case WebsiteField => a.website == b.website
    case CompanyNameField => a.companyName == b.companyName
    case SuggestionsField => a.suggestions == b.suggestions
    case BrandDetailsField => a.brandDetails == b.brandDetails
    case IsLoadingField => a.isLoading == b.isLoading
    case ErrorField => a.error == b.error
    case TargetAudienceField => a.targetAudience == b.targetAudience
    case KeyCalloutsField => a.keyCallouts == b.keyCallouts
    case SelectedGoalsField => a.selectedGoals == b.selectedGoals
    case OtherGoalField => a.otherGoal == b.otherGoal
    case DeliverablesField => a.deliverables == b.deliverables
    case CreatorProfilesField => a.creatorProfiles == b.creatorProfiles
    case GeneratedBriefField => a.generatedBrief == b.generatedBrief
    case PendingBriefsField => a.pendingBriefs == b.pendingBriefs
    case PostedField => a.posted == b.posted
  }

  /** Going from `a` to `b` changed no field outside `fs`. */
  predicate ChangedOnly(a: Session, b: Session, fs: set<Field>) {
    forall f :: f !in fs ==> Agree(a, b, f)
  }

  /** The text inputs and text areas of the form. */
  datatype Input =
    | NameInput | EmailInput | WebsiteInput | DescriptionInput
    | TargetAudienceInput | KeyCalloutsInput | OtherGoalInput
    | DeliverablesInput | CreatorProfilesInput

  /** Events: typing into an input, a network reply arriving, or a click. */
  datatype Event =
    | Edit(input: Input, text: string)
    | SuggestionsSettled(search: Fetched<seq<SearchItem>>)
    | SelectWebsite(selected: string)
    | FillDetailsClicked
    | FillDetailsSettled(details: Fetched<BrandDetails>)
    | GetStarted
    | OpenCampaignDetails
    | ToggleGoal(goal: string)
    | CreateBriefClicked
    | BriefSettled(reply: Fetched<string>)

  const SuggestionsError: string := "Failed to fetch suggestions. Please try again."
  const DetailsError: string := "Failed to fetch brand details. Please try again."
  const BriefError: string := "Failed to create brief. Please try again."

  /** The state of a freshly mounted wizard. */
  const Initial: Session :=
    Session(1, "", "", "", "", [], None, false, "", "", "", [], "", "", "", "", 0, [])

  /** Whether `input` is on screen, so that typing into it is possible. */
  predicate Rendered(s: Session, input: Input) {
    match input
    case NameInput | EmailInput => s.step == 1
    case WebsiteInput => s.step == 2
    case DescriptionInput | TargetAudienceInput | KeyCalloutsInput => s.step == 2 && s.brandDetails.Some?
    case OtherGoalInput => s.step == 3 && Other in s.selectedGoals
    case DeliverablesInput | CreatorProfilesInput => s.step == 3
  }

  /** The session field an input writes. */
  function FieldOf(input: Input): Field {
    match input
    case NameInput => NameField
    case EmailInput => EmailField
    case WebsiteInput => WebsiteField
    case DescriptionInput => BrandDetailsField
    case TargetAudienceInput => TargetAudienceField
    case KeyCalloutsInput => KeyCalloutsField
    case OtherGoalInput => OtherGoalField
    case DeliverablesInput => DeliverablesField
    case CreatorProfilesInput => CreatorProfilesField
  }

  /** The text an input displays. */
  function Displayed(s: Session, input: Input): string {
    match input
    case NameInput => s.name
    case EmailInput => s.email
    case WebsiteInput => s.website
    case DescriptionInput => if s.brandDetails.Some? then s.brandDetails.value.description else ""
    case TargetAudienceInput => s.targetAudience
    case KeyCalloutsInput => s.keyCallouts
    case OtherGoalInput => s.otherGoal
    case DeliverablesInput => s.deliverables
    case CreatorProfilesInput => s.creatorProfiles
  }

  /** An `onChange` of a rendered input stores the typed text in its field
      and touches nothing else; an input that is not rendered cannot be typed into. */
  function EditInput(s: Session, input: Input, text: string): (r: Session)
    ensures Rendered(s, input) ==> Displayed(r, input) == text && ChangedOnly(s, r, {FieldOf(input)})
    ensures input == DescriptionInput && Rendered(s, input) ==>
      r.brandDetails.Some? && r.brandDetails.value.name == s.brandDetails.value.name
      && r.brandDetails.value.logos == s.brandDetails.value.logos
    ensures !Rendered(s, input) ==> r == s
  {
    if !Rendered(s, input) then s
    else
      match input
      case NameInput => s.(name := text)
      case EmailInput => s.(email := text)
      case WebsiteInput => s.(website := text)
      case DescriptionInput => s.(brandDetails := Some(s.brandDetails.value.(description := text)))
      case TargetAudienceInput => s.(targetAudience := text)
      case KeyCalloutsInput => s.(keyCallouts := text)
      case OtherGoalInput => s.(otherGoal := text)
      case DeliverablesInput => s.(deliverables := text)
      case CreatorProfilesInput => s.(creatorProfiles := text)
  }

  /** The suggestion lookup that fires for the current website. A website of
      at most two characters empties the list without a request; otherwise a
      well-formed reply replaces the list with its domains, and any failure
      empties the list and raises the banner. The website is never touched. */
  function SettleSuggestions(s: Session, search: Fetched<seq<SearchItem>>): (r: Session)
    ensures |s.website| <= 2 ==> r.suggestions == [] && ChangedOnly(s, r, {SuggestionsField})
    ensures |s.website| > 2 && search.Ok? ==>
      && |r.suggestions| == |search.data|
      && (forall i :: 0 <= i < |search.data| ==> r.suggestions[i] == search.data[i].domain)
      && ChangedOnly(s, r, {SuggestionsField})
    ensures |s.website| > 2 && !search.Ok? ==>
      r.suggestions == [] && r.error == SuggestionsError && ChangedOnly(s, r, {SuggestionsField, ErrorField})
  {
    if |s.website| > 2 then
      match search
      case Ok(items) => s.(suggestions := Domains(items))
      case _ => s.(error := SuggestionsError, suggestions := [])
    else
      s.(suggestions := [])
  }

  /** Clicking a listed suggestion puts it in the website field and closes the list. */
  function SelectSuggestion(s: Session, selected: string): (r: Session)
    ensures s.step == 2 && selected in s.suggestions ==>
      r.website == selected && r.suggestions == [] && ChangedOnly(s, r, {WebsiteField, SuggestionsField})
    ensures !(s.step == 2 && selected in s.suggestions) ==> r == s
  {
    if s.step == 2 && selected in s.suggestions then s.(website := selected, suggestions := []) else s
  }

  /** The "Fill Details" button is enabled (`disabled={!website || isLoading}`). */
  predicate CanFillDetails(s: Session) {
    s.step == 2 && s.website != "" && !s.isLoading
  }

  /** Clicking "Fill Details" marks a brand details request as in flight. */
  function StartFillDetails(s: Session): (r: Session)
    ensures CanFillDetails(s) ==> r.isLoading && ChangedOnly(s, r, {IsLoadingField})
    ensures s.website == "" || s.isLoading ==> r == s
  {
    if CanFillDetails(s) then s.(isLoading := true) else s
  }

  /** The brand details reply: success stores the details and copies their
      name into the company name; failure raises the banner and keeps the
      previous details. Either way the request is no longer in flight. A
      reply with no request in flight cannot arrive and changes nothing. */
  function SettleFillDetails(s: Session, details: Fetched<BrandDetails>): (r: Session)
    ensures s.isLoading ==> !r.isLoading
    ensures s.isLoading && details.Ok? ==>
      && r.brandDetails == Some(details.data)
      && r.companyName == details.data.name
      && ChangedOnly(s, r, {BrandDetailsField, CompanyNameField, IsLoadingField})
    ensures s.isLoading && !details.Ok? ==>
      && r.brandDetails == s.brandDetails
      && r.companyName == s.companyName
      && r.error == DetailsError
      && ChangedOnly(s, r, {ErrorField, IsLoadingField})
    ensures !s.isLoading ==> r == s
  {
    if !s.isLoading then s
    else
      match details
      case Ok(d) => s.(brandDetails := Some(d), companyName := d.name, isLoading := false)
      case _ => s.(error := DetailsError, isLoading := false)
  }

  /** The "Get Started" button is enabled (`disabled={!name || !email}`). */
  predicate CanGetStarted(s: Session) {
    s.step == 1 && s.name != "" && s.email != ""
  }

  /** "Get Started" moves from the identity step to the website step. */
  function Start(s: Session): (r: Session)
    ensures r.step == 2 <==> CanGetStarted(s) || s.step == 2
    ensures CanGetStarted(s) ==> ChangedOnly(s, r, {StepField})
    ensures !CanGetStarted(s) ==> r == s
  {
    if CanGetStarted(s) then s.(step := 2) else s
  }

  /** The "Campaign Details" button is shown (only once brand details exist). */
  predicate CanOpenCampaignDetails(s: Session) {
    s.step == 2 && s.brandDetails.Some?
  }

  /** "Campaign Details" moves from the website step to the goals step. */
  function OpenCampaign(s: Session): (r: Session)
    ensures r.step == 3 <==> CanOpenCampaignDetails(s) || s.step == 3
    ensures CanOpenCampaignDetails(s) ==> ChangedOnly(s, r, {StepField})
    ensures !CanOpenCampaignDetails(s) ==> r == s
  {
    if CanOpenCampaignDetails(s) then s.(step := 3) else s
  }

  /** Ticking or unticking one of the goal checkboxes on the goals step. */
  function TickGoal(s: Session, goal: string): (r: Session)
    ensures s.step == 3 && goal in GoalIds ==>
      && (goal in r.selectedGoals <==> goal !in s.selectedGoals)
      && r.selectedGoals == Toggle(s.selectedGoals, goal)
      && ChangedOnly(s, r, {SelectedGoalsField})
    ensures !(s.step == 3 && goal in GoalIds) ==> r == s
  {
    if s.step == 3 && goal in GoalIds then s.(selectedGoals := Toggle(s.selectedGoals, goal)) else s
  }

  /** The "Create Brief" button is enabled. Neither the free-text goal nor the
      target audience is required. */
  predicate CanCreateBrief(s: Session) {
    s.step == 3 && |s.selectedGoals| > 0 && s.deliverables != "" && s.creatorProfiles != ""
  }

  /** Clicking an enabled "Create Brief" posts the webhook body built from
      the session as it is at the click, and changes no form field. */
  function ClickCreateBrief(s: Session): (r: Session)
    ensures CanCreateBrief(s) ==>
      && r.pendingBriefs == s.pendingBriefs + 1
      && |r.posted| == |s.posted| + 1
      && r.posted[..|s.posted|] == s.posted
      && r.posted[|s.posted|] == Payload(s)
      && ChangedOnly(s, r, {PendingBriefsField, PostedField})
    ensures !CanCreateBrief(s) ==> r == s
  {
    if CanCreateBrief(s) then
      s.(pendingBriefs := s.pendingBriefs + 1, posted := s.posted + [Payload(s)])
    else s
  }

  /** The webhook's reply to one pending post: success shows the brief on
      step 4; failure raises the banner and keeps the step and every form
      field. Neither reads the form, so edits made while the post was pending
      stay. A reply with nothing pending cannot arrive and changes nothing. */
  function SettleBrief(s: Session, reply: Fetched<string>): (r: Session)
    ensures s.pendingBriefs > 0 ==> r.pendingBriefs == s.pendingBriefs - 1
    ensures r.step == 4 <==> s.step == 4 || (s.pendingBriefs > 0 && reply.Ok?)
    ensures s.pendingBriefs > 0 && reply.Ok? ==>
      r.generatedBrief == reply.data && ChangedOnly(s, r, {StepField, GeneratedBriefField, PendingBriefsField})
    ensures s.pendingBriefs > 0 && !reply.Ok? ==>
      r.error == BriefError && ChangedOnly(s, r, {ErrorField, PendingBriefsField})
    ensures s.pendingBriefs == 0 ==> r == s
  {
    if s.pendingBriefs == 0 then s
    else
      match reply
      case Ok(brief) => s.(generatedBrief := brief, step := 4, pendingBriefs := s.pendingBriefs - 1)
      case _ => s.(error := BriefError, pendingBriefs := s.pendingBriefs - 1)
  }

  /** The fields an event may write, read off the handler it triggers. */
  function Writes(e: Event): set<Field> {
    match e
    case Edit(input, _) => {FieldOf(input)}
    case SuggestionsSettled(_) => {SuggestionsField, ErrorField}
    case SelectWebsite(_) => {WebsiteField, SuggestionsField}
    case FillDetailsClicked => {IsLoadingField}
    case FillDetailsSettled(_) => {BrandDetailsField, CompanyNameField, IsLoadingField, ErrorField}
    case GetStarted | OpenCampaignDetails => {StepField}
    case ToggleGoal(_) => {SelectedGoalsField}
    case CreateBriefClicked => {PendingBriefsField, PostedField}
    case BriefSettled(_) => {StepField, GeneratedBriefField, ErrorField, PendingBriefsField}
  }

  /** The wizard's transition function: every event is handled by its own
      handler. */
  function Step(s: Session, e: Event): Session {
    match e
    case Edit(input, text) => EditInput(s, input, text)
    case SuggestionsSettled(search) => SettleSuggestions(s, search)
    case SelectWebsite(selected) => SelectSuggestion(s, selected)
    case FillDetailsClicked => StartFillDetails(s)
    case FillDetailsSettled(details) => SettleFillDetails(s, details)
    case GetStarted => Start(s)
    case OpenCampaignDetails => OpenCampaign(s)
    case ToggleGoal(goal) => TickGoal(s, goal)
    case CreateBriefClicked => ClickCreateBrief(s)
    case BriefSettled(reply) => SettleBrief(s, reply)
  }

  /** Every event writes only the fields its handler sets. */
  lemma StepWrites(s: Session, e: Event)
    ensures ChangedOnly(s, Step(s, e), Writes(e))
  {
    match e
    case Edit(input, text) =>
    case SuggestionsSettled(search) =>
    case SelectWebsite(selected) =>
    case FillDetailsClicked =>
    case FillDetailsSettled(details) =>
    case GetStarted =>
    case OpenCampaignDetails =>
    case ToggleGoal(goal) =>
    case CreateBriefClicked =>
    case BriefSettled(reply) =>
  }

  /** The session after a sequence of events, applied in order. */
  function Run(s: Session, events: seq<Event>): Session
    decreases |events|
  {
    if |events| == 0 then s else Run(Step(s, events[0]), events[1..])
  }

  /** The JSON body posted to the brief webhook. */
  datatype BriefPayload = BriefPayload(
    name: string,
    email: string,
    website: string,
    companyName: string,
    description: Option<string>,
    logoUrl: Option<string>,
    targetAudience: string,
    keyCallouts: string,
    campaignGoals: seq<string>,
    deliverables: string,
    creatorProfiles: string)

  /** The webhook body assembled from the session when "Create Brief" is
      clicked: the identity and form texts as they stand, the description
      and logo only when brand details exist, and the assembled goals. */
  function Payload(s: Session): (p: BriefPayload)
    ensures p.name == s.name && p.email == s.email && p.website == s.website
    ensures p.description.Some? <==> s.brandDetails.Some?
    ensures p.description.Some? ==> p.description.value == s.brandDetails.value.description
    ensures p.logoUrl.Some? ==> s.brandDetails.Some?
    ensures |s.selectedGoals| > 0 ==> |p.campaignGoals| > 0
    ensures Other !in s.selectedGoals ==> p.campaignGoals == s.selectedGoals
    ensures Other in s.selectedGoals ==> p.campaignGoals[|p.campaignGoals| - 1] == s.otherGoal
    ensures p.companyName == s.companyName
    ensures p.targetAudience == s.targetAudience && p.keyCallouts == s.keyCallouts
    ensures p.deliverables == s.deliverables && p.creatorProfiles == s.creatorProfiles
    ensures p.logoUrl == LogoUrl(s.brandDetails)
    ensures p.campaignGoals == Assemble(s.selectedGoals, s.otherGoal)
  {
    BriefPayload(
      s.name, s.email, s.website, s.companyName,
      if s.brandDetails.Some? then Some(s.brandDetails.value.description) else None,
      LogoUrl(s.brandDetails),
      s.targetAudience, s.keyCallouts,
      Assemble(s.selectedGoals, s.otherGoal),
      s.deliverables, s.creatorProfiles)
  }
}
