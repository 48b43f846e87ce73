/** Properties of the wizard that relate several transitions: the invariant
    every reachable session keeps, and which events can move between steps. */
module WizardProperties {
  import opened Wrappers
  import opened Brand
  import opened Goals
  import opened Wizard

  /** A webhook body posted by an enabled "Create Brief" from a valid session. */
  predicate CompleteBrief(p: BriefPayload) {
    && p.name != "" && p.email != "" && p.description.Some?
    && |p.campaignGoals| > 0 && p.deliverables != "" && p.creatorProfiles != ""
  }

  /** What holds of every session the wizard can reach from `Initial`. The
      form on step 4 need not be complete: it can be edited while a post is
      pending. What is complete is every body that was posted. */
  predicate Inv(s: Session) {
    && 1 <= s.step <= 4
    && (s.step >= 2 ==> s.name != "" && s.email != "")
    && (s.step >= 3 ==> s.brandDetails.Some?)
    && (s.step == 4 ==> |s.posted| > 0)
    && (s.pendingBriefs > 0 ==> s.step >= 3)
    && s.pendingBriefs <= |s.posted|
    && (forall p :: p in s.posted ==> CompleteBrief(p))
    && (s.step == 1 ==>
         s.website == "" && s.suggestions == [] && s.brandDetails.None? && s.companyName == "")
    && (s.step <= 2 ==>
         && s.selectedGoals == [] && s.otherGoal == "" && s.deliverables == "" && s.creatorProfiles == ""
         && s.posted == [])
    && (s.step < 4 ==> s.generatedBrief == "")
    && (s.isLoading ==> s.step >= 2)
    && WellFormedSelection(s.selectedGoals)
  }

  /** Every transition keeps the invariant. */
  lemma StepPreservesInv(s: Session, e: Event)
    requires Inv(s)
    ensures Inv(Step(s, e))
  {
    match e
    case Edit(input, text) => EditKeepsInv(s, input, text);
    case SuggestionsSettled(search) => assert SettleSuggestions(s, search).posted == s.posted;
    case SelectWebsite(selected) => assert SelectSuggestion(s, selected).posted == s.posted;
    case FillDetailsClicked => assert StartFillDetails(s).posted == s.posted;
    case FillDetailsSettled(details) => assert SettleFillDetails(s, details).posted == s.posted;
    case GetStarted => assert Start(s).posted == s.posted;
    case OpenCampaignDetails => assert OpenCampaign(s).posted == s.posted;
    case ToggleGoal(goal) => assert TickGoal(s, goal).posted == s.posted;
    case CreateBriefClicked => ClickKeepsInv(s);
    case BriefSettled(reply) => SettleKeepsInv(s, reply);
  }

  lemma ClickKeepsInv(s: Session)
    requires Inv(s)
    ensures Inv(ClickCreateBrief(s))
  {
    if CanCreateBrief(s) {
      var r := ClickCreateBrief(s);
      assert r.posted == s.posted + [Payload(s)];
      forall p | p in r.posted
        ensures CompleteBrief(p)
      {
        if p !in s.posted {
          assert p == Payload(s);
        }
      }
    }
  }

  lemma SettleKeepsInv(s: Session, reply: Fetched<string>)
    requires Inv(s)
    ensures Inv(SettleBrief(s, reply))
  {
    assert SettleBrief(s, reply).posted == s.posted;
  }

  lemma EditKeepsInv(s: Session, input: Input, text: string)
    requires Inv(s)
    ensures Inv(EditInput(s, input, text))
  {
    assert EditInput(s, input, text).posted == s.posted;
  }

  /** Every session reached from a valid one by a sequence of events is valid. */
  lemma {:induction false} RunPreservesInv(s: Session, events: seq<Event>)
    requires Inv(s)
    ensures Inv(Run(s, events))
    decreases |events|
  {
    if |events| > 0 {
      StepPreservesInv(s, events[0]);
      RunPreservesInv(Step(s, events[0]), events[1..]);
    }
  }

  /** Every session reachable from a freshly mounted wizard is valid. */
  lemma Reachable(events: seq<Event>)
    ensures Inv(Run(Initial, events))
  {
    RunPreservesInv(Initial, events);
  }

  /** One event moves the wizard forward by at most one step and never back. */
  lemma StepAdvancesByAtMostOne(s: Session, e: Event)
    requires Inv(s)
    ensures s.step <= Step(s, e).step <= s.step + 1
  {
  }

  /** Along any sequence of events the step never decreases. */
  lemma {:induction false} RunNeverGoesBack(s: Session, events: seq<Event>)
    requires Inv(s)
    ensures s.step <= Run(s, events).step
    decreases |events|
  {
    if |events| > 0 {
      StepAdvancesByAtMostOne(s, events[0]);
      StepPreservesInv(s, events[0]);
      RunNeverGoesBack(Step(s, events[0]), events[1..]);
    }
  }

  /** The identity step is left only by "Get Started" with both name and
      email filled in; with either empty no event leaves it. */
  lemma LeaveIdentityStep(s: Session, e: Event)
    requires Inv(s) && s.step == 1
    ensures Step(s, e).step != 1 <==> e == GetStarted && s.name != "" && s.email != ""
    ensures Step(s, e).step != 1 ==> Step(s, e).step == 2
  {
  }

  /** The goals step is entered only by "Campaign Details" from the website
      step once brand details are present. */
  lemma EnterGoalsStep(s: Session, e: Event)
    requires s.step != 3
    ensures Step(s, e).step == 3 <==> e == OpenCampaignDetails && s.step == 2 && s.brandDetails.Some?
  {
  }

  /** The brief step is entered only by a successful reply to a pending post;
      a failed reply keeps the step and every form field. */
  lemma EnterBriefStep(s: Session, e: Event)
    requires Inv(s) && s.step != 4
    ensures Step(s, e).step == 4 <==> e.BriefSettled? && e.reply.Ok? && s.pendingBriefs > 0
    ensures Step(s, e).step == 4 ==> s.step == 3
    ensures e.BriefSettled? && !e.reply.Ok? && s.pendingBriefs > 0 ==>
      var r := Step(s, e);
      r.step == s.step && r.error == BriefError && ChangedOnly(s, r, {ErrorField, PendingBriefsField})
  {
  }

  /** Only an enabled "Create Brief" posts anything, and what it posts is
      the body built from the session at the click. */
  lemma PostOnlyWhenEnabled(s: Session, e: Event)
    ensures |Step(s, e).posted| != |s.posted| <==> e == CreateBriefClicked && CanCreateBrief(s)
    ensures e == CreateBriefClicked && CanCreateBrief(s) ==>
      Step(s, e).posted == s.posted + [Payload(s)] && Step(s, e).pendingBriefs == s.pendingBriefs + 1
  {
  }

  /** Every webhook body posted from a freshly mounted wizard is complete, and
      the brief step is only ever shown after at least one post. */
  lemma {:induction false} PostedBriefsComplete(events: seq<Event>)
    ensures forall p :: p in Run(Initial, events).posted ==> CompleteBrief(p)
    ensures Run(Initial, events).step == 4 ==> |Run(Initial, events).posted| > 0
  {
    Reachable(events);
  }

  /** The form on step 4 need not be the one that was posted: clearing the
      deliverables while the post is pending still reaches step 4. */
  lemma BriefStepWithClearedDeliverables()
    ensures var r := Run(Initial, SetupEvents() + PendingEvents());
      r.step == 4 && r.deliverables == "" && |r.posted| == 1 && r.posted[0].deliverables == "2 videos"
  {
    RunConcat(Initial, SetupEvents(), PendingEvents());
    SetupReachesGoals();
    ClearingWhilePendingReachesBrief();
  }

  /** Identity, website, brand details, then on to the goals step. */
  function SetupEvents(): seq<Event> {
    [ Edit(NameInput, "Ana"), Edit(EmailInput, "a@b.com"), GetStarted,
      Edit(WebsiteInput, "acme.com"), FillDetailsClicked,
      FillDetailsSettled(Ok(BrandDetails("Acme", "Shoes", None))), OpenCampaignDetails ]
  }

  /** The goals step as `SetupEvents` leaves it. */
  const AfterSetup: Session :=
    Initial.(step := 3, name := "Ana", email := "a@b.com", website := "acme.com",
             companyName := "Acme", brandDetails := Some(BrandDetails("Acme", "Shoes", None)))

  /** Fill the goals step, click "Create Brief", clear the deliverables, then
      the webhook answers. */
  function PendingEvents(): seq<Event> {
    [ ToggleGoal("increase-sales"), Edit(DeliverablesInput, "2 videos"),
      Edit(CreatorProfilesInput, "runners"), CreateBriefClicked,
      Edit(DeliverablesInput, ""), BriefSettled(Ok("brief")) ]
  }

  lemma SetupReachesGoals()
    ensures Run(Initial, SetupEvents()) == AfterSetup
  {
    var evs := SetupEvents();
    var s1 := Step(Initial, evs[0]);
    var s2 := Step(s1, evs[1]);
    var s3 := Step(s2, evs[2]);
    var s4 := Step(s3, evs[3]);
    var s5 := Step(s4, evs[4]);
    var s6 := Step(s5, evs[5]);
    var s7 := Step(s6, evs[6]);
    assert s7 == AfterSetup;
    RunSteps(Initial, evs);
    RunSteps(s1, evs[1..]);
    assert evs[1..][1..] == evs[2..];
    RunSteps(s2, evs[2..]);
    assert evs[2..][1..] == evs[3..];
    RunSteps(s3, evs[3..]);
    assert evs[3..][1..] == evs[4..];
    RunSteps(s4, evs[4..]);
    assert evs[4..][1..] == evs[5..];
    RunSteps(s5, evs[5..]);
    assert evs[5..][1..] == evs[6..];
    RunSteps(s6, evs[6..]);
    assert evs[6..][1..] == [];
  }

  /** The sessions `PendingEvents` passes through, one per event. */
  const Ticked: Session := AfterSetup.(selectedGoals := ["increase-sales"])
  const WithDeliverables: Session := Ticked.(deliverables := "2 videos")
  const Filled: Session := WithDeliverables.(creatorProfiles := "runners")
  const Pending: Session := Filled.(pendingBriefs := 1, posted := [Payload(Filled)])
  const Cleared: Session := Pending.(deliverables := "")
  const Answered: Session := Cleared.(step := 4, generatedBrief := "brief", pendingBriefs := 0)

  lemma TickStep()
    ensures Step(AfterSetup, ToggleGoal("increase-sales")) == Ticked
  {
    assert Toggle([], "increase-sales") == ["increase-sales"];
  }

  lemma ClickStep()
    ensures Step(Filled, CreateBriefClicked) == Pending
  {
    assert CanCreateBrief(Filled);
  }

  /** The three edits and the reply of `PendingEvents`, one step each. */
  lemma OtherPendingSteps()
    ensures Step(Ticked, Edit(DeliverablesInput, "2 videos")) == WithDeliverables
    ensures Step(WithDeliverables, Edit(CreatorProfilesInput, "runners")) == Filled
    ensures Step(Pending, Edit(DeliverablesInput, "")) == Cleared
    ensures Step(Cleared, BriefSettled(Ok("brief"))) == Answered
  {
  }

  lemma ClearingWhilePendingReachesBrief()
    ensures var r := Run(AfterSetup, PendingEvents());
      r.step == 4 && r.deliverables == "" && |r.posted| == 1 && r.posted[0].deliverables == "2 videos"
  {
    var evs := PendingEvents();
    TickStep();
    ClickStep();
    OtherPendingSteps();
    RunSteps(AfterSetup, evs);
    RunSteps(Ticked, evs[1..]);
    assert evs[1..][1..] == evs[2..];
    RunSteps(WithDeliverables, evs[2..]);
    assert evs[2..][1..] == evs[3..];
    RunSteps(Filled, evs[3..]);
    assert evs[3..][1..] == evs[4..];
    RunSteps(Pending, evs[4..]);
    assert evs[4..][1..] == evs[5..];
    RunSteps(Cleared, evs[5..]);
    assert evs[5..][1..] == [];
    assert Run(AfterSetup, evs) == Answered;
  }

  lemma RunSteps(s: Session, events: seq<Event>)
    requires |events| > 0
    ensures Run(s, events) == Run(Step(s, events[0]), events[1..])
  {
  }

  /** Running two sequences one after the other is running their concatenation. */
  lemma {:induction false} RunConcat(s: Session, a: seq<Event>, b: seq<Event>)
    ensures Run(s, a + b) == Run(Run(s, a), b)
    decreases |a|
  {
    if |a| == 0 {
      assert a + b == b;
    } else {
      assert (a + b)[1..] == a[1..] + b;
      RunConcat(Step(s, a[0]), a[1..], b);
    }
  }

  /** "Fill Details" is disabled while the website is empty or a request is in
      flight, and the in-flight flag is cleared by whatever reply arrives. */
  lemma FillDetailsRoundTrip(s: Session, details: Fetched<BrandDetails>)
    requires CanFillDetails(s)
    ensures var r := Step(Step(s, FillDetailsClicked), FillDetailsSettled(details));
      && !r.isLoading
      && (details.Ok? ==> r.brandDetails == Some(details.data) && r.companyName == details.data.name
                          && ChangedOnly(s, r, {BrandDetailsField, CompanyNameField}))
      && (!details.Ok? ==> r.brandDetails == s.brandDetails && r.companyName == s.companyName
                           && r.error == DetailsError && ChangedOnly(s, r, {ErrorField}))
  {
  }

  /** Ticking a goal checkbox and then unticking it restores the session. */
  lemma ToggleGoalTwice(s: Session, goal: string)
    requires s.step == 3 && goal in GoalIds && goal !in s.selectedGoals
    ensures Step(Step(s, ToggleGoal(goal)), ToggleGoal(goal)) == s
  {
    ToggleTwiceRestores(s.selectedGoals, goal);
  }

  /** The brief sent from a valid session with "Create Brief" enabled lists one
      goal per ticked box, and mentions "other" only as the free-text goal. */
  lemma PayloadGoals(s: Session)
    requires Inv(s) && CanCreateBrief(s)
    ensures |Payload(s).campaignGoals| == |s.selectedGoals| > 0
    ensures Other in Payload(s).campaignGoals ==>
      Other == s.otherGoal && Other in s.selectedGoals
    ensures Payload(s).logoUrl == LogoUrl(s.brandDetails)
    ensures Payload(s).description.Some?
  {
    AssembleKeepsLength(s.selectedGoals, s.otherGoal);
    var g := Payload(s).campaignGoals;
    if Other in s.selectedGoals {
      assert g == g[..|g| - 1] + [g[|g| - 1]];
      assert Other !in g[..|g| - 1];
    }
  }

  /** Whether "Create Brief" is enabled does not depend on the free-text
      goal or the target audience; when "other" is ticked, the free text is
      sent as the last goal whatever it holds, the empty text included. */
  lemma OtherGoalLabelNotRequired(s: Session, o: string, t: string)
    ensures CanCreateBrief(s) == CanCreateBrief(s.(otherGoal := o, targetAudience := t))
    ensures Inv(s) && CanCreateBrief(s) && Other in s.selectedGoals ==>
      var goals := Payload(s.(otherGoal := o)).campaignGoals;
      |goals| > 0 && goals[|goals| - 1] == o
  {
  }

  /** "Get Started" changes the session exactly when it is on step 1 with
      name and email non-empty (`disabled={!name || !email}`). */
  lemma GetStartedGuard(s: Session)
    ensures Step(s, GetStarted) != s <==> s.step == 1 && s.name != "" && s.email != ""
  {
  }

  /** "Fill Details" changes the session exactly when it is on step 2 with a
      website and no request in flight (`disabled={!website || isLoading}`). */
  lemma FillDetailsGuard(s: Session)
    ensures Step(s, FillDetailsClicked) != s <==> s.step == 2 && s.website != "" && !s.isLoading
  {
  }

  /** "Campaign Details" changes the session exactly when it is shown: on step
      2 with brand details present. */
  lemma CampaignDetailsGuard(s: Session)
    ensures Step(s, OpenCampaignDetails) != s <==> s.step == 2 && s.brandDetails.Some?
  {
  }

  /** "Create Brief" changes the session exactly when it is on step 3 with a
      goal ticked and deliverables and creator profiles non-empty. */
  lemma CreateBriefGuard(s: Session)
    ensures Step(s, CreateBriefClicked) != s <==>
      s.step == 3 && |s.selectedGoals| > 0 && s.deliverables != "" && s.creatorProfiles != ""
  {
    if CanCreateBrief(s) {
      assert |Step(s, CreateBriefClicked).posted| == |s.posted| + 1;
    }
  }
}
