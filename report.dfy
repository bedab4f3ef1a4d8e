/**
 * The report wizard: four steps (location, incident, evidence, review),
 * forward moves gated by the current step's required fields, the step
 * clamped to 1..4, edits to the form's fields and evidence links, and the
 * reset after a submission.
 *
 * `WizardState` and `Apply` describe the page as values so that lemmas can
 * speak about whole sequences of user actions; `ReportWizard` is the page's
 * state itself, and each of its methods is proved to do what `Apply` says.
 */
module Report {
  import opened Text

  const TotalSteps := 4

  datatype ReportData = ReportData(
    // step 1: location
    street: string,
    city: string,
    state: string,
    zipCode: string,
    propertyType: string,
    // step 2: incident
    category: string,
    description: string,
    dateOccurred: string,
    // step 3: evidence
    evidenceLinks: seq<string>,
    contactInfo: string)

  /** The form as the page first shows it and as a submission leaves it. */
  function InitialReportData(): (d: ReportData)
    ensures d.evidenceLinks == [""]
    ensures forall f :: FieldValue(d, f) == ""
  {
    ReportData("", "", "", "", "", "", "", "", [""], "")
  }

  /** The text fields that `updateReportData` is called with. */
  datatype Field =
    | Street | City | State | ZipCode | PropertyType
    | Category | Description | DateOccurred
    | ContactInfo

  function FieldValue(d: ReportData, f: Field): string {
    match f
    case Street => d.street
    case City => d.city
    case State => d.state
    case ZipCode => d.zipCode
    case PropertyType => d.propertyType
    case Category => d.category
    case Description => d.description
    case DateOccurred => d.dateOccurred
    case ContactInfo => d.contactInfo
  }

  /** The step on whose screen a field is edited. */
  function StepOf(f: Field): (step: int)
    ensures 1 <= step <= 3
  {
    match f
    case Street | City | State | ZipCode | PropertyType => 1
    case Category | Description | DateOccurred => 2
    case ContactInfo => 3
  }

  /** `{ ...prev, [field]: value }`: that field changes, nothing else does. */
  function WithField(d: ReportData, f: Field, value: string): (r: ReportData)
    ensures FieldValue(r, f) == value
    ensures forall g :: g != f ==> FieldValue(r, g) == FieldValue(d, g)
    ensures r.evidenceLinks == d.evidenceLinks
  {
    match f
    case Street => d.(street := value)
    case City => d.(city := value)
    case State => d.(state := value)
    case ZipCode => d.(zipCode := value)
    case PropertyType => d.(propertyType := value)
    case Category => d.(category := value)
    case Description => d.(description := value)
    case DateOccurred => d.(dateOccurred := value)
    case ContactInfo => d.(contactInfo := value)
  }

  // ------------------------------------------------------- evidence links

  /** `[...links, '']`. */
  function AppendLink(links: seq<string>): (r: seq<string>)
    ensures |r| == |links| + 1 && links <= r && r[|links|] == ""
  {
    links + [""]
  }

  /** `links.map((link, i) => i === index ? value : link)`. */
  function ReplaceLink(links: seq<string>, index: int, value: string): (r: seq<string>)
    ensures 0 <= index < |links| ==> r == links[index := value]
    ensures !(0 <= index < |links|) ==> r == links
  {
    seq(|links|, i requires 0 <= i < |links| => if i == index then value else links[i])
  }

  /** `links.filter((_, i) => i !== index)`, walking the positions from the front. */
  function RemoveLink(links: seq<string>, index: int): (r: seq<string>)
    ensures 0 <= index < |links| ==> r == links[..index] + links[index + 1..]
    ensures !(0 <= index < |links|) ==> r == links
  {
    if links == [] then []
    else (if index == 0 then [] else [links[0]]) + RemoveLink(links[1..], index - 1)
  }

  // ----------------------------------------------------------- validation

  /** `link.trim() !== ''`. */
  predicate HasContent(link: string) {
    Trim(link) != ""
  }

  /** `validateStep()`: the required fields of the given step, in JavaScript truthiness. */
  predicate ValidateStep(step: int, d: ReportData) {
    if step == 1 then
      d.street != "" && d.city != "" && d.state != "" && d.zipCode != "" && d.propertyType != ""
    else if step == 2 then
      d.category != "" && d.description != "" && d.dateOccurred != ""
    else if step == 3 then
      (exists i :: 0 <= i < |d.evidenceLinks| && HasContent(d.evidenceLinks[i])) || d.contactInfo != ""
    else true
  }

  /** Step 1 and step 2 validate exactly when each of their fields is filled in. */
  lemma RequiredFieldsOfSteps12(d: ReportData)
    ensures ValidateStep(1, d) <==> forall f :: StepOf(f) == 1 ==> FieldValue(d, f) != ""
    ensures ValidateStep(2, d) <==> forall f :: StepOf(f) == 2 ==> FieldValue(d, f) != ""
  {
    if !ValidateStep(1, d) {
      var f :| f in [Street, City, State, ZipCode, PropertyType] && FieldValue(d, f) == "";
    }
    if !ValidateStep(2, d) {
      var f :| f in [Category, Description, DateOccurred] && FieldValue(d, f) == "";
    }
  }

  /** Step 3 validates exactly when some link has a non-whitespace character or contact info is given. */
  lemma EvidenceStepValidIff(d: ReportData)
    ensures ValidateStep(3, d) <==>
      (exists i, k :: 0 <= i < |d.evidenceLinks| && 0 <= k < |d.evidenceLinks[i]| &&
                      !IsJsWhitespace(d.evidenceLinks[i][k])) || d.contactInfo != ""
  {
  }

  /** The form as first shown cannot leave steps 1, 2 or 3. */
  lemma InitialFormBlocksEarlySteps()
    ensures forall step :: 1 <= step <= 3 ==> !ValidateStep(step, InitialReportData())
  {
  }

  // -------------------------------------------------------- state machine

  datatype WizardState = WizardState(currentStep: int, reportData: ReportData)

  function InitialState(): WizardState {
    WizardState(1, InitialReportData())
  }

  predicate InBounds(st: WizardState) {
    1 <= st.currentStep <= TotalSteps
  }

  /** What the user can do on the page. */
  datatype Action =
    | Next
    | Prev
    | Update(field: Field, value: string)
    | AddEvidenceLink
    | UpdateEvidenceLink(index: int, value: string)
    | RemoveEvidenceLink(index: int)
    | Submit

  function Min(a: int, b: int): int { if a <= b then a else b }
  function Max(a: int, b: int): int { if a >= b then a else b }

  /** The effect of one action on the page's state. */
  function Apply(st: WizardState, a: Action): (r: WizardState)
    ensures InBounds(st) ==> InBounds(r)
    ensures a.Next? && !ValidateStep(st.currentStep, st.reportData) ==> r == st
  {
    match a
    case Next =>
      if ValidateStep(st.currentStep, st.reportData)
      then st.(currentStep := Min(st.currentStep + 1, TotalSteps))
      else st
    case Prev => st.(currentStep := Max(st.currentStep - 1, 1))
    case Update(f, v) => st.(reportData := WithField(st.reportData, f, v))
    case AddEvidenceLink =>
      st.(reportData := st.reportData.(evidenceLinks := AppendLink(st.reportData.evidenceLinks)))
    case UpdateEvidenceLink(i, v) =>
      st.(reportData := st.reportData.(evidenceLinks := ReplaceLink(st.reportData.evidenceLinks, i, v)))
    case RemoveEvidenceLink(i) =>
      st.(reportData := st.reportData.(evidenceLinks := RemoveLink(st.reportData.evidenceLinks, i)))
    case Submit => InitialState()
  }

  /** The effect of a sequence of actions, first to last. */
  function Run(st: WizardState, actions: seq<Action>): WizardState
    decreases |actions|
  {
    if actions == [] then st else Run(Apply(st, actions[0]), actions[1..])
  }

  /** "Next" moves exactly one step forward when the step validates and is not the last; otherwise nothing changes. */
  lemma NextIsGated(st: WizardState)
    requires InBounds(st)
    ensures var after := Apply(st, Next);
      after.reportData == st.reportData &&
      (if ValidateStep(st.currentStep, st.reportData) && st.currentStep < TotalSteps
       then after.currentStep == st.currentStep + 1
       else after == st)
  {
  }

  /** "Previous" moves one step back, except at the first step; the data is untouched. */
  lemma PrevIsClamped(st: WizardState)
    requires InBounds(st)
    ensures var after := Apply(st, Prev);
      after.reportData == st.reportData &&
      after.currentStep == (if st.currentStep == 1 then 1 else st.currentStep - 1)
  {
  }

  /** Whatever the user does, the step stays within 1..4. */
  lemma {:induction false} RunStaysInBounds(st: WizardState, actions: seq<Action>)
    requires InBounds(st)
    ensures InBounds(Run(st, actions))
    decreases |actions|
  {
    if actions != [] {
      RunStaysInBounds(Apply(st, actions[0]), actions[1..]);
    }
  }

  /** Only editing actions change the data, and only "Next" moves forward. */
  lemma {:induction false} StepMovesOnlyByNavigation(st: WizardState, a: Action)
    requires InBounds(st)
    ensures Apply(st, a).currentStep > st.currentStep ==> a == Next && ValidateStep(st.currentStep, st.reportData)
    ensures a.Next? || a.Prev? ==> Apply(st, a).reportData == st.reportData
    ensures !(a.Next? || a.Prev? || a.Submit?) ==> Apply(st, a).currentStep == st.currentStep
  {
  }

  /**
   * The actions the page offers in a state: "Previous" is disabled on step 1,
   * "Next" is shown before the last step and "Submit" on it, each field and
   * the link buttons are on their own step's screen, and a link can be
   * removed only while there are at least two.
   */
  predicate Offered(st: WizardState, a: Action) {
    var links := st.reportData.evidenceLinks;
    match a
    case Next => st.currentStep < TotalSteps
    case Prev => st.currentStep != 1
    case Update(f, _) => StepOf(f) == st.currentStep
    case AddEvidenceLink => st.currentStep == 3
    case UpdateEvidenceLink(i, _) => st.currentStep == 3 && 0 <= i < |links|
    case RemoveEvidenceLink(i) => st.currentStep == 3 && |links| > 1 && 0 <= i < |links|
    case Submit => st.currentStep == TotalSteps
  }

  predicate OfferedRun(st: WizardState, actions: seq<Action>)
    decreases |actions|
  {
    actions == [] || (Offered(st, actions[0]) && OfferedRun(Apply(st, actions[0]), actions[1..]))
  }

  /** Through the page's own buttons the form never loses its last evidence-link box. */
  lemma {:induction false} OfferedRunKeepsALink(st: WizardState, actions: seq<Action>)
    requires |st.reportData.evidenceLinks| >= 1
    requires OfferedRun(st, actions)
    ensures |Run(st, actions).reportData.evidenceLinks| >= 1
    decreases |actions|
  {
    if actions != [] {
      OfferedRunKeepsALink(Apply(st, actions[0]), actions[1..]);
    }
  }

  /** After a submission the page is back at its initial state, whatever it held. */
  lemma SubmitResets(st: WizardState)
    ensures Apply(st, Submit).currentStep == 1
    ensures Apply(st, Submit).reportData.evidenceLinks == [""]
    ensures forall f :: FieldValue(Apply(st, Submit).reportData, f) == ""
  {
  }

  // ----------------------------------------------------------- the page

  /** The page's state: `currentStep` and `reportData`. */
  class ReportWizard {
    var currentStep: int
    var reportData: ReportData

    function State(): WizardState
      reads this
    {
      WizardState(currentStep, reportData)
    }

    ghost predicate Valid()
      reads this
    {
      InBounds(State())
    }

    constructor ()
      ensures State() == InitialState() && Valid()
    {
      currentStep := 1;
      reportData := InitialReportData();
    }

    /** `nextStep()` (the toast shown on failure is not modelled). */
    method NextStep()
      modifies this
      ensures State() == Apply(old(State()), Next)
      ensures old(Valid()) ==> Valid()
    {
      if ValidateStep(currentStep, reportData) {
        currentStep := Min(currentStep + 1, TotalSteps);
      }
    }

    /** `prevStep()`. */
    method PrevStep()
      modifies this
      ensures State() == Apply(old(State()), Prev)
      ensures old(Valid()) ==> Valid()
    {
      currentStep := Max(currentStep - 1, 1);
    }

    /** `updateReportData(field, value)`. */
    method UpdateReportData(field: Field, value: string)
      modifies this
      ensures State() == Apply(old(State()), Update(field, value))
      ensures currentStep == old(currentStep)
      ensures FieldValue(reportData, field) == value
      ensures forall g :: g != field ==> FieldValue(reportData, g) == FieldValue(old(reportData), g)
      ensures reportData.evidenceLinks == old(reportData.evidenceLinks)
    {
      reportData := WithField(reportData, field, value);
    }

    /** `addEvidenceLink()`. */
    method AddEvidenceLink()
      modifies this
      ensures State() == Apply(old(State()), Action.AddEvidenceLink)
      ensures reportData.evidenceLinks == old(reportData.evidenceLinks) + [""]
    {
      reportData := reportData.(evidenceLinks := AppendLink(reportData.evidenceLinks));
    }

    /** `updateEvidenceLink(index, value)`. */
    method UpdateEvidenceLink(index: int, value: string)
      modifies this
      ensures State() == Apply(old(State()), Action.UpdateEvidenceLink(index, value))
      ensures |reportData.evidenceLinks| == |old(reportData.evidenceLinks)|
      ensures forall i :: 0 <= i < |reportData.evidenceLinks| && i != index ==>
        reportData.evidenceLinks[i] == old(reportData.evidenceLinks)[i]
    {
      reportData := reportData.(evidenceLinks := ReplaceLink(reportData.evidenceLinks, index, value));
    }

    /** `removeEvidenceLink(index)`. */
    method RemoveEvidenceLink(index: int)
      modifies this
      ensures State() == Apply(old(State()), Action.RemoveEvidenceLink(index))
      ensures 0 <= index < |old(reportData.evidenceLinks)| ==>
        reportData.evidenceLinks == old(reportData.evidenceLinks)[..index] + old(reportData.evidenceLinks)[index + 1..]
    {
      reportData := reportData.(evidenceLinks := RemoveLink(reportData.evidenceLinks, index));
    }

    /** The end state of a successful `handleSubmit()`. */
    method ResetAfterSubmit()
      modifies this
      ensures State() == Apply(old(State()), Submit)
      ensures Valid()
    {
      currentStep := 1;
      reportData := InitialReportData();
    }
  }
}
