/** The menu state machine of the USSD handler.

    The server keeps no session state: every request carries the whole path
    of choices, and the node the user is at follows from the first step (the
    top-level selection) and the number of steps alone. The outcome of a
    request is a prompt that expects more input, a final message, or a final
    message together with one record to hand to the record store. */
module Menu {
  import opened Steps
  import opened Records

  datatype Option<T> = None | Some(value: T)

  // Message texts, as sent after the "CON " or "END " marker.

  const WelcomeText := "Welcome to Smart Inclusion System\n1. Register as Farmer\n2. Report Crop Production\n3. Report Livestock\n4. Check Market Prices\n5. Farming Tips\n6. Weather Update"

  const NamePrompt := "Enter your name:"
  const LocationPrompt := "Enter your location:"
  const FarmSizePrompt := "Enter your farm size (e.g., 2 hectares):"
  const CropsPrompt := "Enter main crops (comma separated):"
  const LivestockPrompt := "Enter livestock (comma separated, or 'none'):"
  const CropNamePrompt := "Enter crop name:"
  const QuantityPrompt := "Enter quantity harvested (e.g., 100kg):"
  const AnimalPrompt := "Enter animal type (e.g., Goats):"
  const AnimalCountPrompt := "Enter number of animals (e.g., 10):"

  const RegistrationOk := "Registration successful!"
  const RegistrationFailed := "Registration failed. Please try again."
  const CropReportOk := "Crop production reported successfully!"
  const CropReportFailed := "Crop reporting failed. Please try again."
  const LivestockReportOk := "Livestock reported successfully!"
  const LivestockReportFailed := "Livestock reporting failed. Please try again."

  const InvalidInput := "Invalid input."
  const TipText := "Tip: Rotate crops to improve soil fertility."
  const WeatherText := "Weather: Light rains expected tomorrow."
  const InvalidOption := "Invalid option"

  datatype Outcome =
    | Continue(prompt: string)
    | Finish(message: string)
    | Persist(record: Record, okMessage: string, failMessage: string)

  /** The handler's decision for one request, branch for branch as the
      if/elif chain takes it: note that the empty path and selections 4 and 5
      are recognised on the whole text, the flows on the first step. */
  function Transition(text: string, phone: string): (o: Outcome)
    ensures o.Continue? <==>
              (text == "" ||
               (FlowOf(Decode(text)[0]).Some? && |Decode(text)| < FlowOf(Decode(text)[0]).value.TerminalLength()))
    ensures text == "" ==> o == Continue(WelcomeText)
    ensures o.Persist? ==> o.record.phone == phone
  {
    var steps := Decode(text);
    if text == "" then Continue(WelcomeText)
    else if steps[0] == "1" then
      if |steps| == 1 then Continue(NamePrompt)
      else if |steps| == 2 then Continue(LocationPrompt)
      else if |steps| == 3 then Continue(FarmSizePrompt)
      else if |steps| == 4 then Continue(CropsPrompt)
      else if |steps| == 5 then Continue(LivestockPrompt)
      else if |steps| == 6 then
        Persist(Farmer(phone, steps[1], steps[2], steps[3], steps[4], steps[5]),
                RegistrationOk, RegistrationFailed)
      else Finish(InvalidInput)
    else if steps[0] == "2" then
      if |steps| == 1 then Continue(CropNamePrompt)
      else if |steps| == 2 then Continue(QuantityPrompt)
      else if |steps| == 3 then
        Persist(CropReport(phone, steps[1], steps[2]), CropReportOk, CropReportFailed)
      else Finish(InvalidInput)
    else if steps[0] == "3" then
      if |steps| == 1 then Continue(AnimalPrompt)
      else if |steps| == 2 then Continue(AnimalCountPrompt)
      else if |steps| == 3 then
        Persist(LivestockReport(phone, steps[1], steps[2]), LivestockReportOk, LivestockReportFailed)
      else Finish(InvalidInput)
    else if text == "4" then Finish(TipText)
    else if text == "5" then Finish(WeatherText)
    else Finish(InvalidOption)
  }

  /** The three data-collection flows, each with its fixed prompts, its
      terminal length and the record it builds. */
  datatype Flow = Registration | CropReporting | LivestockReporting
  {
    function Selection(): string
    {
      match this
      case Registration => "1"
      case CropReporting => "2"
      case LivestockReporting => "3"
    }

    function Prompts(): seq<string>
    {
      match this
      case Registration => [NamePrompt, LocationPrompt, FarmSizePrompt, CropsPrompt, LivestockPrompt]
      case CropReporting => [CropNamePrompt, QuantityPrompt]
      case LivestockReporting => [AnimalPrompt, AnimalCountPrompt]
    }

    /** The selection step plus one step per prompt: 6 steps complete a
        registration, 3 complete either report. */
    function TerminalLength(): (n: nat)
      ensures n == (if this == Registration then 6 else 3)
    {
      |Prompts()| + 1
    }

    function Build(phone: string, fields: seq<string>): Record
      requires |fields| == |Prompts()|
    {
      match this
      case Registration => Farmer(phone, fields[0], fields[1], fields[2], fields[3], fields[4])
      case CropReporting => CropReport(phone, fields[0], fields[1])
      case LivestockReporting => LivestockReport(phone, fields[0], fields[1])
    }

    function SuccessMessage(): string
    {
      match this
      case Registration => RegistrationOk
      case CropReporting => CropReportOk
      case LivestockReporting => LivestockReportOk
    }

    function FailureMessage(): string
    {
      match this
      case Registration => RegistrationFailed
      case CropReporting => CropReportFailed
      case LivestockReporting => LivestockReportFailed
    }
  }

  function FlowOf(selection: string): (f: Option<Flow>)
    ensures f.Some? ==> f.value.Selection() == selection
    ensures f.None? ==> selection !in {"1", "2", "3"}
  {
    if selection == "1" then Some(Registration)
    else if selection == "2" then Some(CropReporting)
    else if selection == "3" then Some(LivestockReporting)
    else None
  }

  /** The flow a stored record came from. */
  function FlowOfRecord(r: Record): Flow
  {
    match r
    case Farmer(_, _, _, _, _, _) => Registration
    case CropReport(_, _, _) => CropReporting
    case LivestockReport(_, _, _) => LivestockReporting
  }

  /** The menu tree as a table: a flow prompts below its terminal length,
      persists at it and rejects past it; outside the flows only the single
      steps 4 and 5 have an answer. */
  function ByTable(steps: seq<string>, phone: string): Outcome
  {
    if steps == [] then Continue(WelcomeText)
    else match FlowOf(steps[0])
      case Some(f) =>
        if |steps| < f.TerminalLength() then Continue(f.Prompts()[|steps| - 1])
        else if |steps| == f.TerminalLength() then
          Persist(f.Build(phone, steps[1..]), f.SuccessMessage(), f.FailureMessage())
        else Finish(InvalidInput)
      case None =>
        if steps == ["4"] then Finish(TipText)
        else if steps == ["5"] then Finish(WeatherText)
        else Finish(InvalidOption)
  }

  /** The handler's if/elif chain is the menu table applied to the decoded
      path. */
  lemma TransitionFollowsTable(text: string, phone: string)
    ensures Transition(text, phone) == ByTable(Decode(text), phone)
  {
    DecodeSingle(text, "4");
    DecodeSingle(text, "5");
  }

  /** Below the terminal length a flow asks its questions in fixed order:
      the n-th step gets the n-th prompt, and nothing is persisted. */
  lemma PromptsInFixedOrder(text: string, phone: string, f: Flow)
    requires text != "" && FlowOf(Decode(text)[0]) == Some(f)
    requires |Decode(text)| < f.TerminalLength()
    ensures Transition(text, phone) == Continue(f.Prompts()[|Decode(text)| - 1])
  {
    TransitionFollowsTable(text, phone);
  }

  /** A record is handed to the store exactly when the path has a flow's
      selection and exactly that flow's terminal length (6 for registration,
      3 for either report). */
  lemma PersistExactlyAtTerminalLength(text: string, phone: string)
    ensures Transition(text, phone).Persist? <==>
      text != "" && FlowOf(Decode(text)[0]).Some? &&
      |Decode(text)| == FlowOf(Decode(text)[0]).value.TerminalLength()
  {
    TransitionFollowsTable(text, phone);
  }

  /** A persisted record carries the phone number and every step after the
      selection verbatim: the selection and the entered fields joined with
      '*' give back the request text. The messages are the flow's own. */
  lemma PersistedRecordReplaysPath(text: string, phone: string)
    requires Transition(text, phone).Persist?
    ensures var o := Transition(text, phone);
      var f := FlowOfRecord(o.record);
      o.record.phone == phone &&
      Decode(text) == [f.Selection()] + Entered(o.record) &&
      text == Join([f.Selection()] + Entered(o.record)) &&
      o.okMessage == f.SuccessMessage() && o.failMessage == f.FailureMessage()
  {
    var steps := Decode(text);
    TransitionFollowsTable(text, phone);
    JoinDecode(text);
    var f := FlowOf(steps[0]).value;
    var r := f.Build(phone, steps[1..]);
    assert FlowOfRecord(r) == f;
    assert Entered(r) == steps[1..];
    assert steps == [f.Selection()] + steps[1..];
  }

  /** A path longer than its flow's terminal length is invalid input. */
  lemma OverflowIsInvalidInput(text: string, phone: string, f: Flow)
    requires text != "" && FlowOf(Decode(text)[0]) == Some(f)
    requires |Decode(text)| > f.TerminalLength()
    ensures Transition(text, phone) == Finish(InvalidInput)
  {
    TransitionFollowsTable(text, phone);
  }

  /** The tip and the weather report answer only the one-step paths 4 and 5;
      every other path whose selection is not a flow is an invalid option
      (6, which the menu lists, included, and 4 or 5 followed by more
      steps). */
  lemma OtherSelections(text: string, phone: string)
    requires text != "" && FlowOf(Decode(text)[0]).None?
    ensures Transition(text, phone) == Finish(TipText) <==> Decode(text) == ["4"]
    ensures Transition(text, phone) == Finish(WeatherText) <==> Decode(text) == ["5"]
    ensures Transition(text, phone) == Finish(InvalidOption) <==> Decode(text) != ["4"] && Decode(text) != ["5"]
  {
    TransitionFollowsTable(text, phone);
  }

  /** The menu lists a sixth option, but selecting it ends the session as
      an invalid option. */
  lemma SixIsInvalidOption(text: string, phone: string)
    requires text != "" && Decode(text)[0] == "6"
    ensures Transition(text, phone) == Finish(InvalidOption)
  {
    OtherSelections(text, phone);
  }

  /** Token content is never checked: apart from the record that is built,
      the node depends only on the selection and the number of steps, not on
      the text of the other steps nor on the phone number. */
  lemma NodeDependsOnSelectionAndLength(text1: string, phone1: string, text2: string, phone2: string)
    requires text1 != "" && text2 != ""
    requires Decode(text1)[0] == Decode(text2)[0] && |Decode(text1)| == |Decode(text2)|
    requires !Transition(text1, phone1).Persist?
    ensures Transition(text1, phone1) == Transition(text2, phone2)
  {
    TransitionFollowsTable(text1, phone1);
    TransitionFollowsTable(text2, phone2);
    var s1, s2 := Decode(text1), Decode(text2);
    if |s1| == 1 {
      assert s1 == [s1[0]] && s2 == [s2[0]];
    }
  }
}
