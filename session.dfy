/** The session dispatcher: one request in, one response line out, and at
    most one record added to the record store.

    The record store stands in for the database: it keeps the records that
    were committed, in order. Whether the store accepts an insert (the insert
    and the commit both succeed) is not up to the handler; it is a parameter
    here. */
module Session {
  import opened Steps
  import opened Records
  import opened Menu

  const ContinueMarker := "CON "
  const EndMarker := "END "

  /** The response line for an outcome: "CON " and the prompt when more
      input is expected, "END " and the message otherwise; a persisting
      outcome ends with the flow's success or failure message, depending on
      whether the store accepted the record. */
  function Reply(o: Outcome, stored: bool): (response: string)
    ensures |response| >= 4
    ensures response[..4] == ContinueMarker <==> o.Continue?
    ensures response[..4] == EndMarker <==> !o.Continue?
    ensures o.Continue? ==> response == ContinueMarker + o.prompt
    ensures o.Finish? ==> response == EndMarker + o.message
    ensures o.Persist? ==> response == EndMarker + (if stored then o.okMessage else o.failMessage)
  {
    match o
    case Continue(prompt) => ContinueMarker + prompt
    case Finish(message) => EndMarker + message
    case Persist(_, okMessage, failMessage) => EndMarker + (if stored then okMessage else failMessage)
  }

  /** What a request adds to the store: the outcome's record if it has one
      and the store accepted it, nothing otherwise. */
  function Written(o: Outcome, stored: bool): (added: seq<Record>)
    ensures |added| <= 1
    ensures added != [] <==> o.Persist? && stored
    ensures forall i :: 0 <= i < |added| ==> added[i] == o.record
  {
    if o.Persist? && stored then [o.record] else []
  }

  class RecordStore {
    /** The committed records of all three tables, oldest first. */
    var records: seq<Record>

    constructor ()
      ensures records == []
    {
      records := [];
    }

    /** One insert followed by a commit. When the store does not accept it
        the uncommitted row is discarded with the connection, so nothing is
        added. */
    method Insert(r: Record, accepted: bool) returns (committed: bool)
      modifies this
      ensures committed == accepted
      ensures records == old(records) + (if accepted then [r] else [])
    {
      if accepted {
        records := records + [r];
      }
      committed := accepted;
    }

    /** The USSD request handler. The response depends only on the text, the
        phone number and whether the store accepts an insert; at most one
        record is added, and only on a path of a flow's terminal length. */
    method Handle(phone: string, text: string, accepted: bool) returns (response: string)
      modifies this
      ensures response == Reply(Transition(text, phone), accepted)
      ensures records == old(records) + Written(Transition(text, phone), accepted)
    {
      var steps := Decode(text);
      if text == "" {
        response := ContinueMarker + WelcomeText;
      } else if steps[0] == "1" {
        if |steps| == 1 {
          response := ContinueMarker + NamePrompt;
        } else if |steps| == 2 {
          response := ContinueMarker + LocationPrompt;
        } else if |steps| == 3 {
          response := ContinueMarker + FarmSizePrompt;
        } else if |steps| == 4 {
          response := ContinueMarker + CropsPrompt;
        } else if |steps| == 5 {
          response := ContinueMarker + LivestockPrompt;
        } else if |steps| == 6 {
          var committed := Insert(Farmer(phone, steps[1], steps[2], steps[3], steps[4], steps[5]), accepted);
          if committed {
            response := EndMarker + RegistrationOk;
          } else {
            response := EndMarker + RegistrationFailed;
          }
        } else {
          response := EndMarker + InvalidInput;
        }
      } else if steps[0] == "2" {
        if |steps| == 1 {
          response := ContinueMarker + CropNamePrompt;
        } else if |steps| == 2 {
          response := ContinueMarker + QuantityPrompt;
        } else if |steps| == 3 {
          var committed := Insert(CropReport(phone, steps[1], steps[2]), accepted);
          if committed {
            response := EndMarker + CropReportOk;
          } else {
            response := EndMarker + CropReportFailed;
          }
        } else {
          response := EndMarker + InvalidInput;
        }
      } else if steps[0] == "3" {
        if |steps| == 1 {
          response := ContinueMarker + AnimalPrompt;
        } else if |steps| == 2 {
          response := ContinueMarker + AnimalCountPrompt;
        } else if |steps| == 3 {
          var committed := Insert(LivestockReport(phone, steps[1], steps[2]), accepted);
          if committed {
            response := EndMarker + LivestockReportOk;
          } else {
            response := EndMarker + LivestockReportFailed;
          }
        } else {
          response := EndMarker + InvalidInput;
        }
      } else if text == "4" {
        response := EndMarker + TipText;
      } else if text == "5" {
        response := EndMarker + WeatherText;
      } else {
        response := EndMarker + InvalidOption;
      }
    }
  }

  /** Sending the same request twice to a store, whatever it already
      holds, gives the same response both times: the handler keeps no session
      state. Nothing deduplicates, so replaying a completed path whose
      inserts are accepted stores the same record twice. */
  method Replay(store: RecordStore, phone: string, text: string, accepted: bool) returns (first: string, second: string)
    modifies store
    ensures first == second == Reply(Transition(text, phone), accepted)
    ensures store.records == old(store.records) + Written(Transition(text, phone), accepted)
                                                + Written(Transition(text, phone), accepted)
  {
    first := store.Handle(phone, text, accepted);
    second := store.Handle(phone, text, accepted);
  }

  /** The store changes only on a path of exactly a flow's terminal length
      whose insert is accepted, and then by exactly the record built from
      the path. */
  lemma StoreChangesOnlyAtTerminalLength(text: string, phone: string, accepted: bool)
    ensures Written(Transition(text, phone), accepted) != [] <==>
              (accepted && text != "" && FlowOf(Decode(text)[0]).Some? &&
               |Decode(text)| == FlowOf(Decode(text)[0]).value.TerminalLength())
    ensures Written(Transition(text, phone), accepted) != [] ==>
              var r := Transition(text, phone).record;
              Written(Transition(text, phone), accepted) == [r] && r.phone == phone &&
              text == Join([FlowOfRecord(r).Selection()] + Entered(r))
  {
    PersistExactlyAtTerminalLength(text, phone);
    if Transition(text, phone).Persist? {
      PersistedRecordReplaysPath(text, phone);
    }
  }

  /** A crop report with both answers is stored once, verbatim, when the
      store accepts it, and ends with the flow's success or failure message. */
  lemma CropReportCompleted(phone: string, crop: string, quantity: string, accepted: bool)
    requires IsToken(crop) && IsToken(quantity)
    ensures Reply(Transition("2*" + crop + "*" + quantity, phone), accepted)
            == EndMarker + (if accepted then CropReportOk else CropReportFailed)
    ensures Written(Transition("2*" + crop + "*" + quantity, phone), accepted)
            == if accepted then [CropReport(phone, crop, quantity)] else []
  {
    var ts := ["2", crop, quantity];
    assert Join(ts[1..]) == crop + "*" + quantity;
    assert Join(ts) == "2*" + crop + "*" + quantity;
    DecodeJoin(ts);
    TransitionFollowsTable(Join(ts), phone);
  }

  /** A livestock report with both answers is stored once, verbatim, when the
      store accepts it; otherwise nothing is stored and the reply is the
      flow's failure message. */
  lemma LivestockReportCompleted(phone: string, animal: string, count: string, accepted: bool)
    requires IsToken(animal) && IsToken(count)
    ensures Reply(Transition("3*" + animal + "*" + count, phone), accepted)
            == EndMarker + (if accepted then LivestockReportOk else LivestockReportFailed)
    ensures Written(Transition("3*" + animal + "*" + count, phone), accepted)
            == if accepted then [LivestockReport(phone, animal, count)] else []
  {
    var ts := ["3", animal, count];
    assert Join(ts[1..]) == animal + "*" + count;
    assert Join(ts) == "3*" + animal + "*" + count;
    DecodeJoin(ts);
    TransitionFollowsTable(Join(ts), phone);
  }

  /** A registration with all five answers stores them verbatim when the
      store accepts it. */
  lemma RegistrationCompleted(phone: string, name: string, location: string, farmSize: string,
                              crops: string, livestock: string, accepted: bool)
    requires IsToken(name) && IsToken(location) && IsToken(farmSize) && IsToken(crops) && IsToken(livestock)
    ensures var text := "1*" + name + "*" + location + "*" + farmSize + "*" + crops + "*" + livestock;
      Reply(Transition(text, phone), accepted)
        == EndMarker + (if accepted then RegistrationOk else RegistrationFailed) &&
      Written(Transition(text, phone), accepted)
        == if accepted then [Farmer(phone, name, location, farmSize, crops, livestock)] else []
  {
    var ts := ["1", name, location, farmSize, crops, livestock];
    assert Join(ts[5..]) == livestock;
    assert Join(ts[4..]) == crops + "*" + livestock;
    assert Join(ts[3..]) == farmSize + "*" + crops + "*" + livestock;
    assert Join(ts[2..]) == location + "*" + farmSize + "*" + crops + "*" + livestock;
    assert Join(ts[1..]) == name + "*" + location + "*" + farmSize + "*" + crops + "*" + livestock;
    assert Join(ts) == "1*" + name + "*" + location + "*" + farmSize + "*" + crops + "*" + livestock;
    DecodeJoin(ts);
    TransitionFollowsTable(Join(ts), phone);
  }

  /** After the crop name, whatever it is, the next prompt asks for the
      quantity. */
  lemma QuantityPromptFollowsCrop(phone: string, crop: string, accepted: bool)
    requires IsToken(crop)
    ensures Reply(Transition("2*" + crop, phone), accepted) == ContinueMarker + QuantityPrompt
    ensures Written(Transition("2*" + crop, phone), accepted) == []
  {
    var ts := ["2", crop];
    assert Join(ts) == "2*" + crop;
    DecodeJoin(ts);
    TransitionFollowsTable(Join(ts), phone);
  }

  /** The tip is given only for the whole text 4: any further step makes it
      an invalid option. */
  lemma TipWithMoreStepsIsInvalid(phone: string, extra: string, accepted: bool)
    requires IsToken(extra)
    ensures Reply(Transition("4*" + extra, phone), accepted) == EndMarker + InvalidOption
    ensures Written(Transition("4*" + extra, phone), accepted) == []
  {
    var ts := ["4", extra];
    assert Join(ts) == "4*" + extra;
    DecodeJoin(ts);
    TransitionFollowsTable(Join(ts), phone);
  }
}
