/**
 * `logEmergencyData`: the triage record written to the console as a group of
 * labelled lines. The console is modelled as the sequence of events the
 * function emits, in order.
 */
module FormLogger {
  import opened Wrappers
  import opened Text
  import opened FormContext
  import opened TriageForm

  /** The one failure the body can raise: reading `.length` of a missing sign list. */
  datatype JsError = TypeErrorReading(property: string)

  datatype ConsoleEvent =
    | GroupStart(title: string)
    | Line(heading: string, value: string)
    | GroupEnd
    | ErrorLine(heading: string, error: JsError)

  const GroupTitle: string := "Emergency Patient Information"
  const ErrorLabel: string := "Error logging emergency data:"

  const UrgencyLabel: string := "\U{1F6A8} Urgency Level:"
  const IncidentLabel: string := "\U{1F3E5} Incident Type:"
  const PainLabel: string := "\U{1F4CA} Pain Level:"
  const DurationLabel: string := "\U{23F1}\U{FE0F} Duration:"
  const SignsLabel: string := "\U{26A0}\U{FE0F} Critical Signs:"
  const ConsciousnessLabel: string := "\U{1F9E0} Consciousness State:"
  const DescriptionLabel: string := "\U{1F4DD} Description:"

  /** The seven labels, in the order the lines are written. */
  const Labels: seq<string> :=
    [UrgencyLabel, IncidentLabel, PainLabel, DurationLabel, SignsLabel, ConsciousnessLabel, DescriptionLabel]

  /** `${durationHours}h ${durationMinutes}m`. */
  function DurationText(t: Triage): string
  {
    t.durationHours + "h " + t.durationMinutes + "m"
  }

  /** `${painLevel}/10`. */
  function PainText(painLevel: string): (r: string)
    ensures |r| == |painLevel| + 3 && r[..|painLevel|] == painLevel && r[|painLevel|..] == "/10"
  {
    painLevel + "/10"
  }

  /** The signs joined with ", ", or "None reported" for an empty list. */
  function SignsText(signs: seq<string>): (r: string)
    ensures signs == [] ==> r == "None reported"
    ensures |signs| == 1 ==> r == signs[0]
    ensures |signs| >= 2 ==> r == signs[0] + ", " + SignsText(signs[1..])
  {
    if |signs| == 0 then "None reported" else Join(signs, ", ")
  }

  /** The description, or "No description provided" when it is empty. */
  function DescriptionText(description: string): (r: string)
    ensures description == [] ==> r == "No description provided"
    ensures description != [] ==> r == description
  {
    if description == "" then "No description provided" else description
  }

  /** The events of one call, in order; the body's error is caught and logged. */
  function LogEmergencyData(t: Triage): (out: seq<ConsoleEvent>)
    ensures |out| >= 5 && out[0] == GroupStart(GroupTitle)
    ensures out[1] == Line(UrgencyLabel, t.urgencyLevel)
    ensures out[2] == Line(IncidentLabel, t.incidentType)
    ensures out[3] == Line(PainLabel, PainText(t.painLevel))
    ensures out[4] == Line(DurationLabel, DurationText(t))
    ensures t.criticalSigns.Some? ==>
      |out| == 9 &&
      out[5] == Line(SignsLabel, SignsText(t.criticalSigns.value)) &&
      out[6] == Line(ConsciousnessLabel, t.consciousnessState) &&
      out[7] == Line(DescriptionLabel, DescriptionText(t.description)) &&
      out[8] == GroupEnd
    ensures t.criticalSigns.None? ==>
      |out| == 6 && out[5] == ErrorLine(ErrorLabel, TypeErrorReading("length"))
  {
    var head := [
      GroupStart(GroupTitle),
      Line(UrgencyLabel, t.urgencyLevel),
      Line(IncidentLabel, t.incidentType),
      Line(PainLabel, PainText(t.painLevel)),
      Line(DurationLabel, DurationText(t))
    ];
    match t.criticalSigns
    case None => head + [ErrorLine(ErrorLabel, TypeErrorReading("length"))]
    case Some(signs) =>
      head + [
        Line(SignsLabel, SignsText(signs)),
        Line(ConsciousnessLabel, t.consciousnessState),
        Line(DescriptionLabel, DescriptionText(t.description)),
        GroupEnd
      ]
  }

  /** The labels of the logged lines, in order. */
  function LabelsOf(events: seq<ConsoleEvent>): seq<string>
  {
    if events == [] then []
    else (if events[0].Line? then [events[0].heading] else []) + LabelsOf(events[1..])
  }

  /** Reading the labels from position `k` on: the event at `k`, then the rest. */
  lemma LabelsOfStep(events: seq<ConsoleEvent>, k: nat)
    requires k < |events|
    ensures LabelsOf(events[k..]) ==
      (if events[k].Line? then [events[k].heading] else []) + LabelsOf(events[k + 1..])
  {
    assert events[k..][1..] == events[k + 1..];
  }

  /**
   * With a sign list present, exactly seven labelled lines are written
   * between the group's start and end, in the fixed order urgency, incident,
   * pain, duration, signs, consciousness, description.
   */
  lemma SevenLinesInOrder(t: Triage)
    requires t.criticalSigns.Some?
    ensures LabelsOf(LogEmergencyData(t)) == Labels
  {
    var out := LogEmergencyData(t);
    assert out[9..] == [];
    LabelsOfStep(out, 8);
    LabelsOfStep(out, 7);
    LabelsOfStep(out, 6);
    LabelsOfStep(out, 5);
    LabelsOfStep(out, 4);
    LabelsOfStep(out, 3);
    LabelsOfStep(out, 2);
    LabelsOfStep(out, 1);
    LabelsOfStep(out, 0);
    assert out[0..] == out;
  }

  /**
   * The form never writes `durationHours` or `durationMinutes`, so whatever
   * the user types, selects or checks after the store starts, the duration
   * line reads "0h 0m".
   */
  lemma DurationLineStaysZero(events: seq<FormEvent>)
    ensures LogEmergencyData(ApplyFormEvents(InitialState(), events).triage)[4] == Line(DurationLabel, "0h 0m")
  {
  }

  /**
   * Checking one more sign on a non-empty list extends the signs line by
   * ", " and the sign; on an empty list it replaces "None reported".
   */
  lemma SignsLineAfterCheck(signs: seq<string>, sign: string)
    ensures signs == [] ==> SignsText(signs + [sign]) == sign
    ensures signs != [] ==> SignsText(signs + [sign]) == SignsText(signs) + ", " + sign
  {
    if signs != [] {
      JoinSnoc(signs, sign, ", ");
    } else {
      assert signs + [sign] == [sign];
    }
  }

  /** The worked example: a high-urgency neurological record with one sign. */
  lemma ExampleRecord(t: Triage)
    requires t.urgencyLevel == "high" && t.incidentType == "Neurological"
    requires t.painLevel == "8" && t.durationHours == "0" && t.durationMinutes == "5"
    requires t.criticalSigns == Some(["Severe Headache"]) && t.consciousnessState == "Altered"
    ensures LogEmergencyData(t)[1..7] == [
      Line(UrgencyLabel, "high"),
      Line(IncidentLabel, "Neurological"),
      Line(PainLabel, "8/10"),
      Line(DurationLabel, "0h 5m"),
      Line(SignsLabel, "Severe Headache"),
      Line(ConsciousnessLabel, "Altered")
    ]
  {
    assert PainText("8") == "8/10";
    assert DurationText(t) == "0h 5m";
    assert SignsText(["Severe Headache"]) == "Severe Headache";
  }
}
