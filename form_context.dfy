/**
 * The form store shared by the triage screens: the state record built by
 * `initialState` and the `formReducer` that `useReducer` folds dispatched
 * actions through.
 */
module FormContext {
  import opened Wrappers
  import opened Text

  datatype PatientInfo = PatientInfo(
    firstName: string,
    lastName: string,
    dateOfBirth: string,
    email: string,
    phone: string)

  /**
   * The triage record with the fields `initialState` gives it at runtime.
   * `criticalSigns` is optional because the screens guard against it being
   * missing (`|| []`, `?.includes`); `None` stands for `undefined`.
   */
  datatype Triage = Triage(
    region: string,
    specialty: string,
    urgencyLevel: string,
    incidentType: string,
    painLevel: string,
    durationHours: string,
    durationMinutes: string,
    criticalSigns: Option<seq<string>>,
    consciousnessState: string,
    description: string,
    duration: string,
    durationUnit: string)

  /** The appointment choice; `kind` is the source's `type` field. */
  datatype Appointment = Appointment(kind: string, preferredTime: string)

  datatype FormState = FormState(
    patientInfo: PatientInfo,
    triage: Triage,
    appointment: Appointment,
    showMap: bool)

  /** The six action kinds of the reducer's action union. */
  datatype Action =
    | SetStep(step: int)
    | SetPatientInfo(newPatientInfo: PatientInfo)
    | SetTriage(newTriage: Triage)
    | SetAppointment(newAppointment: Appointment)
    | ResetForm
    | SetMapVisibility(visible: bool)

  /** The record the store starts from and that a reset restores. */
  function InitialState(): (s: FormState)
    ensures s.patientInfo == PatientInfo("", "", "", "", "")
    ensures s.triage.region == "Île-de-France" && s.triage.specialty == "Cardiologist"
    ensures s.triage.urgencyLevel == "" && s.triage.incidentType == ""
    ensures s.triage.consciousnessState == "" && s.triage.description == ""
    ensures s.triage.criticalSigns == Some([])
    ensures s.triage.painLevel == "0"
    ensures s.triage.durationHours == "0" && s.triage.durationMinutes == "0"
    ensures s.triage.duration == "" && s.triage.durationUnit == "minutes"
    ensures s.appointment == Appointment("in-person", "")
    ensures !s.showMap
  {
    FormState(
      PatientInfo("", "", "", "", ""),
      Triage(
        "Île-de-France", "Cardiologist", "", "", "0", "0", "0",
        Some([]), "", "", "", "minutes"),
      Appointment("in-person", ""),
      false)
  }

  /**
   * One reducer step. Each setter replaces exactly one part of the record,
   * a reset yields the initial record whatever came before, and `SetStep`
   * has no case of its own, so it falls through to the default branch.
   */
  function Reduce(state: FormState, action: Action): (r: FormState)
    ensures action.SetPatientInfo? ==>
      r.patientInfo == action.newPatientInfo && r.triage == state.triage &&
      r.appointment == state.appointment && r.showMap == state.showMap
    ensures action.SetTriage? ==>
      r.triage == action.newTriage && r.patientInfo == state.patientInfo &&
      r.appointment == state.appointment && r.showMap == state.showMap
    ensures action.SetAppointment? ==>
      r.appointment == action.newAppointment && r.patientInfo == state.patientInfo &&
      r.triage == state.triage && r.showMap == state.showMap
    ensures action.SetMapVisibility? ==>
      r.showMap == action.visible && r.patientInfo == state.patientInfo &&
      r.triage == state.triage && r.appointment == state.appointment
    ensures action.ResetForm? ==> r == InitialState()
    ensures action.SetStep? ==> r == state
  {
    match action
    case SetPatientInfo(p) => state.(patientInfo := p)
    case SetTriage(t) => state.(triage := t)
    case SetAppointment(a) => state.(appointment := a)
    case ResetForm => InitialState()
    case SetMapVisibility(v) => state.(showMap := v)
    case SetStep(_) => state
  }

  /** The state after dispatching `actions` in order, as `useReducer` folds them. */
  function Run(state: FormState, actions: seq<Action>): FormState
    decreases |actions|
  {
    if actions == [] then state else Run(Reduce(state, actions[0]), actions[1..])
  }

  /**
   * The dispatch history with every `SetStep` action taken out: every other
   * action is kept, as often as it was dispatched and in the same order.
   */
  function DropSetSteps(actions: seq<Action>): (r: seq<Action>)
    ensures forall i :: 0 <= i < |r| ==> !r[i].SetStep?
    ensures IsSubsequence(r, actions)
    ensures forall a: Action :: !a.SetStep? ==> multiset(r)[a] == multiset(actions)[a]
  {
    if actions == [] then []
    else
      assert actions == [actions[0]] + actions[1..];
      var rest := DropSetSteps(actions[1..]);
      if actions[0].SetStep? then rest else [actions[0]] + rest
  }

  /**
   * Dispatching `SetStep` anywhere in a history makes no difference: the
   * store ends in the same state as if those dispatches never happened.
   */
  lemma {:induction false} SetStepsAreIgnored(state: FormState, actions: seq<Action>)
    ensures Run(state, actions) == Run(state, DropSetSteps(actions))
    decreases |actions|
  {
    if actions != [] {
      SetStepsAreIgnored(Reduce(state, actions[0]), actions[1..]);
      if !actions[0].SetStep? {
        var rest := DropSetSteps(actions[1..]);
        assert ([actions[0]] + rest)[1..] == rest;
      }
    }
  }

  /**
   * A reset forgets the whole history before it: what follows a reset at
   * position `i` runs from the initial record, whatever the earlier state.
   */
  lemma {:induction false} ResetForgetsHistory(state: FormState, actions: seq<Action>, i: nat)
    requires i < |actions| && actions[i] == ResetForm
    ensures Run(state, actions) == Run(InitialState(), actions[i + 1..])
    decreases i
  {
    if i > 0 {
      ResetForgetsHistory(Reduce(state, actions[0]), actions[1..], i - 1);
      assert actions[1..][i..] == actions[i + 1..];
    }
  }

  /** Applying a reset twice ends where applying it once does, from any state. */
  lemma {:induction false} ResetIdempotent(state: FormState)
    ensures Run(state, [ResetForm, ResetForm]) == Run(state, [ResetForm])
  {
    ResetForgetsHistory(state, [ResetForm, ResetForm], 1);
    ResetForgetsHistory(state, [ResetForm], 0);
  }
}
