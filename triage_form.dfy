/**
 * The emergency triage form: every input dispatches `SET_TRIAGE` with a copy
 * of the current record in which one field differs, the critical-sign
 * checkboxes append or filter, and the submit button is enabled only once
 * urgency and incident type are chosen. The browser lets the form submit
 * only once the duration input holds a whole number of at least 1, and
 * submitting opens the suggestions modal and nothing else.
 */
module TriageForm {
  import opened Wrappers
  import opened Text
  import opened FormContext

  /** The text fields the form edits, one handler each. */
  datatype Field =
    | UrgencyLevel
    | IncidentType
    | PainLevel
    | Duration
    | DurationUnit
    | ConsciousnessState
    | Description

  function Get(t: Triage, f: Field): string
  {
    match f
    case UrgencyLevel => t.urgencyLevel
    case IncidentType => t.incidentType
    case PainLevel => t.painLevel
    case Duration => t.duration
    case DurationUnit => t.durationUnit
    case ConsciousnessState => t.consciousnessState
    case Description => t.description
  }

  /** The fields no handler of the form writes. */
  predicate SameUneditedFields(a: Triage, b: Triage)
  {
    a.region == b.region && a.specialty == b.specialty &&
    a.durationHours == b.durationHours && a.durationMinutes == b.durationMinutes &&
    a.criticalSigns == b.criticalSigns
  }

  /**
   * The payload `{ ...triage, <field>: value }`: the edited field holds the
   * new value and every other field, edited by the form or not, is as before.
   */
  function EditField(t: Triage, f: Field, value: string): (r: Triage)
    ensures Get(r, f) == value
    ensures forall g :: g != f ==> Get(r, g) == Get(t, g)
    ensures SameUneditedFields(r, t)
  {
    match f
    case UrgencyLevel => t.(urgencyLevel := value)
    case IncidentType => t.(incidentType := value)
    case PainLevel => t.(painLevel := value)
    case Duration => t.(duration := value)
    case DurationUnit => t.(durationUnit := value)
    case ConsciousnessState => t.(consciousnessState := value)
    case Description => t.(description := value)
  }

  /** Two records that agree on every edited field and on the rest are the same record. */
  lemma {:induction false} TriageExtensional(a: Triage, b: Triage)
    requires forall f :: Get(a, f) == Get(b, f)
    requires SameUneditedFields(a, b)
    ensures a == b
  {
    assert Get(a, UrgencyLevel) == Get(b, UrgencyLevel);
    assert Get(a, IncidentType) == Get(b, IncidentType);
    assert Get(a, PainLevel) == Get(b, PainLevel);
    assert Get(a, Duration) == Get(b, Duration);
    assert Get(a, DurationUnit) == Get(b, DurationUnit);
    assert Get(a, ConsciousnessState) == Get(b, ConsciousnessState);
    assert Get(a, Description) == Get(b, Description);
  }

  /**
   * An edit differs from the previous record in exactly the edited field:
   * writing the value already there gives the same record, and a record
   * that differs anywhere else is not the result of this edit.
   */
  lemma EditChangesExactlyOneField(t: Triage, f: Field, value: string, u: Triage)
    ensures EditField(t, f, Get(t, f)) == t
    ensures u == EditField(t, f, value) <==>
      (Get(u, f) == value && SameUneditedFields(u, t) &&
       forall g :: g != f ==> Get(u, g) == Get(t, g))
  {
    var same := EditField(t, f, Get(t, f));
    forall g ensures Get(same, g) == Get(t, g) { }
    TriageExtensional(same, t);
    var r := EditField(t, f, value);
    if Get(u, f) == value && SameUneditedFields(u, t) &&
       forall g :: g != f ==> Get(u, g) == Get(t, g)
    {
      forall g ensures Get(u, g) == Get(r, g) { }
      TriageExtensional(u, r);
    }
  }

  /** What an input's change handler dispatches, applied to the store. */
  function OnFieldChange(state: FormState, f: Field, value: string): (r: FormState)
    ensures r.triage == EditField(state.triage, f, value)
    ensures r.patientInfo == state.patientInfo && r.appointment == state.appointment
    ensures r.showMap == state.showMap
  {
    Reduce(state, SetTriage(EditField(state.triage, f, value)))
  }

  /** `triage.criticalSigns || []`. */
  function PresentSigns(signs: Option<seq<string>>): seq<string>
  {
    if signs.Some? then signs.value else []
  }

  /**
   * The new sign list for a checkbox change: a check appends the sign after
   * the existing entries, an uncheck removes every occurrence and keeps the
   * other signs in order. A missing list counts as empty.
   */
  function ToggleSign(signs: Option<seq<string>>, sign: string, checked: bool): (r: seq<string>)
    ensures checked ==>
      |r| == |PresentSigns(signs)| + 1 && r[|r| - 1] == sign &&
      r[..|r| - 1] == PresentSigns(signs)
    ensures !checked ==>
      sign !in r && IsSubsequence(r, PresentSigns(signs)) &&
      multiset(r) == multiset(PresentSigns(signs))[sign := 0]
    ensures signs.None? ==> r == (if checked then [sign] else [])
  {
    var current := PresentSigns(signs);
    if checked then current + [sign] else Without(current, sign)
  }

  /** On a list without the sign, checking it and then unchecking it restores the list. */
  lemma CheckThenUncheck(signs: seq<string>, sign: string)
    requires sign !in signs
    ensures ToggleSign(Some(ToggleSign(Some(signs), sign, true)), sign, false) == signs
  {
    WithoutAppend(signs, [sign], sign);
    WithoutAbsent(signs, sign);
    assert Without([sign], sign) == [];
  }

  /** Unchecking a sign and checking it again moves it to the end, once. */
  lemma UncheckThenCheck(signs: seq<string>, sign: string)
    ensures ToggleSign(Some(ToggleSign(Some(signs), sign, false)), sign, true)
         == Without(signs, sign) + [sign]
  {
  }

  /** What a checkbox's change handler dispatches, applied to the store. */
  function OnSignChange(state: FormState, sign: string, checked: bool): (r: FormState)
    ensures r.triage.criticalSigns == Some(ToggleSign(state.triage.criticalSigns, sign, checked))
    ensures forall f :: Get(r.triage, f) == Get(state.triage, f)
    ensures SameUneditedFields(r.triage, state.triage.(criticalSigns := r.triage.criticalSigns))
    ensures r.patientInfo == state.patientInfo && r.appointment == state.appointment
    ensures r.showMap == state.showMap
  {
    var t := state.triage;
    Reduce(state, SetTriage(t.(criticalSigns := Some(ToggleSign(t.criticalSigns, sign, checked)))))
  }

  /** A change event of the form: an input, select or state button, or a sign checkbox. */
  datatype FormEvent =
    | InputChange(field: Field, value: string)
    | SignChange(sign: string, checked: bool)

  /**
   * The store after the form's change events, dispatched in order. None of
   * them writes the region, the specialty, the duration's hours and minutes
   * or anything outside the triage record.
   */
  function ApplyFormEvents(state: FormState, events: seq<FormEvent>): (r: FormState)
    ensures r.triage.region == state.triage.region && r.triage.specialty == state.triage.specialty
    ensures r.triage.durationHours == state.triage.durationHours
    ensures r.triage.durationMinutes == state.triage.durationMinutes
    ensures r.patientInfo == state.patientInfo && r.appointment == state.appointment
    ensures r.showMap == state.showMap
    decreases |events|
  {
    if events == [] then state
    else
      var next :=
        match events[0]
        case InputChange(f, value) => OnFieldChange(state, f, value)
        case SignChange(sign, checked) => OnSignChange(state, sign, checked);
      ApplyFormEvents(next, events[1..])
  }

  /** The submit button's `disabled={!urgencyLevel || !incidentType}`, negated. */
  predicate CanSubmit(t: Triage)
  {
    t.urgencyLevel != "" && t.incidentType != ""
  }

  /**
   * The gate is decided by urgency and incident type alone: the initial
   * record cannot be submitted, editing any other field or toggling a sign
   * never opens or closes it, and once both are set it is open.
   */
  lemma SubmitGate(t: Triage, f: Field, value: string, sign: string, checked: bool)
    ensures !CanSubmit(InitialState().triage)
    ensures f != UrgencyLevel && f != IncidentType ==>
      CanSubmit(EditField(t, f, value)) == CanSubmit(t)
    ensures CanSubmit(t.(criticalSigns := Some(ToggleSign(t.criticalSigns, sign, checked)))) == CanSubmit(t)
    ensures value != "" && t.incidentType != "" ==> CanSubmit(EditField(t, UrgencyLevel, value))
    ensures value != "" && t.urgencyLevel != "" ==> CanSubmit(EditField(t, IncidentType, value))
    ensures !CanSubmit(EditField(t, UrgencyLevel, "")) && !CanSubmit(EditField(t, IncidentType, ""))
  {
  }

  // ---------------------------------------------------------------------
  // The duration input's constraint validation
  // ---------------------------------------------------------------------

  /**
   * Digits with an optional fraction: digits, or a full stop followed by
   * digits, or both in that order.
   */
  predicate IsMantissa(m: string)
  {
    var dot := FirstOf(m, '.', '.');
    AllDigits(m[..dot]) &&
    if dot == |m| then m != [] else dot + 1 < |m| && AllDigits(m[dot + 1..])
  }

  /** What follows the `e` or `E`: an optional sign, then at least one digit. */
  predicate IsExponent(e: string)
  {
    if e != [] && (e[0] == '+' || e[0] == '-') then |e| >= 2 && AllDigits(e[1..])
    else e != [] && AllDigits(e)
  }

  function ExponentValue(e: string): int
    requires IsExponent(e)
  {
    if e[0] == '-' then 0 - ParseNat(e[1..])
    else if e[0] == '+' then ParseNat(e[1..])
    else ParseNat(e)
  }

  /** The text after its leading minus sign, if it has one. */
  function Unsigned(s: string): string
  {
    if s != [] && s[0] == '-' then s[1..] else s
  }

  /**
   * A valid floating-point number as HTML defines it, the only kind of text
   * a number input takes as its value: an optional minus sign, a mantissa,
   * then optionally `e` or `E` and an exponent.
   */
  predicate IsNumberText(s: string)
  {
    var body := Unsigned(s);
    var mark := FirstOf(body, 'e', 'E');
    IsMantissa(body[..mark]) && (mark == |body| || IsExponent(body[mark + 1..]))
  }

  /** `digits` times ten to the power `exponent`. */
  function Scaled(digits: nat, exponent: int): (r: real)
    ensures r >= 0.0
    ensures exponent == 0 ==> r == digits as real
  {
    if exponent >= 0 then (digits * Pow10(exponent)) as real
    else
      var unit := Pow10(-exponent) as real;
      assert unit > 0.0;
      digits as real / unit
  }

  /** The exact value a number text denotes. */
  function NumberValue(s: string): real
    requires IsNumberText(s)
  {
    var body := Unsigned(s);
    var mark := FirstOf(body, 'e', 'E');
    var m := body[..mark];
    var dot := FirstOf(m, '.', '.');
    var fraction := if dot < |m| then m[dot + 1..] else "";
    var digits := ParseNat(m[..dot]) * Pow10(|fraction|) + ParseNat(fraction);
    var exponent := (if mark < |body| then ExponentValue(body[mark + 1..]) else 0) - |fraction|;
    if s != [] && s[0] == '-' then -Scaled(digits, exponent) else Scaled(digits, exponent)
  }

  /**
   * The duration input is `type="number" required min="1"` with the default
   * step of 1 counted from `min`: its constraints hold exactly when its value
   * is a number text denoting a whole number of at least 1.
   */
  predicate DurationAccepted(duration: string)
  {
    IsNumberText(duration) && NumberValue(duration) >= 1.0 &&
    NumberValue(duration).Floor as real == NumberValue(duration)
  }

  /** A plain run of digits is a number text denoting the number the digits spell. */
  lemma PlainDigitsValue(s: string)
    requires s != [] && AllDigits(s)
    ensures IsNumberText(s) && NumberValue(s) == ParseNat(s) as real
  {
    assert Unsigned(s) == s;
    assert FirstOf(s, 'e', 'E') == |s|;
    assert s[..|s|] == s;
    assert FirstOf(s, '.', '.') == |s|;
  }

  /** A number text with a minus sign denotes a number of at most zero. */
  lemma NegativeValue(s: string)
    requires IsNumberText(s) && s != [] && s[0] == '-'
    ensures NumberValue(s) <= 0.0
  {
  }

  /**
   * The duration the form starts with fails the constraints, as does every
   * negative number, and a plain run of digits passes exactly when it
   * denotes at least 1.
   */
  lemma DurationGate(s: string)
    ensures !DurationAccepted(InitialState().triage.duration)
    ensures s != [] && AllDigits(s) ==> (DurationAccepted(s) <==> ParseNat(s) >= 1)
    ensures s != [] && s[0] == '-' ==> !DurationAccepted(s)
  {
    assert !IsMantissa("");
    if s != [] && AllDigits(s) {
      PlainDigitsValue(s);
    }
    if s != [] && s[0] == '-' && IsNumberText(s) {
      NegativeValue(s);
    }
  }

  /** The step of 1 rejects a fraction. */
  lemma FractionRejected()
    ensures !DurationAccepted("1.5")
  {
    var t := "1.5";
    assert |t| == 3 && t[0] == '1' && t[1] == '.' && t[2] == '5';
    assert FirstOf(t, 'e', 'E') == 3;
    assert t[..3] == t;
    assert FirstOf(t, '.', '.') == 1;
    assert t[..1] == "1" && t[2..] == "5";
    assert ParseNat("1") == 1 && ParseNat("5") == 5;
    assert Pow10(1) == 10 && Scaled(15, -1) == 1.5;
    assert NumberValue(t) == 1.5;
  }

  /** A whole number passes when spelled with a zero fraction. */
  lemma ZeroFractionAccepted()
    ensures DurationAccepted("1.0")
  {
    var t := "1.0";
    assert |t| == 3 && t[0] == '1' && t[1] == '.' && t[2] == '0';
    assert FirstOf(t, 'e', 'E') == 3;
    assert t[..3] == t;
    assert FirstOf(t, '.', '.') == 1;
    assert t[..1] == "1" && t[2..] == "0";
    assert ParseNat("1") == 1 && ParseNat("0") == 0;
    assert Pow10(1) == 10 && Scaled(10, -1) == 1.0;
    assert NumberValue(t) == 1.0;
  }

  /** A whole number passes when spelled with an exponent. */
  lemma ExponentAccepted()
    ensures DurationAccepted("2e1")
  {
    var t := "2e1";
    assert FirstOf(t, 'e', 'E') == 1;
    assert t[..1] == "2" && t[2..] == "1";
    assert FirstOf("2", '.', '.') == 1;
    assert ParseNat("2") == 2 && ParseNat("1") == 1;
    assert NumberValue(t) == 20.0;
  }

  /**
   * Whether a press on the enabled button reaches `handleSubmit`: the
   * button's gate, then the browser's constraint validation. The two
   * `required` selects fail only on the empty choice the gate already
   * excludes, and the pain slider always holds a value in its range, so the
   * duration input is the one further condition.
   */
  predicate Submits(t: Triage)
  {
    CanSubmit(t) && DurationAccepted(t.duration)
  }

  /**
   * The mounted form: the store it reads and dispatches to, and its own
   * `isModalOpen` flag.
   */
  class TriageFormScreen {
    var form: FormState
    var isModalOpen: bool

    constructor (form: FormState)
      ensures this.form == form && !isModalOpen
    {
      this.form := form;
      isModalOpen := false;
    }

    /** An input's change event. */
    method ChangeField(f: Field, value: string)
      modifies this
      ensures form == OnFieldChange(old(form), f, value)
      ensures isModalOpen == old(isModalOpen)
    {
      form := Reduce(form, SetTriage(EditField(form.triage, f, value)));
    }

    /** A critical-sign checkbox's change event, `checked` being its new state. */
    method ChangeSign(sign: string, checked: bool)
      modifies this
      ensures form == OnSignChange(old(form), sign, checked)
      ensures isModalOpen == old(isModalOpen)
    {
      var t := form.triage;
      var signs := ToggleSign(t.criticalSigns, sign, checked);
      form := Reduce(form, SetTriage(t.(criticalSigns := Some(signs))));
    }

    /** `handleSubmit`: opens the modal; the record is left as it is. */
    method HandleSubmit()
      modifies this
      ensures isModalOpen
      ensures form == old(form)
    {
      isModalOpen := true;
    }

    /**
     * A press on the submit button: a disabled button does nothing, and an
     * enabled one reaches `handleSubmit` only when the duration input's
     * constraints hold.
     */
    method PressSubmit()
      modifies this
      ensures isModalOpen == (old(isModalOpen) || Submits(old(form).triage))
      ensures form == old(form)
    {
      if CanSubmit(form.triage) && DurationAccepted(form.triage.duration) {
        HandleSubmit();
      }
    }

    /** The modal's `onClose`. */
    method CloseModal()
      modifies this
      ensures !isModalOpen
      ensures form == old(form)
    {
      isModalOpen := false;
    }
  }
}
