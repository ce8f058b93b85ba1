/**
 * The three-step booking sheet: choose the patient, choose how to travel,
 * confirm. Each step shows its own buttons; a button that is not on screen
 * at the current step is modelled as a press that is refused and changes
 * nothing.
 */
module SmartBookingSheet {
  import opened Wrappers
  import opened QueueContext

  datatype Patient = Patient(id: string, name: string, relation: string)

  datatype TravelMode = TravelMode(id: TransportMode, icon: string, name: string, eta: int)

  /** What the confirm handler passes to the caller. */
  datatype Confirmation = Confirmation(patient: Patient, travelMode: TravelMode)

  const Patients: seq<Patient> := [
    Patient("me", "Me", "Self"),
    Patient("mom", "Mom", "Mother"),
    Patient("dad", "Dad", "Father")
  ]

  const TravelModes: seq<TravelMode> := [
    TravelMode(Car, "car-sport-outline", "Car", 20),
    TravelMode(Bike, "bicycle-outline", "Bike", 18),
    TravelMode(Walk, "walk-outline", "Walk", 50)
  ]

  const FirstStep: int := 1
  const LastStep: int := 3

  class BookingSheet {
    var step: int
    var selectedPatient: Patient
    var selectedTravelMode: TravelMode

    /** The step is one of the three. */
    predicate Valid()
      reads this
    {
      FirstStep <= step <= LastStep
    }

    /** The sheet opens at the patient step, for "Me", travelling by car. */
    constructor ()
      ensures Valid() && step == 1
      ensures selectedPatient == Patients[0] && selectedPatient.name == "Me"
      ensures selectedTravelMode == TravelModes[0] && selectedTravelMode.id == Car && selectedTravelMode.eta == 20
    {
      step := FirstStep;
      selectedPatient := Patients[0];
      selectedTravelMode := TravelModes[0];
    }

    /** `handlePatientSelect`: the patient cards are shown at step 1 only; only the patient changes. */
    method SelectPatient(patient: Patient) returns (pressed: bool)
      requires Valid()
      modifies this
      ensures Valid()
      ensures pressed <==> old(step) == 1
      ensures selectedPatient == if pressed then patient else old(selectedPatient)
      ensures step == old(step) && selectedTravelMode == old(selectedTravelMode)
    {
      pressed := step == 1;
      if pressed {
        selectedPatient := patient;
      }
    }

    /** `handleTravelModeSelect`: the travel cards are shown at step 2 only; only the travel mode changes. */
    method SelectTravelMode(mode: TravelMode) returns (pressed: bool)
      requires Valid()
      modifies this
      ensures Valid()
      ensures pressed <==> old(step) == 2
      ensures selectedTravelMode == if pressed then mode else old(selectedTravelMode)
      ensures step == old(step) && selectedPatient == old(selectedPatient)
    {
      pressed := step == 2;
      if pressed {
        selectedTravelMode := mode;
      }
    }

    /** "Next": shown at steps 1 and 2, moving one step on. */
    method Next() returns (pressed: bool)
      requires Valid()
      modifies this
      ensures Valid()
      ensures pressed <==> old(step) < LastStep
      ensures step == if pressed then old(step) + 1 else old(step)
      ensures selectedPatient == old(selectedPatient) && selectedTravelMode == old(selectedTravelMode)
    {
      pressed := step < LastStep;
      if step == 1 {
        step := 2;
      } else if step == 2 {
        step := 3;
      }
    }

    /** "Back": shown at steps 2 and 3, moving one step back. */
    method Back() returns (pressed: bool)
      requires Valid()
      modifies this
      ensures Valid()
      ensures pressed <==> old(step) > FirstStep
      ensures step == if pressed then old(step) - 1 else old(step)
      ensures selectedPatient == old(selectedPatient) && selectedTravelMode == old(selectedTravelMode)
    {
      pressed := step > FirstStep;
      if step == 2 {
        step := 1;
      } else if step == 3 {
        step := 2;
      }
    }

    /** `handleConfirm`: shown only at step 3; passes on the selections and goes back to step 1. */
    method Confirm() returns (emitted: Option<Confirmation>)
      requires Valid()
      modifies this
      ensures Valid()
      ensures emitted.Some? <==> old(step) == LastStep
      ensures emitted.Some? ==>
        emitted.value == Confirmation(old(selectedPatient), old(selectedTravelMode)) && step == 1
      ensures emitted.None? ==> step == old(step)
      ensures selectedPatient == old(selectedPatient) && selectedTravelMode == old(selectedTravelMode)
    {
      if step == LastStep {
        emitted := Some(Confirmation(selectedPatient, selectedTravelMode));
        step := FirstStep;
      } else {
        emitted := None;
      }
    }

    /** `handleClose`: back to step 1 from any step; the selections stay. */
    method Close()
      requires Valid()
      modifies this
      ensures Valid() && step == 1
      ensures selectedPatient == old(selectedPatient) && selectedTravelMode == old(selectedTravelMode)
    {
      step := FirstStep;
    }
  }

  /**
   * A walk through the sheet: a confirm pressed at step 1 emits nothing, and
   * the choices made on the way are the ones confirmed at step 3.
   */
  method ConfirmedChoices(patient: Patient, mode: TravelMode) returns (early: Option<Confirmation>, emitted: Option<Confirmation>)
    ensures early.None?
    ensures emitted == Some(Confirmation(patient, mode))
  {
    var sheet := new BookingSheet();
    var chosePatient := sheet.SelectPatient(patient);
    early := sheet.Confirm();
    var toTransport := sheet.Next();
    var choseMode := sheet.SelectTravelMode(mode);
    var toSummary := sheet.Next();
    assert chosePatient && toTransport && choseMode && toSummary;
    emitted := sheet.Confirm();
  }
}
