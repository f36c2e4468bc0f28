/**
 * PatientService: patient lookups, the care-plan upsert, progress notes and
 * patient creation, over the tables of the database it shares with
 * AppointmentService.
 */
module PatientServices {
  import opened Wrappers
  import opened Entities
  import opened JavaExceptions
  import opened Repositories

  /** The exception `orElseThrow` raises when the patient id is not stored. */
  const PatientNotFound := RuntimeException("Patient not found")

  /**
   * `updateCarePlan(patientId, request)`: the patient must exist; the patient's
   * stored plan, or a new one, gets the request's six fields and the patient
   * link, and is saved.
   */
  ghost function UpdatedCarePlan(t: Tables, patientId: int, request: CarePlan): (r: (Tables, Result<CarePlan, Exception>))
  {
    if patientId !in t.patients then (t, Failure(PatientNotFound))
    else
      match CarePlanOf(t, patientId)
      case Failure(e) => (t, Failure(e))
      case Success(found) =>
        var plan := found.GetOr(NewCarePlan).(
          goals := request.goals,
          interventions := request.interventions,
          medications := request.medications,
          startDate := request.startDate,
          reviewDate := request.reviewDate,
          status := request.status,
          patient := Some(patientId));
        var (t', saved) := CarePlanSaved(t, plan);
        (t', Success(saved))
  }

  /** The request's fields as they are copied onto the plan. */
  predicate CopiesRequest(plan: CarePlan, request: CarePlan, patientId: int) {
    && plan.goals == request.goals
    && plan.interventions == request.interventions
    && plan.medications == request.medications
    && plan.startDate == request.startDate
    && plan.reviewDate == request.reviewDate
    && plan.status == request.status
    && plan.patient == Some(patientId)
  }

  /** An unknown patient makes `updateCarePlan` fail with "Patient not found" and change nothing. */
  lemma UpdateCarePlanUnknownPatient(t: Tables, patientId: int, request: CarePlan)
    requires patientId !in t.patients
    ensures UpdatedCarePlan(t, patientId, request) == (t, Failure(PatientNotFound))
  {
  }

  /**
   * The shape of a successful upsert on valid tables: one plan, carrying the
   * request's fields and the patient link, is stored under `id`; `id` is the
   * patient's existing plan when there is one, and a fresh IDENTITY value
   * otherwise.
   */
  lemma UpdateCarePlanShape(t: Tables, patientId: int, request: CarePlan) returns (id: int, plan: CarePlan)
    requires Valid(t) && patientId in t.patients
    ensures CopiesRequest(plan, request, patientId) && plan.id == Some(id)
    ensures CarePlanKeys(t, patientId) == {} ==>
      (id == t.nextCarePlan &&
       UpdatedCarePlan(t, patientId, request) ==
         (t.(carePlans := t.carePlans[id := plan], nextCarePlan := t.nextCarePlan + 1), Success(plan)))
    ensures CarePlanKeys(t, patientId) != {} ==>
      (CarePlanKeys(t, patientId) == {id} &&
       UpdatedCarePlan(t, patientId, request) == (t.(carePlans := t.carePlans[id := plan]), Success(plan)))
  {
    CarePlanLookupNeverFails(t, patientId);
    var ks := CarePlanKeys(t, patientId);
    var r := UpdatedCarePlan(t, patientId, request).1;
    plan := r.value;
    id := plan.id.value;
    if ks == {} {
      assert CarePlanOf(t, patientId) == Success(None);
    } else {
      var found := CarePlanOf(t, patientId).value;
      var k :| k in ks && found.value == t.carePlans[k];
      assert found.value.id == Some(k);
      forall j | j in ks ensures j == k {
        assert t.carePlans[j].patient == t.carePlans[k].patient;
      }
    }
  }

  /**
   * `updateCarePlan` for a stored patient succeeds: the saved plan carries the
   * request's fields and the patient link and is stored under its id, it keeps
   * the id of the plan the patient had, and no other plan changes.
   */
  lemma UpdateCarePlanUpserts(t: Tables, patientId: int, request: CarePlan)
    requires Valid(t) && patientId in t.patients
    ensures var (t', r) := UpdatedCarePlan(t, patientId, request);
      && r.Success? && CopiesRequest(r.value, request, patientId)
      && r.value.id.Some? && r.value.id.value in t'.carePlans && t'.carePlans[r.value.id.value] == r.value
      && (CarePlanKeys(t, patientId) != {} ==> CarePlanKeys(t, patientId) == {r.value.id.value})
      && (forall k :: k in t.carePlans && k != r.value.id.value ==> k in t'.carePlans && t'.carePlans[k] == t.carePlans[k])
      && t'.patients == t.patients && t'.notes == t.notes && t'.appointments == t.appointments
  {
    var id, plan := UpdateCarePlanShape(t, patientId, request);
  }

  /** After `updateCarePlan` the patient has exactly one plan: the upsert never adds a second one. */
  lemma UpdateCarePlanSinglePlan(t: Tables, patientId: int, request: CarePlan)
    requires Valid(t) && patientId in t.patients
    ensures var (t', r) := UpdatedCarePlan(t, patientId, request);
      r.Success? && CarePlanKeys(t', patientId) == {r.value.id.value}
  {
    var id, plan := UpdateCarePlanShape(t, patientId, request);
    var t' := UpdatedCarePlan(t, patientId, request).0;
    assert t'.carePlans[id].patient == Some(patientId);
  }

  /** `updateCarePlan` keeps the tables valid. */
  lemma UpdateCarePlanKeepsValid(t: Tables, patientId: int, request: CarePlan)
    requires Valid(t)
    ensures Valid(UpdatedCarePlan(t, patientId, request).0)
  {
    if patientId in t.patients {
      var id, plan := UpdateCarePlanShape(t, patientId, request);
      forall k | k in t.carePlans && k != id ensures t.carePlans[k].patient != Some(patientId) {
        assert (t.carePlans[k].patient == Some(patientId)) == (k in CarePlanKeys(t, patientId));
      }
      if CarePlanKeys(t, patientId) == {} {
        StorePlanKeepsValid(t, id, plan, t.nextCarePlan + 1);
      } else {
        assert id in CarePlanKeys(t, patientId);
        StorePlanKeepsValid(t, id, plan, t.nextCarePlan);
      }
    }
  }

  /** `addProgressNote(patientId, note)`: the patient must exist; the note is linked to it and saved. */
  function AddedProgressNote(t: Tables, patientId: int, note: ProgressNote): (r: (Tables, Result<ProgressNote, Exception>))
    ensures patientId !in t.patients ==> r == (t, Failure(PatientNotFound))
  {
    if patientId !in t.patients then (t, Failure(PatientNotFound))
    else
      var (t', saved) := NoteSaved(t, note.(patient := Some(patientId)));
      (t', Success(saved))
  }

  /**
   * A note added for a stored patient is the given note linked to that patient,
   * stored under its id, listed among the patient's notes afterwards, and the
   * tables stay valid.
   */
  lemma AddProgressNoteStores(t: Tables, patientId: int, note: ProgressNote)
    requires Valid(t) && patientId in t.patients
    ensures var (t', r) := AddedProgressNote(t, patientId, note);
      && r.Success? && r.value == note.(patient := Some(patientId), id := r.value.id)
      && r.value.id.Some? && r.value.id.value in NotesOf(t', patientId)
      && NotesOf(t', patientId)[r.value.id.value] == r.value
      && t'.patients == t.patients && t'.carePlans == t.carePlans && t'.appointments == t.appointments
      && Valid(t')
  {
    var (t', r) := AddedProgressNote(t, patientId, note);
    StoreNoteKeepsValid(t, r.value.id.value, r.value, t'.nextNote);
  }

  /** `createPatient(patient)`: the repository's save, failing on a patientId already taken. */
  function CreatedPatient(t: Tables, patient: Patient): (r: (Tables, Result<Patient, Exception>))
    ensures r.1.Failure? ==> r.0 == t
  {
    PatientSaved(t, patient)
  }

  /** A created patient is found afterwards by `getPatientById` on the returned id, and the tables stay valid. */
  lemma CreatePatientThenFind(t: Tables, patient: Patient)
    requires Valid(t)
    ensures var (t', r) := CreatedPatient(t, patient);
      && (r.Success? ==> r.value.id.Some? && Lookup(t'.patients, r.value.id.value) == Some(r.value))
      && (r.Success? ==> r.value == patient.(id := r.value.id))
      && Valid(t')
  {
    var (t', r) := CreatedPatient(t, patient);
    if r.Success? {
      var id := r.value.id.value;
      if patient.patientId.Some? {
        forall k | k in t.patients && k != id ensures t.patients[k].patientId != patient.patientId {
          assert Some(k) != r.value.id;
        }
      }
      StorePatientKeepsValid(t, id, r.value, t'.nextPatient);
    }
  }

  /** PatientService, over the database it was given. */
  class PatientService {
    const db: Database

    constructor (db: Database)
      ensures this.db == db
    {
      this.db := db;
    }

    /** `getPatientByName`. */
    method GetPatientByName(name: string) returns (r: Result<Option<Patient>, Exception>)
      ensures r == PatientNamed(db.Snapshot(), name)
    {
      r := db.FindPatientByName(name);
    }

    /** `getPatientById`. */
    method GetPatientById(id: int) returns (r: Option<Patient>)
      ensures r.Some? <==> id in db.patients
      ensures r.Some? ==> r.value == db.patients[id]
    {
      r := Lookup(db.patients, id);
    }

    /** `getAllPatients`: every stored patient, by id. */
    method GetAllPatients() returns (r: map<int, Patient>)
      ensures r == db.patients
    {
      r := db.patients;
    }

    /** `getProgressNotesByPatientId`. */
    method GetProgressNotesByPatientId(patientId: int) returns (r: map<int, ProgressNote>)
      ensures r == NotesOf(db.Snapshot(), patientId)
    {
      r := NotesOf(db.Snapshot(), patientId);
    }

    /** `getCarePlanByPatientId`. */
    method GetCarePlanByPatientId(patientId: int) returns (r: Result<Option<CarePlan>, Exception>)
      ensures r == CarePlanOf(db.Snapshot(), patientId)
    {
      r := db.FindCarePlanByPatient(patientId);
    }

    /** `updateCarePlan`: the setters on the found or new plan, then `save`. */
    method UpdateCarePlan(patientId: int, request: CarePlan) returns (r: Result<CarePlan, Exception>)
      modifies db
      ensures (db.Snapshot(), r) == UpdatedCarePlan(old(db.Snapshot()), patientId, request)
    {
      var patient := Lookup(db.patients, patientId);
      if patient.None? {
        return Failure(PatientNotFound);
      }
      var found := db.FindCarePlanByPatient(patientId);
      if found.Failure? {
        return Failure(found.error);
      }
      var carePlan := found.value.GetOr(NewCarePlan);
      carePlan := carePlan.(goals := request.goals);
      carePlan := carePlan.(interventions := request.interventions);
      carePlan := carePlan.(medications := request.medications);
      carePlan := carePlan.(startDate := request.startDate);
      carePlan := carePlan.(reviewDate := request.reviewDate);
      carePlan := carePlan.(status := request.status);
      carePlan := carePlan.(patient := Some(patientId));
      var saved := db.SaveCarePlan(carePlan);
      r := Success(saved);
    }

    /** `createPatient`. */
    method CreatePatient(patient: Patient) returns (r: Result<Patient, Exception>)
      modifies db
      ensures (db.Snapshot(), r) == CreatedPatient(old(db.Snapshot()), patient)
    {
      r := db.SavePatient(patient);
    }

    /** `addProgressNote`. */
    method AddProgressNote(patientId: int, note: ProgressNote) returns (r: Result<ProgressNote, Exception>)
      modifies db
      ensures (db.Snapshot(), r) == AddedProgressNote(old(db.Snapshot()), patientId, note)
    {
      var patient := Lookup(db.patients, patientId);
      if patient.None? {
        return Failure(PatientNotFound);
      }
      var saved := db.SaveNote(note.(patient := Some(patientId)));
      r := Success(saved);
    }
  }
}
