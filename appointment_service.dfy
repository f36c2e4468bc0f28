/**
 * AppointmentService: appointment lookups, creation for a stored patient,
 * update, cancellation and deletion, over the shared database.
 */
module AppointmentServices {
  import opened Wrappers
  import opened Entities
  import opened JavaExceptions
  import opened Repositories

  const PatientNotFound := RuntimeException("Patient not found")
  const AppointmentNotFound := RuntimeException("Appointment not found")

  /**
   * `createAppointment(patientId, appointment)`: the patient must exist; the
   * appointment is linked to it, gets status "Scheduled" when it has none, and
   * is saved.
   */
  function CreatedAppointment(t: Tables, patientId: int, a: Appointment): (r: (Tables, Result<Appointment, Exception>))
    ensures patientId !in t.patients ==> r == (t, Failure(PatientNotFound))
    ensures patientId in t.patients ==>
      (r.1.Success? &&
       var s := r.1.value;
       && s.patient == Some(patientId)
       && s.status == (if a.status.None? then Some("Scheduled") else a.status)
       && s == a.(patient := s.patient, status := s.status, id := s.id)
       && s.id.Some? && s.id.value in r.0.appointments && r.0.appointments[s.id.value] == s)
  {
    if patientId !in t.patients then (t, Failure(PatientNotFound))
    else
      var linked := a.(patient := Some(patientId));
      var withStatus := if linked.status.None? then linked.(status := Some("Scheduled")) else linked;
      var (t', saved) := AppointmentSaved(t, withStatus);
      (t', Success(saved))
  }

  /** Creating an appointment keeps the tables valid; patients, notes and care plans are untouched. */
  lemma CreateAppointmentKeepsValid(t: Tables, patientId: int, a: Appointment)
    requires Valid(t)
    ensures var t' := CreatedAppointment(t, patientId, a).0;
      Valid(t') && t'.patients == t.patients && t'.notes == t.notes && t'.carePlans == t.carePlans
  {
    if patientId in t.patients {
      var (t', r) := CreatedAppointment(t, patientId, a);
      var id := r.value.id.value;
      StoreAppointmentKeepsValid(t, id, r.value, t'.nextAppointment);
    }
  }

  /**
   * `updateAppointment(id, request)`: the appointment must exist; its date,
   * reason, status and provider become the request's, null included.
   */
  function UpdatedAppointment(t: Tables, id: int, request: Appointment): (r: (Tables, Result<Appointment, Exception>))
    ensures id !in t.appointments ==> r == (t, Failure(AppointmentNotFound))
  {
    if id !in t.appointments then (t, Failure(AppointmentNotFound))
    else
      var existing := t.appointments[id].(
        appointmentDate := request.appointmentDate,
        reason := request.reason,
        status := request.status,
        provider := request.provider);
      var (t', saved) := AppointmentSaved(t, existing);
      (t', Success(saved))
  }

  /**
   * On valid tables, updating a stored appointment overwrites exactly its four
   * fields: the id and the patient link stay, the row stays under its id, every
   * other appointment is unchanged, and the tables stay valid.
   */
  lemma UpdateAppointmentOverwritesFour(t: Tables, id: int, request: Appointment)
    requires Valid(t) && id in t.appointments
    ensures var (t', r) := UpdatedAppointment(t, id, request);
      && r.Success?
      && r.value == t.appointments[id].(appointmentDate := request.appointmentDate, reason := request.reason,
                                        status := request.status, provider := request.provider)
      && t' == t.(appointments := t.appointments[id := r.value])
      && Valid(t')
  {
    var (t', r) := UpdatedAppointment(t, id, request);
    StoreAppointmentKeepsValid(t, id, r.value, t.nextAppointment);
  }

  /** `cancelAppointment(id)`: the appointment must exist; its status becomes "Cancelled". */
  function CancelledAppointment(t: Tables, id: int): (r: (Tables, Result<Appointment, Exception>))
    ensures id !in t.appointments ==> r == (t, Failure(AppointmentNotFound))
  {
    if id !in t.appointments then (t, Failure(AppointmentNotFound))
    else
      var (t', saved) := AppointmentSaved(t, t.appointments[id].(status := Some("Cancelled")));
      (t', Success(saved))
  }

  /** On valid tables, cancelling changes the status of that one appointment and nothing else. */
  lemma CancelSetsOnlyStatus(t: Tables, id: int)
    requires Valid(t) && id in t.appointments
    ensures var (t', r) := CancelledAppointment(t, id);
      && r == Success(t.appointments[id].(status := Some("Cancelled")))
      && t' == t.(appointments := t.appointments[id := r.value])
      && Valid(t')
  {
    var (t', r) := CancelledAppointment(t, id);
    StoreAppointmentKeepsValid(t, id, r.value, t.nextAppointment);
  }

  /** Cancelling twice leaves the same tables as cancelling once, and the second call succeeds too. */
  lemma CancelIdempotent(t: Tables, id: int)
    requires Valid(t)
    ensures var once := CancelledAppointment(t, id);
      CancelledAppointment(once.0, id) == (once.0, once.1)
  {
    if id in t.appointments {
      CancelSetsOnlyStatus(t, id);
      var t' := CancelledAppointment(t, id).0;
      assert t'.appointments[id] == t.appointments[id].(status := Some("Cancelled"));
      assert t'.appointments[id].(status := Some("Cancelled")) == t'.appointments[id];
      assert t'.(appointments := t'.appointments[id := t'.appointments[id]]) == t';
    }
  }

  /** `deleteAppointment(id)`: `deleteById`, which does nothing for an id that is not stored. */
  function DeletedAppointment(t: Tables, id: int): (t': Tables)
    ensures id !in t'.appointments
    ensures forall k :: k != id ==> (k in t'.appointments <==> k in t.appointments)
    ensures forall k :: k != id && k in t.appointments ==> t'.appointments[k] == t.appointments[k]
    ensures t' == t.(appointments := t'.appointments)
  {
    t.(appointments := t.appointments - {id})
  }

  /** Deleting an appointment keeps the tables valid, and deleting it again changes nothing. */
  lemma DeleteKeepsValid(t: Tables, id: int)
    requires Valid(t)
    ensures Valid(DeletedAppointment(t, id))
    ensures DeletedAppointment(DeletedAppointment(t, id), id) == DeletedAppointment(t, id)
  {
    var t' := DeletedAppointment(t, id);
    RemoveAppointmentKeepsValid(t, {id});
    assert t'.appointments - {id} == t'.appointments;
  }

  /** AppointmentService, over the database it was given. */
  class AppointmentService {
    const db: Database

    constructor (db: Database)
      ensures this.db == db
    {
      this.db := db;
    }

    /** `getAppointmentById`. */
    method GetAppointmentById(id: int) returns (r: Option<Appointment>)
      ensures r.Some? <==> id in db.appointments
      ensures r.Some? ==> r.value == db.appointments[id]
    {
      r := Lookup(db.appointments, id);
    }

    /** `getAllAppointments`: every stored appointment, by id. */
    method GetAllAppointments() returns (r: map<int, Appointment>)
      ensures r == db.appointments
    {
      r := db.appointments;
    }

    /** `getAppointmentsByPatientId`: exactly the stored appointments linked to the patient. */
    method GetAppointmentsByPatientId(patientId: int) returns (r: map<int, Appointment>)
      ensures r == AppointmentsOf(db.Snapshot(), patientId)
      ensures forall k :: k in r <==> k in db.appointments && db.appointments[k].patient == Some(patientId)
      ensures forall k :: k in r ==> r[k] == db.appointments[k]
    {
      r := AppointmentsOf(db.Snapshot(), patientId);
    }

    /** `getAppointmentsBetween(start, end)`, under the calendar order `notAfter`. */
    method GetAppointmentsBetween(start: LocalDateTime, end: LocalDateTime,
                                  notAfter: (LocalDateTime, LocalDateTime) -> bool)
      returns (r: map<int, Appointment>)
      ensures r == AppointmentsBetween(db.Snapshot(), start, end, notAfter)
    {
      r := AppointmentsBetween(db.Snapshot(), start, end, notAfter);
    }

    /** `createAppointment`. */
    method CreateAppointment(patientId: int, appointment: Appointment) returns (r: Result<Appointment, Exception>)
      modifies db
      ensures (db.Snapshot(), r) == CreatedAppointment(old(db.Snapshot()), patientId, appointment)
    {
      var patient := Lookup(db.patients, patientId);
      if patient.None? {
        return Failure(PatientNotFound);
      }
      var a := appointment.(patient := Some(patientId));
      if a.status.None? {
        a := a.(status := Some("Scheduled"));
      }
      var saved := db.SaveAppointment(a);
      r := Success(saved);
    }

    /** `updateAppointment`. */
    method UpdateAppointment(id: int, request: Appointment) returns (r: Result<Appointment, Exception>)
      modifies db
      ensures (db.Snapshot(), r) == UpdatedAppointment(old(db.Snapshot()), id, request)
    {
      var found := Lookup(db.appointments, id);
      if found.None? {
        return Failure(AppointmentNotFound);
      }
      var existing := found.value;
      existing := existing.(appointmentDate := request.appointmentDate);
      existing := existing.(reason := request.reason);
      existing := existing.(status := request.status);
      existing := existing.(provider := request.provider);
      var saved := db.SaveAppointment(existing);
      r := Success(saved);
    }

    /** `cancelAppointment`. */
    method CancelAppointment(id: int) returns (r: Result<Appointment, Exception>)
      modifies db
      ensures (db.Snapshot(), r) == CancelledAppointment(old(db.Snapshot()), id)
    {
      var found := Lookup(db.appointments, id);
      if found.None? {
        return Failure(AppointmentNotFound);
      }
      var saved := db.SaveAppointment(found.value.(status := Some("Cancelled")));
      r := Success(saved);
    }

    /** `deleteAppointment`. */
    method DeleteAppointment(id: int)
      modifies db
      ensures db.Snapshot() == DeletedAppointment(old(db.Snapshot()), id)
    {
      db.DeleteAppointmentById(id);
    }
  }
}
