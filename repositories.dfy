/**
 * In-memory stand-ins for the four JPA repositories behind PatientService and
 * AppointmentService: one map per table from id to stored row, and the next
 * value of each table's IDENTITY column. `save` persists a row whose id is
 * null (or unknown) under a fresh id and merges a row whose id is stored.
 */
module Repositories {
  import opened Wrappers
  import opened Entities
  import opened JavaExceptions

  datatype Tables = Tables(
    patients: map<int, Patient>,
    notes: map<int, ProgressNote>,
    carePlans: map<int, CarePlan>,
    appointments: map<int, Appointment>,
    nextPatient: int,
    nextNote: int,
    nextCarePlan: int,
    nextAppointment: int)

  /** The database before any row is inserted: every IDENTITY column starts at 1. */
  const Empty := Tables(map[], map[], map[], map[], 1, 1, 1, 1)

  /** A link to a patient row that exists (the NOT NULL foreign keys of the child tables). */
  ghost predicate Owned(t: Tables, link: Option<int>) {
    link.Some? && link.value in t.patients
  }

  /**
   * The invariant of the stored tables: each row is stored under its own id,
   * below the table's next IDENTITY value; each child row belongs to a stored
   * patient; a patient has at most one care plan (the one-to-one join column);
   * and no two patients share a patientId (the unique column).
   */
  ghost predicate Valid(t: Tables) {
    && (forall k :: k in t.patients ==> t.patients[k].id == Some(k) && k < t.nextPatient)
    && (forall k :: k in t.notes ==> t.notes[k].id == Some(k) && k < t.nextNote && Owned(t, t.notes[k].patient))
    && (forall k :: k in t.carePlans ==> t.carePlans[k].id == Some(k) && k < t.nextCarePlan && Owned(t, t.carePlans[k].patient))
    && (forall k :: k in t.appointments ==>
          t.appointments[k].id == Some(k) && k < t.nextAppointment && Owned(t, t.appointments[k].patient))
    && (forall a, b :: a in t.carePlans && b in t.carePlans && t.carePlans[a].patient == t.carePlans[b].patient ==> a == b)
    && (forall a, b ::
          (a in t.patients && b in t.patients && t.patients[a].patientId.Some? &&
           t.patients[a].patientId == t.patients[b].patientId) ==> a == b)
  }

  lemma EmptyIsValid()
    ensures Valid(Empty)
  {
  }

  /** Another stored patient already has `p`'s patientId. */
  predicate PatientIdTaken(t: Tables, p: Patient) {
    p.patientId.Some? && exists k :: k in t.patients && Some(k) != p.id && t.patients[k].patientId == p.patientId
  }

  /** `patientRepository.save(p)`, failing on the unique patientId column. */
  function PatientSaved(t: Tables, p: Patient): (r: (Tables, Result<Patient, Exception>))
    ensures r.1.Failure? <==> PatientIdTaken(t, p)
    ensures r.1.Failure? ==> r.0 == t && r.1.error == Raised(UniqueViolation("patient_id"))
    ensures r.1.Success? ==> var s := r.1.value;
      && s == p.(id := s.id) && s.id.Some?
      && r.0 == t.(patients := t.patients[s.id.value := s], nextPatient := r.0.nextPatient)
      && (p.id.Some? && p.id.value in t.patients ==> s.id == p.id && r.0.nextPatient == t.nextPatient)
      && (!(p.id.Some? && p.id.value in t.patients) ==> s.id == Some(t.nextPatient) && r.0.nextPatient == t.nextPatient + 1)
  {
    if PatientIdTaken(t, p) then (t, Failure(Raised(UniqueViolation("patient_id"))))
    else if p.id.Some? && p.id.value in t.patients then (t.(patients := t.patients[p.id.value := p]), Success(p))
    else
      var s := p.(id := Some(t.nextPatient));
      (t.(patients := t.patients[t.nextPatient := s], nextPatient := t.nextPatient + 1), Success(s))
  }

  /** `carePlanRepository.save(c)`. */
  function CarePlanSaved(t: Tables, c: CarePlan): (r: (Tables, CarePlan))
    ensures r.1 == c.(id := r.1.id) && r.1.id.Some?
    ensures r.0 == t.(carePlans := t.carePlans[r.1.id.value := r.1], nextCarePlan := r.0.nextCarePlan)
    ensures c.id.Some? && c.id.value in t.carePlans ==> r.1.id == c.id && r.0.nextCarePlan == t.nextCarePlan
    ensures !(c.id.Some? && c.id.value in t.carePlans) ==> r.1.id == Some(t.nextCarePlan) && r.0.nextCarePlan == t.nextCarePlan + 1
  {
    if c.id.Some? && c.id.value in t.carePlans then (t.(carePlans := t.carePlans[c.id.value := c]), c)
    else
      var s := c.(id := Some(t.nextCarePlan));
      (t.(carePlans := t.carePlans[t.nextCarePlan := s], nextCarePlan := t.nextCarePlan + 1), s)
  }

  /** `progressNoteRepository.save(n)`. */
  function NoteSaved(t: Tables, n: ProgressNote): (r: (Tables, ProgressNote))
    ensures r.1 == n.(id := r.1.id) && r.1.id.Some?
    ensures r.0 == t.(notes := t.notes[r.1.id.value := r.1], nextNote := r.0.nextNote)
    ensures n.id.Some? && n.id.value in t.notes ==> r.1.id == n.id && r.0.nextNote == t.nextNote
    ensures !(n.id.Some? && n.id.value in t.notes) ==> r.1.id == Some(t.nextNote) && r.0.nextNote == t.nextNote + 1
  {
    if n.id.Some? && n.id.value in t.notes then (t.(notes := t.notes[n.id.value := n]), n)
    else
      var s := n.(id := Some(t.nextNote));
      (t.(notes := t.notes[t.nextNote := s], nextNote := t.nextNote + 1), s)
  }

  /** `appointmentRepository.save(a)`. */
  function AppointmentSaved(t: Tables, a: Appointment): (r: (Tables, Appointment))
    ensures r.1 == a.(id := r.1.id) && r.1.id.Some?
    ensures r.0 == t.(appointments := t.appointments[r.1.id.value := r.1], nextAppointment := r.0.nextAppointment)
    ensures a.id.Some? && a.id.value in t.appointments ==> r.1.id == a.id && r.0.nextAppointment == t.nextAppointment
    ensures !(a.id.Some? && a.id.value in t.appointments) ==>
      r.1.id == Some(t.nextAppointment) && r.0.nextAppointment == t.nextAppointment + 1
  {
    if a.id.Some? && a.id.value in t.appointments then (t.(appointments := t.appointments[a.id.value := a]), a)
    else
      var s := a.(id := Some(t.nextAppointment));
      (t.(appointments := t.appointments[t.nextAppointment := s], nextAppointment := t.nextAppointment + 1), s)
  }

  /** Storing a patient under its own id, below the next IDENTITY value, with a patientId no other patient has, keeps the tables valid. */
  lemma StorePatientKeepsValid(t: Tables, id: int, p: Patient, next: int)
    requires Valid(t) && p.id == Some(id) && id < next && t.nextPatient <= next
    requires p.patientId.Some? ==> forall k :: k in t.patients && k != id ==> t.patients[k].patientId != p.patientId
    ensures Valid(t.(patients := t.patients[id := p], nextPatient := next))
  {
  }

  /** Storing a note of a stored patient under its own id, below the next IDENTITY value, keeps the tables valid. */
  lemma StoreNoteKeepsValid(t: Tables, id: int, n: ProgressNote, next: int)
    requires Valid(t) && n.id == Some(id) && Owned(t, n.patient) && id < next && t.nextNote <= next
    ensures Valid(t.(notes := t.notes[id := n], nextNote := next))
  {
  }

  /** Storing a plan of a stored patient whom no other plan belongs to keeps the tables valid. */
  lemma StorePlanKeepsValid(t: Tables, id: int, plan: CarePlan, next: int)
    requires Valid(t) && plan.id == Some(id) && Owned(t, plan.patient)
    requires id < next && t.nextCarePlan <= next
    requires forall k :: k in t.carePlans && k != id ==> t.carePlans[k].patient != plan.patient
    ensures Valid(t.(carePlans := t.carePlans[id := plan], nextCarePlan := next))
  {
  }

  /** Storing an appointment of a stored patient under its own id, below the next IDENTITY value, keeps the tables valid. */
  lemma StoreAppointmentKeepsValid(t: Tables, id: int, a: Appointment, next: int)
    requires Valid(t) && a.id == Some(id) && Owned(t, a.patient) && id < next && t.nextAppointment <= next
    ensures Valid(t.(appointments := t.appointments[id := a], nextAppointment := next))
  {
  }

  /** Removing appointments keeps the tables valid. */
  lemma RemoveAppointmentKeepsValid(t: Tables, gone: set<int>)
    requires Valid(t)
    ensures Valid(t.(appointments := t.appointments - gone))
  {
  }

  /** `repository.findById(id)`: the row stored under `id`, when there is one. */
  function Lookup<T>(rows: map<int, T>, id: int): (r: Option<T>)
    ensures r.Some? <==> id in rows
    ensures r.Some? ==> r.value == rows[id]
  {
    if id in rows then Some(rows[id]) else None
  }

  /** A non-empty set has an element. */
  lemma NonEmptyHasElement(s: set<int>)
    requires s != {}
    ensures exists x :: x in s
  {
    if forall y :: y !in s {
      assert false;
    }
  }

  /** A set with two or more elements has two different elements. */
  lemma TwoElements(s: set<int>) returns (a: int, b: int)
    requires |s| >= 2
    ensures a in s && b in s && a != b
  {
    assert s != {};
    NonEmptyHasElement(s);
    a :| a in s;
    assert |s - {a}| >= 1;
    assert s - {a} != {};
    NonEmptyHasElement(s - {a});
    b :| b in s - {a};
  }

  /**
   * The rule of a derived single-result query (`Optional<T> findByX`): no match
   * gives empty, one match gives that row, several raise
   * IncorrectResultSizeDataAccessException.
   */
  ghost function Single<T>(rows: map<int, T>, keys: set<int>): (r: Result<Option<T>, Exception>)
    requires keys <= rows.Keys
    ensures r.Failure? <==> |keys| >= 2
    ensures r == Success(None) <==> keys == {}
    ensures r.Success? && r.value.Some? ==> exists k :: k in keys && r.value.value == rows[k]
    ensures |keys| == 1 ==> forall k :: k in keys ==> r == Success(Some(rows[k]))
    ensures |keys| >= 2 ==> r == Failure(Raised(NonUniqueResult(|keys|)))
  {
    if |keys| == 0 then Success(None)
    else if |keys| == 1 then
      assert keys != {}; NonEmptyHasElement(keys); var k :| k in keys; SingletonIs(keys, k); Success(Some(rows[k]))
    else Failure(Raised(NonUniqueResult(|keys|)))
  }

  /** A set with one element is the singleton of any element it holds. */
  lemma SingletonIs(s: set<int>, a: int)
    requires |s| == 1 && a in s
    ensures s == {a}
  {
    assert |s - {a}| == 0;
  }

  /** `patientRepository.findByName(name)`. */
  ghost function PatientNamed(t: Tables, name: string): Result<Option<Patient>, Exception> {
    Single(t.patients, PatientNameKeys(t, name))
  }

  /** The patient rows whose name is `name`. */
  function PatientNameKeys(t: Tables, name: string): set<int> {
    set k | k in t.patients && t.patients[k].name == Some(name)
  }

  /** `carePlanRepository.findByPatientId(patientId)`. */
  ghost function CarePlanOf(t: Tables, patientId: int): Result<Option<CarePlan>, Exception> {
    Single(t.carePlans, CarePlanKeys(t, patientId))
  }

  function CarePlanKeys(t: Tables, patientId: int): set<int> {
    set k | k in t.carePlans && t.carePlans[k].patient == Some(patientId)
  }

  /**
   * The plan rows Hibernate finds for the patient's `carePlan` association:
   * the rows whose join column holds the patient's id.
   */
  function CarePlansOf(t: Tables, patientId: int): (r: map<int, CarePlan>)
    ensures r.Keys == CarePlanKeys(t, patientId)
    ensures forall k :: k in r ==> r[k] == t.carePlans[k] && r[k].patient == Some(patientId)
  {
    map k | k in CarePlanKeys(t, patientId) :: t.carePlans[k]
  }

  /** With the one-to-one invariant, a patient's `carePlan` association holds at most one row. */
  lemma AtMostOneCarePlan(t: Tables, patientId: int)
    requires Valid(t)
    ensures |CarePlansOf(t, patientId)| <= 1
  {
    var ks := CarePlanKeys(t, patientId);
    assert CarePlansOf(t, patientId).Keys == ks;
    if |ks| >= 2 {
      var a, b := TwoElements(ks);
      assert false;
    }
  }

  /** With the one-to-one invariant, looking up a patient's care plan never raises. */
  lemma CarePlanLookupNeverFails(t: Tables, patientId: int)
    requires Valid(t)
    ensures CarePlanOf(t, patientId).Success?
  {
    var ks := CarePlanKeys(t, patientId);
    if |ks| >= 2 {
      var a, b := TwoElements(ks);
      assert false;
    }
  }

  /** `progressNoteRepository.findByPatientId(patientId)`: the notes linked to the patient. */
  function NotesOf(t: Tables, patientId: int): (r: map<int, ProgressNote>)
    ensures forall k :: k in r <==> k in t.notes && t.notes[k].patient == Some(patientId)
    ensures forall k :: k in r ==> r[k] == t.notes[k]
  {
    map k | k in t.notes && t.notes[k].patient == Some(patientId) :: t.notes[k]
  }

  /** On valid tables an id that no patient has owns no notes, plans or appointments. */
  lemma UnknownPatientOwnsNothing(t: Tables, patientId: int)
    ensures Valid(t) && patientId !in t.patients ==>
      NotesOf(t, patientId) == map[] && CarePlansOf(t, patientId) == map[] && AppointmentsOf(t, patientId) == map[]
  {
    if Valid(t) && patientId !in t.patients {
      forall k | k in t.notes ensures t.notes[k].patient != Some(patientId) {
        assert Owned(t, t.notes[k].patient);
      }
      forall k | k in t.carePlans ensures t.carePlans[k].patient != Some(patientId) {
        assert Owned(t, t.carePlans[k].patient);
      }
      forall k | k in t.appointments ensures t.appointments[k].patient != Some(patientId) {
        assert Owned(t, t.appointments[k].patient);
      }
      assert NotesOf(t, patientId).Keys == {};
      assert CarePlansOf(t, patientId).Keys == {};
      assert AppointmentsOf(t, patientId).Keys == {};
    }
  }

  /** `appointmentRepository.findByPatientId(patientId)`: the appointments linked to the patient. */
  function AppointmentsOf(t: Tables, patientId: int): (r: map<int, Appointment>)
    ensures forall k :: k in r <==> k in t.appointments && t.appointments[k].patient == Some(patientId)
    ensures forall k :: k in r ==> r[k] == t.appointments[k]
  {
    map k | k in t.appointments && t.appointments[k].patient == Some(patientId) :: t.appointments[k]
  }

  /**
   * `appointmentRepository.findByAppointmentDateBetween(start, end)`: appointments
   * whose date lies in [start, end], both ends included, under the calendar
   * order `notAfter` (a row with a null date never matches).
   */
  function AppointmentsBetween(t: Tables, start: LocalDateTime, end: LocalDateTime,
                               notAfter: (LocalDateTime, LocalDateTime) -> bool): (r: map<int, Appointment>)
    ensures forall k :: k in r <==>
      (k in t.appointments && t.appointments[k].appointmentDate.Some? &&
       notAfter(start, t.appointments[k].appointmentDate.value) && notAfter(t.appointments[k].appointmentDate.value, end))
    ensures forall k :: k in r ==> r[k] == t.appointments[k]
  {
    map k | k in t.appointments && t.appointments[k].appointmentDate.Some? &&
      notAfter(start, t.appointments[k].appointmentDate.value) &&
      notAfter(t.appointments[k].appointmentDate.value, end) :: t.appointments[k]
  }

  /** The database itself: the rows of the four tables, which the services read and save. */
  class Database {
    var patients: map<int, Patient>
    var notes: map<int, ProgressNote>
    var carePlans: map<int, CarePlan>
    var appointments: map<int, Appointment>
    var nextPatient: int
    var nextNote: int
    var nextCarePlan: int
    var nextAppointment: int

    function Snapshot(): Tables
      reads this
    {
      Tables(patients, notes, carePlans, appointments, nextPatient, nextNote, nextCarePlan, nextAppointment)
    }

    constructor ()
      ensures Snapshot() == Empty
    {
      patients, notes, carePlans, appointments := map[], map[], map[], map[];
      nextPatient, nextNote, nextCarePlan, nextAppointment := 1, 1, 1, 1;
    }

    method SavePatient(p: Patient) returns (r: Result<Patient, Exception>)
      modifies this
      ensures (Snapshot(), r) == PatientSaved(old(Snapshot()), p)
    {
      if p.patientId.Some? && exists k :: k in patients && Some(k) != p.id && patients[k].patientId == p.patientId {
        return Failure(Raised(UniqueViolation("patient_id")));
      }
      var saved := p;
      if !(p.id.Some? && p.id.value in patients) {
        saved := p.(id := Some(nextPatient));
        nextPatient := nextPatient + 1;
      }
      patients := patients[saved.id.value := saved];
      r := Success(saved);
    }

    method SaveCarePlan(c: CarePlan) returns (saved: CarePlan)
      modifies this
      ensures (Snapshot(), saved) == CarePlanSaved(old(Snapshot()), c)
    {
      saved := c;
      if !(c.id.Some? && c.id.value in carePlans) {
        saved := c.(id := Some(nextCarePlan));
        nextCarePlan := nextCarePlan + 1;
      }
      carePlans := carePlans[saved.id.value := saved];
    }

    method SaveNote(n: ProgressNote) returns (saved: ProgressNote)
      modifies this
      ensures (Snapshot(), saved) == NoteSaved(old(Snapshot()), n)
    {
      saved := n;
      if !(n.id.Some? && n.id.value in notes) {
        saved := n.(id := Some(nextNote));
        nextNote := nextNote + 1;
      }
      notes := notes[saved.id.value := saved];
    }

    method SaveAppointment(a: Appointment) returns (saved: Appointment)
      modifies this
      ensures (Snapshot(), saved) == AppointmentSaved(old(Snapshot()), a)
    {
      saved := a;
      if !(a.id.Some? && a.id.value in appointments) {
        saved := a.(id := Some(nextAppointment));
        nextAppointment := nextAppointment + 1;
      }
      appointments := appointments[saved.id.value := saved];
    }

    /** `appointmentRepository.deleteById(id)`: removes the row, and does nothing when there is none. */
    method DeleteAppointmentById(id: int)
      modifies this
      ensures Snapshot() == old(Snapshot()).(appointments := old(appointments) - {id})
    {
      appointments := appointments - {id};
    }

    /** `findByName` on the patients, choosing the single match when there is one. */
    method FindPatientByName(name: string) returns (r: Result<Option<Patient>, Exception>)
      ensures r == PatientNamed(Snapshot(), name)
    {
      var ks := set k | k in patients && patients[k].name == Some(name);
      assert ks == PatientNameKeys(Snapshot(), name);
      if |ks| == 0 {
        r := Success(None);
      } else if |ks| == 1 {
        assert ks != {};
        NonEmptyHasElement(ks);
        var k :| k in ks;
        r := Success(Some(patients[k]));
      } else {
        r := Failure(Raised(NonUniqueResult(|ks|)));
      }
    }

    /** `findByPatientId` on the care plans. */
    method FindCarePlanByPatient(patientId: int) returns (r: Result<Option<CarePlan>, Exception>)
      ensures r == CarePlanOf(Snapshot(), patientId)
    {
      var ks := set k | k in carePlans && carePlans[k].patient == Some(patientId);
      assert ks == CarePlanKeys(Snapshot(), patientId);
      if |ks| == 0 {
        r := Success(None);
      } else if |ks| == 1 {
        assert ks != {};
        NonEmptyHasElement(ks);
        var k :| k in ks;
        r := Success(Some(carePlans[k]));
      } else {
        r := Failure(Raised(NonUniqueResult(|ks|)));
      }
    }
  }
}
