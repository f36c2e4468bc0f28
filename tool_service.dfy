/**
 * MCPToolService: the eleven `@Tool` methods. Each body calls one service
 * method, serialises the result with Jackson, and turns every exception into
 * an `{"error": "<message>"}` payload instead of throwing.
 */
module ToolService {
  import opened Wrappers
  import opened JavaText
  import opened JsonValues
  import opened JavaExceptions
  import opened Entities
  import opened Repositories
  import opened ToolModel
  import opened Registry
  import opened Schema
  import opened Binder
  import opened PatientServices
  import opened AppointmentServices

  /**
   * A patient as Jackson writes it: the row's columns followed by its
   * `progressNotes` and `carePlan` associations. The notes and the plan mark
   * their link back to the patient `@JsonIgnore`, so nothing nests deeper.
   * `carePlan` is held as the plan rows linked to the patient: none when the
   * Java field is null, and never more than one on valid tables.
   */
  datatype PatientGraph = PatientGraph(patient: Patient, progressNotes: map<int, ProgressNote>, carePlan: map<int, CarePlan>)

  /** A patient read from the tables, its associations loaded through its id. */
  function Loaded(t: Tables, p: Patient): (g: PatientGraph)
    ensures g.patient == p
    ensures forall k :: k in g.progressNotes ==> k in t.notes && g.progressNotes[k] == t.notes[k] && t.notes[k].patient == p.id
    ensures forall k :: k in g.carePlan ==> k in t.carePlans && g.carePlan[k] == t.carePlans[k] && t.carePlans[k].patient == p.id
    ensures p.id.Some? ==> forall k :: k in t.notes && t.notes[k].patient == p.id ==> k in g.progressNotes
    ensures p.id.Some? ==> forall k :: k in t.carePlans && t.carePlans[k].patient == p.id ==> k in g.carePlan
  {
    if p.id.None? then PatientGraph(p, map[], map[])
    else PatientGraph(p, NotesOf(t, p.id.value), CarePlansOf(t, p.id.value))
  }

  /** A stored patient's graph: the row, the notes linked to its id, and the plans linked to its id. */
  function StoredGraph(t: Tables, patientId: int): PatientGraph
    requires patientId in t.patients
  {
    PatientGraph(t.patients[patientId], NotesOf(t, patientId), CarePlansOf(t, patientId))
  }

  /** What a tool hands to `objectMapper.writeValueAsString`. */
  datatype Payload =
    | PatientJson(graph: PatientGraph)
    | PatientsJson(patients: map<int, PatientGraph>)
    | NotesJson(notes: map<int, ProgressNote>)
    | CarePlanJson(plan: CarePlan)
    | NoteJson(note: ProgressNote)
    | AppointmentJson(appointment: Appointment)
    | AppointmentsJson(appointments: map<int, Appointment>)

  /**
   * Everything the tools take from outside the model: the clock, java.time
   * parsing, Double parsing, Jackson's serialiser (its failure is the message
   * of the JsonProcessingException) and the text of JVM and library faults.
   */
  datatype Env = Env(
    today: LocalDate,
    inThreeMonths: LocalDate,
    now: LocalDateTime,
    parseDate: string -> Option<LocalDate>,
    parseDateTime: string -> Option<LocalDateTime>,
    parseDouble: string -> Option<string>,
    toJson: Payload -> Result<string, string>,
    describe: Fault -> string)

  /** The payload every tool returns for a failure: `{"error": "<message>"}`, without escaping. */
  function ErrorPayload(message: string): (s: string)
    ensures |s| >= 13 && s[..11] == "{\"error\": \"" && s[|s| - 2..] == "\"}"
    ensures s[11..|s| - 2] == message
  {
    "{\"error\": \"" + message + "\"}"
  }

  /** The `catch (Exception e)` branch of every tool body. */
  function Caught(env: Env, e: Exception): string {
    ErrorPayload(GetMessage(e, env.describe))
  }

  /** `return objectMapper.writeValueAsString(x)` inside the try. */
  function Respond(env: Env, p: Payload): (s: string)
    ensures env.toJson(p).Success? ==> s == env.toJson(p).value
    ensures env.toJson(p).Failure? ==> s == ErrorPayload(env.toJson(p).error)
  {
    match env.toJson(p)
    case Success(json) => json
    case Failure(message) => ErrorPayload(message)
  }

  // ---- The tool bodies, as functions of the tables ----

  /**
   * `get_patient_by_name`: no patient of that name is the not-found payload,
   * exactly one is that patient with its notes and plan, several are the
   * message of the query's IncorrectResultSizeDataAccessException.
   */
  ghost function GetPatientByNameTool(t: Tables, name: string, env: Env): (s: string)
    ensures PatientNameKeys(t, name) == {} ==> s == ErrorPayload("Patient not found with name: " + name)
    ensures |PatientNameKeys(t, name)| == 1 ==> forall k :: k in PatientNameKeys(t, name) ==>
      s == Respond(env, PatientJson(Loaded(t, t.patients[k])))
    ensures |PatientNameKeys(t, name)| >= 2 ==> s == Caught(env, Raised(NonUniqueResult(|PatientNameKeys(t, name)|)))
  {
    match PatientNamed(t, name)
    case Failure(e) => Caught(env, e)
    case Success(None) => ErrorPayload("Patient not found with name: " + name)
    case Success(Some(p)) => Respond(env, PatientJson(Loaded(t, p)))
  }

  /** `get_patient_by_id`: a stored patient's JSON lists the notes and the plan linked to that id. */
  function GetPatientByIdTool(t: Tables, patientId: int, env: Env): (s: string)
    ensures Valid(t) && patientId in t.patients ==> s == Respond(env, PatientJson(StoredGraph(t, patientId)))
  {
    match Lookup(t.patients, patientId)
    case None => ErrorPayload("Patient not found with ID: " + ToDecimal(patientId))
    case Some(p) => Respond(env, PatientJson(Loaded(t, p)))
  }

  /** `get_all_patients`: every stored patient, each with the notes and the plan linked to its id. */
  function GetAllPatientsTool(t: Tables, env: Env): (s: string)
    ensures Valid(t) ==> s == Respond(env, PatientsJson(map k | k in t.patients :: StoredGraph(t, k)))
  {
    var graphs := map k | k in t.patients :: Loaded(t, t.patients[k]);
    assert Valid(t) ==> graphs == map k | k in t.patients :: StoredGraph(t, k);
    Respond(env, PatientsJson(graphs))
  }

  /** `get_progress_notes`: on valid tables an id no patient has lists no notes rather than failing. */
  function GetProgressNotesTool(t: Tables, patientId: int, env: Env): (s: string)
    ensures Valid(t) && patientId !in t.patients ==> s == Respond(env, NotesJson(map[]))
  {
    UnknownPatientOwnsNothing(t, patientId);
    Respond(env, NotesJson(NotesOf(t, patientId)))
  }

  /**
   * `get_care_plan`: no plan is the not-found payload, one plan is its JSON,
   * and several (impossible on valid tables) are the query's failure.
   */
  ghost function GetCarePlanTool(t: Tables, patientId: int, env: Env): (s: string)
    ensures CarePlanKeys(t, patientId) == {} ==> s == ErrorPayload("Care plan not found for patient ID: " + ToDecimal(patientId))
    ensures |CarePlanKeys(t, patientId)| == 1 ==> forall k :: k in CarePlanKeys(t, patientId) ==>
      s == Respond(env, CarePlanJson(t.carePlans[k]))
    ensures |CarePlanKeys(t, patientId)| >= 2 ==>
      s == Caught(env, Raised(NonUniqueResult(|CarePlanKeys(t, patientId)|)))
  {
    match CarePlanOf(t, patientId)
    case Failure(e) => Caught(env, e)
    case Success(None) => ErrorPayload("Care plan not found for patient ID: " + ToDecimal(patientId))
    case Success(Some(c)) => Respond(env, CarePlanJson(c))
  }

  /** The request `update_care_plan` builds: the four texts, today's date and the date three months on. */
  function CarePlanRequest(goals: string, interventions: string, medications: string, status: string, env: Env): CarePlan {
    NewCarePlan.(goals := Some(goals), interventions := Some(interventions), medications := Some(medications),
                 status := Some(status), startDate := Some(env.today), reviewDate := Some(env.inThreeMonths))
  }

  /** `update_care_plan` writes the care-plan table and nothing else. */
  ghost function UpdateCarePlanTool(t: Tables, patientId: int, goals: string, interventions: string,
                                    medications: string, status: string, env: Env): (r: (Tables, string))
    ensures r.0 == t.(carePlans := r.0.carePlans, nextCarePlan := r.0.nextCarePlan)
  {
    var (t', r) := UpdatedCarePlan(t, patientId, CarePlanRequest(goals, interventions, medications, status, env));
    (t', match r case Success(c) => Respond(env, CarePlanJson(c)) case Failure(e) => Caught(env, e))
  }

  /** The note `add_progress_note` builds, stamped with the current time. */
  function NoteRequest(note: string, provider: string, noteType: string, env: Env): ProgressNote {
    NewProgressNote.(note := Some(note), provider := Some(provider), noteType := Some(noteType), dateTime := Some(env.now))
  }

  /** `add_progress_note` writes the note table and nothing else. */
  function AddProgressNoteTool(t: Tables, patientId: int, note: string, provider: string, noteType: string,
                               env: Env): (r: (Tables, string))
    ensures r.0 == t.(notes := r.0.notes, nextNote := r.0.nextNote)
  {
    var (t', r) := AddedProgressNote(t, patientId, NoteRequest(note, provider, noteType, env));
    (t', match r case Success(n) => Respond(env, NoteJson(n)) case Failure(e) => Caught(env, e))
  }

  /**
   * The graph Jackson sees for the patient `create_patient` has just saved: a
   * new Patient object, so `progressNotes` is the empty list it was built with
   * and `carePlan` is null.
   */
  function CreatedGraph(p: Patient): PatientGraph {
    PatientGraph(p, map[], map[])
  }

  /** `create_patient` writes the patient table and nothing else. */
  function CreatePatientTool(t: Tables, name: string, patientId: string, dateOfBirth: string, gender: string,
                             contactNumber: string, email: string, address: string, env: Env): (r: (Tables, string))
    ensures r.0 == t.(patients := r.0.patients, nextPatient := r.0.nextPatient)
  {
    match env.parseDate(dateOfBirth)
    case None => (t, Caught(env, Raised(DateTimeParse(dateOfBirth))))
    case Some(dob) =>
      var patient := NewPatient.(name := Some(name), patientId := Some(patientId), dateOfBirth := Some(dob),
                                 gender := Some(gender), contactNumber := Some(contactNumber), email := Some(email),
                                 address := Some(address));
      var (t', r) := CreatedPatient(t, patient);
      (t', match r case Success(p) => Respond(env, PatientJson(CreatedGraph(p))) case Failure(e) => Caught(env, e))
  }

  /** The appointment `schedule_appointment` builds: always with status "Scheduled". */
  function AppointmentRequest(date: LocalDateTime, reason: string, provider: string): Appointment {
    NewAppointment.(appointmentDate := Some(date), reason := Some(reason), provider := Some(provider), status := Some("Scheduled"))
  }

  /** `schedule_appointment` writes the appointment table and nothing else. */
  function ScheduleAppointmentTool(t: Tables, patientId: int, appointmentDate: string, reason: string,
                                   provider: string, env: Env): (r: (Tables, string))
    ensures r.0 == t.(appointments := r.0.appointments, nextAppointment := r.0.nextAppointment)
  {
    match env.parseDateTime(appointmentDate)
    case None => (t, Caught(env, Raised(DateTimeParse(appointmentDate))))
    case Some(date) =>
      var (t', r) := CreatedAppointment(t, patientId, AppointmentRequest(date, reason, provider));
      (t', match r case Success(a) => Respond(env, AppointmentJson(a)) case Failure(e) => Caught(env, e))
  }

  /** `get_appointments`: on valid tables an id no patient has lists no appointments rather than failing. */
  function GetAppointmentsTool(t: Tables, patientId: int, env: Env): (s: string)
    ensures Valid(t) && patientId !in t.patients ==> s == Respond(env, AppointmentsJson(map[]))
  {
    UnknownPatientOwnsNothing(t, patientId);
    Respond(env, AppointmentsJson(AppointmentsOf(t, patientId)))
  }

  /**
   * `cancel_appointment`: an unknown id is the service's "Appointment not
   * found" and stores nothing; otherwise only the appointment table changes.
   */
  function CancelAppointmentTool(t: Tables, appointmentId: int, env: Env): (r: (Tables, string))
    ensures appointmentId !in t.appointments ==> r == (t, ErrorPayload("Appointment not found"))
    ensures r.0 == t.(appointments := r.0.appointments, nextAppointment := r.0.nextAppointment)
  {
    var (t', r) := CancelledAppointment(t, appointmentId);
    (t', match r case Success(a) => Respond(env, AppointmentJson(a)) case Failure(e) => Caught(env, e))
  }

  /**
   * A patient id that is not stored gives each patient tool's error payload,
   * and the tools that write change nothing.
   */
  lemma UnknownPatientPayloads(t: Tables, patientId: int, env: Env)
    requires patientId !in t.patients
    ensures GetPatientByIdTool(t, patientId, env) == ErrorPayload("Patient not found with ID: " + ToDecimal(patientId))
    ensures forall goals, interventions, medications, status ::
      UpdateCarePlanTool(t, patientId, goals, interventions, medications, status, env) == (t, ErrorPayload("Patient not found"))
    ensures forall note, provider, noteType ::
      AddProgressNoteTool(t, patientId, note, provider, noteType, env) == (t, ErrorPayload("Patient not found"))
    ensures forall date, reason, provider :: env.parseDateTime(date).Some? ==>
      ScheduleAppointmentTool(t, patientId, date, reason, provider, env) == (t, ErrorPayload("Patient not found"))
  {
  }

  /**
   * `update_care_plan` for a stored patient stores a plan with the four texts,
   * starting today and due for review in three months, and it is the patient's
   * only plan.
   */
  lemma UpdateCarePlanToolStores(t: Tables, patientId: int, goals: string, interventions: string,
                                 medications: string, status: string, env: Env)
    requires Valid(t) && patientId in t.patients
    ensures var t' := UpdateCarePlanTool(t, patientId, goals, interventions, medications, status, env).0;
      exists id :: CarePlanKeys(t', patientId) == {id} && var c := t'.carePlans[id];
        && c.goals == Some(goals) && c.interventions == Some(interventions) && c.medications == Some(medications)
        && c.status == Some(status) && c.startDate == Some(env.today) && c.reviewDate == Some(env.inThreeMonths)
  {
    var request := CarePlanRequest(goals, interventions, medications, status, env);
    UpdateCarePlanUpserts(t, patientId, request);
    UpdateCarePlanSinglePlan(t, patientId, request);
    var r := UpdatedCarePlan(t, patientId, request).1;
    assert CarePlanKeys(UpdatedCarePlan(t, patientId, request).0, patientId) == {r.value.id.value};
  }

  /**
   * `schedule_appointment` with a date that parses, for a stored patient,
   * stores an appointment at that date, for that patient, with status
   * "Scheduled", and returns its JSON.
   */
  lemma ScheduleAppointmentToolStores(t: Tables, patientId: int, appointmentDate: string, reason: string,
                                      provider: string, env: Env)
    requires patientId in t.patients && env.parseDateTime(appointmentDate).Some?
    ensures var (t', s) := ScheduleAppointmentTool(t, patientId, appointmentDate, reason, provider, env);
      exists a: Appointment ::
        && a.id.Some? && a.id.value in t'.appointments && t'.appointments[a.id.value] == a
        && a.patient == Some(patientId) && a.status == Some("Scheduled")
        && a.appointmentDate == env.parseDateTime(appointmentDate) && a.reason == Some(reason) && a.provider == Some(provider)
        && s == Respond(env, AppointmentJson(a))
  {
    var date := env.parseDateTime(appointmentDate).value;
    var r := CreatedAppointment(t, patientId, AppointmentRequest(date, reason, provider));
    var a := r.1.value;
    assert a.appointmentDate == Some(date);
  }

  /** An appointment date that does not parse fails `schedule_appointment` with the parser's message and stores nothing. */
  lemma UnparsableAppointmentDate(t: Tables, patientId: int, text: string, reason: string, provider: string, env: Env)
    requires env.parseDateTime(text).None?
    ensures ScheduleAppointmentTool(t, patientId, text, reason, provider, env) ==
      (t, ErrorPayload(env.describe(DateTimeParse(text))))
  {
  }

  /** A birth date that does not parse fails `create_patient` with the parser's message and stores nothing. */
  lemma UnparsableBirthDate(t: Tables, text: string, env: Env)
    requires env.parseDate(text).None?
    ensures forall name, patientKey, gender, contactNumber, email, address ::
      CreatePatientTool(t, name, patientKey, text, gender, contactNumber, email, address, env) ==
        (t, ErrorPayload(env.describe(DateTimeParse(text))))
  {
  }

  /**
   * After `add_progress_note` for a stored patient, `get_patient_by_id` for
   * that patient lists the new note, stored under the next note id, beside
   * the notes it had; the row and the care plan are the ones it had.
   */
  lemma AddedNoteShowsInPatientJson(t: Tables, patientId: int, note: string, provider: string, noteType: string, env: Env)
    requires Valid(t) && patientId in t.patients
    ensures var (t', s) := AddProgressNoteTool(t, patientId, note, provider, noteType, env);
      var n := NoteRequest(note, provider, noteType, env).(patient := Some(patientId), id := Some(t.nextNote));
      && s == Respond(env, NoteJson(n))
      && GetPatientByIdTool(t', patientId, env) ==
           Respond(env, PatientJson(PatientGraph(t.patients[patientId], NotesOf(t, patientId)[t.nextNote := n],
                                                 CarePlansOf(t, patientId))))
  {
    var request := NoteRequest(note, provider, noteType, env);
    AddProgressNoteStores(t, patientId, request);
    var (t', r) := AddedProgressNote(t, patientId, request);
    var n := request.(patient := Some(patientId), id := Some(t.nextNote));
    assert r.value == n;
    assert t'.notes == t.notes[t.nextNote := n];
    assert NotesOf(t', patientId) == NotesOf(t, patientId)[t.nextNote := n];
    assert CarePlansOf(t', patientId) == CarePlansOf(t, patientId);
  }

  /**
   * `create_patient` with a birth date that parses fails on a patientId that
   * another patient has, storing nothing; otherwise it stores the patient
   * under the next id and answers with the JSON `get_patient_by_id` gives for
   * that id, with no notes and no plan.
   */
  lemma CreatePatientToolAnswersAsStored(t: Tables, name: string, patientKey: string, dateOfBirth: string, gender: string,
                                         contactNumber: string, email: string, address: string, env: Env)
    requires Valid(t) && env.parseDate(dateOfBirth).Some?
    ensures var (t', s) := CreatePatientTool(t, name, patientKey, dateOfBirth, gender, contactNumber, email, address, env);
      if exists k :: k in t.patients && t.patients[k].patientId == Some(patientKey) then
        t' == t && s == Caught(env, Raised(UniqueViolation("patient_id")))
      else
        && t.nextPatient in t'.patients && t'.patients[t.nextPatient].name == Some(name)
        && t'.patients[t.nextPatient].patientId == Some(patientKey)
        && StoredGraph(t', t.nextPatient).progressNotes == map[] && StoredGraph(t', t.nextPatient).carePlan == map[]
        && s == GetPatientByIdTool(t', t.nextPatient, env)
  {
    var dob := env.parseDate(dateOfBirth).value;
    var patient := NewPatient.(name := Some(name), patientId := Some(patientKey), dateOfBirth := Some(dob),
                               gender := Some(gender), contactNumber := Some(contactNumber), email := Some(email),
                               address := Some(address));
    var (t', r) := CreatedPatient(t, patient);
    if r.Success? {
      CreatePatientThenFind(t, patient);
      var id := t.nextPatient;
      assert r.value.id == Some(id);
      UnknownPatientOwnsNothing(t, id);
      assert NotesOf(t', id) == NotesOf(t, id);
      assert CarePlansOf(t', id) == CarePlansOf(t, id);
    }
  }

  /** `cancel_appointment` twice stores what cancelling once stores, and both answer with the same JSON. */
  lemma CancelAppointmentToolTwice(t: Tables, appointmentId: int, env: Env)
    requires Valid(t)
    ensures var once := CancelAppointmentTool(t, appointmentId, env);
      CancelAppointmentTool(once.0, appointmentId, env) == once
  {
    CancelIdempotent(t, appointmentId);
  }

  // ---- The declarations ----

  /** A `@ToolParam` without `required`, which therefore defaults to true. */
  function Param(name: string, description: string, t: JavaType): ParamDecl {
    ParamDecl(Some(ToolParamAnnotation(name, description, true)), t)
  }

  const PatientIdParam := Param("patient_id", "Numeric ID of the patient", LongClass)

  /** The declared methods of MCPToolService, in source order. */
  const ToolTable: seq<MethodDecl> := [
    Annotated(ToolAnnotation("get_patient_by_name", "Retrieve patient details by patient name"), GetPatientByName,
      [Param("name", "Full name of the patient", StringClass)]),
    Annotated(ToolAnnotation("get_patient_by_id", "Retrieve patient details by patient ID"), GetPatientById,
      [PatientIdParam]),
    Annotated(ToolAnnotation("get_all_patients", "List all patients in the system"), GetAllPatients, []),
    Annotated(ToolAnnotation("get_progress_notes", "Get all progress notes for a specific patient"), GetProgressNotes,
      [PatientIdParam]),
    Annotated(ToolAnnotation("get_care_plan", "Get the care plan for a specific patient"), GetCarePlan,
      [PatientIdParam]),
    Annotated(ToolAnnotation("update_care_plan", "Update or create a care plan for a patient"), UpdateCarePlan,
      [PatientIdParam,
       Param("goals", "Health goals for the patient", StringClass),
       Param("interventions", "Planned interventions", StringClass),
       Param("medications", "Prescribed medications", StringClass),
       Param("status", "Status of the care plan (e.g., Active, Under Review)", StringClass)]),
    Annotated(ToolAnnotation("add_progress_note", "Add a new progress note for a patient"), AddProgressNote,
      [PatientIdParam,
       Param("note", "Content of the progress note", StringClass),
       Param("provider", "Name of the healthcare provider", StringClass),
       Param("note_type", "Type of note (e.g., Assessment, Treatment)", StringClass)]),
    Annotated(ToolAnnotation("create_patient", "Create a new patient record"), CreatePatient,
      [Param("name", "Full name of the patient", StringClass),
       Param("patient_id", "Unique patient identifier", StringClass),
       Param("date_of_birth", "Date of birth (YYYY-MM-DD)", StringClass),
       Param("gender", "Gender of the patient", StringClass),
       Param("contact_number", "Contact phone number", StringClass),
       Param("email", "Email address", StringClass),
       Param("address", "Residential address", StringClass)]),
    Annotated(ToolAnnotation("schedule_appointment", "Schedule an appointment for a patient"), ScheduleAppointment,
      [PatientIdParam,
       Param("appointment_date", "Appointment date and time (ISO-8601)", StringClass),
       Param("reason", "Reason for visit", StringClass),
       Param("provider", "Provider name", StringClass)]),
    Annotated(ToolAnnotation("get_appointments", "Get appointments for a patient"), GetAppointments,
      [PatientIdParam]),
    Annotated(ToolAnnotation("cancel_appointment", "Cancel an appointment by appointment ID"), CancelAppointment,
      [Param("appointment_id", "Numeric ID of the appointment", LongClass)])
  ]

  /** The tool names, as declared. */
  const ToolNames: set<string> := {
    "get_patient_by_name", "get_patient_by_id", "get_all_patients", "get_progress_notes", "get_care_plan",
    "update_care_plan", "add_progress_note", "create_patient", "schedule_appointment", "get_appointments",
    "cancel_appointment"}

  /** The Java parameter types of each tool method, as `Method.invoke` checks them. */
  function Signature(m: MethodRef): seq<JavaType> {
    match m
    case GetPatientByName => [StringClass]
    case GetPatientById => [LongClass]
    case GetAllPatients => []
    case GetProgressNotes => [LongClass]
    case GetCarePlan => [LongClass]
    case UpdateCarePlan => [LongClass, StringClass, StringClass, StringClass, StringClass]
    case AddProgressNote => [LongClass, StringClass, StringClass, StringClass]
    case CreatePatient => [StringClass, StringClass, StringClass, StringClass, StringClass, StringClass, StringClass]
    case ScheduleAppointment => [LongClass, StringClass, StringClass, StringClass]
    case GetAppointments => [LongClass]
    case CancelAppointment => [LongClass]
  }

  /** An argument the method can take for a parameter of type `t`: a String for String, a Long for Long. */
  predicate Fits(v: Value, t: JavaType) {
    (t == StringClass && v.Str?) || (t == LongClass && v.Long?)
  }

  predicate ArgsMatch(args: seq<Value>, sig: seq<JavaType>) {
    |args| == |sig| && forall i :: 0 <= i < |args| ==> Fits(args[i], sig[i])
  }

  /**
   * `metadata.method.invoke(bean, args)`: arguments that do not fit the
   * signature raise IllegalArgumentException; otherwise the tool body runs and
   * returns its JSON text, never throwing.
   */
  ghost function RunTool(t: Tables, m: MethodRef, args: seq<Value>, env: Env): (r: (Tables, Result<Value, Exception>))
    ensures r.1.Failure? <==> !ArgsMatch(args, Signature(m))
    ensures r.1.Failure? ==> r.0 == t && r.1.error == Raised(ArgumentMismatch)
    ensures r.1.Success? ==> r.1.value.Str?
  {
    if !ArgsMatch(args, Signature(m)) then (t, Failure(Raised(ArgumentMismatch)))
    else
      var (t', s) := match m
        case GetPatientByName => (t, GetPatientByNameTool(t, args[0].s, env))
        case GetPatientById => (t, GetPatientByIdTool(t, args[0].n, env))
        case GetAllPatients => (t, GetAllPatientsTool(t, env))
        case GetProgressNotes => (t, GetProgressNotesTool(t, args[0].n, env))
        case GetCarePlan => (t, GetCarePlanTool(t, args[0].n, env))
        case UpdateCarePlan => UpdateCarePlanTool(t, args[0].n, args[1].s, args[2].s, args[3].s, args[4].s, env)
        case AddProgressNote => AddProgressNoteTool(t, args[0].n, args[1].s, args[2].s, args[3].s, env)
        case CreatePatient =>
          CreatePatientTool(t, args[0].s, args[1].s, args[2].s, args[3].s, args[4].s, args[5].s, args[6].s, env)
        case ScheduleAppointment => ScheduleAppointmentTool(t, args[0].n, args[1].s, args[2].s, args[3].s, env)
        case GetAppointments => (t, GetAppointmentsTool(t, args[0].n, env))
        case CancelAppointment => CancelAppointmentTool(t, args[0].n, env);
      (t', Success(Str(s)))
  }

  // ---- The registry built from this bean ----

  /** The application's tool beans: MCPToolService is the only bean with `@Tool` methods. */
  const Beans: seq<Bean> := [ToolTable]

  /** Each declared method is a `@Tool` method whose name no later method repeats. */
  lemma TableNamesDistinct()
    ensures forall i :: 0 <= i < |ToolTable| ==> IsLastDeclaration(ToolTable, i)
  {
  }

  /** Every declared parameter carries `@ToolParam` and is required. */
  predicate AllRequired(m: MethodDecl) {
    m.Annotated? && forall k :: 0 <= k < |m.params| ==> m.params[k].annotation.Some? && m.params[k].annotation.value.required
  }

  /** The declared parameter types are the method's Java signature, each one String or Long. */
  predicate TypesAreSignature(m: MethodDecl) {
    && m.Annotated? && |m.params| == |Signature(m.target)|
    && forall k :: 0 <= k < |m.params| ==>
         m.params[k].paramType == Signature(m.target)[k] && m.params[k].paramType in {StringClass, LongClass}
  }

  lemma TableDeclarations()
    ensures forall i :: 0 <= i < |ToolTable| ==> AllRequired(ToolTable[i]) && TypesAreSignature(ToolTable[i])
  {
    TableRequired();
    TableSignatures();
  }

  lemma TableRequired()
    ensures forall i :: 0 <= i < |ToolTable| ==> AllRequired(ToolTable[i])
  {
  }

  lemma TableSignatures()
    ensures forall i :: 0 <= i < |ToolTable| ==> TypesAreSignature(ToolTable[i])
  {
  }

  /** Every declaration is a `@Tool` method with one of the eleven names. */
  lemma TableNames()
    ensures forall i :: 0 <= i < |ToolTable| ==> ToolTable[i].Annotated? && ToolTable[i].tool.name in ToolNames
  {
  }

  lemma DeclaresName(i: int)
    requires 0 <= i < |ToolTable|
    ensures ToolTable[i].tool.name in DeclaredNames(ToolTable)
  {
  }

  /** Each of the eleven names is declared. */
  lemma ToolNamesDeclared()
    ensures ToolNames <= DeclaredNames(ToolTable)
  {
    DeclaresName(0);
    assert ToolTable[0].tool.name == "get_patient_by_name";
    DeclaresName(1);
    assert ToolTable[1].tool.name == "get_patient_by_id";
    DeclaresName(2);
    assert ToolTable[2].tool.name == "get_all_patients";
    DeclaresName(3);
    assert ToolTable[3].tool.name == "get_progress_notes";
    DeclaresName(4);
    assert ToolTable[4].tool.name == "get_care_plan";
    DeclaresName(5);
    assert ToolTable[5].tool.name == "update_care_plan";
    DeclaresName(6);
    assert ToolTable[6].tool.name == "add_progress_note";
    DeclaresName(7);
    assert ToolTable[7].tool.name == "create_patient";
    DeclaresName(8);
    assert ToolTable[8].tool.name == "schedule_appointment";
    DeclaresName(9);
    assert ToolTable[9].tool.name == "get_appointments";
    DeclaresName(10);
    assert ToolTable[10].tool.name == "cancel_appointment";
  }

  /** The declared tool names are exactly the eleven names. */
  lemma DeclaredToolNames()
    ensures DeclaredNames(ToolTable) == ToolNames
  {
    TableNames();
    ToolNamesDeclared();
  }

  /** The eleven names are all different. */
  lemma ToolNamesCount()
    ensures |ToolNames| == 11
  {
  }

  /** The scan visits exactly the methods of MCPToolService. */
  lemma MethodsOfBeans()
    ensures AllMethods(Beans) == ToolTable
  {
    assert Beans[..0] == [];
  }

  /** The registry `initializeTools` builds holds the eleven tools by name. */
  lemma RegistryKeys()
    ensures Build(Beans).Keys == DeclaredNames(ToolTable) == ToolNames
  {
    MethodsOfBeans();
    BuildCharacterised(Beans);
    DeclaredToolNames();
  }

  /** There are eleven tools. */
  lemma RegistrySize()
    ensures |Build(Beans)| == 11
  {
    RegistryKeys();
    ToolNamesCount();
    assert |Build(Beans).Keys| == |ToolNames|;
  }

  /** Each tool is registered with the descriptor of its declaration. */
  lemma RegistryEntries()
    ensures forall i :: 0 <= i < |ToolTable| ==>
      ToolTable[i].tool.name in Build(Beans) && Build(Beans)[ToolTable[i].tool.name] == MetadataOf(ToolTable[i])
  {
    MethodsOfBeans();
    BuildCharacterised(Beans);
    TableNamesDistinct();
    forall i | 0 <= i < |ToolTable| ensures ToolTable[i].tool.name in Build(Beans) {
      DeclaresName(i);
    }
  }

  /** Declaration `i` is registered under its name. */
  lemma Registered(i: int)
    requires 0 <= i < |ToolTable|
    ensures ToolTable[i].tool.name in Build(Beans)
    ensures Build(Beans)[ToolTable[i].tool.name] == MetadataOf(ToolTable[i])
  {
    RegistryEntries();
  }

  /** The declaration a registered tool comes from. */
  lemma DeclarationOf(n: string) returns (i: int)
    requires n in Build(Beans)
    ensures 0 <= i < |ToolTable| && ToolTable[i].tool.name == n
    ensures Build(Beans)[n] == MetadataOf(ToolTable[i])
  {
    RegistryKeys();
    assert n in DeclaredNames(ToolTable);
    i :| 0 <= i < |ToolTable| && ToolTable[i].Annotated? && ToolTable[i].tool.name == n;
    Registered(i);
  }

  /** Every parameter of every registered tool is required, and its type is the Java signature's. */
  lemma RegisteredParameters(n: string)
    requires n in Build(Beans)
    ensures var d := Build(Beans)[n];
      && |d.parameters| == |Signature(d.handler)|
      && forall j :: 0 <= j < |d.parameters| ==>
           d.parameters[j].required && d.parameters[j].paramType == Signature(d.handler)[j]
  {
    var i := DeclarationOf(n);
    TableDeclarations();
    ParametersOfAnnotated(ToolTable[i].params);
  }

  /** Every registered tool's `required` list names all its parameters, in order. */
  lemma RegisteredSchemasRequireAll(n: string)
    requires n in Build(Beans)
    ensures var ps := Build(Beans)[n].parameters;
      |RequiredNames(ps)| == |ps| && forall j :: 0 <= j < |ps| ==> RequiredNames(ps)[j] == ps[j].name
  {
    RegisteredParameters(n);
    RequiredNamesAllRequired(Build(Beans)[n].parameters);
  }

  /** `get_all_patients` takes no parameters, so its schema has no `required` key. */
  lemma GetAllPatientsSchema()
    ensures "get_all_patients" in Build(Beans)
    ensures Build(Beans)["get_all_patients"].parameters == []
    ensures Keys(InputSchema(Build(Beans)["get_all_patients"].parameters).entries) == {"type", "properties"}
  {
    RegistryEntries();
    assert ToolTable[2].tool.name == "get_all_patients";
  }

  /**
   * `patient_id` is a Long in every tool that takes it except `create_patient`,
   * where it is the hospital's String identifier.
   */
  lemma PatientIdTypes(n: string, j: int)
    requires n in Build(Beans)
    requires 0 <= j < |Build(Beans)[n].parameters| && Build(Beans)[n].parameters[j].name == "patient_id"
    ensures Build(Beans)[n].parameters[j].paramType == (if n == "create_patient" then StringClass else LongClass)
  {
    var i := DeclarationOf(n);
    TableDeclarations();
    ParametersOfAnnotated(ToolTable[i].params);
    TablePatientIds(i, j);
  }

  /** In the declarations, a parameter named `patient_id` is a String in `create_patient` and a Long elsewhere. */
  lemma TablePatientIds(i: int, j: int)
    requires 0 <= i < |ToolTable| && 0 <= j < |ToolTable[i].params|
    requires ToolTable[i].params[j].annotation == Some(ToolParamAnnotation("patient_id", ToolTable[i].params[j].annotation.value.description, true))
    ensures ToolTable[i].params[j].paramType == (if ToolTable[i].tool.name == "create_patient" then StringClass else LongClass)
  {
  }

  /** A non-null JSON value converted for a String or Long parameter fits that parameter. */
  lemma ConvertedFits(v: Value, t: JavaType, pd: string -> Option<string>)
    requires t in {StringClass, LongClass} && !v.Null? && ConvertValue(v, t, pd).Success?
    ensures Fits(ConvertValue(v, t, pd).value, t)
  {
  }

  /**
   * Arguments that bind to a registered tool's parameters always fit the
   * method's signature, so `invoke` never raises IllegalArgumentException for
   * them.
   */
  lemma BoundArgumentsFit(n: string, args: seq<(string, Value)>, pd: string -> Option<string>)
    requires n in Build(Beans)
    requires Bind(Build(Beans)[n].parameters, args, pd).Success?
    ensures ArgsMatch(Bind(Build(Beans)[n].parameters, args, pd).value, Signature(Build(Beans)[n].handler))
  {
    var d := Build(Beans)[n];
    var ps := d.parameters;
    var vs := Bind(ps, args, pd).value;
    RegisteredParameters(n);
    BindSucceeds(ps, args, pd);
    TableDeclarations();
    var i := DeclarationOf(n);
    ParametersOfAnnotated(ToolTable[i].params);
    forall j | 0 <= j < |vs| ensures Fits(vs[j], Signature(d.handler)[j]) {
      var b := BindOne(ps[j], args, pd);
      assert ps[j] == Describe(ToolTable[i].params[j]);
      ConvertedFits(Get(args, ps[j].name), ps[j].paramType, pd);
    }
  }

  /**
   * The tool service bean, wired to the two domain services over one database.
   * A patient's `progressNotes` and `carePlan` are loaded from
   * the same database as Jackson walks the returned entity, which the methods
   * read as `Loaded` over the database's current tables.
   */
  class MCPToolService {
    const patientService: PatientService
    const appointmentService: AppointmentService

    constructor (patientService: PatientService, appointmentService: AppointmentService)
      requires patientService.db == appointmentService.db
      ensures this.patientService == patientService && this.appointmentService == appointmentService
      ensures Wired()
    {
      this.patientService := patientService;
      this.appointmentService := appointmentService;
    }

    /** Both services work on the same database, as the Spring context wires them. */
    predicate Wired() {
      patientService.db == appointmentService.db
    }

    method GetPatientByName(name: string, env: Env) returns (s: string)
      ensures s == GetPatientByNameTool(patientService.db.Snapshot(), name, env)
    {
      var patient := patientService.GetPatientByName(name);
      match patient {
        case Failure(e) => s := Caught(env, e);
        case Success(None) => s := ErrorPayload("Patient not found with name: " + name);
        case Success(Some(p)) => s := Respond(env, PatientJson(Loaded(patientService.db.Snapshot(), p)));
      }
    }

    method GetPatientById(patientId: int, env: Env) returns (s: string)
      ensures s == GetPatientByIdTool(patientService.db.Snapshot(), patientId, env)
    {
      var patient := patientService.GetPatientById(patientId);
      if patient.Some? {
        s := Respond(env, PatientJson(Loaded(patientService.db.Snapshot(), patient.value)));
      } else {
        s := ErrorPayload("Patient not found with ID: " + ToDecimal(patientId));
      }
    }

    method GetAllPatients(env: Env) returns (s: string)
      ensures s == GetAllPatientsTool(patientService.db.Snapshot(), env)
    {
      var patients := patientService.GetAllPatients();
      var t := patientService.db.Snapshot();
      s := Respond(env, PatientsJson(map k | k in patients :: Loaded(t, patients[k])));
    }

    method GetProgressNotes(patientId: int, env: Env) returns (s: string)
      ensures s == GetProgressNotesTool(patientService.db.Snapshot(), patientId, env)
    {
      var notes := patientService.GetProgressNotesByPatientId(patientId);
      s := Respond(env, NotesJson(notes));
    }

    method GetCarePlan(patientId: int, env: Env) returns (s: string)
      ensures s == GetCarePlanTool(patientService.db.Snapshot(), patientId, env)
    {
      var carePlan := patientService.GetCarePlanByPatientId(patientId);
      match carePlan {
        case Failure(e) => s := Caught(env, e);
        case Success(None) => s := ErrorPayload("Care plan not found for patient ID: " + ToDecimal(patientId));
        case Success(Some(c)) => s := Respond(env, CarePlanJson(c));
      }
    }

    method UpdateCarePlan(patientId: int, goals: string, interventions: string, medications: string,
                              status: string, env: Env) returns (s: string)
      modifies patientService.db
      ensures (patientService.db.Snapshot(), s) ==
        UpdateCarePlanTool(old(patientService.db.Snapshot()), patientId, goals, interventions, medications, status, env)
    {
      var request := CarePlanRequest(goals, interventions, medications, status, env);
      var updated := patientService.UpdateCarePlan(patientId, request);
      s := match updated case Success(c) => Respond(env, CarePlanJson(c)) case Failure(e) => Caught(env, e);
    }

    method AddProgressNote(patientId: int, note: string, provider: string, noteType: string, env: Env)
      returns (s: string)
      modifies patientService.db
      ensures (patientService.db.Snapshot(), s) ==
        AddProgressNoteTool(old(patientService.db.Snapshot()), patientId, note, provider, noteType, env)
    {
      var created := patientService.AddProgressNote(patientId, NoteRequest(note, provider, noteType, env));
      s := match created case Success(n) => Respond(env, NoteJson(n)) case Failure(e) => Caught(env, e);
    }

    method CreatePatient(name: string, patientId: string, dateOfBirth: string, gender: string,
                             contactNumber: string, email: string, address: string, env: Env) returns (s: string)
      modifies patientService.db
      ensures (patientService.db.Snapshot(), s) ==
        CreatePatientTool(old(patientService.db.Snapshot()), name, patientId, dateOfBirth, gender,
                                      contactNumber, email, address, env)
    {
      var dob := env.parseDate(dateOfBirth);
      if dob.None? {
        return Caught(env, Raised(DateTimeParse(dateOfBirth)));
      }
      var patient := NewPatient.(name := Some(name), patientId := Some(patientId), dateOfBirth := Some(dob.value),
                                 gender := Some(gender), contactNumber := Some(contactNumber), email := Some(email),
                                 address := Some(address));
      var created := patientService.CreatePatient(patient);
      s := match created case Success(p) => Respond(env, PatientJson(CreatedGraph(p))) case Failure(e) => Caught(env, e);
    }

    method ScheduleAppointment(patientId: int, appointmentDate: string, reason: string, provider: string,
                                   env: Env) returns (s: string)
      requires Wired()
      modifies patientService.db
      ensures (patientService.db.Snapshot(), s) ==
        ScheduleAppointmentTool(old(patientService.db.Snapshot()), patientId, appointmentDate, reason, provider, env)
    {
      var date := env.parseDateTime(appointmentDate);
      if date.None? {
        return Caught(env, Raised(DateTimeParse(appointmentDate)));
      }
      var created := appointmentService.CreateAppointment(patientId, AppointmentRequest(date.value, reason, provider));
      s := match created case Success(a) => Respond(env, AppointmentJson(a)) case Failure(e) => Caught(env, e);
    }

    method GetAppointments(patientId: int, env: Env) returns (s: string)
      requires Wired()
      ensures s == GetAppointmentsTool(patientService.db.Snapshot(), patientId, env)
    {
      var appts := appointmentService.GetAppointmentsByPatientId(patientId);
      s := Respond(env, AppointmentsJson(appts));
    }

    method CancelAppointment(appointmentId: int, env: Env) returns (s: string)
      requires Wired()
      modifies patientService.db
      ensures (patientService.db.Snapshot(), s) ==
        CancelAppointmentTool(old(patientService.db.Snapshot()), appointmentId, env)
    {
      var cancelled := appointmentService.CancelAppointment(appointmentId);
      s := match cancelled case Success(a) => Respond(env, AppointmentJson(a)) case Failure(e) => Caught(env, e);
    }

    /** `Method.invoke` on this bean: check the arguments against the signature, then run the tool body. */
    method Invoke(m: MethodRef, args: seq<Value>, env: Env) returns (r: Result<Value, Exception>)
      requires Wired()
      modifies patientService.db
      ensures (patientService.db.Snapshot(), r) == RunTool(old(patientService.db.Snapshot()), m, args, env)
    {
      if !ArgsMatch(args, Signature(m)) {
        return Failure(Raised(ArgumentMismatch));
      }
      var s: string;
      match m {
        case GetPatientByName => s := GetPatientByName(args[0].s, env);
        case GetPatientById => s := GetPatientById(args[0].n, env);
        case GetAllPatients => s := GetAllPatients(env);
        case GetProgressNotes => s := GetProgressNotes(args[0].n, env);
        case GetCarePlan => s := GetCarePlan(args[0].n, env);
        case UpdateCarePlan => s := UpdateCarePlan(args[0].n, args[1].s, args[2].s, args[3].s, args[4].s, env);
        case AddProgressNote => s := AddProgressNote(args[0].n, args[1].s, args[2].s, args[3].s, env);
        case CreatePatient => s := CreatePatient(args[0].s, args[1].s, args[2].s, args[3].s, args[4].s, args[5].s, args[6].s, env);
        case ScheduleAppointment => s := ScheduleAppointment(args[0].n, args[1].s, args[2].s, args[3].s, env);
        case GetAppointments => s := GetAppointments(args[0].n, env);
        case CancelAppointment => s := CancelAppointment(args[0].n, env);
      }
      r := Success(Str(s));
    }
  }
}
