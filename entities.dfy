/**
 * The JPA entities behind the tools: a patient, the patient's care plan,
 * progress notes and appointments. Every Java field that can be null is an
 * Option; the link to the owning patient is the patient's id.
 */
module Entities {
  import opened Wrappers

  /** java.time values, held by their ISO-8601 text; the model does no date arithmetic. */
  datatype LocalDate = LocalDate(iso: string)
  datatype LocalDateTime = LocalDateTime(iso: string)

  datatype Patient = Patient(
    id: Option<int>,
    name: Option<string>,
    patientId: Option<string>,
    dateOfBirth: Option<LocalDate>,
    gender: Option<string>,
    contactNumber: Option<string>,
    email: Option<string>,
    address: Option<string>)

  datatype CarePlan = CarePlan(
    id: Option<int>,
    goals: Option<string>,
    interventions: Option<string>,
    medications: Option<string>,
    startDate: Option<LocalDate>,
    reviewDate: Option<LocalDate>,
    status: Option<string>,
    patient: Option<int>)

  datatype ProgressNote = ProgressNote(
    id: Option<int>,
    note: Option<string>,
    dateTime: Option<LocalDateTime>,
    provider: Option<string>,
    noteType: Option<string>,
    patient: Option<int>)

  datatype Appointment = Appointment(
    id: Option<int>,
    appointmentDate: Option<LocalDateTime>,
    reason: Option<string>,
    status: Option<string>,
    provider: Option<string>,
    patient: Option<int>)

  /** `new Patient()`, `new CarePlan()`, ...: every field null. */
  const NewPatient := Patient(None, None, None, None, None, None, None, None)
  const NewCarePlan := CarePlan(None, None, None, None, None, None, None, None)
  const NewProgressNote := ProgressNote(None, None, None, None, None, None)
  const NewAppointment := Appointment(None, None, None, None, None, None)
}
